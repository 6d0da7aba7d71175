/**
 * The review documents and the review collection of the document store.
 * The store itself is an external service; here it is an append-only
 * sequence of documents, and whether a write is acknowledged is a parameter.
 */
module Reviews {
  import opened Wrappers

  /** The author every review is saved with: there is no identity system. */
  const ANONYMOUS: string := "Anónimo"

  /** A persisted review. `tallerId` is the workshop id the page held when the
      review was submitted, which is `null` before any workshop was opened.
      The server timestamp is not modelled. */
  datatype Review = Review(tallerId: Option<string>, rating: int, comment: string, author: string)

  /** What the submit handler hands to the store: a rating and a comment. */
  datatype ReviewData = ReviewData(rating: int, comment: string)

  /** The document `saveReview` writes for `data` under `tallerId`. */
  function NewReview(tallerId: Option<string>, data: ReviewData): (r: Review)
    ensures r.tallerId == tallerId && r.rating == data.rating && r.comment == data.comment
    ensures r.author == ANONYMOUS
  {
    Review(tallerId, data.rating, data.comment, ANONYMOUS)
  }

  /** The answer of `getReviews(tallerId)`: the documents whose `tallerId`
      equals the one asked for, in the order the sequence holds them. */
  function ReviewsFor(docs: seq<Review>, tallerId: Option<string>): (r: seq<Review>)
    ensures |r| <= |docs|
    ensures forall x :: x in r <==> x in docs && x.tallerId == tallerId
  {
    if docs == [] then []
    else (if docs[0].tallerId == tallerId then [docs[0]] else []) + ReviewsFor(docs[1..], tallerId)
  }

  /** The answer holds each matching document as many times as the store
      does (identical anonymous reviews are not merged), and no other. */
  lemma {:induction false} ReviewsForCounts(docs: seq<Review>, tallerId: Option<string>, x: Review)
    ensures multiset(ReviewsFor(docs, tallerId))[x] == if x.tallerId == tallerId then multiset(docs)[x] else 0
  {
    if docs != [] {
      assert docs == [docs[0]] + docs[1..];
      ReviewsForCounts(docs[1..], tallerId, x);
    }
  }

  /** Appending a document adds it to the answer for its own workshop, at
      the end, and leaves the answer for every other workshop as it was. */
  lemma {:induction false} ReviewsForAppend(docs: seq<Review>, x: Review, tallerId: Option<string>)
    ensures ReviewsFor(docs + [x], tallerId)
         == ReviewsFor(docs, tallerId) + (if x.tallerId == tallerId then [x] else [])
  {
    if docs == [] {
      assert docs + [x] == [x];
    } else {
      assert (docs + [x])[0] == docs[0];
      assert (docs + [x])[1..] == docs[1..] + [x];
      ReviewsForAppend(docs[1..], x, tallerId);
    }
  }

  /** The review collection. Documents are only ever appended. */
  class ReviewStore {
    var docs: seq<Review>

    constructor ()
      ensures docs == []
    {
      docs := [];
    }

    /** `saveReview(tallerId, data)`: `accepted` stands for the store's
        acknowledgement. On success exactly one document is appended; on a
        failure (network, permissions) nothing is written and `false` is
        returned instead of an exception. */
    method SaveReview(tallerId: Option<string>, data: ReviewData, accepted: bool) returns (ok: bool)
      modifies this
      ensures ok == accepted
      ensures docs == if ok then old(docs) + [NewReview(tallerId, data)] else old(docs)
    {
      if accepted {
        docs := docs + [NewReview(tallerId, data)];
      }
      ok := accepted;
    }
  }
}
