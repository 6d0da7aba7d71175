/**
 * The review view controller: what the workshop cards and the detail modal
 * show, the review list, and the page's review-session state (the selected
 * rating, the open workshop and the submit button).
 *
 * Loads that the page fires without waiting for them are returned as
 * `Reload` requests; `LoadReviews` and `UpdateCardRating` say what each one
 * renders from the store's documents.
 */
module ReviewController {
  import opened Wrappers
  import opened Reviews
  import opened RatingStats
  import opened RatingText

  /** Colours of a filled and of an empty selector star. */
  const FILLED_COLOR: string := "#f59e0b"
  const EMPTY_COLOR: string := "#d1d5db"

  /** The comment saved when the text area is left empty. */
  const NO_COMMENT: string := "Sin comentario."

  /** The grey stars shown for a workshop without reviews. */
  const NO_RATING_STARS: string := "<span class=\"text-gray-300\">★★★★★</span>"

  /** The single entry of the review list of a workshop without reviews. */
  const NO_REVIEWS_MESSAGE: string := "No hay reseñas para este taller aún. ¡Sé el primero!"

  /** Labels of the submit button at rest and while a save is pending. */
  const PUBLISH_LABEL: string := "Publicar Reseña"
  const PUBLISHING_LABEL: string := "Publicando..."

  /** The data-rating values of the selector's five stars. */
  const STANDARD_STARS: seq<int> := [1, 2, 3, 4, 5]

  /** Stars and text of a rating summary (`stars-…`/`rating-…` on a card,
      `modal-stars`/`modal-rating` in the modal). */
  datatype SummaryView = SummaryView(starsHtml: string, text: string)

  /** One entry of the review list. The creation date is not modelled. */
  datatype Block = Message(text: string) | ReviewCard(stars: string, author: string, comment: string)

  /** A load the page starts and does not wait for. */
  datatype Reload = ReloadReviews(reviewsOf: Option<string>) | ReloadCard(cardOf: Option<string>)

  /** How a submission ended, each with the alert it shows. */
  datatype SubmitOutcome = MissingRating | Published | SaveFailed

  /** The alert each outcome shows (the `alert` calls of the handler). */
  function AlertText(outcome: SubmitOutcome): (r: string)
    ensures outcome == MissingRating ==> r == "Por favor selecciona una calificación"
    ensures outcome == Published ==> r == "¡Gracias por tu reseña!"
    ensures outcome == SaveFailed ==> r == "Hubo un error al guardar tu reseña."
  {
    match outcome
    case MissingRating => "Por favor selecciona una calificación"
    case Published => "¡Gracias por tu reseña!"
    case SaveFailed => "Hubo un error al guardar tu reseña."
  }

  /** The alert tells the user which way the submission ended. */
  lemma AlertTextIdentifies(a: SubmitOutcome, b: SubmitOutcome)
    ensures AlertText(a) == AlertText(b) <==> a == b
  {
  }

  /** `getStarsHTML` throws unless the rounded average lies in [0, 5];
      it is only called when there are reviews. */
  predicate Drawable(stats: Stats)
  {
    stats.count > 0 ==> 0 <= RoundTenths(stats.avgTenths) <= 5
  }

  /** `html` is what a summary's stars element shows for `stats`: the grey
      placeholder without reviews, and otherwise five glyphs whose first
      `Math.round(average)` are filled. */
  predicate ShowsStars(html: string, stats: Stats)
  {
    (stats.count == 0 ==> html == NO_RATING_STARS)
    && (stats.count > 0 ==>
          |html| == 5
          && forall i :: 0 <= i < 5 ==> html[i] == if i < RoundTenths(stats.avgTenths) then FULL_STAR else EMPTY_STAR)
  }

  /** The stars element of a card or of the modal. */
  function SummaryStars(stats: Stats): (s: string)
    requires Drawable(stats)
    ensures ShowsStars(s, stats)
  {
    if stats.count > 0 then GetStarsHTML(stats.avgTenths) else NO_RATING_STARS
  }

  /** `renderCardRating(tallerId, stats)`: the card's stars and a text from
      which the stats read back. */
  function CardView(tallerId: string, stats: Stats): (v: SummaryView)
    requires Drawable(stats)
    ensures ShowsStars(v.starsHtml, stats)
    ensures WellFormed(stats) ==> ParseCardRatingText(tallerId, v.text) == Some(stats)
  {
    SummaryView(SummaryStars(stats), CardRatingText(tallerId, stats))
  }

  /** `renderModalRating(stats)`: the modal's stars and a text from which
      the stats read back. */
  function ModalView(stats: Stats): (v: SummaryView)
    requires Drawable(stats)
    ensures ShowsStars(v.starsHtml, stats)
    ensures WellFormed(stats) ==> ParseModalRatingText(v.text) == Some(stats)
  {
    SummaryView(SummaryStars(stats), ModalRatingText(stats))
  }

  /** The card and the modal draw the same stars for the same stats, and
      both of their texts read back as those stats. */
  lemma SummaryViewsShowStats(tallerId: string, stats: Stats)
    requires Drawable(stats) && WellFormed(stats)
    ensures CardView(tallerId, stats).starsHtml == ModalView(stats).starsHtml
    ensures ParseCardRatingText(tallerId, CardView(tallerId, stats).text) == Some(stats)
    ensures ParseModalRatingText(ModalView(stats).text) == Some(stats)
  {
  }

  /** `updateCardRating(tallerId)`: the card of a workshop shows the stars
      and the stats of that workshop's reviews in the store. */
  function UpdateCardRating(docs: seq<Review>, tallerId: string): (v: SummaryView)
    requires Drawable(CalculateRatingStats(Some(ReviewsFor(docs, Some(tallerId)))))
    ensures var stats := CalculateRatingStats(Some(ReviewsFor(docs, Some(tallerId))));
            ShowsStars(v.starsHtml, stats) && ParseCardRatingText(tallerId, v.text) == Some(stats)
  {
    CardView(tallerId, CalculateRatingStats(Some(ReviewsFor(docs, Some(tallerId)))))
  }

  /** The list entry of one review: its own rating in stars, the author and
      the comment, inserted as they are. */
  function RenderReview(review: Review): (b: Block)
    requires 0 <= review.rating <= 5
    ensures b.ReviewCard? && b.author == review.author && b.comment == review.comment
    ensures |b.stars| == 5 && forall i :: 0 <= i < 5 ==> b.stars[i] == if i < review.rating then FULL_STAR else EMPTY_STAR
  {
    RoundWhole(review.rating);
    ReviewCard(GetStarsHTML(10 * review.rating), review.author, review.comment)
  }

  /** The list part of `loadReviews`: the single "no reviews yet" message
      exactly when nothing was fetched, and otherwise one entry per review,
      in the order fetched, built by appending entry after entry. */
  method RenderReviewList(reviews: seq<Review>) returns (list: seq<Block>)
    requires RatingsWithin(reviews, 0, 5)
    ensures list == [Message(NO_REVIEWS_MESSAGE)] <==> reviews == []
    ensures reviews != [] ==> |list| == |reviews| && forall i :: 0 <= i < |reviews| ==> list[i] == RenderReview(reviews[i])
  {
    if |reviews| == 0 {
      list := [Message(NO_REVIEWS_MESSAGE)];
    } else {
      list := [];
      for i := 0 to |reviews|
        invariant |list| == i
        invariant forall j :: 0 <= j < i ==> list[j] == RenderReview(reviews[j])
      {
        list := list + [RenderReview(reviews[i])];
      }
      assert list[0].ReviewCard?;
    }
  }

  /** `loadReviews(tallerId)`: fetches the workshop's reviews, shows their
      stats in the modal and lists them. */
  method LoadReviews(store: ReviewStore, tallerId: Option<string>) returns (modal: SummaryView, list: seq<Block>)
    requires RatingsWithin(ReviewsFor(store.docs, tallerId), 0, 5)
    ensures var stats := CalculateRatingStats(Some(ReviewsFor(store.docs, tallerId)));
            ShowsStars(modal.starsHtml, stats) && ParseModalRatingText(modal.text) == Some(stats)
    ensures var reviews := ReviewsFor(store.docs, tallerId);
            && (list == [Message(NO_REVIEWS_MESSAGE)] <==> reviews == [])
            && (reviews != [] ==> |list| == |reviews| && forall i :: 0 <= i < |reviews| ==> list[i] == RenderReview(reviews[i]))
  {
    var reviews := ReviewsFor(store.docs, tallerId);
    var stats := CalculateRatingStats(Some(reviews));
    if reviews != [] {
      AverageStarsDrawable(reviews);
    }
    modal := ModalView(stats);
    list := RenderReviewList(reviews);
  }

  /** The colour `setRating(rating)` gives the star whose data-rating is `value`. */
  function StarColor(value: int, rating: int): (c: string)
    ensures c == FILLED_COLOR <==> value <= rating
    ensures c == FILLED_COLOR || c == EMPTY_COLOR
  {
    if value <= rating then FILLED_COLOR else EMPTY_COLOR
  }

  /** The colours of all the stars after `setRating(rating)`. */
  function StarColors(values: seq<int>, rating: int): (r: seq<string>)
    ensures |r| == |values|
    ensures forall k :: 0 <= k < |values| ==> (r[k] == FILLED_COLOR <==> values[k] <= rating)
  {
    seq(|values|, k requires 0 <= k < |values| => StarColor(values[k], rating))
  }

  /** With the page's stars 1..5, the star of value i + 1 is filled exactly
      when i + 1 <= rating. */
  lemma SelectorFillsUpTo(rating: int)
    ensures forall i :: 0 <= i < 5 ==> (StarColors(STANDARD_STARS, rating)[i] == FILLED_COLOR <==> i + 1 <= rating)
  {
  }

  /** For a rating 0..5 the selector fills the same stars that
      `getStarsHTML` draws filled for that rating. */
  lemma SelectorMatchesGlyphs(rating: int)
    requires 0 <= rating <= 5
    ensures forall i :: 0 <= i < 5 ==>
              (StarColors(STANDARD_STARS, rating)[i] == FILLED_COLOR <==> GetStarsHTML(10 * rating)[i] == FULL_STAR)
  {
  }

  /** `comment || "Sin comentario."`. */
  function CommentOrPlaceholder(comment: string): (c: string)
    ensures c != ""
    ensures comment != "" ==> c == comment
    ensures comment == "" ==> c == NO_COMMENT
  {
    if comment == "" then NO_COMMENT else comment
  }

  /** After a successful save the reload of the same workshop fetches the
      list it had plus the new review at the end, so its count grows by one
      and its sum by the new rating; other workshops fetch what they did. */
  lemma PublishedReviewIsReloaded(docs: seq<Review>, tallerId: Option<string>, data: ReviewData, other: Option<string>)
    requires other != tallerId
    ensures var docs' := docs + [NewReview(tallerId, data)];
            ReviewsFor(docs', tallerId) == ReviewsFor(docs, tallerId) + [NewReview(tallerId, data)]
            && CalculateRatingStats(Some(ReviewsFor(docs', tallerId))).count == |ReviewsFor(docs, tallerId)| + 1
            && Sum(ReviewsFor(docs', tallerId)) == Sum(ReviewsFor(docs, tallerId)) + data.rating
            && ReviewsFor(docs', other) == ReviewsFor(docs, other)
  {
    var x := NewReview(tallerId, data);
    ReviewsForAppend(docs, x, tallerId);
    ReviewsForAppend(docs, x, other);
    SumAppend(ReviewsFor(docs, tallerId), x);
  }

  /** The page's review state: the module globals `currentRating` and
      `currentTallerId`, the texts set beside them, the submit button and
      the selector's star elements. */
  class ReviewSession {
    var currentRating: int
    var currentTallerId: Option<string>
    var tallerName: string
    var ratingText: string
    var submitDisabled: bool
    var submitText: string
    /** The parsed data-rating of each `.rating-star` element. */
    const starValues: seq<int>
    /** The colour of each `.rating-star` element. */
    const starColors: array<string>

    ghost predicate Valid()
      reads this
    {
      starColors.Length == |starValues|
    }

    /** The page as loaded: no rating, no workshop, the button at rest. */
    constructor (values: seq<int>)
      ensures Valid() && fresh(starColors) && starValues == values
      ensures currentRating == 0 && currentTallerId == None && tallerName == ""
      ensures ratingText == RatingLabel(0) && starColors[..] == StarColors(values, 0)
      ensures !submitDisabled && submitText == PUBLISH_LABEL
    {
      currentRating, currentTallerId, tallerName := 0, None, "";
      ratingText := RatingLabel(0);
      submitDisabled, submitText := false, PUBLISH_LABEL;
      starValues := values;
      starColors := new string[|values|](k requires 0 <= k < |values| => StarColor(values[k], 0));
      new;
      assert starColors[..] == StarColors(values, 0);
    }

    /** `setRating(rating)`: records the rating, recolours every star by
        whether its value is at most the rating, and shows its label. */
    method SetRating(rating: int)
      requires Valid()
      modifies this, starColors
      ensures Valid()
      ensures currentRating == rating && ratingText == RatingLabel(rating)
      ensures starColors[..] == StarColors(starValues, rating)
      ensures currentTallerId == old(currentTallerId) && tallerName == old(tallerName)
      ensures submitDisabled == old(submitDisabled) && submitText == old(submitText)
    {
      currentRating := rating;
      for k := 0 to starColors.Length
        modifies starColors
        invariant forall j :: 0 <= j < k ==> starColors[j] == StarColor(starValues[j], rating)
      {
        starColors[k] := StarColor(starValues[k], rating);
      }
      ratingText := RatingLabel(rating);
      assert starColors[..] == StarColors(starValues, rating);
    }

    /** The "Ver Detalles" click handler: opens the workshop, clears the
        selector and starts loading its reviews. */
    method OpenWorkshop(tallerId: string, name: string) returns (reloads: seq<Reload>)
      requires Valid()
      modifies this, starColors
      ensures Valid()
      ensures currentTallerId == Some(tallerId) && tallerName == name
      ensures currentRating == 0 && ratingText == RatingLabel(0)
      ensures starColors[..] == StarColors(starValues, 0)
      ensures submitDisabled == old(submitDisabled) && submitText == old(submitText)
      ensures reloads == [ReloadReviews(Some(tallerId))]
    {
      currentTallerId := Some(tallerId);
      tallerName := name;
      SetRating(0);
      reloads := [ReloadReviews(currentTallerId)];
    }

    /** `handleReviewSubmit`: without a rating nothing is written and nothing
        changes. Otherwise it saves `{rating, comment}` for the open
        workshop; a success clears the selector and reloads the modal list
        and the card, a failure keeps the selection; either way the button
        ends enabled. `saveAccepted` is the store's answer. */
    method HandleReviewSubmit(comment: string, store: ReviewStore, saveAccepted: bool)
      returns (outcome: SubmitOutcome, reloads: seq<Reload>)
      requires Valid()
      modifies this, starColors, store
      ensures Valid()
      ensures old(currentRating) == 0 ==>
                outcome == MissingRating && reloads == [] && store.docs == old(store.docs)
                && unchanged(this) && starColors[..] == old(starColors[..])
      ensures old(currentRating) != 0 ==>
                store.docs == old(store.docs) +
                  (if saveAccepted
                   then [NewReview(old(currentTallerId), ReviewData(old(currentRating), CommentOrPlaceholder(comment)))]
                   else [])
                && outcome == (if saveAccepted then Published else SaveFailed)
                && !submitDisabled && submitText == PUBLISH_LABEL
                && currentTallerId == old(currentTallerId) && tallerName == old(tallerName)
      ensures old(currentRating) != 0 && saveAccepted ==>
                currentRating == 0 && ratingText == RatingLabel(0)
                && starColors[..] == StarColors(starValues, 0)
                && reloads == [ReloadReviews(old(currentTallerId)), ReloadCard(old(currentTallerId))]
      ensures old(currentRating) != 0 && !saveAccepted ==>
                currentRating == old(currentRating) && ratingText == old(ratingText)
                && starColors[..] == old(starColors[..]) && reloads == []
    {
      if currentRating == 0 {
        outcome, reloads := MissingRating, [];
        return;
      }
      var data := ReviewData(currentRating, CommentOrPlaceholder(comment));
      submitDisabled, submitText := true, PUBLISHING_LABEL;
      var success := store.SaveReview(currentTallerId, data, saveAccepted);
      if success {
        outcome := Published;
        SetRating(0);
        reloads := [ReloadReviews(currentTallerId), ReloadCard(currentTallerId)];
      } else {
        outcome, reloads := SaveFailed, [];
      }
      submitDisabled, submitText := false, PUBLISH_LABEL;
    }
  }

  /** A rating of 4 with an empty comment is saved with the placeholder
      comment, and the saved review comes back on the next load. */
  method ExampleSubmitWithoutComment() returns (saved: seq<Review>, list: seq<Block>)
    ensures saved == [Review(Some("moda-urbana"), 4, NO_COMMENT, ANONYMOUS)]
    ensures list == [RenderReview(Review(Some("moda-urbana"), 4, NO_COMMENT, ANONYMOUS))]
  {
    var store := new ReviewStore();
    var page := new ReviewSession(STANDARD_STARS);
    var loads := page.OpenWorkshop("moda-urbana", "Moda Urbana");
    page.SetRating(4);
    var outcome, reloads := page.HandleReviewSubmit("", store, true);
    assert outcome == Published && page.currentRating == 0;
    assert reloads == [ReloadReviews(Some("moda-urbana")), ReloadCard(Some("moda-urbana"))];
    saved := store.docs;
    assert RatingsWithin(ReviewsFor(store.docs, Some("moda-urbana")), 0, 5);
    var modal;
    modal, list := LoadReviews(store, Some("moda-urbana"));
  }
}
