/**
 * The texts the page shows for a rating: the selector's label, a JavaScript
 * number printed into a template string, and the summary lines of a
 * workshop card and of the detail modal. Each summary line is paired with a
 * parser that reads the average and count back from it.
 */
module RatingText {
  import opened Wrappers
  import opened Reviews
  import opened RatingStats

  /** The label shown while no rating (or an unknown one) is selected. */
  const PLACEHOLDER_LABEL: string := "Selecciona una calificación"

  /** The `ratingTexts` table of the selector, keyed by the rating. */
  const RATING_TEXTS: map<int, string> :=
    map[1 := "Muy malo", 2 := "Malo", 3 := "Regular", 4 := "Bueno", 5 := "Excelente"]

  /** Summary texts for a workshop nobody has reviewed yet. */
  const CARD_NO_REVIEWS_TOP: string := "(0 reseñas)"
  const CARD_NO_REVIEWS: string := "(0)"
  const MODAL_NO_REVIEWS: string := "Aún no hay reseñas"

  /** `ratingTexts[rating] || 'Selecciona una calificación'`: every word in
      the table is non-empty, so the placeholder shows exactly for the keys
      the table lacks. */
  function RatingLabel(rating: int): (s: string)
    ensures 1 <= rating <= 5 ==> s == RATING_TEXTS[rating]
    ensures s != PLACEHOLDER_LABEL <==> 1 <= rating <= 5
  {
    if rating in RATING_TEXTS && RATING_TEXTS[rating] != "" then RATING_TEXTS[rating] else PLACEHOLDER_LABEL
  }

  /** The label identifies the selected rating: two ratings show the same
      label exactly when they are equal or both lie outside 1..5. */
  lemma RatingLabelIdentifies(a: int, b: int)
    ensures RatingLabel(a) == RatingLabel(b) <==> a == b || (!(1 <= a <= 5) && !(1 <= b <= 5))
  {
  }

  // ---------------------------------------------------------------------
  // Decimal digits

  predicate IsDigit(c: char) { '0' <= c <= '9' }

  predicate AllDigits(s: string) { forall i :: 0 <= i < |s| ==> IsDigit(s[i]) }

  function DigitChar(d: nat): (c: char)
    requires d < 10
    ensures IsDigit(c)
  {
    (48 + d) as char
  }

  function DigitValue(c: char): (d: nat)
    requires IsDigit(c)
    ensures d < 10
  {
    c as int - 48
  }

  /** The decimal numeral of `n`, without leading zeros: what a template
      string prints for a whole number such as a count. */
  function NatToString(n: nat): (s: string)
    ensures |s| >= 1 && AllDigits(s)
    ensures n == 0 <==> s == "0"
    ensures n > 0 ==> s[0] != '0'
  {
    if n < 10 then [DigitChar(n)] else NatToString(n / 10) + [DigitChar(n % 10)]
  }

  /** A numeral as `NatToString` writes it: digits, no leading zero. */
  predicate IsNumeral(s: string)
  {
    |s| >= 1 && AllDigits(s) && (|s| > 1 ==> s[0] != '0')
  }

  function DigitsValue(s: string): nat
    requires AllDigits(s)
  {
    if s == [] then 0 else DigitsValue(s[..|s| - 1]) * 10 + DigitValue(s[|s| - 1])
  }

  function ParseNat(s: string): Option<nat>
  {
    if IsNumeral(s) then Some(DigitsValue(s)) else None
  }

  lemma {:induction false} DigitsValueOfNatToString(n: nat)
    ensures DigitsValue(NatToString(n)) == n
  {
    if n >= 10 {
      var s := NatToString(n / 10);
      assert (s + [DigitChar(n % 10)])[..|s|] == s;
      DigitsValueOfNatToString(n / 10);
    }
  }

  /** Reading a printed whole number gives the number back. */
  lemma NatToStringRoundTrip(n: nat)
    ensures ParseNat(NatToString(n)) == Some(n)
  {
    DigitsValueOfNatToString(n);
  }

  // ---------------------------------------------------------------------
  // A rounded average printed as a JavaScript number

  /** The magnitude part of `String(tenths / 10)`: a whole value prints as
      `4`, not `4.0`; any other as `4.3`. */
  function ShowMagnitude(u: nat): (s: string)
    ensures |s| >= 1 && IsDigit(s[0])
    ensures forall i :: 0 <= i < |s| ==> IsDigit(s[i]) || s[i] == '.'
  {
    if u % 10 == 0 then NatToString(u / 10)
    else NatToString(u / 10) + "." + [DigitChar(u % 10)]
  }

  /** `${tenths / 10}`: a negative value prints with a leading minus. */
  function ShowTenths(t: int): (s: string)
    ensures |s| >= 1 && (IsDigit(s[0]) || s[0] == '-')
    ensures forall i :: 0 <= i < |s| ==> IsDigit(s[i]) || s[i] == '.' || s[i] == '-'
  {
    if t < 0 then "-" + ShowMagnitude(-t) else ShowMagnitude(t)
  }

  /** The first position of `c` in `s`, or `|s|` when there is none. */
  function IndexOf(s: string, c: char): (k: nat)
    ensures k <= |s| && (k < |s| ==> s[k] == c)
    ensures forall i :: 0 <= i < k ==> s[i] != c
  {
    if s == [] then 0 else if s[0] == c then 0 else 1 + IndexOf(s[1..], c)
  }

  lemma IndexOfIs(s: string, c: char, k: nat)
    requires k <= |s| && (k < |s| ==> s[k] == c)
    requires forall i :: 0 <= i < k ==> s[i] != c
    ensures IndexOf(s, c) == k
  {
  }

  function ParseMagnitude(s: string): Option<nat>
  {
    var k := IndexOf(s, '.');
    if k == |s| then
      match ParseNat(s)
      case Some(w) => Some(10 * w)
      case None => None
    else if k + 2 == |s| && IsDigit(s[k + 1]) && s[k + 1] != '0' then
      match ParseNat(s[..k])
      case Some(w) => Some(10 * w + DigitValue(s[k + 1]))
      case None => None
    else None
  }

  /** Reads a printed average back into tenths. */
  function ParseTenths(s: string): Option<int>
  {
    if |s| > 0 && s[0] == '-' then
      match ParseMagnitude(s[1..])
      case Some(u) => if u > 0 then Some(-(u as int)) else None
      case None => None
    else
      match ParseMagnitude(s)
      case Some(u) => Some(u)
      case None => None
  }

  lemma ShowMagnitudeRoundTrip(u: nat)
    ensures ParseMagnitude(ShowMagnitude(u)) == Some(u)
  {
    var w := NatToString(u / 10);
    NatToStringRoundTrip(u / 10);
    if u % 10 == 0 {
      IndexOfIs(w, '.', |w|);
    } else {
      var s := w + "." + [DigitChar(u % 10)];
      IndexOfIs(s, '.', |w|);
      assert s[..|w|] == w;
      assert s[|w| + 1] == DigitChar(u % 10);
    }
  }

  /** Reading a printed average gives the same number of tenths back. */
  lemma ShowTenthsRoundTrip(t: int)
    ensures ParseTenths(ShowTenths(t)) == Some(t)
  {
    if t < 0 {
      assert ("-" + ShowMagnitude(-t))[1..] == ShowMagnitude(-t);
      ShowMagnitudeRoundTrip(-t);
    } else {
      ShowMagnitudeRoundTrip(t);
    }
  }

  // ---------------------------------------------------------------------
  // Card and modal summary lines

  predicate StartsWith(s: string, prefix: string)
  {
    |prefix| <= |s| && s[..|prefix|] == prefix
  }

  /** Cards whose id starts with one of these words print "reseñas" after
      the count; the other cards print the bare count. */
  predicate IsTopWorkshop(tallerId: string)
  {
    StartsWith(tallerId, "confecciones") || StartsWith(tallerId, "moda") || StartsWith(tallerId, "textiles")
  }

  /** The text of `rating-{tallerId}` on a card: with no reviews
      `(0 reseñas)` or `(0)` by the kind of workshop, and otherwise
      `{average} ({count} reseñas)` or `{average} ({count})`, from which
      the average and the count read back exactly. */
  function CardRatingText(tallerId: string, stats: Stats): (r: string)
    ensures stats.count == 0 ==> r == if IsTopWorkshop(tallerId) then CARD_NO_REVIEWS_TOP else CARD_NO_REVIEWS
    ensures WellFormed(stats) ==> ParseCardRatingText(tallerId, r) == Some(stats)
  {
    var top := IsTopWorkshop(tallerId);
    if stats.count > 0 then
      var close := if top then " reseñas)" else ")";
      var s := ShowTenths(stats.avgTenths) + " (" + NatToString(stats.count) + close;
      assert s[0] != '(';
      ParseFramedRoundTrip(stats.avgTenths, stats.count, " (", close);
      s
    else if top then CARD_NO_REVIEWS_TOP
    else CARD_NO_REVIEWS
  }

  /** The text of `modal-rating` in the detail modal: `Aún no hay reseñas`
      with no reviews, and otherwise `{average} de 5 ({count} reseñas)`,
      from which the average and the count read back exactly. */
  function ModalRatingText(stats: Stats): (r: string)
    ensures stats.count == 0 ==> r == MODAL_NO_REVIEWS
    ensures WellFormed(stats) ==> ParseModalRatingText(r) == Some(stats)
  {
    if stats.count > 0 then
      var s := ShowTenths(stats.avgTenths) + " de 5 (" + NatToString(stats.count) + " reseñas)";
      assert s[0] != MODAL_NO_REVIEWS[0];
      ParseFramedRoundTrip(stats.avgTenths, stats.count, " de 5 (", " reseñas)");
      s
    else MODAL_NO_REVIEWS
  }

  /** Reads `{average}{open}{count}{close}` back; the average ends at the
      first space. */
  function ParseFramed(s: string, open: string, close: string): Option<Stats>
  {
    var k := IndexOf(s, ' ');
    var rest := s[k..];
    if |open| + |close| <= |rest| && rest[..|open|] == open && rest[|rest| - |close|..] == close then
      match (ParseTenths(s[..k]), ParseNat(rest[|open|..|rest| - |close|]))
      case (Some(t), Some(n)) => Some(Stats(t, n))
      case _ => None
    else None
  }

  lemma ParseFramedRoundTrip(t: int, n: nat, open: string, close: string)
    requires |open| > 0 && open[0] == ' '
    ensures ParseFramed(ShowTenths(t) + open + NatToString(n) + close, open, close) == Some(Stats(t, n))
  {
    var a, c := ShowTenths(t), NatToString(n);
    var s := a + open + c + close;
    IndexOfIs(s, ' ', |a|);
    var rest := s[|a|..];
    assert rest == open + c + close;
    assert s[..|a|] == a;
    assert rest[..|open|] == open;
    assert rest[|rest| - |close|..] == close;
    assert rest[|open|..|rest| - |close|] == c;
    ShowTenthsRoundTrip(t);
    NatToStringRoundTrip(n);
  }

  /** Reads a card's rating text back into the stats it shows. */
  function ParseCardRatingText(tallerId: string, s: string): Option<Stats>
  {
    var top := IsTopWorkshop(tallerId);
    if s == (if top then CARD_NO_REVIEWS_TOP else CARD_NO_REVIEWS) then Some(Stats(0, 0))
    else
      match ParseFramed(s, " (", if top then " reseñas)" else ")")
      case Some(st) => if st.count > 0 then Some(st) else None
      case None => None
  }

  /** Reads the modal's rating text back into the stats it shows. */
  function ParseModalRatingText(s: string): Option<Stats>
  {
    if s == MODAL_NO_REVIEWS then Some(Stats(0, 0))
    else
      match ParseFramed(s, " de 5 (", " reseñas)")
      case Some(st) => if st.count > 0 then Some(st) else None
      case None => None
  }

  /** Stats as the aggregator produces them: no reviews means average 0. */
  predicate WellFormed(stats: Stats)
  {
    stats.count == 0 ==> stats.avgTenths == 0
  }

  lemma CalculatedStatsWellFormed(reviews: Option<seq<Review>>)
    ensures WellFormed(CalculateRatingStats(reviews))
  {
  }

  /** An average of 4.0 prints as `4`, one of 4.3 as `4.3`. */
  lemma ExampleAveragesPrinted()
    ensures ShowTenths(40) == "4" && ShowTenths(43) == "4.3"
  {
  }
}
