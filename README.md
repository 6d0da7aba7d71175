# TallerLanding review pipeline in Dafny

This project models the review and rating logic of the TallerLanding
workshop site. Visitors pick a star rating for a workshop ("taller") and leave a comment. The
page saves the review in a document store and, for each workshop, shows an aggregate
(average and count) on its card and in its detail modal, along with the list of reviews.

The model has five modules:

- `Wrappers`: `Option`, standing for a JavaScript `null`.
- `Reviews`: the review document, the stored collection as an append-only
  `seq<Review>` inside the class `ReviewStore`, and `getReviews` as a filter on `tallerId`.
- `RatingStats`: `calculateRatingStats` and `getStarsHTML`. The average is held as an
  integer number of tenths, rounded as `toFixed(1)` rounds the exact quotient: the
  nearest tenth, a tie going up (17/4 = 4.25 gives 4.3). For a negative quotient a tie
  goes away from zero, because `toFixed` formats the magnitude. The predicate
  `IsToFixedTenths` states this rounding independently of how it is computed, and
  `ToFixedTenthsUnique` shows that it determines the result.
- `RatingText`: the selector's label, a number printed into a template string (`4`, not
  `4.0`; `4.3`), and the card and modal summary texts. Each summary text has a parser, and
  the text functions' contracts show that the printed text gives back the stats it shows.
- `ReviewController`: the rendered card, modal and review list, and the class
  `ReviewSession`. That class holds the module globals `currentRating` and
  `currentTallerId`, the label, the submit button's state and the selector's star
  colours (an array). Its methods are `setRating`, the "Ver Detalles" click handler and
  `handleReviewSubmit`. The store's answer to a save is a method parameter. Loads the
  page fires without awaiting them are returned as `Reload` values;
  `LoadReviews` and `UpdateCardRating` say what each renders.

Three behaviours of the code shape the model:

- `getStarsHTML`: the code does not clamp the rounded value, so `repeat` throws outside
  [0, 5]. This is a precondition, and `AverageStarsDrawable` shows that ratings in
  0..5 always meet it.
- The saved placeholders are the author `Anónimo` and, for an empty comment, `Sin comentario.`.
- The workshop id can be `null`. The code never checks `currentTallerId` before saving,
  so `Review.tallerId` is an `Option`.

## Model

| member | source | states |
|---|---|---|
| `Reviews.ReviewsFor` | js/firebase.js:30-51 | a fetched review is exactly a stored document with the requested `tallerId`; at most as many as stored |
| `Reviews.ReviewsForCounts` | js/firebase.js:30-45 | each matching document comes back as many times as it is stored (identical reviews are not merged), and no other document comes back |
| `Reviews.NewReview` | js/firebase.js:14-20 | the saved record carries the given workshop id, rating and comment, and the author `Anónimo` |
| `Reviews.ReviewsForAppend` | js/firebase.js:12-45 | appending a document puts it at the end of its own workshop's answer and leaves every other workshop's answer unchanged |
| `Reviews.ReviewStore.SaveReview` | js/firebase.js:12-28 | returns the store's answer; appends exactly the record `{tallerId, rating, comment, author: "Anónimo"}` on success and nothing on failure |
| `RatingStats.ToFixedTenths` | js/main.js:69-72 | the result is the tenth nearest to sum/n, a tie going up for a non-negative quotient and away from zero for a negative one |
| `RatingStats.Sum` | js/main.js:68 | the `reduce` starts from 0, and ratings that are all non-negative give a non-negative total |
| `RatingStats.SumAppend` | js/main.js:68 | each step of the `reduce` adds the next rating to the running total |
| `RatingStats.ToFixedTenthsUnique` | js/main.js:72 | only one tenth satisfies that rounding condition, so the condition determines the average |
| `RatingStats.CalculateRatingStats` | js/main.js:63-75 | an absent or empty list gives `{0, 0}`; otherwise count is the list length and the average is the `toFixed(1)` rounding of the mean rating |
| `RatingStats.SumWithin` | js/main.js:68 | if every rating lies in [lo, hi], the `reduce` sum of n ratings lies in [n·lo, n·hi] |
| `RatingStats.AverageWithin` | js/main.js:68-72 | if every rating lies in [lo, hi] (the page's 1..5), the rounded average lies in [lo, hi] |
| `RatingStats.RoundTenths` | js/main.js:83 | `Math.round` gives the integer nearest to the value, a half going up |
| `RatingStats.Repeat` | js/main.js:84 | `repeat(k)` gives exactly k copies of the glyph |
| `RatingStats.GetStarsHTML` | js/main.js:82-85 | for a rounded value r in [0, 5], exactly five glyphs: r filled stars followed by 5 − r empty ones |
| `RatingStats.RoundWhole` | js/main.js:154 | a review's whole-number rating is drawn unchanged by `Math.round` |
| `RatingStats.AverageStarsDrawable` | js/main.js:120 | with ratings in 0..5 the stats' average never makes `getStarsHTML` throw |
| `RatingStats.ExampleThreeReviews` | js/main.js:63-85 | ratings 5, 3, 4 give `{4.0, 3}` and `★★★★☆` |
| `RatingStats.ExampleTieRoundsUp` | js/main.js:72 | 17/4 = 4.25 is shown as 4.3 |
| `RatingText.RatingLabel` | js/main.js:52-53 | the label is a word from the table for 1..5 and the placeholder `Selecciona una calificación` for every other rating, 0 included |
| `RatingText.RatingLabelIdentifies` | js/main.js:52-53 | two ratings show the same label iff they are equal or both outside 1..5 |
| `RatingText.NatToString` | js/main.js:104 | a count prints as a non-empty digit string without leading zeros |
| `RatingText.NatToStringRoundTrip` | js/main.js:104-106 | reading a printed count gives the count back |
| `RatingText.ShowMagnitude` | js/main.js:104 | a non-negative average prints with digits and at most a decimal point, starting with a digit |
| `RatingText.ShowTenths` | js/main.js:104 | a printed average consists only of digits, `.` and `-` (so it contains no space or parenthesis) |
| `RatingText.ShowTenthsRoundTrip` | js/main.js:104-106 | reading a printed average gives the same tenths back (`4` for 4.0, `4.3` for 4.3) |
| `RatingText.CalculatedStatsWellFormed` | js/main.js:64-66 | stats with no reviews always have average 0 |
| `RatingText.CardRatingText` | js/main.js:101-108 | with count 0 the card shows `(0 reseñas)` for ids starting with `confecciones`, `moda` or `textiles` and `(0)` otherwise; with reviews, the text reads back as the exact stats |
| `RatingText.ModalRatingText` | js/main.js:124-126 | with count 0 the modal shows `Aún no hay reseñas`; otherwise `{avg} de 5 ({n} reseñas)`, which reads back as the exact stats |
| `RatingText.ExampleAveragesPrinted` | js/main.js:104 | 4.0 prints as `4`, 4.3 as `4.3` |
| `ReviewController.SummaryViewsShowStats` | js/main.js:92-127 | the card and the modal draw the same stars for the same stats, and both texts read back as the stats |
| `ReviewController.SummaryStars` | js/main.js:96-99 | the stars element is the grey placeholder with no reviews, and otherwise five glyphs whose first `Math.round(average)` are filled |
| `ReviewController.CardView` | js/main.js:92-109 | a card shows those stars and a text that reads back as the stats |
| `ReviewController.ModalView` | js/main.js:115-127 | the modal shows those stars and a text that reads back as the stats |
| `ReviewController.UpdateCardRating` | js/main.js:176-180 | the card text reads back as the stats of exactly that workshop's stored reviews |
| `ReviewController.RenderReviewList` | js/main.js:148-168 | the list is the single "no reviews yet" message iff there are no reviews; otherwise one entry per review, in fetched order, each with its own rating's stars, author and comment |
| `ReviewController.RenderReview` | js/main.js:153-166 | a review entry has five glyphs with the first `rating` filled, and the review's own author and comment |
| `ReviewController.LoadReviews` | js/main.js:134-169 | the modal text reads back as the stats of the fetched reviews, and the modal stars follow `getStarsHTML` or the placeholder; the list is as in `RenderReviewList` for the fetched reviews |
| `ReviewController.SelectorFillsUpTo` | js/main.js:47-50 | with the page's stars 1..5, star i is filled iff i ≤ rating, for every rating |
| `ReviewController.SelectorMatchesGlyphs` | js/main.js:47-50 | for ratings 0..5 the selector fills the same stars that `getStarsHTML` draws filled |
| `ReviewController.StarColor` | js/main.js:49 | a star is coloured `#f59e0b` iff its value is at most the rating, and `#d1d5db` otherwise |
| `ReviewController.StarColors` | js/main.js:47-50 | after `setRating(rating)` there is one colour per star, and star k is filled iff its value is at most the rating |
| `ReviewController.AlertText` | js/main.js:191-221 | the missing-rating, thank-you and save-error alerts of the three outcomes |
| `ReviewController.AlertTextIdentifies` | js/main.js:191-221 | two outcomes show the same alert iff they are the same outcome |
| `ReviewController.CommentOrPlaceholder` | js/main.js:201 | the saved comment is never empty: the entered text, or `Sin comentario.` when that is empty |
| `ReviewController.PublishedReviewIsReloaded` | js/main.js:207-218 | after a successful save, the reload of the same workshop fetches its old list plus the new review, so count grows by one and the sum by its rating; other workshops are unaffected |
| `ReviewController.ReviewSession.constructor` | js/main.js:5-6 | the page starts with rating 0, no workshop, the placeholder label and the button enabled |
| `ReviewController.ReviewSession.SetRating` | js/main.js:42-54 | `currentRating` becomes the rating, each star is coloured filled iff its value ≤ the rating, the label is `RatingLabel(rating)`; nothing else changes |
| `ReviewController.ReviewSession.OpenWorkshop` | js/main.js:234-243 | sets the workshop id and name, resets the rating to 0 (stars and label too) and issues one review load for that id |
| `ReviewController.ReviewSession.HandleReviewSubmit` | js/main.js:187-226 | rating 0: no store call, no state change. Otherwise saves `{currentRating, comment or placeholder}` for `currentTallerId`. Success resets the rating and issues both reloads; failure keeps the rating. The button is enabled at the end either way |
| `ReviewController.ExampleSubmitWithoutComment` | js/main.js:187-226 | after opening a workshop, rating 4 and submitting an empty comment, the store holds exactly one review with comment `Sin comentario.`, and the next load lists exactly that review |

## Left out

- DOM plumbing: `openModal`, `closeModal`, `toggleMobileMenu`, `form.reset`, the `classList` removal of `text-gray-300`, and the `DOMContentLoaded` wiring, including `loadAllWorkshopRatings`. Only the values these would display are modelled.
- `alert`: the model returns the outcome instead; `AlertText` gives the message each outcome would display.
- The transient `Cargando reseñas...` placeholder: it is replaced before `loadReviews` finishes, so only the final list is modelled.
- Asynchrony: `loadReviews` and `updateCardRating` run without being awaited after a save. They are returned as `Reload` requests, and their interleaving is not modelled.
- `ReviewSession.HandleReviewSubmit`: the wait for `saveReview` is treated as one atomic step, and the reloads go to the workshop id held at submit time. In the source, a star click or a "Ver Detalles" click can run while the save is pending and change `currentRating` or `currentTallerId`. `setRating(0)` and both reloads then read the new values: a pending save for one workshop followed by opening another reloads the second workshop and never refreshes the first workshop's card.
- The document store: it is an append-only sequence. Server timestamps, the `createdAt desc` ordering (the model keeps insertion order) and read failures are left out. In the source a read failure returns an empty list, the same as "no reviews".
- `toFixed(1)` on binary floats: the model rounds the exact quotient. A quotient that is not exactly representable can print differently in the source, e.g. 23/20 = 1.15 prints `1.1` there and `1.2` here.
- `ShowTenths`: JavaScript's number-to-string for magnitudes beyond what a double holds exactly, and exponent notation from 1e21 on, are not modelled.
- Dates: `toLocaleDateString` and the `createdAt?.toDate` fallback are left out, so a review entry has no date.
- HTML escaping: the source inserts comments into `innerHTML` unescaped. The model keeps the comment as a string field and does not model HTML parsing.
- `parseInt(star.dataset.rating)`: the stars' data-rating values are given as already-parsed integers.
- `ReviewSession.constructor`: only `currentRating = 0` and `currentTallerId = null` come from the script. The rest of the initial state belongs to the page's markup, which is not part of this model. The constructor takes that state to be: the star colours and label that `setRating(0)` would give, an empty workshop name, and the submit button enabled with the label `Publicar Reseña`.
- `LoadReviews`: it requires every fetched rating to be in 0..5. The source throws otherwise. If the rounded average itself lies outside 0..5, `renderModalRating` throws before the modal text is set. Otherwise the modal is rendered, and the first review whose rating lies outside 0..5 throws part-way through the list.
- `UpdateCardRating`: it requires the rounded average to lie in 0..5 when there are reviews. Otherwise `getStarsHTML` throws in `renderCardRating`, before the card's text is written.
- `create-config.js`: it writes a configuration file at build time from environment variables; this is I/O with no logic. `js/firebase.js` is reduced to the store model above.
