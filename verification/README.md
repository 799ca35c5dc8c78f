# RecyclAI in Dafny

RecyclAI helps people sort their waste. A photo is classified into one of five
categories: EWaste, Organic, Recyclable, NonRecyclable and StoreDropOff. The app then
awards points, opens a disposal guide for the category and offers two mini-games.
This project models the logic at the heart of that flow and proves what it promises.

- `wrappers.dfy` (`Wrappers`): the `Option` type.
- `js_text.dfy` (`JsText`): the JavaScript string primitives the screens rely on.
  These are the `\s` class, `trim`, `split(' ')[0]` and `toLowerCase`.
- `label_match.dfy` (`LabelMatch`): the webcam prototype in `index.js`. A picture is
  recyclable when one of its lower-cased labels is exactly a listed name.
- `inference.dfy` (`Inference`): the classification service in `backend/app.py`.
  It covers the three upload guards, the first-index arg-max, the label lookup, the
  0.8 threshold that adds the probability table, the start-up block and `/health`.
- `stats.dfy` (`Stats`): the pure helpers of the statistics screen. These are the
  impact figures, the first name and the breakpoint classes.
- `login.dfy` (`Login`): the sign-in / sign-up form.
  - The three validators, with the e-mail regular expression.
  - The gate that calls the authentication service only for a valid form.
  - The error-code messages.
  - The form's state handlers, as the class `LoginForm`.
- `capture.dfy` (`Capture`): the capture screen.
  - The five known category names and the guide each opens.
  - The display table.
  - The 800×600 frame scaling.
  - The reply handling.
  - The screen state, as the class `CaptureScreen`.
- `games.dfy` (`Games`): the quiz and the recycling sorter, with their shared score
  board, as the class `GameScreen`.
- `disposal.dfy` (`Disposal`): the organic and recyclable disposal guides. Both run the
  same logic: a five-fact carousel, a four-tip accordion, the staggered tip reveal and
  the item-name default.
  - In `frontend/organic_disposal.tsx`: lines 68, 163-182, 302-335, 338-345 and 348-355.
  - In `frontend/recyclable_disposal.tsx`: lines 68, 158-177, 298-331, 334-341 and 344-351.
  - The model is written once. Its rows below cite either file.

Outside services are not modelled.
- What they report is a parameter. This covers the reply of the classification
  server, the outcome of an authentication call, the camera's state and the model's
  output vector.
- What the screens ask of them is appended to an `effects` sequence. This covers
  sign-in, sign-up, reset mails, the points write, the image upload and navigation.

A timer is an explicit step. The screen's state records what is pending, and a
separate method fires it.

## Model

| member | source | states |
|---|---|---|
| `JsText.TrimStartSpec` | frontend/login.tsx:310 | the leading-trim result is a suffix of the input, everything it dropped is whitespace, and it does not start with whitespace |
| `JsText.TrimEndSpec` | frontend/login.tsx:320 | the trailing-trim result is a prefix of the input, everything it dropped is whitespace, and it does not end with whitespace |
| `JsText.TrimSpec` | frontend/login.tsx:333 | `trim` keeps a contiguous slice and drops only whitespace on either side of it |
| `JsText.TrimEmptyIffBlank` | frontend/login.tsx:310-312 | `s.trim()` is empty (falsy) exactly when every character of `s` is whitespace |
| `JsText.Trim` | frontend/login.tsx:333-335 | `trim` never lengthens a string, and a non-empty result neither starts nor ends with whitespace |
| `JsText.FirstField` | frontend/stats.tsx:154 | `split(sep)[0]` is never longer than the string and never contains `sep` |
| `JsText.FirstFieldSpec` | frontend/stats.tsx:154 | `split(sep)[0]` is the longest prefix free of `sep`; it ends at the end of the string or at a `sep` |
| `JsText.ToLowerChar` | index.js:53 | an ASCII capital maps 32 code points down; every other character is kept |
| `JsText.ToLower` | index.js:53 | lower-casing keeps the length and maps each character by `ToLowerChar` |
| `LabelMatch.AnyListed` | index.js:58 | `some(includes)` holds exactly when some label is an entry of the recyclable list |
| `LabelMatch.LowerAll` | index.js:53 | the `map` keeps the number of labels and lower-cases each one |
| `LabelMatch.Classify` | index.js:53-64 | Recyclable exactly when some description, lower-cased, equals a listed name; an empty list of labels gives Non-Recyclable |
| `LabelMatch.ToLowerIdempotent` | index.js:53 | lower-casing twice is lower-casing once |
| `LabelMatch.LowerCasingFirstChangesNothing` | index.js:53 | classifying lower-cased descriptions gives the same verdict as classifying the raw ones |
| `LabelMatch.MatchCarriesOver` | index.js:58 | a Recyclable verdict survives into any list that contains every label of the first |
| `LabelMatch.OrderAndDuplicatesIrrelevant` | index.js:58 | two lists with the same labels, in any order and with any repetition, get the same verdict |
| `LabelMatch.ListsDisjoint` | index.js:12-17 | no entry of the non-recyclable list is on the recyclable list |
| `LabelMatch.NonRecyclableLabelIsInert` | index.js:15-17 | adding a label that names a non-recyclable item never changes the verdict |
| `LabelMatch.LongerLabelNeverMatches` | index.js:12-14 | matching is exact: a label longer than every listed name (such as "plastic bottle cap") is never a match |
| `LabelMatch.CaseIsIgnored` | index.js:53-58 | "Paper" is recyclable |
| `Inference.LoadModel` | backend/app.py:30-40 | `interpreter` is bound exactly when construction succeeds; the tensor descriptions only when allocation and reading them also succeed |
| `Inference.Health` | backend/app.py:136-138 | `/health` is always "healthy" and reports a loaded model exactly when `interpreter` is bound |
| `Inference.FirstArgMax` | backend/app.py:111 | the index holds a maximal value, and every earlier index holds a strictly smaller one |
| `Inference.AllProbabilities` | backend/app.py:124-126 | the table has exactly the five labels as keys, each mapped to its own output value |
| `Inference.ShapeResult` | backend/app.py:110-128 | the body names `labels[argmax]` with that value as confidence, and carries the table exactly when confidence < 0.8; a five-value output always succeeds; it fails (where Python raises) exactly on an empty vector, an index past the labels, or a short low-confidence vector |
| `Inference.Predict` | backend/app.py:75-133 | no `image` gives 400 "No image file provided"; then an empty filename gives 400 "No file selected"; then more than 10 MiB gives 400; exactly 10 MiB passes the guards; 500 carries only the generic message; 200 carries a known label computed from the output, and only comes from a fully loaded model; a loaded model whose output shapes into a body answers 200 with that body, whatever the vector's length; the status is always 200, 400 or 500 |
| `Inference.GuardsPrecedeInference` | backend/app.py:79-95 | a request stopped by a guard is answered 400 whatever the model state and whatever inference would do |
| `Inference.ConstructionFailureFailsEveryUpload` | backend/app.py:30-38 | when the interpreter constructor raises, `/health` reports no model and every accepted upload gets 500 with the generic message |
| `Inference.AllocationFailureLooksHealthy` | backend/app.py:30-38 | when `allocate_tensors` fails after construction, `/health` reports the model loaded while every accepted upload gets 500 |
| `Inference.FiveScoresAreAnswered` | backend/app.py:111-126 | with a loaded model and five scores, an accepted upload gets 200 with the first maximal label and score, and the table exactly below 0.8 |
| `Inference.LowConfidenceOrganic` | backend/app.py:118-126 | the scores [0.1, 0.2, 0.42, 0.18, 0.1] give "Organic" at 0.42 with all five scores |
| `Stats.DeviceTypeOf` | frontend/stats.tsx:110-117 | the class is the one with the largest breakpoint not above the width (xs below 576), so every larger class starts above the width |
| `Stats.DeviceTypeMonotone` | frontend/stats.tsx:110-117 | a wider window never gets a smaller class |
| `Stats.IsMobile` | frontend/stats.tsx:120 | mobile exactly when the width is below 768 |
| `Stats.IsTablet` | frontend/stats.tsx:121 | tablet exactly when 768 ≤ width < 992 |
| `Stats.FirstName` | frontend/stats.tsx:152-155 | the result is a prefix of the name without a space; it is the whole name when there is no space and stops at the first space otherwise |
| `Stats.Decimal` | frontend/stats.tsx:182 | the decimal numeral is non-empty and all digits, and canonical: it starts with '0' only for zero, which is the one-digit "0" |
| `Stats.DecimalRoundTrip` | frontend/stats.tsx:182 | reading the numeral back gives the number |
| `Stats.FormatTenths` | frontend/stats.tsx:182-185 | `toFixed(1)` of a whole number of tenths has the shape `-?[0-9]+\.[0-9]` a leading minus exactly for a negative value, and no leading zero in the integer part |
| `Stats.FormatTenthsRoundTrip` | frontend/stats.tsx:185 | `toFixed(1)` of a whole number of tenths has the shape `-?[0-9]+\.[0-9]` and reads back to the same value |
| `Stats.CalculateStats` | frontend/stats.tsx:180-196 | items = ⌊points/5⌋ (5·items ≤ points < 5·items + 5), the points pass through, CO2 reads back as items/2 and water as 2·points |
| `Stats.ItemsBoundedByPoints` | frontend/stats.tsx:181 | for non-negative points the items lie between 0 and points/5, and below 5 points there are none |
| `Login.EmailPatternTest` | frontend/login.tsx:309-313 | an accepted address has no whitespace, contains '@', does not start with '@' and is at least five characters long |
| `Login.EmailPatternTestSound` | frontend/login.tsx:309 | every string the structural test accepts matches `^[^\s@]+@[^\s@]+\.[^\s@]+$` |
| `Login.EmailPatternTestComplete` | frontend/login.tsx:309 | every string the pattern matches passes the structural test |
| `Login.EmailPatternTestIsRegex` | frontend/login.tsx:309 | the structural test (one '@', non-empty local part, no whitespace, an inner '.' in the domain) accepts exactly the pattern's strings |
| `Login.ValidateEmail` | frontend/login.tsx:308-317 | the result is no error, "Email is required" or the invalid-address message |
| `Login.ValidateEmailMeaning` | frontend/login.tsx:308-317 | a blank address gets exactly the required message; any other is accepted exactly when it matches the pattern |
| `Login.PaddedEmailIsInvalid` | frontend/login.tsx:309-316 | an address with a leading space is reported invalid, not trimmed, though the bare address is accepted |
| `Login.ValidatePassword` | frontend/login.tsx:319-327 | one of the three password results; accepted only with six or more characters |
| `Login.ValidatePasswordMeaning` | frontend/login.tsx:319-327 | blank gives the required message; otherwise fewer than six characters, spaces included, is too short; six or more is accepted |
| `Login.ValidateName` | frontend/login.tsx:329-337 | one of the three name results; always accepted when signing in; accepted exactly when signing in or the trimmed name has two or more characters |
| `Login.ValidateNameMeaning` | frontend/login.tsx:329-337 | when signing up, a blank name gets the required message and a name of trimmed length 1 the too-short one |
| `Login.AuthErrorMessage` | frontend/login.tsx:508-541 | a failed sign-in always shows a non-empty message, the default one when the error has no code |
| `Login.ListedFailure` | frontend/login.tsx:510-534 | a code that is recognised is the code of the failure it is recognised as |
| `Login.ListedFailureRoundTrip` | frontend/login.tsx:510-534 | every one of the eight listed failures is recognised from its own code |
| `Login.ListedMessagesStandApart` | frontend/login.tsx:508-534 | each listed failure's message is non-empty and differs from the default message |
| `Login.ListedMessagesDistinct` | frontend/login.tsx:510-534 | two different listed failures never show the same message |
| `Login.ListedMessageIsNotUnknown` | frontend/login.tsx:510-537 | no listed failure's message can be mistaken for the message quoting an unlisted code |
| `Login.DefaultIsNotUnknown` | frontend/login.tsx:508-537 | the default message is never the message quoting an unlisted non-empty code |
| `Login.ItsOwnMessage` | frontend/login.tsx:508-537 | any non-empty code, listed or not, gets a message other than the default |
| `Login.AuthErrorMessageIdentifiesCode` | frontend/login.tsx:508-541 | the message tells the codes apart: equal messages mean both errors lacked a code or both had the same non-empty code |
| `Login.UnknownCodeIsQuoted` | frontend/login.tsx:537-538 | the message for an unlisted code holds the code whole, right after "Authentication error: " |
| `Login.ResetErrorMessage` | frontend/login.tsx:439-457 | a failed reset always shows a non-empty message, the default one when the error has no code |
| `Login.ResetDefaultIffUnlisted` | frontend/login.tsx:439-457 | a failed reset shows the default message exactly when its code is not one of the three it lists |
| `Login.ResetErrorMessageIdentifiesCode` | frontend/login.tsx:439-457 | the three listed codes' reset messages differ from each other and from the message for any other failure |
| `Login.LoginForm.constructor` | frontend/login.tsx:86-107 | the form opens in sign-in mode, empty, without errors, with nothing sent |
| `Login.LoginForm.HandleEmailChange` | frontend/login.tsx:340-344 | stores the text, sets the e-mail error to the validator's verdict, clears the general message and changes nothing else |
| `Login.LoginForm.HandlePasswordChange` | frontend/login.tsx:346-350 | the same for the password |
| `Login.LoginForm.HandleNameChange` | frontend/login.tsx:352-356 | the same for the name, judged in the current mode |
| `Login.LoginForm.HandleForgotPasswordEmailChange` | frontend/login.tsx:358-362 | the reset-panel error is either empty or the single invalid-address message, empty exactly when the address validates |
| `Login.LoginForm.ToggleMode` | frontend/login.tsx:365-397 | flips the mode, empties name, e-mail and password, clears all five messages and closes the reset panel |
| `Login.LoginForm.ToggleForgotPassword` | frontend/login.tsx:400-411 | flips the panel, empties its address and its message |
| `Login.LoginForm.HandleForgotPassword` | frontend/login.tsx:414-463 | an invalid address is reported and nothing is sent; otherwise one reset mail for the trimmed address, then the panel toggles on success or shows the code's reset message on failure; the loading flag is untouched for an invalid address and cleared once a request finishes |
| `Login.LoginForm.HandleAuth` | frontend/login.tsx:466-547 | with any validator complaining, shows the three messages and "Please fix the errors below" and calls nothing; otherwise one sign-in (or sign-up with the trimmed name) with the trimmed address, then the account screen on success or the code's message on failure, with loading cleared at the end; a rejected form leaves the loading flag as it was |
| `Login.AuthGateScenario` | frontend/login.tsx:473-482 | whenever the authentication service was called, all three validators accepted the form |
| `Capture.CategoryOf` | frontend/next_page.tsx:1448-1482 | a label is recognised only as the category whose name it is |
| `Capture.CategoryNameRoundTrip` | frontend/next_page.tsx:1448-1482 | every category is recognised from its own name |
| `Capture.IsKnownCategory` | frontend/next_page.tsx:1602-1603 | the comparison chain holds exactly for the names `CategoryOf` recognises |
| `Capture.KnownIffCategory` | frontend/next_page.tsx:1602-1603 | the comparison chain accepts exactly the five category names |
| `Capture.InferenceLabelsAreKnown` | frontend/next_page.tsx:1602-1603 | every label of the `/predict` model in app.py passes the screen's comparison chain; the screen itself posts to `/classify_image_with_llm`, so this only says the two lists agree |
| `Capture.LearnMoreRoute` | frontend/next_page.tsx:2082-2116 | navigation happens exactly for a prediction naming a category, always with item "this item" |
| `Capture.RoutesDistinct` | frontend/next_page.tsx:2087-2115 | different categories open different guides |
| `Capture.LearnMoreFollowsCategory` | frontend/next_page.tsx:2087-2115 | each category's label opens that category's guide |
| `Capture.PredictionConfig` | frontend/next_page.tsx:2119-2128 | intended lookup: nothing exactly without a prediction, the table entry for a category name, the grey default for any other label |
| `Capture.PredictionConfigAsWritten` | frontend/next_page.tsx:2119-2128 | lookup as written: nothing exactly without a prediction, and an inherited value only for a name `Object.prototype` provides |
| `Capture.ConstructorLabelEscapesDefault` | frontend/next_page.tsx:2122 | the label "constructor" gets the inherited member instead of the grey default the intended lookup gives |
| `Capture.AsWrittenAgreesOffPrototype` | frontend/next_page.tsx:2122-2127 | away from the inherited names the lookup as written equals the intended one |
| `Capture.ScaledSize` | frontend/next_page.tsx:1955-1971 | a frame already within 800×600 is kept; a frame that is changed has one side at its bound |
| `Capture.Resize` | frontend/next_page.tsx:1955-1971 | the in-place reassignment yields the scaling rule's size and keeps w/h |
| `Capture.ScaledSizeKeepsRatio` | frontend/next_page.tsx:1961-1971 | scaling keeps the aspect ratio |
| `Capture.ScaledSizeNeverEnlarges` | frontend/next_page.tsx:1961-1971 | a frame with non-negative sides never grows in either dimension |
| `Capture.ScaledSizeBounds` | frontend/next_page.tsx:1961-1971 | a non-landscape frame ends at most 600 high, a landscape one at most 800 wide |
| `Capture.CanvasDimension` | frontend/next_page.tsx:1973-1974 | assigning a size to the canvas keeps the integer part of a size from 0 up to 2^31−1; a size whose wrapped value lies outside that range leaves the attribute's default (300 wide, 150 high) |
| `Capture.ScaledFrameFitsCanvas` | frontend/next_page.tsx:1955-1974 | a scaled camera frame has both sides between 0 and 800, so the canvas keeps their whole-pixel parts and never falls back to its default |
| `Capture.ScaledSizeWithinMaxWidth` | frontend/next_page.tsx:1961-1971 | a frame with non-negative sides scales to sides between 0 and 800 |
| `Capture.ScaleDownStaysWithin` | frontend/next_page.tsx:1961-1969 | scaling the shorter side by the ratio that brings the longer one to its bound keeps it between 0 and that bound |
| `Capture.WideFrameLosesAFractionalRow` | frontend/next_page.tsx:1955-1974 | a 1366×768 frame scales to 800×449.78…, and the canvas that is encoded and sent is 800×449 |
| `Capture.LandscapeMayExceedMaxHeight` | frontend/next_page.tsx:1961-1965 | a 790×700 frame is kept as it is, taller than 600 |
| `Capture.ReplyActionOf` | frontend/next_page.tsx:2019-2027 | a reply with a category sets exactly that prediction; otherwise an error is shown, the fixed unexpected-reply message when there is no error text either |
| `Capture.ServiceErrorIsQuoted` | frontend/next_page.tsx:2023-2024 | a service error is shown whole behind "LLM Error: " |
| `Capture.CaptureScreen.constructor` | frontend/next_page.tsx:1486-1531 | the screen opens with nothing captured, the tip shown and nothing requested |
| `Capture.CaptureScreen.Capture` | frontend/next_page.tsx:1914-2036 | off the web only the native-capture message; a failed camera check gives the failure message and sends nothing; otherwise the frame is shown and sent once at the scaled size cut to whole canvas pixels, and the reply's action is applied with the webcam off; a throwing request leaves the failure message; classifying always ends |
| `Capture.CaptureScreen.PredictionChanged` | frontend/next_page.tsx:1585-1658 | Learn More is shown, and 5 points requested for a signed-in user, exactly for a known category; any prediction starts the points animation; no prediction hides Learn More |
| `Capture.CaptureScreen.PointsAnimationFinished` | frontend/next_page.tsx:1649-1651 | the animation's end hides it and changes nothing else |
| `Capture.CaptureScreen.Retake` | frontend/next_page.tsx:2039-2059 | clears image, prediction, error and the points animation, shows the tip, restarts the webcam |
| `Capture.CaptureScreen.LearnMore` | frontend/next_page.tsx:2082-2116 | navigates once to the guide of the predicted category, and not at all otherwise |
| `Capture.RetakeHidesLearnMore` | frontend/next_page.tsx:2050-2058 | after a retake and the effect it triggers, Learn More is hidden and no points are requested |
| `Games.Scored` | frontend/game.tsx:793-798 | a right move adds the points and one right answer and lengthens the streak; a wrong one adds nothing and resets the streak |
| `Games.ScoredKeepsConsistent` | frontend/game.tsx:828-833 | scoring keeps score = points × right answers and 0 ≤ streak ≤ right answers |
| `Games.Fresh` | frontend/game.tsx:741-746 | a fresh board is consistent for both games, zeroed, with the given number of questions |
| `Games.PlayQuiz` | frontend/game.tsx:786-807 | any run of answers keeps a five-question board at 100 points per right answer, a streak within the right answers, and no more right answers than answers |
| `Games.PlayQuizScore` | frontend/game.tsx:786-807 | after any sequence of quiz answers: right answers counted one by one, score 100 × that count, streak the trailing run of right answers, streak ≤ right ≤ answered |
| `Games.AllRight` | frontend/game.tsx:449-490 | answering every question so far with its right option makes all of them count and the streak unbroken |
| `Games.PerfectQuiz` | frontend/game.tsx:449-490 | the five right options score 500 with five right answers and a streak of five |
| `Games.CatalogueOrderIsShuffle` | frontend/game.tsx:571-575 | a witness that the shuffle's nondeterministic choice has an outcome (the catalogue's own order), so the deal is always defined |
| `Games.Deal` | frontend/game.tsx:571-575 | a deal is six items, the first six of the shuffled catalogue, each marked unsorted |
| `Games.CatalogueIdsDistinct` | frontend/game.tsx:438-447 | the catalogue identifiers are pairwise different |
| `Games.DealIsFreshAndDistinct` | frontend/game.tsx:571-575 | a deal holds six different catalogue items, none sorted |
| `Games.MarkedSorted` | frontend/game.tsx:836-838 | the marked item becomes sorted with its identity, name and category kept; every other item is unchanged; the length is kept |
| `Games.MarkingCountsOnce` | frontend/game.tsx:836-838 | marking an unsorted item sorts exactly one more item; marking a sorted one changes the count by nothing |
| `Games.MarkingIsIdempotent` | frontend/game.tsx:836-838 | marking the same item twice is marking it once |
| `Games.MarkSorted` | frontend/game.tsx:836-838 | the element-wise rebuild marks item k sorted and keeps every other item |
| `Games.GameScreen.constructor` | frontend/game.tsx:386-412 | no game open, a zeroed board, nothing selected, nothing pending |
| `Games.GameScreen.InitializeSortingGame` | frontend/game.tsx:571-591 | deals six items of some shuffle, shows all bins, resets index, completion and highlight, and starts a fresh board for that many items; outside the quiz it keeps the screen's invariant |
| `Games.GameScreen.HandleGamePress` | frontend/game.tsx:727-752 | opens the game at question 0 with no answer or explanation; the quiz gets a fresh five-question board and leaves the sorter's items, bins, index, completion and highlight as they were; the sorter gets a new deal, all bins, index 0, no completion and no highlight; pending timers are kept |
| `Games.GameScreen.HandleQuizAnswer` | frontend/game.tsx:786-807 | a second answer changes nothing; a first answer is recorded, scored by `Scored` at 100, and schedules its explanation; the score invariant is kept; every other field, the sorter's bins included, is unchanged |
| `Games.GameScreen.RevealExplanation` | frontend/game.tsx:800-802 | the scheduled reveal shows the explanation and consumes one pending reveal; each of the other ten fields is stated unchanged |
| `Games.GameScreen.HandleNextQuestion` | frontend/game.tsx:809-818 | before the last question moves one on and clears answer and explanation; after the last one closes the quiz; board, pending timers and every sorter field are unchanged |
| `Games.GameScreen.HandleBinSelect` | frontend/game.tsx:821-846 | ignored once complete or past the last item; otherwise 20 points exactly when the bin is the item's category, only the current item marked sorted, the bin highlighted, and an advance scheduled with this index and item count; index, completion, bins, explanation and the quiz fields are unchanged |
| `Games.GameScreen.AdvanceItem` | frontend/game.tsx:848-856 | the oldest advance moves the index one on unless its press was on the last item, in which case the round completes; the highlight clears; board, items, bins, explanation and the quiz fields are unchanged |
| `Games.GameScreen.GoBack` | frontend/game.tsx:863-867 | closes the open game and keeps the board and every other field |
| `Games.DoublePressSkipsAnItem` | frontend/game.tsx:821-857 | two presses on one item within the second score it twice and, once both advances fire, move two items on, leaving the skipped item as it was |
| `Disposal.ItemName` | frontend/organic_disposal.tsx:68 | a present non-empty parameter is the name; an absent or empty one gives "this item"; the name is never empty |
| `Disposal.NextFact` | frontend/organic_disposal.tsx:353 | the next index is on one of the five facts |
| `Disposal.PrevFact` | frontend/recyclable_disposal.tsx:339 | the previous index is on one of the five facts |
| `Disposal.PrevNextInverse` | frontend/organic_disposal.tsx:338-355 | back after forwards, and forwards after back, return to the same fact |
| `Disposal.NextFactN` | frontend/recyclable_disposal.tsx:344-351 | any number of steps forwards stays on a fact |
| `Disposal.NextFactNIsModular` | frontend/recyclable_disposal.tsx:349 | n steps forwards land (i + n) mod 5 |
| `Disposal.FullTurn` | frontend/organic_disposal.tsx:353 | five steps forwards come back to the same fact |
| `Disposal.EveryFactReached` | frontend/recyclable_disposal.tsx:349 | every fact is reached from every other in fewer than five steps |
| `Disposal.GuideScreen.constructor` | frontend/organic_disposal.tsx:86-92 | the guide opens on the first fact with no tip revealed or open |
| `Disposal.GuideScreen.ShowTips` | frontend/organic_disposal.tsx:163-182 | the reveal appends the tip indices 0, 1, 2, 3 in order |
| `Disposal.GuideScreen.HandleTipPress` | frontend/organic_disposal.tsx:302-335 | pressing the open tip closes it; pressing another opens it and closes the one that was open, so at most one is open |
| `Disposal.GuideScreen.HandleNextFact` | frontend/recyclable_disposal.tsx:344-351 | the fact index becomes (i + 1) mod 5; the tips are kept |
| `Disposal.GuideScreen.HandlePrevFact` | frontend/recyclable_disposal.tsx:334-341 | the fact index steps back, from the first to the last; the tips are kept |
| `Disposal.MountAndReveal` | frontend/recyclable_disposal.tsx:158-177 | after mounting and the reveal, exactly the tips 0, 1, 2, 3 are shown, strictly increasing, so each once |
| `Disposal.PressTwice` | frontend/recyclable_disposal.tsx:298-331 | pressing a tip twice closes and reopens an open tip and leaves every tip closed otherwise; the fact index and the shown tips stay as they were |

## Left out

- The outside world is not modelled: Firebase reads and writes, the router, the camera and `getUserMedia`, the canvas, Haptics, Vibration, `Linking`, and every animated value and style. Their outcomes are parameters; requests are recorded as effects.
- The TFLite interpreter, PIL decoding and `preprocess_input` (`backend/app.py:42-73`) are one opaque function from the payload to an output vector or a raised exception. The Flask, CORS and ProxyFix plumbing and the `/test` endpoint are not modelled.
- The model's scores are reals. NaN, and what `np.argmax` does with it, is not modelled. Nothing constrains confidence to [0, 1].
- `Inference.Predict`: an upload is given as its bytes, so `file.seek`/`tell` is the length of that sequence.
- `JsText.IsWhitespace` enumerates the ECMAScript whitespace and line-terminator code points; every member must have a body, so the class cannot be left abstract.
- `JsText.ToLower` maps only the ASCII capitals. Non-ASCII case mapping and UTF-16 lengths are not modelled.
- `Login.ValidatePassword` counts characters, not UTF-16 code units, so a password with characters outside the Basic Multilingual Plane is measured shorter than JavaScript's `length`.
- `Login.ValidateName` counts characters of the trimmed name, not UTF-16 code units, for the same reason.
- `Stats.CalculateStats` leaves out the trees, energy and waste figures. They are floating-point `toFixed` results that are not exact. `toFixed` for magnitudes of 1e21 and above, and non-integer points, are out as well.
- `Stats.DeviceTypeOf` models the `frontend/stats.tsx` helper only. The copy in the account screens that never returns 'lg' (`account.tsx:126-133`, `frontend/game.tsx:86-93`), and the duplicated `getFirstName`, are not modelled.
- The training scripts (`train_model.py`, `waste_model.py`) are deep-learning framework calls, and `backend_inference_app.py` is a non-parsing near-copy of `predict`. The account, index, developer and comparison screens are static content. None of them is modelled.
- `Login.LoginForm` keeps no invariant predicate. Each handler states its whole new state instead.
- Google sign-in and the password-visibility toggle are not modelled.
- `Capture.CaptureScreen.Capture` records the scaled frame sent, not its JPEG/base64 encoding. Whether the canvas produced data is the boolean `Camera.encodes`. The reply's JSON fields are optional strings, and only the empty string counts as falsy among them.
- `Capture.ScaledSize` and `Capture.Resize` compute with exact reals, not IEEE doubles, so the rounding of `height * (800 / width)` is not modelled. The cut to whole pixels that the canvas assignment makes, and its fall-back to the default size for values outside 0 to 2^31−1, is modelled by `Capture.CanvasDimension`.
- The flash toggle, the barcode code that is commented out, and the capture-button effect are not modelled.
- `Games.GameScreen.InitializeSortingGame` draws the shuffle as a nondeterministic choice of a duplicate-free order. Its probabilities are not modelled. `handleRestartSorting` (`frontend/game.tsx:859-861`) is exactly this method.
- `handleConfirmPlayGame` and `handleCancelPlayGame` (`frontend/game.tsx:754-784`) are unreachable from the UI and are not modelled. So is the navigation `handleGoBack` performs when no game is open.
- Bin categories are the `Material` values rather than strings. Item icons and colours are not modelled. Neither are the quiz question texts, options and explanations: only each question's right option is kept.
- `Games.GameScreen.HandleQuizAnswer`, `HandleNextQuestion` and `HandleBinSelect` require the matching game to be open. The screen renders their buttons only then (`frontend/game.tsx:1860-1861`).
- The two timers of the games screen are explicit steps. These are the half-second explanation reveal (`RevealExplanation`) and the one-second item advance (`AdvanceItem`), which fire in the order they were scheduled.
- `Disposal.GuideScreen.HandleTipPress` requires a revealed tip: only revealed tips are rendered (`frontend/organic_disposal.tsx:514`).
- The collapse of an open tip and the change of fact are modelled as immediate. In the app they happen when a 300 ms or 500 ms animation ends.
- The 8-second fact rotation (`frontend/organic_disposal.tsx:187-189`, `frontend/recyclable_disposal.tsx:182-184`) is not modelled. It reads the index captured at mount, so it always targets the second fact.
- `Disposal.GuideScreen.ShowTips` reveals all four tips in one step. The 200 ms stagger between reveals is not modelled, so the states with only some tips revealed, and presses made in them, are not modelled.
- In `index.js` a failing Vision API call is only logged (`index.js:68-70`), and nothing is shown. Deleting the captured image file (`index.js:67`) is file-system I/O and is not modelled. The model covers only the classification of the labels that a successful call returns.
- The tip and fact texts are not modelled, nor the back, home and drop-off buttons.

## Findings

| source | as written | input that shows it | evidently intended | confidence | as-written member | corrected member |
|---|---|---|---|---|---|---|
| frontend/next_page.tsx:2122 | `categoryConfig[label]`, with the default as the falsy fallback, indexes an object literal, so a label naming an `Object.prototype` member finds that inherited member, which is truthy, and the grey default is skipped | a prediction whose label is "constructor" | the grey default entry for every label outside the five categories | not executed | `Capture.ConstructorLabelEscapesDefault` | `Capture.PredictionConfig` |

The sorting game also lets a second bin press on the same item through during the one-second delay. That press scores the item again and schedules a second advance, so one item is skipped. This is modelled as written (`Games.DoublePressSkipsAnItem`), since the guard at `frontend/game.tsx:822` shows no intent to block it.
