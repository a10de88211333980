# Campus map quiz: hit test and quiz state machine

A browser quiz shows a campus map image. It asks the player to double-click
five named buildings in turn. A click is scored correct when it falls inside
the building's rectangle. A calibration mode logs click positions so that a
developer can read off rectangles. This project models the quiz logic in
`app.js`:

- `hittest.dfy`, module `HitTest`: positions (`LatLng`), rectangles given by
  two corners in either order (`Bounds`), and the hit test `PointInBounds`.
  The test normalises each axis with min/max and checks two closed intervals.
- `catalog.dfy`, module `Catalog`: the building table `Buildings`, the
  question order `Questions`, and the uncalibrated sentinel `LooksUnset`
  (all four coordinates zero). A `Tables` value pairs a building table with
  a question list. `Standard` is the pair the page ships with.
- `quiz.dfy`, module `Quiz`: a snapshot `State` of the page's globals
  (`round`, `correct`, `incorrect`, `historyLines`, the drawn feedback
  rectangle). `Step` is the double-click handler as a pure transition, and
  `Play` runs a sequence of clicks. The class `QuizGame` has one field per
  global. Its methods `Reset` and `DoubleClick` update those fields in place,
  statement by statement as the page does. Each method is proved to leave
  the state that `Start` or `Step` describes.

Mouse positions on the map are JavaScript numbers. They are modelled as
`real`, so comparisons are exact. All rectangle coordinates in the data are
integers. Calibration mode is a parameter of `DoubleClick`; the page reads
it from a checkbox. The quiz logic is stated for any consistent `Tables`, so
the unset-rectangle branch can be reasoned about even though no shipped
building is uncalibrated (`Catalog.StandardTables`).

An all-zero rectangle is the page's marker for an uncalibrated building;
the page uses it and so does the model (`LooksUnset`). The page's guards use
`>=` (app.js:143, 169), and so do the model's. `Inv` bounds the round by the
number of questions, so `Finished` holds exactly when the round equals it.

## Model

| member | source | states |
|---|---|---|
| `HitTest.Min` | app.js:129-131 | the result is at most both arguments and equals one of them |
| `HitTest.Max` | app.js:130-132 | the result is at least both arguments and equals one of them |
| `HitTest.PointInBounds` | app.js:126-134 | a point is inside iff on each axis it lies between the two corners' coordinates, taken in either order, ends included |
| `HitTest.PointInBoundsOrderFree` | app.js:129-132 | swapping the two corners, or only their lat or only their lng components, never changes the answer |
| `HitTest.PointInBoundsCorners` | app.js:133 | all four corners of every rectangle are inside (closed intervals) |
| `HitTest.PointInBoundsInclusive` | app.js:133 | a point on a corner's lat within the lng range is inside, and so is a point on a corner's lng within the lat range |
| `HitTest.PointInBoundsExact` | app.js:129-133 | a point is outside iff on some axis it is strictly below both corners or strictly above both |
| `Catalog.Buildings` | app.js:3-13 | the five buildings with their codes, grid labels and rectangles, value for value |
| `Catalog.Questions` | app.js:15-21 | the five question names in the page's order |
| `Catalog.LooksUnset` | app.js:149 | true iff the rectangle is the all-zero one, both corners at (0, 0) |
| `Catalog.StandardTables` | app.js:3-21 | every question names a building of the table, none has the all-zero sentinel rectangle, and there are five questions |
| `Catalog.BayramianCornersHit` | app.js:7 | both listed corners of Bayramian Hall, such as (530, 308), are hits; the point (529.5, 308), half a unit below the lat minimum, is a miss |
| `Quiz.Finished` | app.js:143 | the round guard; under `Inv` it holds iff the round equals the number of questions |
| `Quiz.CurrentBounds` | app.js:145-148 | the rectangle of the building named by `QUESTIONS[round]` |
| `Quiz.Step` | app.js:137-174 | calibration click: one line appended, nothing else changes, even after the end. Game over: nothing changes. Sentinel rectangle: one "bad" warning line, no score change, no advance. Otherwise: round +1, exactly one counter +1 (`correct` iff the hit test holds), one line appended ("Your answer is correct!!"/"good" or "Sorry wrong location."/"bad"), rectangle shown green or red. `correct + incorrect == round <= #questions` is preserved |
| `Quiz.Play` | app.js:137-174 | over any click sequence the invariant is preserved, round and counters never decrease, and the old history stays a prefix, growing by at most one line per click |
| `Quiz.PlayAfterFinish` | app.js:143 | once every question is answered, any sequence of non-calibration clicks leaves the whole state unchanged |
| `Quiz.PlayCalibrationOnly` | app.js:138-141 | a sequence of calibration clicks leaves round, counters and feedback unchanged and appends exactly one line per click |
| `Quiz.PlayAllHits` | app.js:155-169 | answering every remaining question with a hit on calibrated tables adds one correct per click, no incorrect, and finishes the game |
| `Quiz.AllCorrectGame` | app.js:155-170 | from the start, clicking each shipped building's first corner in order ends with 5 correct, 0 incorrect, game finished |
| `Quiz.QuizGame.constructor` | app.js:78-81 | the globals start at round 0, no score, empty history, no feedback rectangle; the tables are the shipped ones |
| `Quiz.QuizGame.ClearFeedback` | app.js:46-51 | afterwards no feedback rectangle is drawn |
| `Quiz.QuizGame.ShowBounds` | app.js:54-61 | afterwards exactly the given rectangle is drawn in the given colour |
| `Quiz.QuizGame.AddHistoryLine` | app.js:95-98 | the history is the old history with the one new line at its end |
| `Quiz.QuizGame.Reset` | app.js:111-121 | round 0, both counters 0, empty history, feedback cleared; the invariant holds |
| `Quiz.QuizGame.DoubleClick` | app.js:137-174 | the new globals are exactly `Step` applied to the old ones, so every property of `Step` holds of the handler; the invariant is kept |

## Left out

- Leaflet map creation, the image overlay, `fitBounds` and the image `onload` callback (app.js:31-40, 63-75) are third-party rendering and asynchronous loading. The model's constructor stands for the globals' initial values, and `Reset` for the call made once the image has loaded.
- `showBounds`/`clearFeedback` draw Leaflet layers. The model only records which rectangle is drawn and in which colour (`feedback`).
- DOM text is not modelled: the prompt (`setPrompt`), the score line (`updateScore`), the HTML of the history log (`renderHistory`) and the final summary and "Done!" prompt (`finishGame`), app.js:84-93 and 100-109. Each is a direct format of the state the model keeps.
- The calibration line's text uses `toFixed(0)` on floating-point coordinates (app.js:139). The model keeps the clicked position in the line (`CalibClick`) instead of its rounded rendering.
- NaN and infinite coordinates are not modelled, because positions are `real`.
- Event-listener registration and the checkbox read (app.js:123, 138) are not modelled. Calibration mode is a parameter.
- A question missing from the building table would throw in the page. The model requires consistent tables, and `Catalog.StandardTables` proves the shipped ones are.
