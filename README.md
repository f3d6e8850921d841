# mood-site decision core in Dafny

A model of the decision logic in `app.js`, the script of the mood-site web page. The page works as a wizard:

- It classifies a face photo into an emotion.
- It maps the emotion to a clothing style.
- It determines the weather, either automatically (geolocation plus weather and air-quality services) or by the visitor's choice.
- It asks for a gender and shows the matching outfit card from a fixed table of twelve recommendations.

The model is split into modules, one per part of the script:

| module (file) | what it covers |
|---|---|
| `Weather` (weather.dfy) | The weather-code partition, the PM10 and PM2.5 grades, the overall level, the mask message and the weather report. |
| `Mood` (mood.dfy) | `MOOD_TO_STYLE`. |
| `Inference` (inference.dfy) | The post-processing in `predictOnce`: a stable descending sort, the first three entries, the low-confidence flag, and the mapping from label to emotion (case-insensitive substring match with priority happy, neutral, sad, angry). |
| `Recommendations` (recommendations.dfy) | `RECOMMENDATIONS` with its exact data, the first-match lookup, and the Male rendering view (a "1" inserted before the hero's last dot, plus the optional `description_male` override). |
| `Wizard` (wizard.dfy) | The page's session state as a value, and one function per event handler. Events and runs of events are defined on top of these. It also holds the invariant every reachable state keeps, and the behavioural lemmas. |
| `SessionObject` (session.dfy) | Class `Session`. Its fields are the script's globals plus the page state the handlers set. Its methods are the handlers, each specified by the matching `Wizard` function, plus a few sub-steps inside handlers. |

Behaviour the model keeps exactly as the code is written:

- **Restart keeps the step.** Restart resets the selections and the sections but not `step`. `step` is only ever 1 or 2: no handler sets 3 or 4.
- **Stopping a countdown.** `stopCamera` clears `isCountingDown` but not the interval timer. A countdown that is running still fires its capture after the camera has stopped.
- **Detections are not cancelled.** An automatic weather detection that completes late overwrites a weather the visitor picked by hand.
- **`description_male` never applies.** The override sits under the non-empty-hero test, and no shipped record has the field.

The recommendation table is a parameter of the `Wizard` functions, so every invariant holds for any table. `Recommendations.Table()` is the page's own table, and the class receives it in its constructor.

## Model

| member | source | states |
|---|---|---|
| Weather.MapCodeToWeather | app.js:410-414 | Sunny exactly for codes 0 and 1; Cloudy exactly for 2, 3, 45 and 48; Rainy exactly for every other code |
| Weather.GradePm10 | app.js:444-449 | level 0 iff v ≤ 30, at most 1 iff v ≤ 80, at most 2 iff v ≤ 150, otherwise 3; the label is the level's label |
| Weather.GradePm25 | app.js:451-456 | the same grading with the bounds 15, 35 and 75 |
| Weather.GradesMonotone | app.js:444-456 | a higher reading never gets a lower PM10 or PM2.5 level |
| Weather.OverallLevel | app.js:505-508 | the overall level is at most 3, at least each grade's level, and equal to one of them (their maximum) |
| Weather.MaskMessage | app.js:459-471 | levels 0, 1 and 2 give the no-mask, KF-AD and KF80 messages; every other level gives the KF94 message |
| Weather.MaskMessageDetermined | app.js:459-471 | on levels 0 to 3 the message determines the level |
| Weather.Report | app.js:499-509 | the report's condition is the code's weather, its grades are the two gradings, its overall level is their maximum, and its message is that level's message |
| Weather.MediumMaskExample | app.js:444-471 | PM10 100 and PM2.5 40 are both Unhealthy (level 2), overall 2, KF80 message; code 1 is Sunny |
| Mood.MoodToStyle | app.js:46-51 | happy, neutral, sad and angry map to Active, Minimal, Cozy and Street, each in both directions; every other string has no style |
| Mood.EmotionMappingTotal | app.js:46-51 | every emotion the classifier can resolve has a style, and different emotions have different styles |
| Inference.Insert | app.js:325 | inserting into a descending list keeps it descending and adds exactly the new element |
| Inference.SortDesc | app.js:325 | the result is in descending probability order and a permutation of the input |
| Inference.SortDescStable | app.js:325 | entries of equal probability keep their input order (the sort is stable) |
| Inference.TopPredictions | app.js:325 | min(3, n) entries in descending order, a sub-multiset of the input, none of the dropped entries more probable than a kept one |
| Inference.TopPredictionsStable | app.js:325 | among equal probabilities, the kept entries are the earliest in the input, in order |
| Inference.TopPredictionsFromInput | app.js:325 | every shown prediction is one of the classifier's predictions |
| Inference.TopIsMaximum | app.js:325-333 | for a non-empty output, `best` (the first shown entry) is one of the predictions, and no prediction is more probable |
| Inference.LowConfidenceIffAllBelow | app.js:333-339 | the low-confidence advisory is shown iff the classifier returned something and no class reached 0.6 |
| Inference.TopEmotion | app.js:341-351 | no emotion when nothing is shown; otherwise the emotion the best label resolves to |
| Inference.ToLower | app.js:342 | same length; each ASCII capital becomes its small letter, every other character is unchanged |
| Inference.ToLowerIdempotent | app.js:342 | lowering twice is lowering once |
| Inference.Includes | app.js:345-348 | true iff the pattern occurs at some position of the text |
| Inference.ResolveEmotion | app.js:341-348 | Happy iff the lowered label contains "happy"; Neutral iff it contains "neutral" but not "happy"; Sad and Angry likewise down the priority order; no emotion iff none of the four occurs |
| Inference.ResolveEmotionIgnoresCase | app.js:342 | a label and its lowered form resolve to the same emotion |
| Inference.ResolveCapitalisedLabel | app.js:342-345 | "Happy" resolves to Happy |
| Inference.ResolveUpperCaseLabel | app.js:342-348 | "ANGRY" resolves to Angry |
| Inference.ResolvePriority | app.js:345-348 | "sad_happy" resolves to Happy: happy is tested first |
| Inference.ResolveUnknownLabel | app.js:341-350 | "Surprised" resolves to no emotion |
| Recommendations.Table | app.js:814-1044 | `RECOMMENDATIONS`: twelve records in source order |
| Recommendations.ActiveSunny | app.js:817-833 | the `active_sunny` record, with every field as in the source; its mood is Active, its weather Sunny, and it has no `description_male` |
| Recommendations.ActiveCloudy | app.js:836-852 | the `active_cloudy` record, with every field as in the source; its mood is Active, its weather Cloudy, and it has no `description_male` |
| Recommendations.ActiveRainy | app.js:855-871 | the `active_rainy` record, with every field as in the source; its mood is Active, its weather Rainy, and it has no `description_male` |
| Recommendations.MinimalSunny | app.js:874-890 | the `minimal_sunny` record, with every field as in the source; its mood is Minimal, its weather Sunny, and it has no `description_male` |
| Recommendations.MinimalCloudy | app.js:893-909 | the `minimal_cloudy` record, with every field as in the source; its mood is Minimal, its weather Cloudy, and it has no `description_male` |
| Recommendations.MinimalRainy | app.js:912-928 | the `minimal_rainy` record, with every field as in the source; its mood is Minimal, its weather Rainy, and it has no `description_male` |
| Recommendations.CozySunny | app.js:931-947 | the `cozy_sunny` record, with every field as in the source; its mood is Cozy, its weather Sunny, and it has no `description_male` |
| Recommendations.CozyCloudy | app.js:950-966 | the `cozy_cloudy` record, with every field as in the source; its mood is Cozy, its weather Cloudy, and it has no `description_male` |
| Recommendations.CozyRainy | app.js:969-985 | the `cozy_rainy` record, with every field as in the source; its mood is Cozy, its weather Rainy, and it has no `description_male` |
| Recommendations.StreetSunny | app.js:988-1004 | the `street_sunny` record, with every field as in the source; its mood is Street, its weather Sunny, and it has no `description_male` |
| Recommendations.StreetCloudy | app.js:1007-1023 | the `street_cloudy` record, with every field as in the source; its mood is Street, its weather Cloudy, and it has no `description_male` |
| Recommendations.StreetRainy | app.js:1026-1042 | the `street_rainy` record, with every field as in the source; its mood is Street, its weather Rainy, and it has no `description_male` |
| Recommendations.Find | app.js:607-609 | the result is the record at the first index whose mood and weather match; no result iff no record matches |
| Recommendations.FindFirst | app.js:607-609 | a match with no match before it is what the lookup returns |
| Recommendations.TableUnique | app.js:814-1044 | the table has 12 records with pairwise different (mood, weather) keys |
| Recommendations.Cell | app.js:814-1044 | the position of a (style, weather) pair in the table's layout: moods in the order Active, Minimal, Cozy, Street, each as Sunny, Cloudy, Rainy; the position is below 12 and maps back to its pair |
| Recommendations.TableLaid | app.js:814-1044 | the record at every position of `RECOMMENDATIONS` has that position's pair |
| Recommendations.LaidFind | app.js:607-609 | in any table with that layout, the lookup finds every pair at its position |
| Recommendations.LaidUnique | app.js:814-1044 | in any table with that layout, no two records share a pair |
| Recommendations.TableRow | app.js:607-609 | in `RECOMMENDATIONS`, the lookup returns the record at the pair's position |
| Recommendations.TableComplete | app.js:814-1044 | the lookup finds a record for every one of the twelve (style, weather) pairs, with that style and weather |
| Recommendations.TableHasNoMaleDescription | app.js:814-1044 | no record of the table has `description_male` |
| Recommendations.LastDot | app.js:622 | the index of the last '.', or -1 when there is none |
| Recommendations.MaleHero | app.js:621-628 | a name without a dot is unchanged; otherwise "1" is inserted immediately before the last dot, making the name one character longer |
| Recommendations.MaleHeroOfJpg | app.js:621-628 | for a dot-free stem, `stem.jpg` becomes `stem1.jpg` |
| Recommendations.View | app.js:618-634 | Female gets the record; Male gets the suffixed hero (an empty hero stays empty); Male with a non-empty hero gets a non-empty `description_male` as description; every other field is the record's |
| Recommendations.ViewHeroWithoutDot | app.js:621-628 | a hero without a dot is shown unchanged for both genders |
| Recommendations.Resolve | app.js:607-634 | no card iff the lookup fails; otherwise the gender view of the found record, whose mood and weather are the ones chosen |
| Recommendations.ResolveByGender | app.js:607-634 | Female gets the stored record; in a table without `description_male`, Male gets the same record with at most the hero changed |
| Recommendations.ActiveSunnyFemale | app.js:817-833 | Active and Sunny for Female give the stored `active_sunny` record with hero `assets_img/active_sunny.jpg` |
| Recommendations.ActiveSunnyHero | app.js:621-628 | the Male hero of `assets_img/active_sunny.jpg` is `assets_img/active_sunny1.jpg` |
| Recommendations.ActiveSunnyMale | app.js:607-634 | Active and Sunny for Male give the stored record with hero `assets_img/active_sunny1.jpg` |
| Wizard.Initial | app.js:104-114 | the page as loaded: step 1, nothing selected, no model, Next disabled, only the prediction section, no predictions, card, detection, camera, countdown or capture; the state satisfies the invariant |
| Wizard.Apply | app.js:264-685 | the listener wiring: no event sets the step except to 2, a loaded model stays loaded, and an event fires at most one capture |
| Wizard.Run | app.js:264-685 | over any sequence of events: the step is kept or becomes 2, a loaded model stays loaded, and captures grow by at most one per event |
| Wizard.LoadModel | app.js:142-183 | a successful load makes predictions possible and changes nothing else |
| Wizard.SetEmotion | app.js:360-372 | the emotion is stored, its style derived, and Next enabled iff the emotion is one of the four keys; nothing else changes |
| Wizard.PickEmotion | app.js:374-380 | a missing `data-emote` changes nothing; otherwise the emotion is set |
| Wizard.PredictOnce | app.js:310-354 | without a model nothing changes. Otherwise the top three are shown and low confidence is flagged iff the best is below 0.6. A resolvable label sets its emotion and enables Next; an unresolvable one keeps the previous selection |
| Wizard.GotoWeather | app.js:558-570 | refused with no style. Otherwise: step 2, weather shown, prediction and final sections hidden; a detection starts iff geolocation exists, else the panel reports it unsupported |
| Wizard.CompleteDetection | app.js:478-552 | one pending detection ends. Only a fetched pair of readings sets the weather (overwriting any pick) and its report; refusal and failure leave the weather and report blocked or failed |
| Wizard.GotoGender | app.js:572-576 | weather section hidden, gender section shown, nothing else changes |
| Wizard.PickWeather | app.js:588-593 | the chosen weather is stored and the gender section shown in place of the weather section; the prediction and final sections are as they were |
| Wizard.ShowFinal | app.js:600-646 | refused unless style, weather and gender are all chosen. No match renders an empty card list; a match renders its gender view and shows only the final section |
| Wizard.PickGender | app.js:578-583 | the gender is stored, then the final card is attempted |
| Wizard.ShowFinalRendersResolution | app.js:600-646 | with the page's table, every complete choice shows exactly the gender view of its record and only the final section |
| Wizard.StopCamera | app.js:253-262 | no stream and no countdown flag; running interval timers are untouched |
| Wizard.StartCamera | app.js:226-251 | the previous stream is stopped; a stream exists afterwards iff permission is granted |
| Wizard.ToggleCamera | app.js:264-267 | stops a running camera, otherwise starts one |
| Wizard.ChooseFile | app.js:189-220 | only an image file stops the camera; no file or a non-image changes nothing |
| Wizard.StartCountdown | app.js:275-287 | refused without a stream or while counting down; otherwise a new timer starts at 3 and the flag is set |
| Wizard.Tick | app.js:288-303 | a timer above 1 counts down; at 1 it is removed, the flag drops and exactly one capture fires |
| Wizard.ClearSelections | app.js:653-665 | restart's first part: selections cleared, only the prediction section shown, shown predictions and advisory cleared, Next disabled |
| Wizard.Restart | app.js:652-672 | selections cleared, camera and countdown flag off, Next disabled, only the prediction section shown, predictions cleared. Step, model, cards, detections, timers and captures are unchanged |
| Wizard.Reset | app.js:674-685 | the camera is stopped and the prediction text and advisory are cleared; timers are untouched |
| Wizard.TickPreservesValid | app.js:288-303 | a timer tick keeps the invariant |
| Wizard.PredictPreservesValid | app.js:310-354 | a prediction keeps the invariant |
| Wizard.RestartPreservesValid | app.js:652-672 | restart keeps the invariant |
| Wizard.ShowFinalPreservesValid | app.js:600-646 | showing the final card keeps the invariant, for any table |
| Wizard.PickGenderPreservesValid | app.js:578-583 | a gender button keeps the invariant |
| Wizard.LoadModelPreservesValid | app.js:142-183 | loading the model keeps the invariant |
| Wizard.PickEmotionPreservesValid | app.js:374-380 | an emotion button keeps the invariant |
| Wizard.GotoWeatherPreservesValid | app.js:558-570 | the Next button keeps the invariant |
| Wizard.CompleteDetectionPreservesValid | app.js:478-552 | a detection completing keeps the invariant |
| Wizard.PickWeatherPreservesValid | app.js:588-593 | a weather button keeps the invariant |
| Wizard.ToggleCameraPreservesValid | app.js:264-267 | the camera button keeps the invariant |
| Wizard.ChooseFilePreservesValid | app.js:189-220 | the file input keeps the invariant |
| Wizard.StartCountdownPreservesValid | app.js:275-287 | the capture button keeps the invariant |
| Wizard.ResetPreservesValid | app.js:674-685 | the reset button keeps the invariant |
| Wizard.InnerHandlersPreserveValid | app.js:226-646 | `setEmotionAndEnableNext` (any key, the empty one included), `gotoGenderStep`, `showFinalCard` (any table), `stopCamera` and `startCamera` (with or without a stream) each keep the invariant when called on their own |
| Wizard.ApplyPreservesValid | app.js:104-114 | every event keeps the invariant |
| Wizard.RunPreservesValid | app.js:104-114 | every sequence of events keeps the invariant |
| Wizard.Reachable | app.js:104-114 | in every reachable state: step is 1 or 2, Next is enabled iff a style is selected, and the countdown flag `isCountingDown` is set only while a camera stream exists (the timers themselves can outlive the stream) |
| Wizard.UnknownEmotionBlocks | app.js:558-562 | an emotion outside the four keys leaves Next disabled, and the step to weather is refused |
| Wizard.CountdownFiresOnce | app.js:275-303 | a countdown started with a camera captures exactly once, on its third tick, then is gone and the flag is down |
| Wizard.CountdownNotReentrant | app.js:275-282 | a second capture press changes nothing |
| Wizard.StoppedCountdownStillCaptures | app.js:253-303 | stopping the camera mid-countdown does not stop the capture: three ticks later one capture fires, with no stream |
| Wizard.LateDetectionOverwritesPick | app.js:488-500 | a detection completing after a manual pick replaces the pick with the detected weather |
| Wizard.PickAfterDetectionStands | app.js:588-593 | a manual pick after the detection completed stands |
| Wizard.DeniedDetectionNeedsManualPick | app.js:547-550 | refused geolocation leaves the weather unset and the panel blocked; a manual pick still opens the gender step |
| Wizard.RestartBlocksFinal | app.js:600-604 | after restart a gender button records the gender and shows nothing more |
| Wizard.HappySunnyCard | app.js:600-646 | happy, Next, a detection of code 1, Sunny, then gender g: the card is g's view of the table's first record, shown alone in step 2 |
| Wizard.HappySunnyFemale | app.js:817-833 | for Female that path shows the stored `active_sunny` card in the final section |
| Wizard.HappySunnyMale | app.js:621-628 | for Male it shows the same card with hero `assets_img/active_sunny1.jpg` |
| SessionObject.Session.constructor | app.js:104-114 | the fields start as the loaded page, and the table is the one given |
| SessionObject.Session.ModelLoaded | app.js:142-183 | the new state is `Wizard.LoadModel` of the old |
| SessionObject.Session.SetEmotionAndEnableNext | app.js:360-372 | the new state is `Wizard.SetEmotion` of the old |
| SessionObject.Session.EmotionButton | app.js:374-380 | the new state is `Wizard.PickEmotion` of the old |
| SessionObject.Session.ShowPredictions | app.js:327-339 | only the shown predictions and the low-confidence flag change |
| SessionObject.Session.PredictOnce | app.js:310-354 | the new state is `Wizard.PredictOnce` of the old |
| SessionObject.Session.GotoWeatherStep | app.js:558-570 | the new state is `Wizard.GotoWeather` of the old |
| SessionObject.Session.AutoWeatherCompleted | app.js:488-551 | the new state is `Wizard.CompleteDetection` of the old |
| SessionObject.Session.ApplyReadings | app.js:499-539 | only the selected weather and the weather panel change |
| SessionObject.Session.GotoGenderStep | app.js:572-576 | the new state is `Wizard.GotoGender` of the old |
| SessionObject.Session.WeatherButton | app.js:588-593 | the new state is `Wizard.PickWeather` of the old |
| SessionObject.Session.RenderCards | app.js:612 | only the card list changes |
| SessionObject.Session.ShowCard | app.js:637-643 | only the card list and the sections change |
| SessionObject.Session.ShowFinalCard | app.js:600-646 | the new state is `Wizard.ShowFinal` of the old, with the session's table |
| SessionObject.Session.GenderButton | app.js:578-583 | the new state is `Wizard.PickGender` of the old, with the session's table |
| SessionObject.Session.StopCamera | app.js:253-262 | the new state is `Wizard.StopCamera` of the old |
| SessionObject.Session.StartCamera | app.js:226-251 | the new state is `Wizard.StartCamera` of the old |
| SessionObject.Session.CameraButton | app.js:264-267 | the new state is `Wizard.ToggleCamera` of the old |
| SessionObject.Session.FileChosen | app.js:189-220 | the new state is `Wizard.ChooseFile` of the old |
| SessionObject.Session.StartCountdownAndCapture | app.js:275-287 | the new state is `Wizard.StartCountdown` of the old |
| SessionObject.Session.CountdownTick | app.js:288-303 | the new state is `Wizard.Tick` of the old |
| SessionObject.Session.ClearChoices | app.js:653-656 | only the four selections change, to none |
| SessionObject.Session.ClearResults | app.js:658-665 | only the sections, the predictions, the advisory and Next change |
| SessionObject.Session.Restart | app.js:652-672 | the new state is `Wizard.Restart` of the old |
| SessionObject.Session.ResetCapture | app.js:674-685 | the new state is `Wizard.Reset` of the old |

## Left out

- **Rendering and output.**
  - Rendering, announcements, status text, bar charts, speech and beeps are not modelled.
  - Section visibility, the Next button, the prediction text, the advisory, the weather panel and the card list are kept as abstract state.
  - `renderCards` is not modelled beyond the list it renders.
- **Browser services.** Fetching and JSON, geolocation coordinates, the camera stream and the image classifier are parameters:
  - a file choice;
  - camera permission;
  - whether geolocation exists;
  - the detection outcome (a weather code and two readings);
  - the classifier's prediction list.
  - `Wizard.StartCamera` is one atomic step. In the source, `stopCamera()` runs before `getUserMedia` resolves, so a second click during the permission prompt starts a second request. The first stream is then overwritten without being stopped. That leak from overlapping requests is not modelled.
- **Air-quality readings.** The services' data come in as integers. The reduction of an array or a scalar and `Math.round` are not modelled, and the temperature is not modelled.
- **The classifier.** Canvas drawing and the classifier itself are not modelled. Probabilities are `real`, so NaN and floating-point comparison are not modelled.
- **Inference.ToLower:** folds only ASCII capitals. JavaScript's `toLowerCase` also folds non-ASCII letters.
- **Mood.MoodToStyle:** gives no style to inherited property names such as "constructor", which `MOOD_TO_STYLE[emote]` would find on the object prototype.
- **Wizard.LoadModel:** models only the successful load. A failed load keeps predictions impossible, which is the initial state. The progress bar and online status are not modelled.
- **Initial button and section state.** app.js:104-114 sets only the globals. In `Wizard.Initial`, Next is disabled and only the prediction section is shown; that state is taken from the page's markup, which is not part of this model. It is the same state restart sets at app.js:658-665.
- **Event order.** Events are not restricted by which section is visible; the model allows any order of events. This is a superset of what the page allows.
  - A tick for a timer that does not exist, or a detection completion with none pending, cannot arrive and changes nothing.
- **Attribute values.** Button attribute values (`data-weather`, `data-gender`) are typed values. Unexpected strings in those attributes are not modelled.
- **Exceptions.** Exceptions after `selectedWeather` has been set, such as in speech or rendering, are not modelled; a fetched detection always completes.
- **The prediction after a capture.** It is a separate prediction event. Its dependence on the video frame is not modelled.
- **Session:** the class does not restate `Wizard.Valid` as a class invariant. Each handler method's new state equals a `Wizard` function of the old one. These handlers are the constructor and `ModelLoaded`, `SetEmotionAndEnableNext`, `EmotionButton`, `PredictOnce`, `GotoWeatherStep`, `AutoWeatherCompleted`, `GotoGenderStep`, `WeatherButton`, `ShowFinalCard`, `GenderButton`, `StopCamera`, `StartCamera`, `CameraButton`, `FileChosen`, `StartCountdownAndCapture`, `CountdownTick`, `Restart` and `ResetCapture`. The constructor gives `Wizard.Initial`, and the thirteen event handlers are the branches of `Wizard.Apply`, so `Wizard.Reachable` gives the invariant for any run of them. `SetEmotionAndEnableNext`, `GotoGenderStep`, `ShowFinalCard`, `StopCamera` and `StartCamera` have no event of their own. `Wizard.InnerHandlersPreserveValid` proves that each of them keeps the invariant.
- **Session sub-steps:** `ShowPredictions`, `ApplyReadings`, `ShowCard`, `RenderCards`, `ClearChoices` and `ClearResults` are steps inside a handler. No `Wizard` function specifies them; their contract lists the fields they write. Called on their own, they can leave a state outside `Wizard.Valid`. For example, `ClearChoices` leaves Next enabled with no style, and `ShowPredictions` accepts more than three entries.

## Findings

None. The countdown that survives `stopCamera` is modelled as written, and `Wizard.StoppedCountdownStillCaptures` documents it.
