/**
 * The session globals of app.js and the effect of every event handler on them,
 * as functions from the state before the event to the state after it. The
 * `Session` class (session.dfy) holds these globals as fields and each of its
 * handler methods is specified by one of these functions; its sub-steps inside
 * a handler (`ShowPredictions`, `ApplyReadings`, `ShowCard`, `RenderCards`,
 * `ClearChoices`, `ClearResults`) are specified only by the fields they write.
 *
 * Section visibility, the Next button, the shown predictions, the weather
 * panel and the rendered card are kept as the state they are in the page, not
 * as markup.
 */
module Wizard {
  import opened Options
  import opened Mood
  import opened Weather
  import opened Inference
  import opened Recommendations

  /** Which of the four step sections are shown (each is hidden or not on its own). */
  datatype Sections = Sections(predict: bool, weather: bool, gender: bool, final: bool)

  const OnlyPredict := Sections(true, false, false, false)
  const OnlyFinal := Sections(false, false, false, true)

  /** What the `#weatherResult` panel says. */
  datatype WeatherStatus =
    | NotStarted
    | Detecting
    | Unsupported
    | Blocked
    | DetectionFailed
    | Detected(report: WeatherReport)

  /**
   * How one geolocation request and its paired weather and air-quality fetches
   * end: the position is refused, one of the two fetches fails (nothing is
   * applied), or both succeed with the weather code and the rounded PM values.
   */
  datatype DetectionOutcome = Denied | FetchFailed | Fetched(code: int, pm10: int, pm25: int)

  /** What the file input delivers. */
  datatype FileChoice = NoFile | NotAnImage | ImageFile

  datatype SessionState = SessionState(
    step: int,
    selectedEmotion: Option<string>,
    selectedStyle: Option<Style>,
    selectedWeather: Option<Weather>,
    selectedGender: Option<Gender>,
    nextEnabled: bool,
    visible: Sections,
    modelLoaded: bool,
    shownPredictions: seq<Prediction>,
    lowConfidence: bool,
    pendingDetections: nat,
    weatherStatus: WeatherStatus,
    cards: seq<Record>,
    webcamStream: bool,
    isCountingDown: bool,
    countdowns: seq<nat>,
    captures: nat)

  /** The page as loaded: step 1, nothing selected, only the prediction section shown. */
  function Initial(): (r: SessionState)
    ensures r.step == 1 && !r.modelLoaded && !r.nextEnabled && r.visible == OnlyPredict
    ensures r.selectedEmotion.None? && r.selectedStyle.None? && r.selectedWeather.None? && r.selectedGender.None?
    ensures r.shownPredictions == [] && r.cards == [] && r.weatherStatus == NotStarted && r.pendingDetections == 0
    ensures !r.webcamStream && !r.isCountingDown && r.countdowns == [] && r.captures == 0
    ensures Valid(r)
  {
    SessionState(1, None, None, None, None, false, OnlyPredict, false, [], false,
                 0, NotStarted, [], false, false, [], 0)
  }

  /** The style the script derives from the selected emotion. */
  function StyleOf(emotion: Option<string>): Option<Style>
  {
    if emotion.Some? then MoodToStyle(emotion.value) else None
  }

  /**
   * What every reachable state satisfies. `countdowns` holds the remaining
   * count of every interval timer still running; each fires its capture when
   * its count would reach zero.
   */
  ghost predicate Valid(s: SessionState)
  {
    && (s.step == 1 || s.step == 2)
    && s.selectedStyle == StyleOf(s.selectedEmotion)
    && s.nextEnabled == s.selectedStyle.Some?
    && |s.shownPredictions| <= TopK
    && (s.lowConfidence ==> s.shownPredictions != [])
    && |s.cards| <= 1
    && (s.isCountingDown ==> s.webcamStream && s.countdowns != [])
    && (forall i :: 0 <= i < |s.countdowns| ==> 1 <= s.countdowns[i] <= 3)
  }

  // ---------------------------------------------------------------- model

  /** `loadModel` succeeded: predictions are now accepted. */
  function LoadModel(s: SessionState): (r: SessionState)
    ensures r.modelLoaded
    ensures r == s.(modelLoaded := r.modelLoaded)
  {
    s.(modelLoaded := true)
  }

  // ---------------------------------------------------------------- emotion

  /** `setEmotionAndEnableNext`: records the emotion, derives its style and enables Next iff there is one. */
  function SetEmotion(s: SessionState, emote: string): (r: SessionState)
    ensures r.selectedEmotion == Some(emote)
    ensures r.selectedStyle == MoodToStyle(emote)
    ensures r.nextEnabled <==> emote in {"happy", "neutral", "sad", "angry"}
    ensures r == s.(selectedEmotion := r.selectedEmotion, selectedStyle := r.selectedStyle, nextEnabled := r.nextEnabled)
  {
    var style := MoodToStyle(emote);
    s.(selectedEmotion := Some(emote), selectedStyle := style, nextEnabled := style.Some?)
  }

  /** An emotion button: its `data-emote` value is applied unless it is missing (modelled as ""). */
  function PickEmotion(s: SessionState, attr: string): (r: SessionState)
    ensures attr == "" ==> r == s
    ensures attr != "" ==> r == SetEmotion(s, attr)
  {
    if attr != "" then SetEmotion(s, attr) else s
  }

  /**
   * `predictOnce`: without a model nothing happens. Otherwise the top three
   * predictions are shown, low confidence is flagged, and the top label's
   * emotion, if it has one, is set whatever its confidence; an unrecognised
   * label leaves the selections as they were.
   */
  function PredictOnce(s: SessionState, preds: seq<Prediction>): (r: SessionState)
    ensures !s.modelLoaded ==> r == s
    ensures s.modelLoaded ==> r.shownPredictions == TopPredictions(preds)
    ensures s.modelLoaded ==> (r.lowConfidence <==> preds != [] && r.shownPredictions[0].probability < LowConf)
    ensures s.modelLoaded && TopEmotion(r.shownPredictions).Some? ==>
      r.selectedEmotion == Some(EmotionName(TopEmotion(r.shownPredictions).value)) &&
      r.selectedStyle == MoodToStyle(EmotionName(TopEmotion(r.shownPredictions).value)) &&
      r.selectedStyle.Some? && r.nextEnabled
    ensures s.modelLoaded && TopEmotion(r.shownPredictions).None? ==>
      r.selectedEmotion == s.selectedEmotion && r.selectedStyle == s.selectedStyle && r.nextEnabled == s.nextEnabled
    ensures r == s.(shownPredictions := r.shownPredictions, lowConfidence := r.lowConfidence,
                    selectedEmotion := r.selectedEmotion, selectedStyle := r.selectedStyle,
                    nextEnabled := r.nextEnabled)
  {
    if !s.modelLoaded then s
    else
      var top := TopPredictions(preds);
      var shown := s.(shownPredictions := top, lowConfidence := LowConfidence(top));
      var emotion := TopEmotion(top);
      if emotion.Some? then
        EmotionMappingTotal(emotion.value, Happy);
        SetEmotion(shown, EmotionName(emotion.value))
      else
        shown
  }

  // ---------------------------------------------------------------- weather

  /**
   * `gotoWeatherStep`: refused, changing nothing, while no style is selected;
   * otherwise step 2, the weather section replaces the prediction and final
   * sections, and an automatic detection starts when geolocation exists.
   */
  function GotoWeather(s: SessionState, geolocationAvailable: bool): (r: SessionState)
    ensures s.selectedStyle.None? ==> r == s
    ensures s.selectedStyle.Some? ==>
      && r.step == 2
      && r.visible == s.visible.(predict := false, weather := true, final := false)
      && r.pendingDetections == s.pendingDetections + (if geolocationAvailable then 1 else 0)
      && r.weatherStatus == (if geolocationAvailable then Detecting else Unsupported)
      && r == s.(step := 2, visible := r.visible, pendingDetections := r.pendingDetections,
                 weatherStatus := r.weatherStatus)
  {
    if s.selectedStyle.None? then s
    else
      s.(step := 2,
         visible := s.visible.(predict := false, weather := true, final := false),
         pendingDetections := s.pendingDetections + (if geolocationAvailable then 1 else 0),
         weatherStatus := if geolocationAvailable then Detecting else Unsupported)
  }

  /**
   * The completion of one automatic detection, at whatever step the session
   * has reached (there is no cancellation). Only a complete pair of readings
   * sets `selectedWeather`, and it overwrites whatever was selected.
   */
  function CompleteDetection(s: SessionState, outcome: DetectionOutcome): (r: SessionState)
    requires s.pendingDetections > 0
    ensures r.pendingDetections == s.pendingDetections - 1
    ensures outcome.Fetched? ==> r.selectedWeather == Some(MapCodeToWeather(outcome.code))
    ensures outcome.Fetched? ==> r.weatherStatus == Detected(Report(outcome.code, outcome.pm10, outcome.pm25))
    ensures !outcome.Fetched? ==> r.selectedWeather == s.selectedWeather
    ensures outcome == Denied ==> r.weatherStatus == Blocked
    ensures outcome == FetchFailed ==> r.weatherStatus == DetectionFailed
    ensures r == s.(pendingDetections := r.pendingDetections, selectedWeather := r.selectedWeather,
                    weatherStatus := r.weatherStatus)
  {
    var s1 := s.(pendingDetections := s.pendingDetections - 1);
    match outcome
    case Denied => s1.(weatherStatus := Blocked)
    case FetchFailed => s1.(weatherStatus := DetectionFailed)
    case Fetched(code, pm10, pm25) =>
      s1.(selectedWeather := Some(MapCodeToWeather(code)), weatherStatus := Detected(Report(code, pm10, pm25)))
  }

  /** `gotoGenderStep`: the gender section replaces the weather section. */
  function GotoGender(s: SessionState): (r: SessionState)
    ensures r.visible == s.visible.(weather := false, gender := true)
    ensures r == s.(visible := r.visible)
  {
    s.(visible := s.visible.(weather := false, gender := true))
  }

  /** A weather button: the manual choice is applied at once and the gender step shown. */
  function PickWeather(s: SessionState, w: Weather): (r: SessionState)
    ensures r.selectedWeather == Some(w)
    ensures r.visible == s.visible.(weather := false, gender := true)
    ensures r == s.(selectedWeather := r.selectedWeather, visible := r.visible)
  {
    GotoGender(s.(selectedWeather := Some(w)))
  }

  // ---------------------------------------------------------------- final card

  /**
   * `showFinalCard`: refused, changing nothing, unless style, weather and
   * gender are all selected. A lookup with no match renders an empty card list
   * and leaves the sections alone; a match renders its gender view and shows
   * only the final section.
   */
  function ShowFinal(s: SessionState, catalog: seq<Record>): (r: SessionState)
    ensures s.selectedStyle.None? || s.selectedWeather.None? || s.selectedGender.None? ==> r == s
    ensures s.selectedStyle.Some? && s.selectedWeather.Some? && s.selectedGender.Some? ==>
      var found := Resolve(catalog, s.selectedStyle.value, s.selectedWeather.value, s.selectedGender.value);
      && (found.None? ==> r == s.(cards := []))
      && (found.Some? ==> r == s.(cards := [found.value], visible := OnlyFinal))
  {
    if s.selectedStyle.None? || s.selectedWeather.None? || s.selectedGender.None? then s
    else
      match Resolve(catalog, s.selectedStyle.value, s.selectedWeather.value, s.selectedGender.value)
      case None => s.(cards := [])
      case Some(view) => s.(cards := [view], visible := OnlyFinal)
  }

  /** A gender button: the choice is recorded, then the final card is attempted. */
  function PickGender(s: SessionState, g: Gender, catalog: seq<Record>): (r: SessionState)
    ensures r.selectedGender == Some(g)
    ensures r == ShowFinal(s.(selectedGender := Some(g)), catalog)
  {
    ShowFinal(s.(selectedGender := Some(g)), catalog)
  }

  /** With every selection made, the card shown is the resolved record of the session's choices. */
  lemma ShowFinalRendersResolution(s: SessionState)
    requires s.selectedStyle.Some? && s.selectedWeather.Some? && s.selectedGender.Some?
    ensures Find(Table(), s.selectedStyle.value, s.selectedWeather.value).Some?
    ensures ShowFinal(s, Table()).visible == OnlyFinal
    ensures ShowFinal(s, Table()).cards ==
      [View(Find(Table(), s.selectedStyle.value, s.selectedWeather.value).value, s.selectedGender.value)]
  {
    TableComplete(s.selectedStyle.value, s.selectedWeather.value);
  }

  // ---------------------------------------------------------------- camera

  /**
   * `stopCamera`: the stream is released and the countdown flag cleared. The
   * interval timers already running are not cancelled.
   */
  function StopCamera(s: SessionState): (r: SessionState)
    ensures !r.webcamStream && !r.isCountingDown
    ensures r.countdowns == s.countdowns
    ensures r == s.(webcamStream := false, isCountingDown := false)
  {
    s.(webcamStream := false, isCountingDown := false)
  }

  /** `startCamera`: any previous stream is stopped first; the new one exists iff permission is granted. */
  function StartCamera(s: SessionState, granted: bool): (r: SessionState)
    ensures r.webcamStream == granted && !r.isCountingDown
    ensures r == s.(webcamStream := granted, isCountingDown := false)
  {
    var stopped := StopCamera(s);
    if granted then stopped.(webcamStream := true) else stopped
  }

  /** The camera button: stops a running stream, otherwise tries to start one. */
  function ToggleCamera(s: SessionState, granted: bool): (r: SessionState)
    ensures s.webcamStream ==> r == StopCamera(s)
    ensures !s.webcamStream ==> r == StartCamera(s, granted)
  {
    if s.webcamStream then StopCamera(s) else StartCamera(s, granted)
  }

  /** The file input: only an image stops the camera (its prediction follows when it has loaded). */
  function ChooseFile(s: SessionState, choice: FileChoice): (r: SessionState)
    ensures choice == ImageFile ==> r == StopCamera(s)
    ensures choice != ImageFile ==> r == s
  {
    if choice == ImageFile then StopCamera(s) else s
  }

  /**
   * `startCountdownAndCapture`: refused without a stream or while a countdown
   * runs; otherwise a new timer starts at 3.
   */
  function StartCountdown(s: SessionState): (r: SessionState)
    ensures !s.webcamStream || s.isCountingDown ==> r == s
    ensures s.webcamStream && !s.isCountingDown ==>
      r == s.(isCountingDown := true, countdowns := s.countdowns + [3])
  {
    if !s.webcamStream || s.isCountingDown then s
    else s.(isCountingDown := true, countdowns := s.countdowns + [3])
  }

  /** The sequence without its element at `i`. */
  function RemoveAt<T>(xs: seq<T>, i: nat): (r: seq<T>)
    requires i < |xs|
    ensures |r| == |xs| - 1
    ensures forall j :: 0 <= j < i ==> r[j] == xs[j]
    ensures forall j :: i <= j < |r| ==> r[j] == xs[j + 1]
  {
    xs[..i] + xs[i + 1..]
  }

  /**
   * One second of timer `i`: its count goes down; when it would reach zero the
   * timer is cleared, the countdown flag drops and exactly one capture fires.
   */
  function Tick(s: SessionState, i: nat): (r: SessionState)
    requires i < |s.countdowns|
    ensures s.countdowns[i] > 1 ==> r == s.(countdowns := s.countdowns[i := s.countdowns[i] - 1])
    ensures s.countdowns[i] <= 1 ==>
      r == s.(countdowns := RemoveAt(s.countdowns, i), isCountingDown := false, captures := s.captures + 1)
  {
    if s.countdowns[i] > 1 then s.(countdowns := s.countdowns[i := s.countdowns[i] - 1])
    else s.(countdowns := RemoveAt(s.countdowns, i), isCountingDown := false, captures := s.captures + 1)
  }

  // ---------------------------------------------------------------- restart

  /**
   * The restart button: the four selections are cleared, only the prediction
   * section is shown, the results and Next are cleared and the camera is
   * stopped. `step` keeps its value.
   */
  function Restart(s: SessionState): (r: SessionState)
    ensures r.selectedEmotion.None? && r.selectedStyle.None? && r.selectedWeather.None? && r.selectedGender.None?
    ensures !r.webcamStream && !r.isCountingDown && !r.nextEnabled
    ensures r.visible == OnlyPredict
    ensures r.shownPredictions == [] && !r.lowConfidence
    ensures r.step == s.step && r.modelLoaded == s.modelLoaded && r.cards == s.cards
    ensures r.pendingDetections == s.pendingDetections && r.weatherStatus == s.weatherStatus
    ensures r.countdowns == s.countdowns && r.captures == s.captures
  {
    StopCamera(ClearSelections(s))
  }

  /** The part of restart before the camera is stopped. */
  function ClearSelections(s: SessionState): (r: SessionState)
    ensures r == s.(selectedEmotion := None, selectedStyle := None, selectedWeather := None,
                    selectedGender := None, visible := OnlyPredict,
                    shownPredictions := [], lowConfidence := false, nextEnabled := false)
  {
    s.(selectedEmotion := None, selectedStyle := None, selectedWeather := None,
       selectedGender := None, visible := OnlyPredict,
       shownPredictions := [], lowConfidence := false, nextEnabled := false)
  }

  /** The reset button: the camera is stopped and the prediction text and advisory are cleared. */
  function Reset(s: SessionState): (r: SessionState)
    ensures !r.webcamStream && !r.isCountingDown && r.countdowns == s.countdowns
    ensures r.shownPredictions == [] && !r.lowConfidence
    ensures r == s.(webcamStream := false, isCountingDown := false, shownPredictions := [], lowConfidence := false)
  {
    StopCamera(s).(shownPredictions := [], lowConfidence := false)
  }

  // ---------------------------------------------------------------- events

  /** Everything that can happen to the page. */
  datatype Event =
    | ModelReady
    | EmotionButton(attr: string)
    | Predicted(preds: seq<Prediction>)
    | NextButton(geolocationAvailable: bool)
    | DetectionDone(outcome: DetectionOutcome)
    | WeatherButton(w: Weather)
    | GenderButton(g: Gender)
    | RestartButton
    | CameraButton(granted: bool)
    | FileChosen(choice: FileChoice)
    | CaptureButton
    | TimerTick(timer: nat)
    | ResetButton

  /**
   * The effect of one event. A detection completion with no request pending,
   * or a tick of a timer that does not exist, cannot arrive and changes nothing.
   */
  function Apply(s: SessionState, e: Event, catalog: seq<Record>): (r: SessionState)
    ensures r.step == s.step || r.step == 2
    ensures s.modelLoaded ==> r.modelLoaded
    ensures r.captures == s.captures || r.captures == s.captures + 1
  {
    match e
    case ModelReady => LoadModel(s)
    case EmotionButton(attr) => PickEmotion(s, attr)
    case Predicted(preds) => PredictOnce(s, preds)
    case NextButton(geo) => GotoWeather(s, geo)
    case DetectionDone(outcome) => if s.pendingDetections > 0 then CompleteDetection(s, outcome) else s
    case WeatherButton(w) => PickWeather(s, w)
    case GenderButton(g) => PickGender(s, g, catalog)
    case RestartButton => Restart(s)
    case CameraButton(granted) => ToggleCamera(s, granted)
    case FileChosen(choice) => ChooseFile(s, choice)
    case CaptureButton => StartCountdown(s)
    case TimerTick(i) => if i < |s.countdowns| then Tick(s, i) else s
    case ResetButton => Reset(s)
  }

  /**
   * The events one after another. No event lowers the step except to 2, the
   * model once loaded stays loaded, and each event fires at most one capture.
   */
  function Run(s: SessionState, events: seq<Event>, catalog: seq<Record>): (r: SessionState)
    ensures r.step == s.step || r.step == 2
    ensures s.modelLoaded ==> r.modelLoaded
    ensures s.captures <= r.captures <= s.captures + |events|
    decreases |events|
  {
    if events == [] then s else Run(Apply(s, events[0], catalog), events[1..], catalog)
  }

  lemma {:induction false} TickPreservesValid(s: SessionState, i: nat)
    requires Valid(s) && i < |s.countdowns|
    ensures Valid(Tick(s, i))
  {
  }

  lemma {:induction false} PredictPreservesValid(s: SessionState, preds: seq<Prediction>)
    requires Valid(s)
    ensures Valid(PredictOnce(s, preds))
  {
    if s.modelLoaded {
      var emotion := TopEmotion(TopPredictions(preds));
      if emotion.Some? {
        EmotionMappingTotal(emotion.value, Happy);
      }
    }
  }

  lemma RestartPreservesValid(s: SessionState)
    requires Valid(s)
    ensures Valid(Restart(s))
  {
  }

  lemma ShowFinalPreservesValid(s: SessionState, catalog: seq<Record>)
    requires Valid(s)
    ensures Valid(ShowFinal(s, catalog))
  {
  }

  lemma {:induction false} PickGenderPreservesValid(s: SessionState, g: Gender, catalog: seq<Record>)
    requires Valid(s)
    ensures Valid(PickGender(s, g, catalog))
  {
    ShowFinalPreservesValid(s.(selectedGender := Some(g)), catalog);
  }

  lemma LoadModelPreservesValid(s: SessionState)
    requires Valid(s)
    ensures Valid(LoadModel(s))
  {
  }

  lemma PickEmotionPreservesValid(s: SessionState, attr: string)
    requires Valid(s)
    ensures Valid(PickEmotion(s, attr))
  {
  }

  lemma GotoWeatherPreservesValid(s: SessionState, geo: bool)
    requires Valid(s)
    ensures Valid(GotoWeather(s, geo))
  {
  }

  lemma CompleteDetectionPreservesValid(s: SessionState, outcome: DetectionOutcome)
    requires Valid(s) && s.pendingDetections > 0
    ensures Valid(CompleteDetection(s, outcome))
  {
  }

  lemma PickWeatherPreservesValid(s: SessionState, w: Weather)
    requires Valid(s)
    ensures Valid(PickWeather(s, w))
  {
  }

  lemma ToggleCameraPreservesValid(s: SessionState, granted: bool)
    requires Valid(s)
    ensures Valid(ToggleCamera(s, granted))
  {
  }

  lemma ChooseFilePreservesValid(s: SessionState, choice: FileChoice)
    requires Valid(s)
    ensures Valid(ChooseFile(s, choice))
  {
  }

  lemma StartCountdownPreservesValid(s: SessionState)
    requires Valid(s)
    ensures Valid(StartCountdown(s))
  {
  }

  lemma ResetPreservesValid(s: SessionState)
    requires Valid(s)
    ensures Valid(Reset(s))
  {
  }

  /**
   * The handlers that are steps of other handlers rather than events of their
   * own keep the invariant too, for any emotion key, gender or table.
   */
  lemma {:induction false} InnerHandlersPreserveValid(s: SessionState, emote: string, granted: bool, catalog: seq<Record>)
    requires Valid(s)
    ensures Valid(SetEmotion(s, emote)) && Valid(GotoGender(s)) && Valid(ShowFinal(s, catalog))
    ensures Valid(StopCamera(s)) && Valid(StartCamera(s, granted))
  {
    ShowFinalPreservesValid(s, catalog);
  }

  /** Every event keeps the invariant. */
  lemma {:induction false} ApplyPreservesValid(s: SessionState, e: Event, catalog: seq<Record>)
    requires Valid(s)
    ensures Valid(Apply(s, e, catalog))
  {
    match e
    case ModelReady => LoadModelPreservesValid(s);
    case EmotionButton(attr) => PickEmotionPreservesValid(s, attr);
    case Predicted(preds) => PredictPreservesValid(s, preds);
    case NextButton(geo) => GotoWeatherPreservesValid(s, geo);
    case DetectionDone(outcome) =>
      if s.pendingDetections > 0 { CompleteDetectionPreservesValid(s, outcome); }
    case WeatherButton(w) => PickWeatherPreservesValid(s, w);
    case GenderButton(g) => PickGenderPreservesValid(s, g, catalog);
    case RestartButton => RestartPreservesValid(s);
    case CameraButton(granted) => ToggleCameraPreservesValid(s, granted);
    case FileChosen(choice) => ChooseFilePreservesValid(s, choice);
    case CaptureButton => StartCountdownPreservesValid(s);
    case TimerTick(i) =>
      if i < |s.countdowns| { TickPreservesValid(s, i); }
    case ResetButton => ResetPreservesValid(s);
  }

  lemma {:induction false} RunPreservesValid(s: SessionState, events: seq<Event>, catalog: seq<Record>)
    requires Valid(s)
    ensures Valid(Run(s, events, catalog))
    decreases |events|
  {
    if events != [] {
      ApplyPreservesValid(s, events[0], catalog);
      RunPreservesValid(Apply(s, events[0], catalog), events[1..], catalog);
    }
  }

  /**
   * In every state the page can reach, whatever the recommendation table: the
   * step is 1 or 2, Next is enabled exactly when a style is selected, and the
   * countdown flag `isCountingDown` is set only while a camera stream exists
   * (the timers themselves may outlive the stream).
   */
  lemma Reachable(events: seq<Event>, catalog: seq<Record>)
    ensures Run(Initial(), events, catalog).step in {1, 2}
    ensures Run(Initial(), events, catalog).nextEnabled <==> Run(Initial(), events, catalog).selectedStyle.Some?
    ensures Run(Initial(), events, catalog).isCountingDown ==> Run(Initial(), events, catalog).webcamStream
  {
    RunPreservesValid(Initial(), events, catalog);
  }

  // ---------------------------------------------------------------- properties

  /** An emotion without a style leaves Next disabled and the step to weather refused. */
  lemma UnknownEmotionBlocks(s: SessionState, emote: string, geo: bool)
    requires !(emote in {"happy", "neutral", "sad", "angry"})
    ensures !SetEmotion(s, emote).nextEnabled
    ensures GotoWeather(SetEmotion(s, emote), geo) == SetEmotion(s, emote)
  {
  }

  /**
   * A countdown started with a camera and no countdown running fires exactly
   * one capture, on its third tick, and then is gone.
   */
  lemma CountdownFiresOnce(s: SessionState)
    requires Valid(s) && s.webcamStream && !s.isCountingDown
    ensures var n := |s.countdowns|;
      var s1 := StartCountdown(s);
      n < |s1.countdowns| && s1.isCountingDown && s1.captures == s.captures &&
      var s2 := Tick(s1, n);
      n < |s2.countdowns| && s2.captures == s.captures &&
      var s3 := Tick(s2, n);
      n < |s3.countdowns| && s3.captures == s.captures &&
      var s4 := Tick(s3, n);
      s4.captures == s.captures + 1 && !s4.isCountingDown && s4.countdowns == s.countdowns
  {
    var n := |s.countdowns|;
    var s1 := StartCountdown(s);
    var s2 := Tick(s1, n);
    var s3 := Tick(s2, n);
    assert s3.countdowns == s.countdowns + [1];
    assert RemoveAt(s3.countdowns, n) == s.countdowns;
  }

  /** A second press while a countdown runs, or a press without a camera, is ignored. */
  lemma CountdownNotReentrant(s: SessionState)
    ensures StartCountdown(StartCountdown(s)) == StartCountdown(s)
  {
  }

  /**
   * Stopping the camera mid-countdown clears the flag but not the timer: its
   * capture still fires, with no camera stream.
   */
  lemma StoppedCountdownStillCaptures(s: SessionState)
    requires Valid(s) && s.webcamStream && !s.isCountingDown
    ensures var n := |s.countdowns|;
      var stopped := StopCamera(StartCountdown(s));
      n < |stopped.countdowns| && !stopped.webcamStream &&
      var after := Tick(Tick(Tick(stopped, n), n), n);
      after.captures == s.captures + 1 && !after.webcamStream
  {
    var n := |s.countdowns|;
    var stopped := StopCamera(StartCountdown(s));
    var s3 := Tick(Tick(stopped, n), n);
    assert s3.countdowns == s.countdowns + [1];
  }

  /** With no cancellation, a detection that completes after a manual pick overwrites it. */
  lemma LateDetectionOverwritesPick(s: SessionState, manual: Weather, code: int, pm10: int, pm25: int)
    requires s.pendingDetections > 0
    ensures CompleteDetection(PickWeather(s, manual), Fetched(code, pm10, pm25)).selectedWeather ==
            Some(MapCodeToWeather(code))
  {
  }

  /** A pick made after the detection completed stands. */
  lemma PickAfterDetectionStands(s: SessionState, manual: Weather, outcome: DetectionOutcome)
    requires s.pendingDetections > 0
    ensures PickWeather(CompleteDetection(s, outcome), manual).selectedWeather == Some(manual)
  {
  }

  /** Refused geolocation leaves the weather unset; the manual pick still leads to the gender step. */
  lemma DeniedDetectionNeedsManualPick(s: SessionState, manual: Weather)
    requires s.pendingDetections > 0 && s.selectedWeather.None?
    ensures CompleteDetection(s, Denied).selectedWeather.None?
    ensures CompleteDetection(s, Denied).weatherStatus == Blocked
    ensures PickWeather(CompleteDetection(s, Denied), manual).visible.gender
  {
  }

  /** After a restart the final card cannot be shown until a new emotion is chosen. */
  lemma RestartBlocksFinal(s: SessionState, g: Gender, catalog: seq<Record>)
    ensures PickGender(Restart(s), g, catalog) == Restart(s).(selectedGender := Some(g))
  {
  }

  /** A run of five events is their effects one after another. */
  lemma RunFive(s: SessionState, e1: Event, e2: Event, e3: Event, e4: Event, e5: Event, c: seq<Record>)
    ensures Run(s, [e1, e2, e3, e4, e5], c) == Apply(Apply(Apply(Apply(Apply(s, e1, c), e2, c), e3, c), e4, c), e5, c)
  {
    var s1 := Apply(s, e1, c);
    var s2 := Apply(s1, e2, c);
    var s3 := Apply(s2, e3, c);
    var s4 := Apply(s3, e4, c);
    assert Run(s4, [e5], c) == Apply(s4, e5, c) by {
      assert [e5][1..] == [];
    }
    assert Run(s3, [e4, e5], c) == Run(s4, [e5], c) by {
      assert [e4, e5][1..] == [e5];
    }
    assert Run(s2, [e3, e4, e5], c) == Run(s3, [e4, e5], c) by {
      assert [e3, e4, e5][1..] == [e4, e5];
    }
    assert Run(s1, [e2, e3, e4, e5], c) == Run(s2, [e3, e4, e5], c) by {
      assert [e2, e3, e4, e5][1..] == [e3, e4, e5];
    }
    assert Run(s, [e1, e2, e3, e4, e5], c) == Run(s1, [e2, e3, e4, e5], c) by {
      assert [e1, e2, e3, e4, e5][1..] == [e2, e3, e4, e5];
    }
  }

  lemma ApplyEmotionButton(s: SessionState, attr: string, c: seq<Record>)
    ensures Apply(s, EmotionButton(attr), c) == PickEmotion(s, attr)
  {
  }

  lemma ApplyNextButton(s: SessionState, geo: bool, c: seq<Record>)
    ensures Apply(s, NextButton(geo), c) == GotoWeather(s, geo)
  {
  }

  lemma ApplyDetectionDone(s: SessionState, outcome: DetectionOutcome, c: seq<Record>)
    requires s.pendingDetections > 0
    ensures Apply(s, DetectionDone(outcome), c) == CompleteDetection(s, outcome)
  {
  }

  lemma ApplyWeatherButton(s: SessionState, w: Weather, c: seq<Record>)
    ensures Apply(s, WeatherButton(w), c) == PickWeather(s, w)
  {
  }

  lemma ApplyGenderButton(s: SessionState, g: Gender, c: seq<Record>)
    ensures Apply(s, GenderButton(g), c) == PickGender(s, g, c)
  {
  }

  /** Happy, then the weather step with a detection of code 1 and the Sunny button, then gender `g`. */
  lemma HappySunnyPrefix(g: Gender, c: seq<Record>)
    ensures Run(Initial(), [EmotionButton("happy"), NextButton(true), DetectionDone(Fetched(1, 20, 10)),
                            WeatherButton(Sunny), GenderButton(g)], c) ==
            PickGender(PickWeather(CompleteDetection(GotoWeather(PickEmotion(Initial(), "happy"), true),
                                                     Fetched(1, 20, 10)), Sunny), g, c)
  {
    var outcome := Fetched(1, 20, 10);
    RunFive(Initial(), EmotionButton("happy"), NextButton(true), DetectionDone(outcome),
            WeatherButton(Sunny), GenderButton(g), c);
    var s1 := PickEmotion(Initial(), "happy");
    ApplyEmotionButton(Initial(), "happy", c);
    var s2 := GotoWeather(s1, true);
    ApplyNextButton(s1, true, c);
    assert s2.pendingDetections == 1;
    var s3 := CompleteDetection(s2, outcome);
    ApplyDetectionDone(s2, outcome, c);
    var s4 := PickWeather(s3, Sunny);
    ApplyWeatherButton(s3, Sunny, c);
    ApplyGenderButton(s4, g, c);
  }

  /** With any table whose first record is for (Active, Sunny), that path shows the gender view of that record. */
  lemma HappySunnyCard(g: Gender, c: seq<Record>)
    requires |c| > 0 && Matches(c[0], Active, Sunny)
    ensures var s := Run(Initial(), [EmotionButton("happy"), NextButton(true), DetectionDone(Fetched(1, 20, 10)),
                                     WeatherButton(Sunny), GenderButton(g)], c);
      s.cards == [View(c[0], g)] && s.visible == OnlyFinal && s.step == 2
  {
    HappySunnyPrefix(g, c);
    FindFirst(c, Active, Sunny, 0);
  }

  /** Happy, detected sunshine confirmed by hand, then Female: the stored `active_sunny` card. */
  lemma HappySunnyFemale()
    ensures var s := Run(Initial(), [EmotionButton("happy"), NextButton(true), DetectionDone(Fetched(1, 20, 10)),
                                     WeatherButton(Sunny), GenderButton(Female)], Table());
      s.cards == [ActiveSunny()] && s.visible == OnlyFinal
  {
    HappySunnyCard(Female, Table());
  }

  /** The same path with Male: `active_sunny1.jpg`, every other field as stored. */
  lemma HappySunnyMale()
    ensures var s := Run(Initial(), [EmotionButton("happy"), NextButton(true), DetectionDone(Fetched(1, 20, 10)),
                                     WeatherButton(Sunny), GenderButton(Male)], Table());
      s.cards == [ActiveSunny().(hero := "assets_img/active_sunny1.jpg")]
  {
    HappySunnyCard(Male, Table());
    ActiveSunnyMale();
    FindFirst(Table(), Active, Sunny, 0);
  }
}
