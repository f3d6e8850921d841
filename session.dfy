/**
 * The script's session globals (`step`, the four selections, `webcamStream`,
 * `isCountingDown`, the running countdown timers) and the page state the
 * handlers set, as one object whose methods are the event handlers. Every
 * handler method leaves the object in the state the matching function of
 * module Wizard gives, so what is proved there about those functions and about
 * runs of events (Wizard.Reachable) holds of the object after each handler.
 * The sub-steps `ShowPredictions`, `ApplyReadings`, `ShowCard`, `RenderCards`,
 * `ClearChoices` and `ClearResults` are parts of a handler: they are specified
 * only by the fields they write, and on their own they can leave a state
 * outside Wizard.Valid.
 */
module SessionObject {
  import opened Options
  import opened Mood
  import opened Weather
  import opened Inference
  import opened Recommendations
  import W = Wizard

  class Session {
    var step: int
    var selectedEmotion: Option<string>
    var selectedStyle: Option<Style>
    var selectedWeather: Option<Weather>
    var selectedGender: Option<Gender>
    var nextEnabled: bool
    var visible: W.Sections
    var modelLoaded: bool
    var shownPredictions: seq<Prediction>
    var lowConfidence: bool
    var pendingDetections: nat
    var weatherStatus: W.WeatherStatus
    var cards: seq<Record>
    var webcamStream: bool
    var isCountingDown: bool
    var countdowns: seq<nat>
    var captures: nat
    /** The recommendation table (`RECOMMENDATIONS`, that is `Table()`), fixed when the page loads. */
    const catalog: seq<Record>

    /** The fields as one value. */
    function State(): W.SessionState
      reads this
    {
      W.SessionState(step, selectedEmotion, selectedStyle, selectedWeather, selectedGender, nextEnabled,
                     visible, modelLoaded, shownPredictions, lowConfidence, pendingDetections,
                     weatherStatus, cards, webcamStream, isCountingDown, countdowns, captures)
    }

    /** The page as loaded. */
    constructor (recommendations: seq<Record>)
      ensures State() == W.Initial() && catalog == recommendations
    {
      catalog := recommendations;
      step := 1;
      selectedEmotion, selectedStyle, selectedWeather, selectedGender := None, None, None, None;
      nextEnabled := false;
      visible := W.OnlyPredict;
      modelLoaded := false;
      shownPredictions, lowConfidence := [], false;
      pendingDetections, weatherStatus := 0, W.NotStarted;
      cards := [];
      webcamStream, isCountingDown, countdowns, captures := false, false, [], 0;
    }

    /** `loadModel` succeeded. */
    method ModelLoaded()
      modifies this
      ensures State() == W.LoadModel(old(State()))
    {
      modelLoaded := true;
    }

    /** `setEmotionAndEnableNext`. */
    method SetEmotionAndEnableNext(emote: string)
      modifies this
      ensures State() == W.SetEmotion(old(State()), emote)
    {
      selectedEmotion := Some(emote);
      selectedStyle := MoodToStyle(emote);
      nextEnabled := selectedStyle.Some?;
    }

    /** An emotion button with its `data-emote` value ("" when it has none). */
    method EmotionButton(attr: string)
      modifies this
      ensures State() == W.PickEmotion(old(State()), attr)
    {
      if attr != "" {
        SetEmotionAndEnableNext(attr);
      }
    }

    /** The prediction text and the low-confidence advisory of `predictOnce`. */
    method ShowPredictions(top: seq<Prediction>)
      modifies this
      ensures State() == old(State()).(shownPredictions := top, lowConfidence := LowConfidence(top))
    {
      shownPredictions := top;
      lowConfidence := LowConfidence(top);
    }

    /** `predictOnce` with the classifier's output `preds`. */
    method PredictOnce(preds: seq<Prediction>)
      modifies this
      ensures State() == W.PredictOnce(old(State()), preds)
    {
      if !modelLoaded {
        return;
      }
      var top := TopPredictions(preds);
      ShowPredictions(top);
      var emotion := TopEmotion(top);
      if emotion.Some? {
        SetEmotionAndEnableNext(EmotionName(emotion.value));
      }
    }

    /** `gotoWeatherStep`; `geolocationAvailable` is whether `navigator.geolocation` exists. */
    method GotoWeatherStep(geolocationAvailable: bool)
      modifies this
      ensures State() == W.GotoWeather(old(State()), geolocationAvailable)
    {
      if selectedStyle.None? {
        return;
      }
      step := 2;
      visible := visible.(predict := false, weather := true, final := false);
      weatherStatus := W.Detecting;
      if geolocationAvailable {
        pendingDetections := pendingDetections + 1;
      } else {
        weatherStatus := W.Unsupported;
      }
    }

    /** The asynchronous end of one `autoSetWeather` request. */
    method AutoWeatherCompleted(outcome: W.DetectionOutcome)
      requires pendingDetections > 0
      modifies this
      ensures State() == W.CompleteDetection(old(State()), outcome)
    {
      pendingDetections := pendingDetections - 1;
      match outcome
      case Denied => weatherStatus := W.Blocked;
      case FetchFailed => weatherStatus := W.DetectionFailed;
      case Fetched(code, pm10, pm25) => ApplyReadings(code, pm10, pm25);
    }

    /** A complete pair of readings: the weather is selected from the code and the panel shows the report. */
    method ApplyReadings(code: int, pm10: int, pm25: int)
      modifies this
      ensures State() == old(State()).(selectedWeather := Some(MapCodeToWeather(code)),
                                       weatherStatus := W.Detected(Report(code, pm10, pm25)))
    {
      selectedWeather := Some(MapCodeToWeather(code));
      weatherStatus := W.Detected(Report(code, pm10, pm25));
    }

    /** `gotoGenderStep`. */
    method GotoGenderStep()
      modifies this
      ensures State() == W.GotoGender(old(State()))
    {
      visible := visible.(weather := false, gender := true);
    }

    /** A weather button. */
    method WeatherButton(w: Weather)
      modifies this
      ensures State() == W.PickWeather(old(State()), w)
    {
      selectedWeather := Some(w);
      GotoGenderStep();
    }

    /** `showFinalCard`. */
    method ShowFinalCard()
      modifies this
      ensures State() == W.ShowFinal(old(State()), catalog)
    {
      if selectedStyle.None? || selectedWeather.None? || selectedGender.None? {
        return;
      }
      var found := Resolve(catalog, selectedStyle.value, selectedWeather.value, selectedGender.value);
      if found.None? {
        RenderCards([]);
        return;
      }
      ShowCard(found.value);
    }

    /** A match: its card is rendered and only the final section is shown. */
    method ShowCard(card: Record)
      modifies this
      ensures State() == old(State()).(cards := [card], visible := W.OnlyFinal)
    {
      RenderCards([card]);
      visible := W.OnlyFinal;
    }

    /** `renderCards`: the card list shown in the final section. */
    method RenderCards(list: seq<Record>)
      modifies this
      ensures State() == old(State()).(cards := list)
    {
      cards := list;
    }

    /** A gender button. */
    method GenderButton(g: Gender)
      modifies this
      ensures State() == W.PickGender(old(State()), g, catalog)
    {
      selectedGender := Some(g);
      ShowFinalCard();
    }

    /** `stopCamera`: the interval timers already running are left alone. */
    method StopCamera()
      modifies this
      ensures State() == W.StopCamera(old(State()))
    {
      webcamStream := false;
      isCountingDown := false;
    }

    /** `startCamera`; `granted` is whether `getUserMedia` delivered a stream. */
    method StartCamera(granted: bool)
      modifies this
      ensures State() == W.StartCamera(old(State()), granted)
    {
      StopCamera();
      if granted {
        webcamStream := true;
      }
    }

    /** The camera button. */
    method CameraButton(granted: bool)
      modifies this
      ensures State() == W.ToggleCamera(old(State()), granted)
    {
      if webcamStream {
        StopCamera();
      } else {
        StartCamera(granted);
      }
    }

    /** The file input's change handler. */
    method FileChosen(choice: W.FileChoice)
      modifies this
      ensures State() == W.ChooseFile(old(State()), choice)
    {
      if choice == W.ImageFile {
        StopCamera();
      }
    }

    /** `startCountdownAndCapture`. */
    method StartCountdownAndCapture()
      modifies this
      ensures State() == W.StartCountdown(old(State()))
    {
      if !webcamStream {
        return;
      }
      if isCountingDown {
        return;
      }
      isCountingDown := true;
      countdowns := countdowns + [3];
    }

    /** One interval callback of countdown timer `i`. */
    method CountdownTick(i: nat)
      requires i < |countdowns|
      modifies this
      ensures State() == W.Tick(old(State()), i)
    {
      if countdowns[i] > 1 {
        countdowns := countdowns[i := countdowns[i] - 1];
      } else {
        countdowns := W.RemoveAt(countdowns, i);
        isCountingDown := false;
        captures := captures + 1;
      }
    }

    /** The restart button. */
    method Restart()
      modifies this
      ensures State() == W.Restart(old(State()))
    {
      ClearChoices();
      ClearResults();
      StopCamera();
    }

    /** Restart forgets the four selections ... */
    method ClearChoices()
      modifies this
      ensures State() == old(State()).(selectedEmotion := None, selectedStyle := None, selectedWeather := None,
                                       selectedGender := None)
    {
      selectedEmotion, selectedStyle, selectedWeather, selectedGender := None, None, None, None;
    }

    /** ... shows only the prediction section, clears the predictions and disables Next. */
    method ClearResults()
      modifies this
      ensures State() == old(State()).(visible := W.OnlyPredict, shownPredictions := [], lowConfidence := false,
                                       nextEnabled := false)
    {
      visible := W.OnlyPredict;
      shownPredictions, lowConfidence := [], false;
      nextEnabled := false;
    }

    /** The reset button. */
    method ResetCapture()
      modifies this
      ensures State() == W.Reset(old(State()))
    {
      StopCamera();
      shownPredictions, lowConfidence := [], false;
    }
  }

  /**
   * A client run justified by the methods' contracts alone: a late detection
   * overwrites the manual weather pick, and restart keeps the step.
   */
  method LateDetectionSession(recommendations: seq<Record>)
  {
    var session := new Session(recommendations);
    session.EmotionButton("happy");
    assert session.selectedStyle == Some(Active) && session.nextEnabled;
    session.GotoWeatherStep(true);
    assert session.step == 2 && session.pendingDetections == 1;
    session.WeatherButton(Cloudy);
    session.AutoWeatherCompleted(W.Fetched(0, 100, 40));
    assert session.selectedWeather == Some(Sunny);
    session.Restart();
    assert session.selectedStyle.None? && session.selectedWeather.None? && session.step == 2;
  }
}
