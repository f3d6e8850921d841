/** The four emotions the classifier can report and `MOOD_TO_STYLE` (app.js section 0). */
module Mood {
  import opened Options

  datatype Emotion = Happy | Neutral | Sad | Angry

  /** The lower-case key the script passes to `setEmotionAndEnableNext`. */
  function EmotionName(e: Emotion): string
  {
    match e
    case Happy => "happy"
    case Neutral => "neutral"
    case Sad => "sad"
    case Angry => "angry"
  }

  datatype Style = Active | Minimal | Cozy | Street

  /**
   * `MOOD_TO_STYLE[emote] || null`: the four emotion keys have a style and
   * every other string has none.
   */
  function MoodToStyle(emote: string): (r: Option<Style>)
    ensures r == Some(Active) <==> emote == "happy"
    ensures r == Some(Minimal) <==> emote == "neutral"
    ensures r == Some(Cozy) <==> emote == "sad"
    ensures r == Some(Street) <==> emote == "angry"
    ensures r.None? <==> !(emote in {"happy", "neutral", "sad", "angry"})
  {
    if emote == "happy" then Some(Active)
    else if emote == "neutral" then Some(Minimal)
    else if emote == "sad" then Some(Cozy)
    else if emote == "angry" then Some(Street)
    else None
  }

  /** Every emotion the classifier can report has a style, and distinct emotions get distinct styles. */
  lemma EmotionMappingTotal(e1: Emotion, e2: Emotion)
    ensures MoodToStyle(EmotionName(e1)).Some?
    ensures MoodToStyle(EmotionName(e1)) == MoodToStyle(EmotionName(e2)) ==> e1 == e2
  {
  }
}
