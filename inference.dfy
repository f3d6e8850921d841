/**
 * Post-processing of the classifier output in `predictOnce` (app.js section 7):
 * the stable descending sort, the top-K cut, the low-confidence test and the
 * resolution of the top label to an emotion.
 */
module Inference {
  import opened Options
  import opened Mood

  /** One entry of `model.predict`: a class name and its probability. */
  datatype Prediction = Prediction(className: string, probability: real)

  const TopK: nat := 3
  const LowConf: real := 0.6

  ghost predicate SortedDesc(s: seq<Prediction>)
  {
    forall i, j :: 0 <= i < j < |s| ==> s[i].probability >= s[j].probability
  }

  /** Every entry of `s` is at most `v` likely. */
  ghost predicate AllAtMost(s: seq<Prediction>, v: real)
  {
    forall x :: x in multiset(s) ==> x.probability <= v
  }

  /** The entries of `s` whose probability is exactly `v`, in their order in `s`. */
  function Ties(s: seq<Prediction>, v: real): (t: seq<Prediction>)
    ensures |t| <= |s|
  {
    if s == [] then []
    else if s[0].probability == v then [s[0]] + Ties(s[1..], v)
    else Ties(s[1..], v)
  }

  lemma TiesCons(x: Prediction, s: seq<Prediction>, v: real)
    ensures Ties([x] + s, v) == if x.probability == v then [x] + Ties(s, v) else Ties(s, v)
  {
    assert ([x] + s)[1..] == s;
  }

  lemma {:induction false} TiesAppend(a: seq<Prediction>, b: seq<Prediction>, v: real)
    ensures Ties(a + b, v) == Ties(a, v) + Ties(b, v)
  {
    if a == [] {
      assert a + b == b;
    } else {
      assert a + b == [a[0]] + (a[1..] + b);
      assert a == [a[0]] + a[1..];
      TiesCons(a[0], a[1..] + b, v);
      TiesCons(a[0], a[1..], v);
      TiesAppend(a[1..], b, v);
      if a[0].probability == v {
        assert [a[0]] + (Ties(a[1..], v) + Ties(b, v)) == ([a[0]] + Ties(a[1..], v)) + Ties(b, v);
      }
    }
  }

  /** The head of a sorted sequence bounds everything after it. */
  lemma SortedTailAtMost(s: seq<Prediction>)
    requires SortedDesc(s) && s != []
    ensures AllAtMost(s[1..], s[0].probability)
  {
    forall x | x in multiset(s[1..]) ensures x.probability <= s[0].probability {
      var j :| 0 <= j < |s[1..]| && s[1..][j] == x;
      assert s[j + 1] == x;
    }
  }

  lemma ConsSorted(x: Prediction, s: seq<Prediction>)
    requires SortedDesc(s) && AllAtMost(s, x.probability)
    ensures SortedDesc([x] + s)
  {
    forall i, j | 0 <= i < j < |[x] + s|
      ensures ([x] + s)[i].probability >= ([x] + s)[j].probability
    {
      if i == 0 {
        assert ([x] + s)[j] == s[j - 1];
        assert s[j - 1] in multiset(s);
      }
    }
  }

  /**
   * Inserts `p` in front of the first entry of the sorted `s` that it is not
   * smaller than.
   */
  function Insert(p: Prediction, s: seq<Prediction>): (r: seq<Prediction>)
    requires SortedDesc(s)
    ensures SortedDesc(r)
    ensures multiset(r) == multiset(s) + multiset{p}
  {
    if s == [] || p.probability >= s[0].probability then
      assert AllAtMost(s, p.probability) by {
        if s != [] { SortedTailAtMost(s); }
      }
      ConsSorted(p, s);
      [p] + s
    else
      var rest := Insert(p, s[1..]);
      assert s == [s[0]] + s[1..];
      SortedTailAtMost(s);
      assert AllAtMost(rest, s[0].probability);
      ConsSorted(s[0], rest);
      [s[0]] + rest
  }

  /**
   * Inserting an entry that comes before every entry of `s` in the input keeps
   * the input order among equal probabilities.
   */
  lemma {:induction false} InsertTies(p: Prediction, s: seq<Prediction>, v: real)
    requires SortedDesc(s)
    ensures Ties(Insert(p, s), v) == Ties([p] + s, v)
  {
    if s == [] || p.probability >= s[0].probability {
    } else {
      var rest := Insert(p, s[1..]);
      InsertTies(p, s[1..], v);
      assert s == [s[0]] + s[1..];
      TiesCons(s[0], rest, v);
      TiesCons(p, s[1..], v);
      TiesCons(p, s, v);
      TiesCons(s[0], s[1..], v);
    }
  }

  /**
   * `preds.sort((a, b) => b.probability - a.probability)`: a sort by
   * descending probability that permutes its input.
   */
  function SortDesc(s: seq<Prediction>): (r: seq<Prediction>)
    ensures SortedDesc(r)
    ensures multiset(r) == multiset(s)
    ensures |r| == |s|
  {
    if s == [] then []
    else
      var r := Insert(s[0], SortDesc(s[1..]));
      assert s == [s[0]] + s[1..];
      assert |r| == |multiset(r)| == |multiset(s)| == |s|;
      r
  }

  /** The sort is stable: the entries of each probability keep their input order. */
  lemma {:induction false} SortDescStable(s: seq<Prediction>, v: real)
    ensures Ties(SortDesc(s), v) == Ties(s, v)
  {
    if s != [] {
      assert s == [s[0]] + s[1..];
      InsertTies(s[0], SortDesc(s[1..]), v);
      SortDescStable(s[1..], v);
      TiesCons(s[0], SortDesc(s[1..]), v);
      TiesCons(s[0], s[1..], v);
    }
  }

  function Min(a: nat, b: nat): nat { if a <= b then a else b }

  lemma SortedCut(s: seq<Prediction>, k: nat)
    requires SortedDesc(s) && k <= |s|
    ensures forall x, d :: x in s[..k] && d in multiset(s[k..]) ==> d.probability <= x.probability
  {
    forall x, d | x in s[..k] && d in multiset(s[k..])
      ensures d.probability <= x.probability
    {
      var i :| 0 <= i < k && s[..k][i] == x;
      var j :| 0 <= j < |s[k..]| && s[k..][j] == d;
      assert s[i] == x && s[k + j] == d;
    }
  }

  /** A prefix of a sorted permutation of `preds`: sorted, drawn from `preds`, and never outranked by what it leaves. */
  lemma PrefixOfSorted(preds: seq<Prediction>, sorted: seq<Prediction>, k: nat)
    requires SortedDesc(sorted) && multiset(sorted) == multiset(preds) && k <= |sorted|
    ensures SortedDesc(sorted[..k])
    ensures multiset(sorted[..k]) <= multiset(preds)
    ensures forall x, d :: x in sorted[..k] && d in multiset(preds) - multiset(sorted[..k]) ==>
      d.probability <= x.probability
  {
    assert sorted == sorted[..k] + sorted[k..];
    assert multiset(preds) - multiset(sorted[..k]) == multiset(sorted[k..]);
    SortedCut(sorted, k);
  }

  /**
   * `.slice(0, TOP_K)` of the sorted predictions: at most three entries, in
   * descending order, drawn from the input, and no dropped entry is more
   * probable than a kept one.
   */
  function TopPredictions(preds: seq<Prediction>): (r: seq<Prediction>)
    ensures |r| == Min(TopK, |preds|)
    ensures SortedDesc(r)
    ensures multiset(r) <= multiset(preds)
    ensures forall x, d :: x in r && d in multiset(preds) - multiset(r) ==> d.probability <= x.probability
  {
    var sorted := SortDesc(preds);
    var k := Min(TopK, |preds|);
    PrefixOfSorted(preds, sorted, k);
    sorted[..k]
  }

  /** The retained entries of each probability are the first ones of the input with that probability. */
  lemma {:induction false} TopPredictionsStable(preds: seq<Prediction>, v: real)
    ensures Ties(TopPredictions(preds), v) <= Ties(preds, v)
  {
    var sorted := SortDesc(preds);
    var k := Min(TopK, |preds|);
    assert sorted == sorted[..k] + sorted[k..];
    TiesAppend(sorted[..k], sorted[k..], v);
    SortDescStable(preds, v);
  }

  /** Every retained entry is one of the model's predictions. */
  lemma TopPredictionsFromInput(preds: seq<Prediction>, x: Prediction)
    requires x in TopPredictions(preds)
    ensures x in preds
  {
    assert x in multiset(TopPredictions(preds));
  }

  /** `best.probability < LOW_CONF`: an advisory only; it does not stop the emotion being set. */
  predicate LowConfidence(top: seq<Prediction>)
  {
    |top| > 0 && top[0].probability < LowConf
  }

  /**
   * The advisory is shown exactly when the classifier returned something and
   * none of its classes reached `LOW_CONF`.
   */
  lemma {:induction false} LowConfidenceIffAllBelow(preds: seq<Prediction>)
    ensures LowConfidence(TopPredictions(preds)) <==>
      preds != [] && forall x :: x in preds ==> x.probability < LowConf
  {
    if preds != [] {
      TopIsMaximum(preds);
    }
  }

  /** The head of a descending sequence is a most probable entry of it. */
  lemma SortedHeadIsMaximum(s: seq<Prediction>, x: Prediction)
    requires SortedDesc(s) && x in s
    ensures x.probability <= s[0].probability
  {
    var j :| 0 <= j < |s| && s[j] == x;
  }

  /** The first retained entry is a most probable prediction of the input. */
  lemma {:induction false} TopIsMaximum(preds: seq<Prediction>)
    requires preds != []
    ensures |TopPredictions(preds)| > 0 && TopPredictions(preds)[0] in preds
    ensures forall x :: x in preds ==> x.probability <= TopPredictions(preds)[0].probability
  {
    var sorted := SortDesc(preds);
    assert TopPredictions(preds)[0] == sorted[0];
    assert sorted[0] in multiset(preds);
    forall x | x in preds
      ensures x.probability <= sorted[0].probability
    {
      assert x in multiset(sorted);
      SortedHeadIsMaximum(sorted, x);
    }
  }

  /** The emotion of the most probable retained entry; nothing when there is none. */
  function TopEmotion(top: seq<Prediction>): (r: Option<Emotion>)
    ensures top == [] ==> r.None?
    ensures top != [] ==> r == ResolveEmotion(top[0].className)
  {
    if top == [] then None else ResolveEmotion(top[0].className)
  }

  /** `String.prototype.toLowerCase` restricted to the Latin capitals. */
  function LowerChar(c: char): (d: char)
    ensures 'A' <= c <= 'Z' ==> d as int == c as int + 32
    ensures !('A' <= c <= 'Z') ==> d == c
  {
    if 'A' <= c <= 'Z' then (c as int + 32) as char else c
  }

  function ToLower(s: string): (r: string)
    ensures |r| == |s|
    ensures forall i :: 0 <= i < |s| ==> r[i] == LowerChar(s[i])
  {
    seq(|s|, i requires 0 <= i < |s| => LowerChar(s[i]))
  }

  /** Lowering twice is lowering once. */
  lemma ToLowerIdempotent(s: string)
    ensures ToLower(ToLower(s)) == ToLower(s)
  {
  }

  /** `t` occurs in `s` starting at offset `i`. */
  ghost predicate OccursAt(s: string, t: string, i: int)
  {
    0 <= i <= |s| - |t| && s[i..i + |t|] == t
  }

  /** `String.prototype.includes`: `t` occurs in `s` at some offset. */
  function Includes(s: string, t: string): (b: bool)
    ensures b <==> exists i :: OccursAt(s, t, i)
  {
    if |t| > |s| then false
    else if s[..|t|] == t then assert OccursAt(s, t, 0); true
    else
      var b := Includes(s[1..], t);
      assert b ==> exists i :: OccursAt(s, t, i) by {
        if b {
          var i :| OccursAt(s[1..], t, i);
          assert OccursAt(s, t, i + 1);
        }
      }
      assert (exists i :: OccursAt(s, t, i)) ==> b by {
        if exists i :: OccursAt(s, t, i) {
          var i :| OccursAt(s, t, i);
          assert i != 0;
          assert s[1..][i - 1..i - 1 + |t|] == s[i..i + |t|];
          assert OccursAt(s[1..], t, i - 1);
        }
      }
      b
  }

  /**
   * The emotion of the top label: the lower-cased label is tested for
   * "happy", "neutral", "sad" and "angry" in that order.
   */
  function ResolveEmotion(className: string): (r: Option<Emotion>)
    ensures r == Some(Happy) <==> Includes(ToLower(className), "happy")
    ensures r == Some(Neutral) <==> !Includes(ToLower(className), "happy") && Includes(ToLower(className), "neutral")
    ensures r == Some(Sad) <==>
      !Includes(ToLower(className), "happy") && !Includes(ToLower(className), "neutral") &&
      Includes(ToLower(className), "sad")
    ensures r == Some(Angry) <==>
      !Includes(ToLower(className), "happy") && !Includes(ToLower(className), "neutral") &&
      !Includes(ToLower(className), "sad") && Includes(ToLower(className), "angry")
  {
    var lowered := ToLower(className);
    if Includes(lowered, "happy") then Some(Happy)
    else if Includes(lowered, "neutral") then Some(Neutral)
    else if Includes(lowered, "sad") then Some(Sad)
    else if Includes(lowered, "angry") then Some(Angry)
    else None
  }

  /** Resolution ignores letter case: a label resolves as its lower-cased form does. */
  lemma ResolveEmotionIgnoresCase(className: string)
    ensures ResolveEmotion(ToLower(className)) == ResolveEmotion(className)
  {
    ToLowerIdempotent(className);
  }

  /** A string lacking some character of `t` does not include `t`. */
  lemma MissingCharExcludes(s: string, t: string, c: char)
    requires c in t && !(c in s)
    ensures !Includes(s, t)
  {
  }

  /** A capitalised class name resolves like its lower-case keyword. */
  lemma ResolveCapitalisedLabel()
    ensures ResolveEmotion("Happy") == Some(Happy)
  {
    assert ToLower("Happy") == "happy";
    assert OccursAt("happy", "happy", 0);
  }

  /** Upper case does not hide a keyword from the lower-cased test. */
  lemma ResolveUpperCaseLabel()
    ensures ResolveEmotion("ANGRY") == Some(Angry)
  {
    assert ToLower("ANGRY") == "angry";
    MissingCharExcludes("angry", "happy", 'h');
    MissingCharExcludes("angry", "neutral", 'e');
    MissingCharExcludes("angry", "sad", 's');
    assert OccursAt("angry", "angry", 0);
  }

  /** "happy" wins over "sad" wherever it occurs in the label. */
  lemma ResolvePriority()
    ensures ResolveEmotion("sad_happy") == Some(Happy)
  {
    assert ToLower("sad_happy") == "sad_happy";
    assert OccursAt("sad_happy", "happy", 4);
  }

  lemma LowerSurprised()
    ensures ToLower("Surprised") == "surprised"
  {
    assert ToLower("Surprised")[0] == 's';
  }

  /** A label without any of the four keywords resolves to nothing. */
  lemma ResolveUnknownLabel()
    ensures ResolveEmotion("Surprised") == None
  {
    LowerSurprised();
    SurprisedHasNoKeyword();
  }

  lemma SurprisedHasNoKeyword()
    ensures !Includes("surprised", "happy") && !Includes("surprised", "neutral")
    ensures !Includes("surprised", "sad") && !Includes("surprised", "angry")
  {
    MissingCharExcludes("surprised", "happy", 'h');
    MissingCharExcludes("surprised", "neutral", 'n');
    MissingCharExcludes("surprised", "sad", 'a');
    MissingCharExcludes("surprised", "angry", 'a');
  }
}
