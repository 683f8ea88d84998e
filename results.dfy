/** The helpers of the results page: the colour bands for a score, the
    dominant emotion of the facial analysis, and the guard that shows "No
    Results Found" when the page is opened without analysis data. */
module Results {
  import opened Media
  import opened JsonValue

  /** `getScoreColor`: green from 0.7 up, yellow from 0.4 up, red below. */
  function ScoreColor(score: real): (c: string)
    ensures c == "text-green-600" <==> score >= 0.7
    ensures c == "text-yellow-600" <==> 0.4 <= score < 0.7
    ensures c == "text-red-600" <==> score < 0.4
  {
    if score >= 0.7 then "text-green-600"
    else if score >= 0.4 then "text-yellow-600"
    else "text-red-600"
  }

  /** `getScoreBg`: the background classes for the same thresholds. */
  function ScoreBg(score: real): (c: string)
    ensures c == "bg-green-100" <==> score >= 0.7
    ensures c == "bg-yellow-100" <==> 0.4 <= score < 0.7
    ensures c == "bg-red-100" <==> score < 0.4
  {
    if score >= 0.7 then "bg-green-100"
    else if score >= 0.4 then "bg-yellow-100"
    else "bg-red-100"
  }

  /** The three bands, ordered from worst to best. */
  datatype Band = Red | Yellow | Green

  function Rank(b: Band): nat
  {
    match b
    case Red => 0
    case Yellow => 1
    case Green => 2
  }

  /** The band a text class stands for. */
  function ColorBand(c: string): Band
  {
    if c == "text-green-600" then Green else if c == "text-yellow-600" then Yellow else Red
  }

  /** The band a background class stands for. */
  function BgBand(c: string): Band
  {
    if c == "bg-green-100" then Green else if c == "bg-yellow-100" then Yellow else Red
  }

  /** The text colour and the background of a score always show the same
      band. */
  lemma ColorAndBackgroundAgree(score: real)
    ensures ColorBand(ScoreColor(score)) == BgBand(ScoreBg(score))
  {
  }

  /** A higher score never gets a worse band, in either helper. */
  lemma BandsAreMonotone(s1: real, s2: real)
    requires s1 <= s2
    ensures Rank(ColorBand(ScoreColor(s1))) <= Rank(ColorBand(ScoreColor(s2)))
    ensures Rank(BgBand(ScoreBg(s1))) <= Rank(BgBand(ScoreBg(s2)))
  {
  }

  /** One entry of the emotions object: its name and its value. */
  datatype Emotion = Emotion(name: string, value: real)

  /** The accumulators before the first entry. */
  const NoEmotion: Emotion := Emotion("", -1.0)

  /** One step of the scan: an entry replaces the best so far only when its
      value is strictly greater. */
  function Step(best: Emotion, e: Emotion): Emotion
  {
    if e.value > best.value then e else best
  }

  /** The scan over the entries in iteration order, starting from `best`. */
  function ScanFrom(best: Emotion, entries: seq<Emotion>): Emotion
    decreases |entries|
  {
    if entries == [] then best else ScanFrom(Step(best, entries[0]), entries[1..])
  }

  /** What `getHighestEmotion` returns for the entries. */
  function HighestEmotion(entries: seq<Emotion>): Emotion
  {
    ScanFrom(NoEmotion, entries)
  }

  /** `getHighestEmotion`: the loop over the entries with the two
      accumulators. */
  method GetHighestEmotion(entries: seq<Emotion>) returns (r: Emotion)
    ensures r == HighestEmotion(entries)
  {
    var highestEmotion := "";
    var highestValue := -1.0;
    for i := 0 to |entries|
      invariant ScanFrom(Emotion(highestEmotion, highestValue), entries[i..]) == HighestEmotion(entries)
    {
      assert entries[i..][1..] == entries[i + 1..];
      var e := entries[i];
      if e.value > highestValue {
        highestValue := e.value;
        highestEmotion := e.name;
      }
    }
    r := Emotion(highestEmotion, highestValue);
  }

  /** What the scan ends with: a value at least the starting one and at
      least every entry's; either the starting pair, when no entry beats it,
      or the first entry that carries the final value, every earlier entry
      being strictly smaller. */
  lemma {:induction false} ScanFromSpec(best: Emotion, entries: seq<Emotion>)
    ensures var r := ScanFrom(best, entries);
            && r.value >= best.value
            && (forall k :: 0 <= k < |entries| ==> entries[k].value <= r.value)
            && ((r == best && forall k :: 0 <= k < |entries| ==> entries[k].value <= best.value)
                || (exists k :: 0 <= k < |entries| && r == entries[k] && r.value > best.value
                                && forall j :: 0 <= j < k ==> entries[j].value < r.value))
    decreases |entries|
  {
    if entries != [] {
      var next := Step(best, entries[0]);
      var tail := entries[1..];
      ScanFromSpec(next, tail);
      var r := ScanFrom(next, tail);
      assert forall k :: 1 <= k < |entries| ==> entries[k] == tail[k - 1];
      if r == next && forall k :: 0 <= k < |tail| ==> tail[k].value <= next.value {
        if entries[0].value > best.value {
          assert r == entries[0];
        }
      } else {
        var k :| 0 <= k < |tail| && r == tail[k] && r.value > next.value
                 && forall j :: 0 <= j < k ==> tail[j].value < r.value;
        assert r == entries[k + 1];
      }
    }
  }

  /** The dominant emotion's value is at least -1 and at least every
      emotion's value. */
  lemma HighestEmotionIsMaximal(entries: seq<Emotion>)
    ensures HighestEmotion(entries).value >= -1.0
    ensures forall k :: 0 <= k < |entries| ==> entries[k].value <= HighestEmotion(entries).value
  {
    ScanFromSpec(NoEmotion, entries);
  }

  /** When no value exceeds -1 (in particular with no emotions at all) the
      result is the empty name with -1. */
  lemma HighestEmotionDefault(entries: seq<Emotion>)
    requires forall k :: 0 <= k < |entries| ==> entries[k].value <= -1.0
    ensures HighestEmotion(entries) == Emotion("", -1.0)
  {
    ScanFromSpec(NoEmotion, entries);
  }

  /** When some value exceeds -1 the result is an entry of the emotions, and
      among entries of equal value the earliest one wins. */
  lemma HighestEmotionIsFirstMaximum(entries: seq<Emotion>, m: nat)
    requires m < |entries| && entries[m].value > -1.0
    ensures exists k :: 0 <= k < |entries| && HighestEmotion(entries) == entries[k]
                        && forall j :: 0 <= j < k ==> entries[j].value < entries[k].value
  {
    ScanFromSpec(NoEmotion, entries);
  }

  /** What the results page shows. */
  datatype Page =
    | NoResultsFound
    | Dashboard(dominant: Emotion)
    | RenderError
    | OutsideModel

  /** The emotions of a list of entries whose values are all numbers, in
      list order; `None` when some value is not a number. */
  function NumericEntries(members: seq<(string, Json)>): Option<seq<Emotion>>
  {
    if members == [] then Some([])
    else
      match NumericEntries(members[..|members| - 1])
      case None => None
      case Some(front) =>
        var (name, v) := members[|members| - 1];
        if v.JNumber? then Some(front + [Emotion(name, v.n)]) else None
  }

  /** The emotions keep the entries' order, names and values, and only a
      list whose every value is a number has them. */
  lemma {:induction false} NumericEntriesSpec(members: seq<(string, Json)>)
    ensures NumericEntries(members).Some? <==> forall k :: 0 <= k < |members| ==> members[k].1.JNumber?
    ensures NumericEntries(members).Some? ==>
              var es := NumericEntries(members).value;
              && |es| == |members|
              && forall k :: 0 <= k < |members| ==> es[k] == Emotion(members[k].0, members[k].1.n)
    decreases |members|
  {
    if members != [] {
      var front := members[..|members| - 1];
      NumericEntriesSpec(front);
      assert forall k :: 0 <= k < |front| ==> front[k] == members[k];
    }
  }

  /** The results page for the navigation state's `analysisData` (`None`
      when the state carries none). Without truthy analysis data the page
      shows "No Results Found" and reads nothing of the data. Otherwise it
      reads `facial_analysis.emotions`: a missing or non-object
      `facial_analysis`, or missing or null emotions, throw a TypeError;
      numbers and booleans have no entries; an object whose entries (one per
      distinct key, as `Object.entries` lists them) have numeric values
      gives the dominant emotion. Strings, arrays and non-numeric values,
      which JavaScript compares after coercion, are `OutsideModel`. */
  function ResultsPage(analysisData: Option<Json>): (p: Page)
    ensures p == NoResultsFound <==> analysisData.None? || !Truthy(analysisData.value)
  {
    if analysisData.None? || !Truthy(analysisData.value) then NoResultsFound
    else
      match analysisData.value
      case JObject(fields) =>
        (match Member(fields, "facial_analysis")
         case Some(JObject(facial)) =>
           (match Member(facial, "emotions")
            case Some(JObject(emotions)) =>
              (match NumericEntries(ObjectEntries(emotions))
               case Some(entries) => Dashboard(HighestEmotion(entries))
               case None => OutsideModel)
            case Some(JNumber(_)) => Dashboard(NoEmotion)
            case Some(JBool(_)) => Dashboard(NoEmotion)
            case Some(JString(_)) => OutsideModel
            case Some(JArray(_)) => OutsideModel
            case _ => RenderError)
         case _ => RenderError)
      case _ => RenderError
  }

  /** An emotions object that repeats a key lists the key once, at its
      first position, with its last value. */
  lemma RepeatedKeyEntries()
    ensures ObjectEntries([("a", JNumber(5.0)), ("b", JNumber(2.0)), ("a", JNumber(0.0))])
            == [("a", JNumber(0.0)), ("b", JNumber(2.0))]
  {
    var emotions := [("a", JNumber(5.0)), ("b", JNumber(2.0)), ("a", JNumber(0.0))];
    var e1 := [("a", JNumber(5.0))];
    var e2 := e1 + [("b", JNumber(2.0))];
    assert emotions[..1] == e1 && e1[..0] == [];
    assert ObjectEntries(e1) == e1 by {
      assert KeyIndex([], "a") == 0;
    }
    assert emotions[..2] == e2 && e2[..1] == e1;
    assert ObjectEntries(e2) == e2 by {
      assert e1[1..] == [];
      assert KeyIndex(e1, "b") == 1;
    }
    assert KeyIndex(e2, "a") == 0;
    assert e2[0 := ("a", JNumber(0.0))] == [("a", JNumber(0.0)), ("b", JNumber(2.0))];
  }

  /** Those entries give the emotions `a` with 0 and `b` with 2. */
  lemma RepeatedKeyEmotions()
    ensures NumericEntries([("a", JNumber(0.0)), ("b", JNumber(2.0))])
            == Some([Emotion("a", 0.0), Emotion("b", 2.0)])
  {
    var o := [("a", JNumber(0.0)), ("b", JNumber(2.0))];
    var o1 := [("a", JNumber(0.0))];
    assert o[..1] == o1 && o1[..0] == [];
    var none: seq<Emotion> := [];
    assert none + [Emotion("a", 0.0)] == [Emotion("a", 0.0)];
    assert NumericEntries(o1) == Some([Emotion("a", 0.0)]);
    assert [Emotion("a", 0.0)] + [Emotion("b", 2.0)] == [Emotion("a", 0.0), Emotion("b", 2.0)];
  }

  /** On the results page the repeated key `a` counts with its last value
      0, so `b` is the dominant emotion. */
  lemma RepeatedEmotionKeyExample()
    ensures ResultsPage(Some(JObject([("facial_analysis", JObject([("emotions", JObject(
              [("a", JNumber(5.0)), ("b", JNumber(2.0)), ("a", JNumber(0.0))]))]))])))
            == Dashboard(Emotion("b", 2.0))
  {
    RepeatedKeyEntries();
    RepeatedKeyEmotions();
    var es := [Emotion("a", 0.0), Emotion("b", 2.0)];
    assert es[1..] == [Emotion("b", 2.0)];
    assert HighestEmotion(es) == Emotion("b", 2.0);
  }
}
