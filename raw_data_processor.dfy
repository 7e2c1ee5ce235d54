/**
 * The fusion classifier `app.Model.RawDataProcessor`: one `doYourWork` iteration
 * pairs the oldest gaze message with the oldest emotion message, if any, and
 * publishes a classified sample on the hub.
 */
module Fusion {
  import opened Wrappers
  import opened JavaInt
  import opened JavaStrings
  import opened Emotions
  import opened Samples
  import opened Hub

  /** The unchecked Java exceptions one iteration can raise; any of them ends the
      classifier thread. */
  datatype Fault =
    | GazeFieldMissing    // `split(":")[1]` with no second field
    | NoEmotionScores     // `getProminentEmotion` of a null or empty list
    | TooFewCoordinates   // `coordinates.get(0)` or `get(1)` on a shorter list

  /** What one iteration does. */
  datatype Outcome =
    | Emitted(sample: ProcessedData)   // one sample was queued on the hub
    | Dropped                          // the gaze data was rejected; nothing was queued
    | Idle                             // both queues were empty
    | Failed(fault: Fault)             // an exception was thrown; nothing was queued

  /** The characters that `replaceAll("[{}()']", "")` deletes. */
  const GAZE_PUNCTUATION: set<char> := {'{', '}', '(', ')', '\''}

  // ---------------------------------------------------------------------------
  // Parsing and validation
  // ---------------------------------------------------------------------------

  /** `stream().map(parse).collect(...)` inside `try { … } catch (NumberFormatException)`:
      the parsed fields in order, or `null` as soon as one does not parse. */
  function ParseAll<T>(parts: seq<string>, parse: string -> Option<T>): Option<seq<T>>
  {
    if parts == [] then Some([])
    else
      var head := parse(parts[0]);
      var tail := ParseAll(parts[1..], parse);
      if head.None? || tail.None? then None else Some([head.value] + tail.value)
  }

  /** The list is there exactly when every field parses, and then holds their values in
      order. */
  lemma {:induction false} ParseAllMeaning<T>(parts: seq<string>, parse: string -> Option<T>)
    ensures var r := ParseAll(parts, parse);
      (r.Some? <==> forall k :: 0 <= k < |parts| ==> parse(parts[k]).Some?) &&
      (r.Some? ==> |r.value| == |parts| && forall k :: 0 <= k < |parts| ==> parse(parts[k]) == Some(r.value[k]))
  {
    if parts != [] {
      ParseAllMeaning(parts[1..], parse);
      assert forall k :: 1 <= k < |parts| ==> parts[1..][k - 1] == parts[k];
    }
  }

  /** Two fields give a list exactly when both parse, and then the list of their values. */
  lemma ParseAllPair<T>(a: string, b: string, parse: string -> Option<T>)
    ensures var r := ParseAll([a, b], parse);
      (r.Some? <==> parse(a).Some? && parse(b).Some?) &&
      (r.Some? ==> r.value == [parse(a).value, parse(b).value])
  {
    var parts, tail := [a, b], [b];
    assert parts[1..] == tail && tail[1..] == [];
    assert ParseAll(tail[1..], parse).Some? && ParseAll(tail[1..], parse).value == [];
    assert ParseAll(tail, parse).Some? <==> parse(b).Some?;
    assert ParseAll(tail, parse).Some? ==> ParseAll(tail, parse).value == [parse(b).value];
  }

  /** `Integer.parseInt(s.trim())`. */
  function ParseIntField(s: string): Option<int32>
  {
    ParseInt(Trim(s))
  }

  /** `convertToIntegerList`. A message without a second `:`-field throws; otherwise the
      field is trimmed, stripped of `{ } ( ) '`, split at `,`, and every part is trimmed
      and parsed, giving `null` when a part is not a decimal `int`. */
  function ConvertToIntegerList(data: string): Result<Option<seq<int32>>, Fault>
  {
    var fields := Split(data, ':');
    if |fields| < 2 then Failure(GazeFieldMissing)
    else Success(ParseAll(Split(RemoveChars(Trim(fields[1]), GAZE_PUNCTUATION), ','), ParseIntField))
  }

  /** `convertToFloatList`: the comma-separated scores, each parsed by `parseFloat`, which
      stands for `Float.parseFloat` (it ignores surrounding blanks itself, so the trim is
      part of it). */
  function ConvertToFloatList(data: string, parseFloat: string -> Option<real>): Option<seq<real>>
  {
    ParseAll(Split(data, ','), parseFloat)
  }

  /** `isValidEyeTrackingData`: a list whose coordinates are all non-negative. */
  predicate IsValidEyeTrackingData(data: Option<seq<int32>>)
  {
    data.Some? && forall k :: 0 <= k < |data.value| ==> data.value[k] >= 0
  }

  /** `isValidEmotionData`: a list whose scores all lie in [0, 1] or are the inactive
      marker -1. */
  predicate IsValidEmotionData(data: Option<seq<real>>)
  {
    data.Some? && forall k :: 0 <= k < |data.value| ==>
      (0.0 <= data.value[k] <= 1.0) || data.value[k] == -1.0
  }

  // ---------------------------------------------------------------------------
  // The prominent emotion
  // ---------------------------------------------------------------------------

  /** `m` is the first index at which `s` takes its maximum. */
  predicate IsFirstMax(s: seq<real>, m: nat)
  {
    && m < |s|
    && (forall j :: 0 <= j < |s| ==> s[j] <= s[m])
    && (forall j :: 0 <= j < m ==> s[j] < s[m])
  }

  /** The index the scan of `getProminentEmotion` ends on: it moves only to a strictly
      larger score. */
  function FirstMaxIndex(s: seq<real>): (m: nat)
    requires |s| > 0
    ensures IsFirstMax(s, m)
  {
    if |s| == 1 then 0
    else
      var m := FirstMaxIndex(s[..|s| - 1]);
      if s[|s| - 1] > s[m] then |s| - 1 else m
  }

  /** There is only one first maximum. */
  lemma FirstMaxUnique(s: seq<real>, m1: nat, m2: nat)
    requires IsFirstMax(s, m1) && IsFirstMax(s, m2)
    ensures m1 == m2
  {
    assert s[m1] <= s[m2] && s[m2] <= s[m1];
  }

  /** `getProminentEmotion`: a null or empty list throws; a maximum of -1 means no
      emotion was active; otherwise the emotion whose value is the first index of the
      maximum, or `null` when there is no such emotion. */
  function ProminentEmotion(scores: Option<seq<real>>): Result<Option<Emotion>, Fault>
  {
    if scores.None? || scores.value == [] then Failure(NoEmotionScores)
    else
      var m := FirstMaxIndex(scores.value);
      if scores.value[m] == -1.0 then Success(Some(NONE)) else Success(GetByValue(m))
  }

  /** The loop of `getProminentEmotion`. */
  method GetProminentEmotion(emotionScores: Option<seq<real>>) returns (r: Result<Option<Emotion>, Fault>)
    ensures r == ProminentEmotion(emotionScores)
  {
    if emotionScores.None? || emotionScores.value == [] {
      return Failure(NoEmotionScores);
    }
    var s := emotionScores.value;
    var maxIndex := 0;
    var i := 1;
    while i < |s|
      invariant 1 <= i <= |s|
      invariant IsFirstMax(s[..i], maxIndex)
    {
      if s[i] > s[maxIndex] {
        maxIndex := i;
      }
      i := i + 1;
    }
    assert s[..i] == s;
    FirstMaxUnique(s, maxIndex, FirstMaxIndex(s));
    if s[maxIndex] == -1.0 {
      return Success(Some(NONE));
    }
    return Success(GetByValue(maxIndex));
  }

  /** What `getProminentEmotion` promises: the first index of the maximum picks the
      emotion (ties go to the lowest index), a maximum of -1 gives NONE, an index past
      the table gives `null`, and only a null or empty list is rejected. */
  lemma ProminentEmotionIsFirstMax(scores: Option<seq<real>>)
    ensures ProminentEmotion(scores).Failure? <==> scores.None? || scores.value == []
    ensures ProminentEmotion(scores).Success? ==>
      var s, p := scores.value, ProminentEmotion(scores).value;
      exists m: nat :: IsFirstMax(s, m) &&
        p == (if s[m] == -1.0 then Some(NONE) else if m <= 5 then GetByValue(m) else None) &&
        (p.Some? && p.value != NONE ==> Value(p.value) == m)
  {
    if scores.Some? && scores.value != [] {
      var m := FirstMaxIndex(scores.value);
      GetByValueFinds(m);
    }
  }

  /** Six valid scores always name an emotion, and it is NONE exactly when every score
      is the inactive marker. */
  lemma SixValidScores(s: seq<real>)
    requires |s| == 6 && IsValidEmotionData(Some(s))
    ensures ProminentEmotion(Some(s)).Success?
    ensures ProminentEmotion(Some(s)).value.Some?
    ensures ProminentEmotion(Some(s)).value == Some(NONE) <==> forall k :: 0 <= k < 6 ==> s[k] == -1.0
  {
    var m := FirstMaxIndex(s);
    GetByValueFinds(m);
    if s[m] == -1.0 {
      forall k | 0 <= k < 6 ensures s[k] == -1.0 {
        assert s[k] <= s[m];
      }
    } else {
      assert Value(GetByValue(m).value) == m;
    }
  }

  // ---------------------------------------------------------------------------
  // One iteration
  // ---------------------------------------------------------------------------

  /** The decision of `doYourWork` on the converted messages: `gaze` is the result of
      `convertToIntegerList` and `scores` that of `convertToFloatList`, each absent when
      its queue was empty. With gaze data, the prominent emotion is taken first (NONE
      when the emotion is missing or fails validation), then invalid coordinates drop the
      sample. Without gaze data, the emotion alone gives a sample at (-1, -1), with no
      validation of its scores. */
  function Decide(gaze: Option<Result<Option<seq<int32>>, Fault>>, scores: Option<Option<seq<real>>>): Outcome
  {
    match gaze
    case Some(Failure(f)) => Failed(f)
    case Some(Success(coordinates)) =>
      var emotionScores := if scores.Some? then scores.value else None;
      var prominent :=
        if scores.Some? && IsValidEmotionData(emotionScores) then ProminentEmotion(emotionScores)
        else Success(Some(NONE));
      if prominent.Failure? then Failed(prominent.error)
      else if !IsValidEyeTrackingData(coordinates) then Dropped
      else if |coordinates.value| < 2 then Failed(TooFewCoordinates)
      else Emitted(ProcessedData(coordinates.value[0], coordinates.value[1], prominent.value, emotionScores))
    case None =>
      if scores.None? then Idle
      else match ProminentEmotion(scores.value)
        case Failure(f) => Failed(f)
        case Success(p) => Emitted(ProcessedData(-1, -1, p, scores.value))
  }

  /** One iteration on the two polled messages. The emotion conversion cannot throw, so
      converting both first keeps the order of the source's effects. */
  function Classify(eye: Option<string>, emotion: Option<string>, parseFloat: string -> Option<real>): Outcome
  {
    Decide(if eye.Some? then Some(ConvertToIntegerList(eye.value)) else None,
           if emotion.Some? then Some(ConvertToFloatList(emotion.value, parseFloat)) else None)
  }

  function Head(q: seq<string>): Option<string>
  {
    if q == [] then None else Some(q[0])
  }

  function Rest(q: seq<string>): seq<string>
  {
    if q == [] then [] else q[1..]
  }

  /** Nothing happens exactly when both queues were empty. */
  lemma IdleIffNoData(gaze: Option<Result<Option<seq<int32>>, Fault>>, scores: Option<Option<seq<real>>>)
    ensures Decide(gaze, scores) == Idle <==> gaze.None? && scores.None?
  {
  }

  /** A sample lies on the screen, or at (-1, -1) exactly when there was no gaze data. */
  lemma EmittedCoordinates(gaze: Option<Result<Option<seq<int32>>, Fault>>, scores: Option<Option<seq<real>>>)
    requires Decide(gaze, scores).Emitted?
    ensures var d := Decide(gaze, scores).sample;
      if gaze.Some? then d.x >= 0 && d.y >= 0 else d.x == -1 && d.y == -1
  {
  }

  /** With gaze coordinates that are valid and at least two, the sample carries exactly
      the first two coordinates and the scores as parsed; its emotion is NONE when the
      emotion data is missing or invalid, and otherwise the prominent emotion (an empty
      valid list throws). */
  lemma GazeSample(c: seq<int32>, scores: Option<Option<seq<real>>>)
    requires IsValidEyeTrackingData(Some(c)) && |c| >= 2
    ensures var s := if scores.Some? then scores.value else None;
      Decide(Some(Success(Some(c))), scores) ==
        if scores.None? || !IsValidEmotionData(s) then
          Emitted(ProcessedData(c[0], c[1], Some(NONE), s))
        else if s.value == [] then
          Failed(NoEmotionScores)
        else
          Emitted(ProcessedData(c[0], c[1], ProminentEmotion(s).value, s))
  {
  }

  /** Gaze data that is present but rejected (unparsable or negative) queues nothing: it
      drops the sample, unless the emotion part throws first. */
  lemma RejectedGazeDrops(coordinates: Option<seq<int32>>, scores: Option<Option<seq<real>>>)
    requires !IsValidEyeTrackingData(coordinates)
    ensures Decide(Some(Success(coordinates)), scores) in {Dropped, Failed(NoEmotionScores)}
    ensures scores.None? ==> Decide(Some(Success(coordinates)), scores) == Dropped
  {
  }

  /** Only rejected gaze data drops a sample. */
  lemma DroppedOnlyForRejectedGaze(gaze: Option<Result<Option<seq<int32>>, Fault>>, scores: Option<Option<seq<real>>>)
    requires Decide(gaze, scores) == Dropped
    ensures gaze.Some? && gaze.value.Success? && !IsValidEyeTrackingData(gaze.value.value)
  {
  }

  /** Without gaze data the scores are not validated: a single score of any value other
      than -1, in range or not, names ATTENTION. */
  lemma EmotionOnlyUnvalidated(v: real)
    ensures Decide(None, Some(Some([v]))) ==
      Emitted(ProcessedData(-1, -1, if v == -1.0 then Some(NONE) else Some(ATTENTION), Some([v])))
  {
    assert FirstMaxIndex([v]) == 0;
    GetByValueOfValue(ATTENTION);
  }

  /** A single comma-free emotion field is one score. */
  lemma SingleScore(emotion: string, parseFloat: string -> Option<real>, v: real)
    requires ',' !in emotion && parseFloat(emotion) == Some(v)
    ensures ConvertToFloatList(emotion, parseFloat) == Some([v])
  {
    assert Split(emotion, ',') == [emotion];
    var parts := [emotion];
    assert parts[0] == emotion && parts[1..] == [];
    assert ParseAll(parts[1..], parseFloat) == Some([]);
    assert parseFloat(parts[0]) == Some(v);
    assert [v] + [] == [v];
  }

  /** A gaze message without a second `:`-field makes the iteration throw. */
  lemma GazeWithoutColonFails(eye: string, emotion: Option<string>, parseFloat: string -> Option<real>)
    requires ':' !in eye
    ensures Classify(Some(eye), emotion, parseFloat) == Failed(GazeFieldMissing)
  {
  }

  /** The classifier thread. */
  class RawDataProcessor {
    var running: bool

    constructor ()
      ensures !running
    {
      running := false;
    }

    /** STARTED and STOPPED from the hub switch the processing loop on and off. */
    method PropertyChange(name: string)
      modifies this
      ensures name == STOPPED ==> !running
      ensures name == STARTED ==> running
      ensures name != STOPPED && name != STARTED ==> running == old(running)
    {
      if name == STOPPED {
        running := false;
      } else if name == STARTED {
        running := true;
      }
    }

    /** One iteration: polls both queues, then queues the sample `Classify` decides on. */
    method DoYourWork(hub: Blackboard, parseFloat: string -> Option<real>) returns (outcome: Outcome)
      modifies hub`eyeTrackingQueue, hub`emotionQueue, hub`processedDataQueue, hub`events
      ensures outcome == Classify(Head(old(hub.eyeTrackingQueue)), Head(old(hub.emotionQueue)), parseFloat)
      ensures hub.eyeTrackingQueue == Rest(old(hub.eyeTrackingQueue))
      ensures hub.emotionQueue == Rest(old(hub.emotionQueue))
      ensures outcome.Emitted? ==>
        && hub.processedDataQueue == old(hub.processedDataQueue) + [outcome.sample]
        && hub.events == old(hub.events) +
             [Event(PROPERTY_NAME_PROCESSED_DATA, Null), Event(PROPERTY_NAME_PROCESSED_DATA, Sample(outcome.sample))]
      ensures !outcome.Emitted? ==>
        hub.processedDataQueue == old(hub.processedDataQueue) && hub.events == old(hub.events)
    {
      var eyeTrackingData := hub.PollEyeTrackingQueue();
      var emotionData := hub.PollEmotionQueue();
      if eyeTrackingData.Some? {
        var converted := ConvertToIntegerList(eyeTrackingData.value);
        if converted.Failure? {
          return Failed(converted.error);
        }
        var coordinates := converted.value;
        var emotionScores: Option<seq<real>> := None;
        var prominentEmotion: Option<Emotion>;
        if emotionData.Some? {
          emotionScores := ConvertToFloatList(emotionData.value, parseFloat);
          if !IsValidEmotionData(emotionScores) {
            prominentEmotion := Some(NONE);
          } else {
            var p := GetProminentEmotion(emotionScores);
            if p.Failure? {
              return Failed(p.error);
            }
            prominentEmotion := p.value;
          }
        } else {
          prominentEmotion := Some(NONE);
        }
        if !IsValidEyeTrackingData(coordinates) {
          return Dropped;
        }
        if |coordinates.value| < 2 {
          return Failed(TooFewCoordinates);
        }
        var processedData := ProcessedData(coordinates.value[0], coordinates.value[1], prominentEmotion, emotionScores);
        hub.AddToProcessedDataQueue(processedData);
        outcome := Emitted(processedData);
      } else if emotionData.Some? {
        var emotionScores := ConvertToFloatList(emotionData.value, parseFloat);
        var p := GetProminentEmotion(emotionScores);
        if p.Failure? {
          return Failed(p.error);
        }
        var processedData := ProcessedData(-1, -1, p.value, emotionScores);
        hub.AddToProcessedDataQueue(processedData);
        outcome := Emitted(processedData);
      } else {
        outcome := Idle;
      }
    }
  }
}
