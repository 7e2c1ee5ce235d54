/**
 * The consolidation aggregator `app.Model.ViewDataProcessor`. It runs inline when the
 * hub announces a processed sample: it adds a highlight to the hub's live list,
 * widens the first highlight near it, and on a real emotion recolours the list,
 * archives it into the history, clears it and refreshes the emotion frequencies.
 * The class keeps no state of its own, so its operations are methods on the hub.
 */
module Aggregation {
  import opened Wrappers
  import opened JavaInt
  import opened JavaStrings
  import opened Emotions
  import opened Highlights
  import opened Samples
  import opened Hub

  /** The widening that `increaseLength` applies when highlights are consolidated. */
  const CONSOLIDATION_INCREMENT: int32 := 50

  // ---------------------------------------------------------------------------
  // Consolidation
  // ---------------------------------------------------------------------------

  /** `isWithinThreshold`: both coordinate distances, computed with `int` wrap-around and
      `Math.abs`, are at most the threshold. */
  predicate IsWithinThreshold(existing: HighlightValue, newHighlight: HighlightValue, threshold: int32)
  {
    Abs(Sub(existing.x, newHighlight.x)) <= threshold && Abs(Sub(existing.y, newHighlight.y)) <= threshold
  }

  /** A highlight is within any non-negative threshold of itself. */
  lemma WithinThresholdOfItself(h: HighlightValue, threshold: int32)
    requires threshold >= 0
    ensures IsWithinThreshold(h, h, threshold)
  {
    assert Sub(h.x, h.x) == 0 && Sub(h.y, h.y) == 0;
  }

  /** Distances that fit in an `int` are compared as the true distances. */
  lemma WithinThresholdOfNear(a: HighlightValue, b: HighlightValue, threshold: int32)
    requires MIN < a.x as int - b.x as int <= MAX && MIN < a.y as int - b.y as int <= MAX
    ensures IsWithinThreshold(a, b, threshold) <==>
      -(threshold as int) <= a.x as int - b.x as int <= threshold as int &&
      -(threshold as int) <= a.y as int - b.y as int <= threshold as int
  {
  }

  /** The highlight the consolidation loop stops at: the first one (in list order) within
      the threshold of `h`. */
  function FirstWithin(list: seq<HighlightValue>, h: HighlightValue, threshold: int32): (r: Option<nat>)
    ensures r.Some? ==> r.value < |list| && IsWithinThreshold(list[r.value], h, threshold)
    ensures r.Some? ==> forall j :: 0 <= j < r.value ==> !IsWithinThreshold(list[j], h, threshold)
    ensures r.None? ==> forall j :: 0 <= j < |list| ==> !IsWithinThreshold(list[j], h, threshold)
  {
    if list == [] then None
    else if IsWithinThreshold(list[0], h, threshold) then Some(0)
    else match FirstWithin(list[1..], h, threshold)
      case Some(k) => Some(k + 1)
      case None => None
  }

  /** The first match is determined by the list alone: an index within the threshold
      with none before it is the one `FirstWithin` picks. */
  lemma FirstWithinAt(list: seq<HighlightValue>, h: HighlightValue, threshold: int32, i: nat)
    requires i < |list| && IsWithinThreshold(list[i], h, threshold)
    requires forall j :: 0 <= j < i ==> !IsWithinThreshold(list[j], h, threshold)
    ensures FirstWithin(list, h, threshold) == Some(i)
  {
  }

  /** The live list after the new highlight `h` is appended and the first highlight near
      it is widened. */
  function Consolidated(list: seq<HighlightValue>, h: HighlightValue, threshold: int32): seq<HighlightValue>
  {
    WidenFirst(list + [h], h, threshold)
  }

  /** The list with its first highlight within the threshold of `h` widened. */
  function WidenFirst(list: seq<HighlightValue>, h: HighlightValue, threshold: int32): seq<HighlightValue>
  {
    match FirstWithin(list, h, threshold)
    case Some(k) => list[k := Widened(list[k], CONSOLIDATION_INCREMENT)]
    case None => list
  }

  /** Consolidation appends one highlight and, for a non-negative threshold, widens
      exactly one highlight: the first near the new one, which is the new one itself
      when no older highlight is near. Nothing else changes. */
  lemma ConsolidationWidensOne(list: seq<HighlightValue>, h: HighlightValue, threshold: int32)
    requires threshold >= 0
    ensures var r := Consolidated(list, h, threshold);
      && |r| == |list| + 1
      && (exists k :: 0 <= k < |r| && FirstWithin(list + [h], h, threshold) == Some(k) &&
           r[k] == Widened((list + [h])[k], CONSOLIDATION_INCREMENT) &&
           (forall j :: 0 <= j < |r| && j != k ==> r[j] == (list + [h])[j]))
      && (FirstWithin(list, h, threshold).None? ==> r == list + [Widened(h, CONSOLIDATION_INCREMENT)])
  {
    var all := list + [h];
    WithinThresholdOfItself(h, threshold);
    assert all[|list|] == h;
    var k := FirstWithin(all, h, threshold).value;
    if FirstWithin(list, h, threshold).None? {
      assert forall j :: 0 <= j < |list| ==> all[j] == list[j];
      assert k == |list|;
    }
  }

  /** Widening and appending keep colours, so a list of gray highlights with a gray
      highlight appended stays all gray. */
  lemma ConsolidatedColors(list: seq<HighlightValue>, h: HighlightValue, threshold: int32)
    ensures var r := Consolidated(list, h, threshold);
      |r| == |list| + 1 && r[|list|].color == h.color &&
      forall j :: 0 <= j < |list| ==> r[j].color == list[j].color
  {
  }

  predicate AllColored(list: seq<HighlightValue>, c: Color)
  {
    forall j :: 0 <= j < |list| ==> list[j].color == c
  }

  /** When every highlight already on the list is gray, the batch archived for an emotion
      is uniformly that emotion's colour: a non-empty gray list is recoloured, and an
      empty one only holds the new highlight. */
  lemma ArchivedBatchIsUniform(list: seq<HighlightValue>, h: HighlightValue, threshold: int32, c: Color)
    requires AllColored(list, Gray) && h.color == c
    ensures AllColored(Recolor(Consolidated(list, h, threshold), c), c)
  {
    ConsolidatedColors(list, h, threshold);
    var r := Consolidated(list, h, threshold);
    if list == [] {
      assert AllColored(r, c);
    }
  }

  // ---------------------------------------------------------------------------
  // Frequencies
  // ---------------------------------------------------------------------------

  /** `(int) ((double) count / total * 100)`, in exact arithmetic: the share of `count`
      in percent, truncated. */
  function Percentage(count: int, total: int): int
    requires total > 0
  {
    count * 100 / total
  }

  function Percentages(counts: seq<int>, total: int): (r: seq<int>)
    requires total > 0
    ensures |r| == |counts|
    ensures forall i :: 0 <= i < |counts| ==> r[i] == Percentage(counts[i], total)
  {
    if counts == [] then [] else [Percentage(counts[0], total)] + Percentages(counts[1..], total)
  }

  /** One entry of the frequency list: the percentage followed by `%`. */
  function FrequencyString(count: int, total: int): string
    requires total > 0
  {
    DecimalString(Percentage(count, total)) + "%"
  }

  function FrequencyStrings(counts: seq<int>, total: int): (r: seq<string>)
    requires total > 0
    ensures |r| == |counts|
  {
    seq(|counts|, i requires 0 <= i < |counts| => FrequencyString(counts[i], total))
  }

  /** Truncation loses less than one point per slot: `total` times the sum of the
      percentages lies within `|counts| * total` below `100` times the sum of the counts. */
  lemma {:induction false} PercentagesSumBounds(counts: seq<int>, total: int)
    requires total > 0
    ensures total * Sum(Percentages(counts, total)) <= 100 * Sum(counts)
    ensures 100 * Sum(counts) < total * Sum(Percentages(counts, total)) + |counts| * total || counts == []
  {
    if counts != [] {
      var p := Percentages(counts, total);
      assert p[1..] == Percentages(counts[1..], total);
      PercentagesSumBounds(counts[1..], total);
      var q := Percentage(counts[0], total);
      assert total * q <= counts[0] * 100 < total * q + total;
      assert total * Sum(p) == total * q + total * Sum(p[1..]);
    }
  }

  /** With counts that add up to the total, the truncated percentages add up to at most
      100, and to more than 100 minus the number of slots. */
  lemma PercentagesSumToAtMost100(counts: seq<int>, total: int)
    requires total > 0 && Sum(counts) == total && counts != []
    ensures 100 - |counts| < Sum(Percentages(counts, total)) <= 100
  {
    PercentagesSumBounds(counts, total);
    var s := Sum(Percentages(counts, total));
    MulCancel(total, s, 100);
    MulCancelStrict(total, 100, s + |counts|);
  }

  lemma MulCancel(t: int, a: int, b: int)
    requires t > 0 && t * a <= t * b
    ensures a <= b
  {
    if a > b {
      assert t * a - t * b == t * (a - b);
      MulPositive(t, a - b);
    }
  }

  lemma MulCancelStrict(t: int, a: int, b: int)
    requires t > 0 && t * a < t * b
    ensures a < b
  {
    if a >= b {
      assert t * a - t * b == t * (a - b);
      if a > b {
        MulPositive(t, a - b);
      }
    }
  }

  lemma MulPositive(a: int, b: int)
    requires a > 0 && b > 0
    ensures a * b > 0
  {
  }

  /** Each percentage lies between 0 and 100 when the count is part of the total. */
  lemma PercentageRange(count: int, total: int)
    requires total > 0 && 0 <= count <= total
    ensures 0 <= Percentage(count, total) <= 100
  {
    assert count * 100 <= total * 100;
  }

  /** The loop of `updateFrequency`: one entry per emotion slot, in slot order. */
  method BuildFrequencies(emotionCounts: seq<int>, totalProcessedEmotions: int) returns (frequencies: seq<string>)
    requires totalProcessedEmotions > 0
    ensures frequencies == FrequencyStrings(emotionCounts, totalProcessedEmotions)
  {
    frequencies := [];
    var i := 0;
    while i < |emotionCounts|
      invariant 0 <= i <= |emotionCounts|
      invariant |frequencies| == i
      invariant forall j :: 0 <= j < i ==> frequencies[j] == FrequencyString(emotionCounts[j], totalProcessedEmotions)
    {
      var percentage := emotionCounts[i] * 100 / totalProcessedEmotions;
      frequencies := frequencies + [DecimalString(percentage) + "%"];
      i := i + 1;
    }
  }

  /** `updateFrequency`: counts one more sample of `emotion` and rebuilds the frequency
      list from the new counts. */
  method UpdateFrequency(hub: Blackboard, emotion: Emotion)
    requires hub.Valid() && emotion != NONE
    modifies hub`emotionCounts, hub`processedEmotions, hub`frequencies
    ensures hub.Valid()
    ensures hub.emotionCounts == old(hub.emotionCounts)[Value(emotion) := old(hub.emotionCounts)[Value(emotion)] + 1]
    ensures hub.processedEmotions == old(hub.processedEmotions) + 1
    ensures hub.frequencies == FrequencyStrings(hub.emotionCounts, hub.processedEmotions)
  {
    var index := Value(emotion);
    hub.IncrementEmotionCount(index);
    var frequencies := BuildFrequencies(hub.emotionCounts, hub.processedEmotions);
    hub.SetFrequencies(frequencies);
  }

  // ---------------------------------------------------------------------------
  // Handling one sample
  // ---------------------------------------------------------------------------

  /** What `handleProcessedData` does for a sample whose emotion is NONE: the new gray
      highlight `h` joins the live list, which is consolidated and republished, and
      nothing else changes. */
  twostate predicate KeptLive(hub: Blackboard, h: HighlightValue)
    reads hub, hub.highlightList
  {
    var live := Consolidated(old(ValuesOf(hub.highlightList)), h, old(hub.thresholdLength));
    && hub.Valid()
    && |hub.highlightList| == |old(hub.highlightList)| + 1
    && hub.highlightList[..|old(hub.highlightList)|] == old(hub.highlightList)
    && ValuesOf(hub.highlightList) == live
    && hub.highlightCollections == old(hub.highlightCollections)
    && hub.emotionCounts == old(hub.emotionCounts)
    && hub.processedEmotions == old(hub.processedEmotions)
    && hub.frequencies == old(hub.frequencies)
    && hub.events == old(hub.events) + [Event(PROPERTY_NAME_VIEW_DATA, HighlightList(live))]
  }

  /** What `handleProcessedData` does for a sample with the real emotion `e`: the live
      list with the new highlight `h`, consolidated and recoloured, is archived; the live
      list is cleared; `e` is counted and the frequencies are rebuilt. */
  twostate predicate ArchivedFor(hub: Blackboard, h: HighlightValue, e: Emotion)
    reads hub
  {
    var batch := Recolor(Consolidated(old(ValuesOf(hub.highlightList)), h, old(hub.thresholdLength)), ColorOf(e));
    && old(hub.Valid())
    && hub.Valid()
    && e != NONE
    && hub.highlightList == []
    && hub.highlightCollections == Archive(old(hub.highlightCollections), batch, old(hub.maxHighlights) as int)
    && hub.emotionCounts == old(hub.emotionCounts)[Value(e) := old(hub.emotionCounts)[Value(e)] + 1]
    && hub.processedEmotions == old(hub.processedEmotions) + 1
    && hub.frequencies == FrequencyStrings(hub.emotionCounts, hub.processedEmotions)
    && hub.events == old(hub.events) + [Event(PROPERTY_NAME_VIEW_DATA, HighlightList(batch)),
                                        Event(PROPERTY_NAME_VIEW_DATA, HighlightList([])),
                                        Event(PROPERTY_NAME_VIEW_DATA, HighlightList([]))]
  }

  /** What `handleProcessedData(data)` does to the hub. A sample without an emotion
      throws at `getColor` before anything changes (`ok` is false). Otherwise the new
      highlight sits at the sample's position, in the emotion's colour and of the
      configured length. */
  twostate predicate Handled(hub: Blackboard, data: ProcessedData, ok: bool)
    reads hub, hub.highlightList
  {
    && hub.maxHighlights == old(hub.maxHighlights)
    && hub.thresholdLength == old(hub.thresholdLength)
    && hub.highlightLength == old(hub.highlightLength)
    && (ok <==> data.prominentEmotion.Some?)
    && (!ok ==> hub.Valid() && unchanged(hub) && ValuesOf(hub.highlightList) == old(ValuesOf(hub.highlightList)))
    && (ok ==>
         var e := data.prominentEmotion.value;
         var h := HighlightValue(data.x, data.y, ColorOf(e), old(hub.highlightLength));
         if e == NONE then KeptLive(hub, h) else ArchivedFor(hub, h, e))
  }

  /** The consolidation loop's search: the index of the first highlight of `list`
      within the threshold of `newHighlight`. */
  method FirstNear(list: seq<Highlight>, newHighlight: Highlight, threshold: int32) returns (found: Option<nat>)
    ensures found == FirstWithin(ValuesOf(list), newHighlight.Current(), threshold)
  {
    ghost var values := ValuesOf(list);
    var i := 0;
    while i < |list|
      invariant 0 <= i <= |list|
      invariant forall j :: 0 <= j < i ==> !IsWithinThreshold(values[j], newHighlight.Current(), threshold)
    {
      assert values[i] == list[i].Current();
      if IsWithinThreshold(list[i].Current(), newHighlight.Current(), threshold) {
        FirstWithinAt(values, newHighlight.Current(), threshold, i);
        return Some(i);
      }
      i := i + 1;
    }
    return None;
  }

  /** `highlightList.add(newHighlight)` on the hub's own live list. */
  method AppendHighlight(hub: Blackboard, newHighlight: Highlight)
    requires hub.Valid() && newHighlight !in hub.highlightList
    modifies hub`highlightList
    ensures hub.Valid()
    ensures hub.highlightList == old(hub.highlightList) + [newHighlight]
    ensures ValuesOf(hub.highlightList) == old(ValuesOf(hub.highlightList)) + [newHighlight.Current()]
  {
    hub.highlightList := hub.highlightList + [newHighlight];
  }

  /** The consolidation loop of `handleProcessedData`: the first highlight of the list
      within the threshold of `newHighlight` grows by 50. */
  method WidenFirstNear(list: seq<Highlight>, newHighlight: Highlight, threshold: int32)
    requires Distinct(list)
    modifies list
    ensures ValuesOf(list) == WidenFirst(old(ValuesOf(list)), old(newHighlight.Current()), threshold)
  {
    ghost var all := ValuesOf(list);
    var found := FirstNear(list, newHighlight, threshold);
    if found.Some? {
      var i := found.value;
      var widened := list[i];
      widened.IncreaseLength(CONSOLIDATION_INCREMENT);
      forall k | 0 <= k < |all| && k != i
        ensures list[k].Current() == all[k]
      {
        assert list[k] != widened;
      }
      assert ValuesOf(list) == all[i := Widened(all[i], CONSOLIDATION_INCREMENT)];
    }
  }

  /** `handleProcessedData` for a sample whose emotion is NONE. */
  method HandleNoEmotion(hub: Blackboard, data: ProcessedData)
    requires hub.Valid() && data.prominentEmotion == Some(NONE)
    modifies hub`highlightList, hub`events, hub.highlightList
    ensures KeptLive(hub, HighlightValue(data.x, data.y, Gray, old(hub.highlightLength)))
  {
    var newHighlight := new Highlight(data.x, data.y, ColorOf(NONE), hub.highlightLength);
    AppendHighlight(hub, newHighlight);
    WidenFirstNear(hub.highlightList, newHighlight, hub.thresholdLength);
    hub.SetHighlightList(hub.highlightList);
  }

  /** `handleProcessedData` for a sample with a real emotion. */
  method HandleEmotion(hub: Blackboard, data: ProcessedData, e: Emotion)
    requires hub.Valid() && data.prominentEmotion == Some(e) && e != NONE
    modifies hub`highlightList, hub`highlightCollections, hub`archived, hub`events
    modifies hub`emotionCounts, hub`processedEmotions, hub`frequencies
    modifies hub.highlightList
    ensures ArchivedFor(hub, HighlightValue(data.x, data.y, ColorOf(e), old(hub.highlightLength)), e)
  {
    ghost var before := ValuesOf(hub.highlightList);
    ghost var h := HighlightValue(data.x, data.y, ColorOf(e), hub.highlightLength);
    var newHighlight := new Highlight(data.x, data.y, ColorOf(e), hub.highlightLength);
    AppendHighlight(hub, newHighlight);
    WidenFirstNear(hub.highlightList, newHighlight, hub.thresholdLength);
    ghost var live := ValuesOf(hub.highlightList);
    assert live == Consolidated(before, h, hub.thresholdLength);
    ArchiveForEmotion(hub, e);
  }

  /** The tail of `handleProcessedData` for a real emotion: recolour the live list,
      archive and clear it, count the emotion and republish the (empty) list. */
  method ArchiveForEmotion(hub: Blackboard, e: Emotion)
    requires hub.Valid() && e != NONE && hub.highlightList != []
    modifies hub`highlightList, hub`highlightCollections, hub`archived, hub`events
    modifies hub`emotionCounts, hub`processedEmotions, hub`frequencies
    modifies hub.highlightList
    ensures hub.Valid()
    ensures hub.highlightList == []
    ensures hub.highlightCollections ==
      Archive(old(hub.highlightCollections), Recolor(old(ValuesOf(hub.highlightList)), ColorOf(e)), hub.maxHighlights as int)
    ensures hub.emotionCounts == old(hub.emotionCounts)[Value(e) := old(hub.emotionCounts)[Value(e)] + 1]
    ensures hub.processedEmotions == old(hub.processedEmotions) + 1
    ensures hub.frequencies == FrequencyStrings(hub.emotionCounts, hub.processedEmotions)
    ensures hub.events == old(hub.events) +
      [Event(PROPERTY_NAME_VIEW_DATA, HighlightList(Recolor(old(ValuesOf(hub.highlightList)), ColorOf(e)))),
       Event(PROPERTY_NAME_VIEW_DATA, HighlightList([])),
       Event(PROPERTY_NAME_VIEW_DATA, HighlightList([]))]
  {
    ghost var batch := Recolor(ValuesOf(hub.highlightList), ColorOf(e));
    ghost var history := hub.highlightCollections;
    ghost var events := hub.events;
    hub.UpdateHighlightColors(ColorOf(e));
    assert ValuesOf(hub.highlightList) == batch;
    assert hub.events == events + [Event(PROPERTY_NAME_VIEW_DATA, HighlightList(batch))];
    hub.AddHighlightCollection();
    assert hub.highlightCollections == Archive(history, batch, hub.maxHighlights as int);
    UpdateFrequency(hub, e);
    hub.SetHighlightList(hub.highlightList);
  }

  /** `handleProcessedData`. The list the hub hands out is its live list itself, so the
      new highlight and the widening land directly in the hub. */
  method HandleProcessedData(hub: Blackboard, data: ProcessedData) returns (ok: bool)
    requires hub.Valid()
    modifies hub`highlightList, hub`highlightCollections, hub`archived, hub`events
    modifies hub`emotionCounts, hub`processedEmotions, hub`frequencies
    modifies hub.highlightList
    ensures Handled(hub, data, ok)
  {
    if data.prominentEmotion.None? {
      return false;
    }
    var e := data.prominentEmotion.value;
    if e == NONE {
      HandleNoEmotion(hub, data);
    } else {
      HandleEmotion(hub, data, e);
    }
    ok := true;
  }

  /** The aggregator's listener: only a non-null sample on the processed-data channel is
      handled. */
  method PropertyChange(hub: Blackboard, name: string, data: Option<ProcessedData>) returns (ok: bool)
    requires hub.Valid()
    modifies hub`highlightList, hub`highlightCollections, hub`archived, hub`events
    modifies hub`emotionCounts, hub`processedEmotions, hub`frequencies
    modifies hub.highlightList
    ensures name == PROPERTY_NAME_PROCESSED_DATA && data.Some? ==> Handled(hub, data.value, ok)
    ensures name != PROPERTY_NAME_PROCESSED_DATA || data.None? ==>
      ok && unchanged(hub) && hub.Valid() && ValuesOf(hub.highlightList) == old(ValuesOf(hub.highlightList))
  {
    ok := true;
    if name == PROPERTY_NAME_PROCESSED_DATA {
      if data.None? {
        return;
      }
      ok := HandleProcessedData(hub, data.value);
    }
  }
}
