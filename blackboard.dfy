/**
 * The shared state hub `app.Model.Blackboard` together with the four delegates of
 * `BlackboardDelegates.java` that it owns (eye-tracking queue, emotion queue and
 * counters, highlight lists and settings, processed-data queue). Each delegate is
 * private to the hub and created once with it, so its fields are fields of the
 * one class `Blackboard` here. Every `firePropertyChange` appends to the ghost
 * event log `events`.
 */
module Hub {
  import opened Wrappers
  import opened JavaInt
  import opened JavaStrings
  import opened Emotions
  import opened Highlights
  import opened Samples

  const PROPERTY_NAME_PROCESSED_DATA: string := "processed data"
  const PROPERTY_NAME_VIEW_DATA: string := "view data"
  const STARTED: string := "STARTED"
  const STOPPED: string := "STOPPED"
  const EYE_DATA_LABEL: string := "EYE"
  const EMOTION_DATA_LABEL: string := "EMOTION"
  const MQTTBROKER_ERROR: string := "MQTTE"
  const PREFIX_DELIMITER: char := '~'
  /** The two channels of the MQTT subscriber that the hub listens to. */
  const CLIENT_PROPERTY_LABEL: string := "addClientData"
  const REPORT_ERROR_LABEL: string := "reportSubscriberError"
  const EMOTION_CT: nat := 6

  /** The new value carried by a property-change event. */
  datatype Payload =
    | Null
    | Text(text: string)
    | Sample(sample: ProcessedData)
    | HighlightList(highlights: seq<HighlightValue>)
    | Flag(flag: bool)

  datatype Event = Event(channel: string, payload: Payload)

  // ---------------------------------------------------------------------------
  // Message framing
  // ---------------------------------------------------------------------------

  /** `isValidMessage`: splitting at `~` (trailing empty fields dropped) gives two fields. */
  predicate IsValidMessage(m: string)
  {
    |Split(m, PREFIX_DELIMITER)| == 2
  }

  /** The tag in front of the first `~`. */
  function Prefix(m: string): string
    requires IsValidMessage(m)
  {
    SplitLimit2(m, PREFIX_DELIMITER)[0]
  }

  /** Everything after the first `~`. */
  function Body(m: string): string
    requires IsValidMessage(m)
  {
    SplitLimit2(m, PREFIX_DELIMITER)[1]
  }

  /** Exactly which messages are valid: those with a `~` whose remainder is one non-empty
      field followed by nothing but `~`s. The tag itself may be empty. */
  lemma IsValidMessageIff(m: string)
    ensures IsValidMessage(m) <==>
      PREFIX_DELIMITER in m && OneFieldThenDelimiters(SplitLimit2(m, PREFIX_DELIMITER)[1], PREFIX_DELIMITER)
  {
    var d := PREFIX_DELIMITER;
    if d in m {
      var parts := SplitLimit2(m, d);
      FieldsAfterFirst(parts[0], d, parts[1]);
      DropTrailingEmptyCons(parts[0], Fields(parts[1], d));
      OneFieldIff(parts[1], d);
    }
  }

  /** A tag and a non-empty body, neither holding `~`, frame a valid message that
      splits back into exactly that tag and body. */
  lemma FramedMessage(tag: string, body: string)
    requires PREFIX_DELIMITER !in tag && PREFIX_DELIMITER !in body && body != []
    ensures IsValidMessage(tag + [PREFIX_DELIMITER] + body)
    ensures Prefix(tag + [PREFIX_DELIMITER] + body) == tag
    ensures Body(tag + [PREFIX_DELIMITER] + body) == body
  {
    SplitTwo(tag, PREFIX_DELIMITER, body);
  }

  /** Two `~`s between non-empty fields make a message invalid. */
  lemma ThreeFieldsInvalid(a: string, b: string, c: string)
    requires PREFIX_DELIMITER !in a && PREFIX_DELIMITER !in b && PREFIX_DELIMITER !in c
    requires b != [] && c != []
    ensures !IsValidMessage(a + [PREFIX_DELIMITER] + b + [PREFIX_DELIMITER] + c)
  {
    var d := PREFIX_DELIMITER;
    var m := a + [d] + b + [d] + c;
    assert m == a + [d] + (b + [d] + c);
    IsValidMessageIff(m);
    SplitLimit2After(a, d, b + [d] + c);
    var p := b + [d] + c;
    assert p[|b|] == d && p[|p| - 1] == c[|c| - 1];
  }

  /** The queue that takes `tag` after `addSubscriberData(m)`. */
  function Enqueued(queue: seq<string>, m: string, tag: string): seq<string>
  {
    if IsValidMessage(m) && Prefix(m) == tag then queue + [Body(m)] else queue
  }

  /** The events `alertError(m)` fires: one on the channel named by a known tag. */
  function ErrorEvents(m: string): seq<Event>
  {
    if IsValidMessage(m) && Prefix(m) in {EYE_DATA_LABEL, EMOTION_DATA_LABEL, MQTTBROKER_ERROR}
    then [Event(Prefix(m), Text(Body(m)))]
    else []
  }

  /** Routing by tag: a valid `EYE` message feeds the eye queue only, a valid `EMOTION`
      message the emotion queue only, and any other message neither. */
  lemma RouteByPrefix(eyeQueue: seq<string>, emotionQueue: seq<string>, m: string)
    ensures IsValidMessage(m) && Prefix(m) == EYE_DATA_LABEL ==>
      Enqueued(eyeQueue, m, EYE_DATA_LABEL) == eyeQueue + [Body(m)] &&
      Enqueued(emotionQueue, m, EMOTION_DATA_LABEL) == emotionQueue
    ensures IsValidMessage(m) && Prefix(m) == EMOTION_DATA_LABEL ==>
      Enqueued(eyeQueue, m, EYE_DATA_LABEL) == eyeQueue &&
      Enqueued(emotionQueue, m, EMOTION_DATA_LABEL) == emotionQueue + [Body(m)]
    ensures !IsValidMessage(m) || Prefix(m) !in {EYE_DATA_LABEL, EMOTION_DATA_LABEL} ==>
      Enqueued(eyeQueue, m, EYE_DATA_LABEL) == eyeQueue &&
      Enqueued(emotionQueue, m, EMOTION_DATA_LABEL) == emotionQueue
    ensures !IsValidMessage(m) ==> ErrorEvents(m) == []
  {
  }

  // ---------------------------------------------------------------------------
  // Counters and the bounded history
  // ---------------------------------------------------------------------------

  function Sum(s: seq<int>): int
  {
    if s == [] then 0 else s[0] + Sum(s[1..])
  }

  /** Adding one to a slot adds one to the sum. */
  lemma {:induction false} SumIncrement(s: seq<int>, i: nat)
    requires i < |s|
    ensures Sum(s[i := s[i] + 1]) == Sum(s) + 1
  {
    if i > 0 {
      assert s[i := s[i] + 1][1..] == s[1..][i - 1 := s[1..][i - 1] + 1];
      SumIncrement(s[1..], i - 1);
    }
  }

  ghost predicate IsSuffix<T>(a: seq<T>, b: seq<T>)
  {
    |a| <= |b| && a == b[|b| - |a|..]
  }

  /** The history after `addHighlightCollection`: the head is evicted when the size equals
      the cap (`pollFirst` on an empty deque removes nothing), then the batch goes at the tail. */
  function Archive(history: seq<seq<HighlightValue>>, batch: seq<HighlightValue>, cap: int)
    : seq<seq<HighlightValue>>
  {
    (if |history| == cap && history != [] then history[1..] else history) + [batch]
  }

  /** The newest entry is the batch, and the oldest entry goes exactly when the size
      was the cap. */
  lemma ArchiveEffect(history: seq<seq<HighlightValue>>, batch: seq<HighlightValue>, cap: int)
    ensures var r := Archive(history, batch, cap);
      |r| > 0 && r[|r| - 1] == batch &&
      (|r| == |history| <==> (|history| == cap && history != [])) &&
      (|r| == |history| ==> r[..|r| - 1] == history[1..]) &&
      (|r| != |history| ==> |r| == |history| + 1 && r[..|r| - 1] == history)
  {
  }

  /** With a cap of at least one, a history within the cap stays within it. */
  lemma ArchiveBounded(history: seq<seq<HighlightValue>>, batch: seq<HighlightValue>, cap: int)
    requires 1 <= cap && |history| <= cap
    ensures |Archive(history, batch, cap)| <= cap
  {
  }

  /** Eviction at the head and archival at the tail keep the history a suffix of the
      sequence of all batches ever archived. */
  lemma ArchiveKeepsSuffix(history: seq<seq<HighlightValue>>, batch: seq<HighlightValue>, cap: int,
                           log: seq<seq<HighlightValue>>)
    requires IsSuffix(history, log)
    ensures IsSuffix(Archive(history, batch, cap), log + [batch])
  {
    var r := Archive(history, batch, cap);
    var l := log + [batch];
    assert r[..|r| - 1] == l[|l| - |r|..|l| - 1];
  }

  /** Archiving several batches one after the other. */
  function ArchiveAll(history: seq<seq<HighlightValue>>, batches: seq<seq<HighlightValue>>, cap: int)
    : seq<seq<HighlightValue>>
    decreases |batches|
  {
    if batches == [] then history
    else ArchiveAll(Archive(history, batches[0], cap), batches[1..], cap)
  }

  function Min(a: int, b: int): int { if a <= b then a else b }

  /** One archival keeps the `cap` most recent entries of the history and the batch. */
  lemma ArchiveStep(history: seq<seq<HighlightValue>>, batch: seq<HighlightValue>, cap: int)
    requires 1 <= cap && |history| <= cap
    ensures var grown := history + [batch];
      Archive(history, batch, cap) == grown[|grown| - Min(cap, |grown|)..]
  {
    var grown := history + [batch];
    if |history| == cap {
      assert history[1..] + [batch] == grown[1..];
    } else {
      assert grown[0..] == grown;
    }
  }

  /** A tail of a suffix is a tail of the whole. */
  lemma TailOfSuffix<T>(whole: seq<T>, start: nat, m: nat)
    requires start <= |whole| && m <= |whole| - start
    ensures var part := whole[start..]; part[|part| - m..] == whole[|whole| - m..]
  {
  }

  /** Starting within the cap, the history always holds exactly the `cap` most recent
      batches (all of them while there are fewer), oldest first. */
  lemma {:induction false} ArchiveAllKeepsNewest(history: seq<seq<HighlightValue>>,
                                                 batches: seq<seq<HighlightValue>>, cap: int)
    requires 1 <= cap && |history| <= cap
    ensures var all := history + batches;
      ArchiveAll(history, batches, cap) == all[|all| - Min(cap, |all|)..]
    decreases |batches|
  {
    var all := history + batches;
    if batches == [] {
      assert all == history;
      assert all[0..] == all;
    } else {
      var rest := batches[1..];
      var grown := history + [batches[0]];
      var start := |grown| - Min(cap, |grown|);
      var h' := Archive(history, batches[0], cap);
      assert h' == grown[start..] by {
        ArchiveStep(history, batches[0], cap);
      }
      var all' := h' + rest;
      assert all' == all[start..] by {
        assert grown + rest == all;
      }
      assert Min(cap, |all'|) == Min(cap, |all|);
      assert ArchiveAll(h', rest, cap) == all'[|all'| - Min(cap, |all'|)..] by {
        ArchiveAllKeepsNewest(h', rest, cap);
      }
      TailOfSuffix(all, start, Min(cap, |all|));
    }
  }

  /** After more archivals than the cap, from an empty history, the history holds exactly
      the `cap` most recent batches. */
  lemma HistoryAfterManyArchivals(batches: seq<seq<HighlightValue>>, cap: int)
    requires 1 <= cap < |batches|
    ensures |ArchiveAll([], batches, cap)| == cap
    ensures ArchiveAll([], batches, cap) == batches[|batches| - cap..]
  {
    ArchiveAllKeepsNewest([], batches, cap);
    assert [] + batches == batches;
  }

  /** `updateHighlightColors(c)` on the list's values: only a list that starts with a
      gray highlight is recoloured, and then every highlight becomes `c`. */
  function Recolor(list: seq<HighlightValue>, c: Color): (r: seq<HighlightValue>)
    ensures |r| == |list|
    ensures list != [] && list[0].color == Gray ==> forall k :: 0 <= k < |r| ==> r[k] == list[k].(color := c)
    ensures list == [] || list[0].color != Gray ==> r == list
  {
    if list == [] || list[0].color != Gray then list
    else seq(|list|, k requires 0 <= k < |list| => list[k].(color := c))
  }

  predicate Distinct(list: seq<Highlight>)
  {
    forall i, j :: 0 <= i < j < |list| ==> list[i] != list[j]
  }

  /** The loop of `updateHighlightColors`: every highlight of `list` gets colour `c`, and
      nothing else about it changes. */
  method SetColors(list: seq<Highlight>, c: Color)
    requires Distinct(list)
    modifies list
    ensures forall k :: 0 <= k < |list| ==> list[k].Current() == old(list[k].Current()).(color := c)
  {
    for i := 0 to |list|
      invariant forall k :: 0 <= k < |list| ==>
        list[k].Current() == if k < i then old(list[k].Current()).(color := c) else old(list[k].Current())
    {
      list[i].SetColor(c);
    }
  }

  // ---------------------------------------------------------------------------
  // The hub
  // ---------------------------------------------------------------------------

  class Blackboard {
    var mqttBroker: string
    var mqttEyeTopic: string
    var mqttEmotionTopic: string
    var started: bool

    // EyeTrackingDataDelegate
    var eyeTrackingQueue: seq<string>

    // EmotionDataDelegate
    var emotionQueue: seq<string>
    var frequencies: seq<string>
    var processedEmotions: int
    var emotionCounts: seq<int>

    // HighlightDataDelegate
    var highlightList: seq<Highlight>
    var highlightCollections: seq<seq<HighlightValue>>
    var maxHighlights: int32
    var rowSize: int32
    var thresholdLength: int32
    var highlightLength: int32

    // ProcessedDataDelegate
    var processedDataQueue: seq<ProcessedData>

    /** Every property change fired so far, oldest first. */
    ghost var events: seq<Event>
    /** Every batch ever archived into the history, oldest first. */
    ghost var archived: seq<seq<HighlightValue>>

    ghost predicate Valid()
      reads this
    {
      && |emotionCounts| == EMOTION_CT
      && (forall i :: 0 <= i < |emotionCounts| ==> emotionCounts[i] >= 0)
      && processedEmotions == Sum(emotionCounts)
      && processedEmotions >= 0
      && IsSuffix(highlightCollections, archived)
      && Distinct(highlightList)
    }

    constructor ()
      ensures Valid()
      ensures mqttBroker == "tcp://broker.hivemq.com:1883"
      ensures mqttEyeTopic == "app/SimulatedEyeData" && mqttEmotionTopic == "app/SimulatedEmotionData"
      ensures !started
      ensures eyeTrackingQueue == [] && emotionQueue == [] && processedDataQueue == []
      ensures frequencies == ["0%", "0%", "0%", "0%", "0%", "0%"]
      ensures emotionCounts == [0, 0, 0, 0, 0, 0] && processedEmotions == 0
      ensures highlightList == [] && highlightCollections == []
      ensures maxHighlights == 15 && rowSize == 100 && thresholdLength == 50 && highlightLength == 100
      ensures events == [] && archived == []
    {
      mqttBroker := "tcp://broker.hivemq.com:1883";
      mqttEyeTopic := "app/SimulatedEyeData";
      mqttEmotionTopic := "app/SimulatedEmotionData";
      started := false;
      eyeTrackingQueue := [];
      emotionQueue := [];
      frequencies := ["0%", "0%", "0%", "0%", "0%", "0%"];
      processedEmotions := 0;
      emotionCounts := [0, 0, 0, 0, 0, 0];
      highlightList := [];
      highlightCollections := [];
      maxHighlights := 15;
      rowSize := 100;
      thresholdLength := 50;
      highlightLength := 100;
      processedDataQueue := [];
      events := [];
      archived := [];
    }

    /** Events from the MQTT subscriber: client data and subscriber errors. */
    method PropertyChange(name: string, value: string)
      modifies this`eyeTrackingQueue, this`emotionQueue, this`events
      ensures name == CLIENT_PROPERTY_LABEL ==>
        && eyeTrackingQueue == Enqueued(old(eyeTrackingQueue), value, EYE_DATA_LABEL)
        && emotionQueue == Enqueued(old(emotionQueue), value, EMOTION_DATA_LABEL)
        && events == old(events)
      ensures name == REPORT_ERROR_LABEL ==>
        && eyeTrackingQueue == old(eyeTrackingQueue) && emotionQueue == old(emotionQueue)
        && events == old(events) + ErrorEvents(value)
      ensures name != CLIENT_PROPERTY_LABEL && name != REPORT_ERROR_LABEL ==>
        eyeTrackingQueue == old(eyeTrackingQueue) && emotionQueue == old(emotionQueue) && events == old(events)
    {
      if name == CLIENT_PROPERTY_LABEL {
        AddSubscriberData(value);
      } else if name == REPORT_ERROR_LABEL {
        AlertError(value);
      }
    }

    /** Routes the body of a framed message to the queue its tag names. */
    method AddSubscriberData(dataWithPrefix: string)
      modifies this`eyeTrackingQueue, this`emotionQueue
      ensures eyeTrackingQueue == Enqueued(old(eyeTrackingQueue), dataWithPrefix, EYE_DATA_LABEL)
      ensures emotionQueue == Enqueued(old(emotionQueue), dataWithPrefix, EMOTION_DATA_LABEL)
    {
      if IsValidMessage(dataWithPrefix) {
        var prefixAndData := SplitLimit2(dataWithPrefix, PREFIX_DELIMITER);
        if prefixAndData[0] == EYE_DATA_LABEL {
          AddToEyeTrackingQueue(prefixAndData[1]);
        } else if prefixAndData[0] == EMOTION_DATA_LABEL {
          AddToEmotionQueue(prefixAndData[1]);
        }
      }
    }

    /** Reports an error on the channel its tag names. */
    method AlertError(messageWithPrefix: string)
      modifies this`events
      ensures events == old(events) + ErrorEvents(messageWithPrefix)
    {
      if IsValidMessage(messageWithPrefix) {
        var prefixAndMessage := SplitLimit2(messageWithPrefix, PREFIX_DELIMITER);
        var prefix, message := prefixAndMessage[0], prefixAndMessage[1];
        if prefix == EYE_DATA_LABEL {
          ReportEyeThreadError(message);
        } else if prefix == EMOTION_DATA_LABEL {
          ReportEmotionThreadError(message);
        } else if prefix == MQTTBROKER_ERROR {
          ReportMqttBrokerError(message);
        }
      }
    }

    method ReportEyeThreadError(message: string)
      modifies this`events
      ensures events == old(events) + [Event(EYE_DATA_LABEL, Text(message))]
    {
      events := events + [Event(EYE_DATA_LABEL, Text(message))];
    }

    method ReportEmotionThreadError(message: string)
      modifies this`events
      ensures events == old(events) + [Event(EMOTION_DATA_LABEL, Text(message))]
    {
      events := events + [Event(EMOTION_DATA_LABEL, Text(message))];
    }

    method ReportMqttBrokerError(message: string)
      modifies this`events
      ensures events == old(events) + [Event(MQTTBROKER_ERROR, Text(message))]
    {
      events := events + [Event(MQTTBROKER_ERROR, Text(message))];
    }

    /** `put` on an unbounded queue: never drops, appends at the tail. */
    method AddToEyeTrackingQueue(data: string)
      modifies this`eyeTrackingQueue
      ensures eyeTrackingQueue == old(eyeTrackingQueue) + [data]
    {
      eyeTrackingQueue := eyeTrackingQueue + [data];
    }

    /** `poll`, with the wait abstracted: the oldest entry, or `null` when empty. */
    method PollEyeTrackingQueue() returns (r: Option<string>)
      modifies this`eyeTrackingQueue
      ensures old(eyeTrackingQueue) == [] ==> r == None && eyeTrackingQueue == []
      ensures old(eyeTrackingQueue) != [] ==>
        r == Some(old(eyeTrackingQueue)[0]) && eyeTrackingQueue == old(eyeTrackingQueue)[1..]
    {
      if eyeTrackingQueue == [] {
        r := None;
      } else {
        r := Some(eyeTrackingQueue[0]);
        eyeTrackingQueue := eyeTrackingQueue[1..];
      }
    }

    method AddToEmotionQueue(data: string)
      modifies this`emotionQueue
      ensures emotionQueue == old(emotionQueue) + [data]
    {
      emotionQueue := emotionQueue + [data];
    }

    method PollEmotionQueue() returns (r: Option<string>)
      modifies this`emotionQueue
      ensures old(emotionQueue) == [] ==> r == None && emotionQueue == []
      ensures old(emotionQueue) != [] ==>
        r == Some(old(emotionQueue)[0]) && emotionQueue == old(emotionQueue)[1..]
    {
      if emotionQueue == [] {
        r := None;
      } else {
        r := Some(emotionQueue[0]);
        emotionQueue := emotionQueue[1..];
      }
    }

    /** One more emotion of category `index`; the total grows with it. */
    method IncrementEmotionCount(index: nat)
      requires Valid() && index < EMOTION_CT
      modifies this`emotionCounts, this`processedEmotions
      ensures Valid()
      ensures emotionCounts == old(emotionCounts)[index := old(emotionCounts)[index] + 1]
      ensures processedEmotions == old(processedEmotions) + 1
    {
      SumIncrement(emotionCounts, index);
      emotionCounts := emotionCounts[index := emotionCounts[index] + 1];
      processedEmotions := processedEmotions + 1;
    }

    method SetFrequencies(newFrequencies: seq<string>)
      modifies this`frequencies
      ensures frequencies == newFrequencies
    {
      frequencies := newFrequencies;
    }

    /** Queues a classified sample and notifies the processed-data channel twice: first
        the delegate with no value, then the hub with the sample. */
    method AddToProcessedDataQueue(data: ProcessedData)
      modifies this`processedDataQueue, this`events
      ensures processedDataQueue == old(processedDataQueue) + [data]
      ensures events == old(events) + [Event(PROPERTY_NAME_PROCESSED_DATA, Null),
                                       Event(PROPERTY_NAME_PROCESSED_DATA, Sample(data))]
    {
      processedDataQueue := processedDataQueue + [data];
      events := events + [Event(PROPERTY_NAME_PROCESSED_DATA, Null)];
      events := events + [Event(PROPERTY_NAME_PROCESSED_DATA, Sample(data))];
    }

    method GetFromProcessedDataObjectQueue() returns (r: Option<ProcessedData>)
      modifies this`processedDataQueue
      ensures old(processedDataQueue) == [] ==> r == None && processedDataQueue == []
      ensures old(processedDataQueue) != [] ==>
        r == Some(old(processedDataQueue)[0]) && processedDataQueue == old(processedDataQueue)[1..]
    {
      if processedDataQueue == [] {
        r := None;
      } else {
        r := Some(processedDataQueue[0]);
        processedDataQueue := processedDataQueue[1..];
      }
    }

    /** Makes `list` the live list and notifies the view with it. */
    method SetHighlightList(list: seq<Highlight>)
      requires Valid() && Distinct(list)
      modifies this`highlightList, this`events
      ensures Valid()
      ensures highlightList == list
      ensures events == old(events) + [Event(PROPERTY_NAME_VIEW_DATA, HighlightList(ValuesOf(list)))]
    {
      highlightList := list;
      events := events + [Event(PROPERTY_NAME_VIEW_DATA, HighlightList(ValuesOf(list)))];
    }

    /** Archives a copy of the live list into the bounded history, clears the live list
        and notifies the view with the (now empty) list. */
    method AddHighlightCollection()
      requires Valid()
      modifies this`highlightCollections, this`highlightList, this`events, this`archived
      ensures Valid()
      ensures highlightCollections ==
        Archive(old(highlightCollections), old(ValuesOf(highlightList)), maxHighlights as int)
      ensures archived == old(archived) + [old(ValuesOf(highlightList))]
      ensures highlightList == []
      ensures events == old(events) + [Event(PROPERTY_NAME_VIEW_DATA, HighlightList([]))]
    {
      var highlightsCopy := ValuesOf(highlightList);
      ArchiveKeepsSuffix(highlightCollections, highlightsCopy, maxHighlights as int, archived);
      if |highlightCollections| == maxHighlights as int && highlightCollections != [] {
        highlightCollections := highlightCollections[1..];
      }
      highlightCollections := highlightCollections + [highlightsCopy];
      archived := archived + [highlightsCopy];
      highlightList := [];
      events := events + [Event(PROPERTY_NAME_VIEW_DATA, HighlightList([]))];
    }

    /** Recolours a list that starts with a gray highlight; notifies the view unless the
        list is empty. */
    method UpdateHighlightColors(color: Color)
      requires Valid()
      modifies this`events, highlightList
      ensures Valid()
      ensures ValuesOf(highlightList) == Recolor(old(ValuesOf(highlightList)), color)
      ensures events == old(events) +
        (if highlightList == [] then [] else [Event(PROPERTY_NAME_VIEW_DATA, HighlightList(ValuesOf(highlightList)))])
    {
      if highlightList == [] {
        return;
      }
      if highlightList[0].color != Gray {
        events := events + [Event(PROPERTY_NAME_VIEW_DATA, HighlightList(ValuesOf(highlightList)))];
        return;
      }
      ghost var before := ValuesOf(highlightList);
      SetColors(highlightList, color);
      assert ValuesOf(highlightList) == Recolor(before, color);
      events := events + [Event(PROPERTY_NAME_VIEW_DATA, HighlightList(ValuesOf(highlightList)))];
    }

    method StartedProcessing()
      modifies this`started, this`events
      ensures started
      ensures events == old(events) + (if old(started) then [] else [Event(STARTED, Flag(true))])
    {
      if !started {
        events := events + [Event(STARTED, Flag(true))];
      }
      started := true;
    }

    method StoppedProcessing()
      modifies this`started, this`events
      ensures !started
      ensures events == old(events) + (if old(started) then [Event(STOPPED, Flag(false))] else [])
    {
      if started {
        events := events + [Event(STOPPED, Flag(false))];
      }
      started := false;
    }

    method SetMqttBroker(broker: string)
      modifies this`mqttBroker
      ensures mqttBroker == broker
    {
      mqttBroker := broker;
    }

    method SetMqttEyeTopic(topic: string)
      modifies this`mqttEyeTopic
      ensures mqttEyeTopic == topic
    {
      mqttEyeTopic := topic;
    }

    method SetMqttEmotionTopic(topic: string)
      modifies this`mqttEmotionTopic
      ensures mqttEmotionTopic == topic
    {
      mqttEmotionTopic := topic;
    }

    /** Changing the cap does not trim the history. */
    method SetMaxHighlights(max: int32)
      modifies this`maxHighlights
      ensures maxHighlights == max
    {
      maxHighlights := max;
    }

    method SetThresholdLength(threshold: int32)
      modifies this`thresholdLength
      ensures thresholdLength == threshold
    {
      thresholdLength := threshold;
    }

    method SetHighlightLength(length: int32)
      modifies this`highlightLength
      ensures highlightLength == length
    {
      highlightLength := length;
    }

    method SetRowSize(size: int32)
      modifies this`rowSize
      ensures rowSize == size
    {
      rowSize := size;
    }
  }
}
