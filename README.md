# Affect tracker pipeline, modelled in Dafny

The affect tracker takes gaze samples from an eye tracker (or a mouse standing in for
one) and performance metrics from an Emotiv headset. It fuses each pair into one
classified sample, and turns the samples into coloured screen highlights with a bounded
history and per-emotion frequencies. This project models the in-memory part of that
pipeline:

- **Hub** (`blackboard.dfy`): the `Blackboard` together with its four delegates, as one
  class. It covers `label~payload` framing, routing into the two FIFO queues, error
  channels, the `started` flag, emotion counters, the live highlight list, the bounded
  history deque and the settings. Every property-change notification is appended to a
  ghost event log.
- **Fusion** (`raw_data_processor.dfy`): one `doYourWork` iteration of the classifier.
  It parses the gaze text, validates gaze and scores, and picks the prominent emotion:
  the first maximum, with `-1` meaning inactive. Its outcome is a sample, a sample at
  `(-1, -1)`, a dropped sample, nothing, or an exception, which is modelled as a fault
  value.
- **Aggregation** (`view_data_processor.dfy`): `handleProcessedData`. It appends a
  highlight to the hub's live list, widens the first highlight near it, and for a real
  emotion recolours, archives, clears and recomputes the frequency strings.
- **Value types**:
  - `emotion.dfy`: the emotion table and `getByValue`;
  - `highlight.dfy`: `Highlight`, a class with 32-bit wrap-around;
  - `processed_data.dfy`: the processed sample record.
- **Codecs feeding the pipeline**:
  - `mouse_data_encoder.dfy`: the mouse encoder, with a round trip through the gaze
    parser;
  - `emotiv_mqtt_delegate.dfy`: the Emotiv `met`-array decoder and the published line,
    with a read-back through the score parser;
  - `mqtt_emotiv_handler.dfy`: the copy of the decoder kept among the repository's test programs.
- **Cortex handshake** (`emotiv_launcher_delegate.dfy`): the `handle` state machine,
  which answers reply k with JSON-RPC 2.0 request k + 1 (section 4 of the JSON-RPC 2.0
  specification). The web socket is modelled as an outbox of request objects.
- **Java library behaviour** the code depends on: `java_int.dfy` covers `int`
  arithmetic and `Math.abs`. `java_strings.dfy` covers `split` (with limit 0 and with
  limit 2), `trim`, `replaceAll` of a character class, `Integer.parseInt`,
  `Integer.toString` and `Collectors.joining`.

Java `null` is `None`. An exception that escapes the modelled code is a `Failure`
value or a fault outcome, never a precondition. Several things are parameters of the
model:

- Float and double parsing: `parseFloat`, `parseDouble`;
- `String.valueOf(double)`: `valueText`;
- whether the MQTT publisher is connected: `connected`.

## Model

| member | source | states |
|---|---|---|
| JavaInt.Add | affectTracker/src/main/java/app/Data/Highlight.java:60-61 | the sum is congruent to the exact sum modulo 2^32, and equals it when it fits in an `int` |
| JavaInt.Sub | affectTracker/src/main/java/app/Model/ViewDataProcessor.java:141-142 | the difference is congruent to the exact difference modulo 2^32, and equals it when it fits |
| JavaInt.Abs | affectTracker/src/main/java/app/Model/ViewDataProcessor.java:141-142 | `Math.abs` is non-negative and equals the value or its negation, except that `Integer.MIN_VALUE` maps to itself |
| JavaStrings.IndexOf | affectTracker/src/main/java/app/Model/Blackboard.java:106 | the position found holds the delimiter and no earlier position does |
| JavaStrings.SplitLimit2 | affectTracker/src/main/java/app/Model/Blackboard.java:106 | with a delimiter, the two parts rejoin with it to the input and the first part has no delimiter; without one, the input is returned alone |
| JavaStrings.DropTrailingEmptyCons | affectTracker/src/main/java/app/Model/Blackboard.java:152 | how dropping trailing empty fields treats one more leading field |
| JavaStrings.FieldsAfterFirst | affectTracker/src/main/java/app/Model/Blackboard.java:152 | the fields of `a~b`, with `a` free of `~`, are `a` followed by the fields of `b` |
| JavaStrings.SplitLimit2After | affectTracker/src/main/java/app/Model/Blackboard.java:106 | a limit-2 split cuts at the first delimiter |
| JavaStrings.SplitTwo | affectTracker/src/main/java/app/Model/Blackboard.java:152 | splitting two delimiter-free fields around one delimiter gives exactly those fields, when the second is non-empty |
| JavaStrings.NoFieldsIffAllDelimiters | affectTracker/src/main/java/app/Model/Blackboard.java:152 | no field survives exactly when the string is made only of delimiters |
| JavaStrings.OneFieldAfterFirst | affectTracker/src/main/java/app/Model/Blackboard.java:152 | after the first delimiter, exactly one field survives iff the first field is non-empty and only delimiters follow |
| JavaStrings.OneFieldIff | affectTracker/src/main/java/app/Model/Blackboard.java:152 | exactly one field survives iff the string is one non-empty field followed only by delimiters |
| JavaStrings.TrimLeft | affectTracker/src/main/java/app/Model/RawDataProcessor.java:137 | the result is a suffix, everything removed is blank, and what remains does not start with a blank |
| JavaStrings.TrimRight | affectTracker/src/main/java/app/Model/RawDataProcessor.java:137 | the result is a prefix, everything removed is blank, and what remains does not end with a blank |
| JavaStrings.Trim | affectTracker/src/main/java/app/Model/RawDataProcessor.java:137 | the trimmed text neither starts nor ends with a blank and is no longer than the input |
| JavaStrings.TrimOfUnpadded | affectTracker/src/main/java/app/Model/RawDataProcessor.java:137 | text without blank ends is its own trim, even after leading blanks |
| JavaStrings.TrimOfPadded | affectTracker/src/main/java/app/Model/RawDataProcessor.java:137 | trimming removes exactly the blank padding around a core without blank ends, and an all-blank text trims to nothing |
| JavaStrings.RemoveCharsMeaning | affectTracker/src/main/java/app/Model/RawDataProcessor.java:138 | no deleted character is left, and text free of them is unchanged |
| JavaStrings.RemoveCharsOfClean | affectTracker/src/main/java/app/Model/RawDataProcessor.java:138 | text free of the deleted characters is unchanged |
| JavaStrings.RemoveCharsAppend | affectTracker/src/main/java/app/Model/RawDataProcessor.java:138 | deleting characters distributes over concatenation |
| JavaStrings.NatDigits | affectTracker/src/main/java/app/Model/ViewDataProcessor.java:163 | the decimal text of a natural number is non-empty and made of digits |
| JavaStrings.DigitsValueOfNatDigits | affectTracker/src/main/java/app/Model/ViewDataProcessor.java:163 | the digits printed for `n` have the value `n` |
| JavaStrings.DecimalString | affectTracker/src/main/java/app/Model/ViewDataProcessor.java:163 | `Integer.toString` is digits with an optional leading minus, ending in a digit |
| JavaStrings.ParseInt | affectTracker/src/main/java/app/Model/RawDataProcessor.java:142 | `Integer.parseInt` accepts no empty text |
| JavaStrings.ParseIntMeaning | affectTracker/src/main/java/app/Model/RawDataProcessor.java:142 | an optional sign and ASCII digits parse to their signed decimal value, or to `None` when there is no digit or the value is outside the `int` range |
| JavaStrings.ParseIntRejects | affectTracker/src/main/java/app/Model/RawDataProcessor.java:142 | text with a character that is neither a digit nor a leading sign does not parse |
| JavaStrings.ParseIntOfDecimalString | affectTracker/src/main/java/app/Model/RawDataProcessor.java:142 | `parseInt` inverts `Integer.toString` on every `int` |
| JavaStrings.FieldsOfJoinStep | library/src/main/java/emotivLib/EmotivMQTTDelegate.java:62-64 | one step of splitting a joined string: the first part comes off whole |
| JavaStrings.FieldsOfJoin | library/src/main/java/emotivLib/EmotivMQTTDelegate.java:62-64 | splitting a join at the separator's first character gives back one field per part, each later part carrying the rest of the separator |
| Emotions.Value | affectTracker/src/main/java/app/Data/Emotion.java:16-40 | values lie in -1..5, and -1 belongs to NONE alone |
| Emotions.ColorOf | affectTracker/src/main/java/app/Data/Emotion.java:16-36 | NONE is the only gray emotion |
| Emotions.Search | affectTracker/src/main/java/app/Data/Emotion.java:42-49 | a constant found has the value asked for; `null` only when no constant has it |
| Emotions.GetByValueFinds | affectTracker/src/main/java/app/Data/Emotion.java:42-49 | `getByValue(n)` finds a constant exactly for n in -1..5, and it has value n |
| Emotions.GetByValueOfValue | affectTracker/src/main/java/app/Data/Emotion.java:16-49 | `getByValue(e.getValue())` is `e` for every emotion |
| Emotions.ColorsDistinct | affectTracker/src/main/java/app/Data/Emotion.java:16-24 | the seven colours are pairwise distinct |
| Highlights.Widened | affectTracker/src/main/java/app/Data/Highlight.java:58-62 | widening keeps y and colour and adds the increment to x and length (exactly, when no overflow) |
| Highlights.Highlight.constructor | affectTracker/src/main/java/app/Data/Highlight.java:18-24 | x, y, colour and length are stored unchanged; y is not rounded |
| Highlights.Highlight.SetColor | affectTracker/src/main/java/app/Data/Highlight.java:42-44 | only the colour changes |
| Highlights.Highlight.SetX | affectTracker/src/main/java/app/Data/Highlight.java:50-52 | only x changes |
| Highlights.Highlight.SetY | affectTracker/src/main/java/app/Data/Highlight.java:54-56 | only y changes |
| Highlights.Highlight.IncreaseLength | affectTracker/src/main/java/app/Data/Highlight.java:58-62 | x and length both grow by the increment with `int` wrap-around; y and colour stay |
| Hub.IsValidMessageIff | affectTracker/src/main/java/app/Model/Blackboard.java:151-153 | a message is valid exactly when it has a `~` and what follows the first `~` is one non-empty field followed only by `~`s |
| Hub.FramedMessage | affectTracker/src/main/java/app/Model/Blackboard.java:104-106 | `tag~body` with `~`-free parts and a non-empty body is valid, and splits back into that tag and body |
| Hub.ThreeFieldsInvalid | affectTracker/src/main/java/app/Model/Blackboard.java:151-153 | two `~`s between non-empty fields make a message invalid |
| Hub.RouteByPrefix | affectTracker/src/main/java/app/Model/Blackboard.java:104-121 | `EYE` feeds only the eye queue and `EMOTION` only the emotion queue; other or invalid messages feed neither, and invalid ones raise no error event |
| Hub.SumIncrement | affectTracker/src/main/java/app/Model/BlackboardDelegates.java:134-138 | adding one to a slot adds one to the total |
| Hub.ArchiveEffect | affectTracker/src/main/java/app/Model/BlackboardDelegates.java:170-175 | the newest history entry is the batch, and the oldest is evicted exactly when the size equalled the cap |
| Hub.ArchiveBounded | affectTracker/src/main/java/app/Model/BlackboardDelegates.java:171-175 | with a cap of at least one, a history within the cap stays within it |
| Hub.ArchiveKeepsSuffix | affectTracker/src/main/java/app/Model/BlackboardDelegates.java:171-175 | the history stays a suffix of the sequence of all batches ever archived |
| Hub.ArchiveStep | affectTracker/src/main/java/app/Model/BlackboardDelegates.java:171-175 | one archival keeps the `cap` newest of the old entries plus the batch |
| Hub.ArchiveAllKeepsNewest | affectTracker/src/main/java/app/Model/BlackboardDelegates.java:171-175 | after any number of archivals the history is exactly the `cap` most recent batches, oldest first |
| Hub.HistoryAfterManyArchivals | affectTracker/src/main/java/app/Model/BlackboardDelegates.java:171-175 | from an empty history, more archivals than the cap leave exactly the last `cap` batches |
| Hub.Recolor | affectTracker/src/main/java/app/Model/BlackboardDelegates.java:182-193 | a list that starts with a gray highlight has every highlight given the colour, with position and length kept; any other list, the empty one included, is left as it is |
| Hub.Blackboard.constructor | affectTracker/src/main/java/app/Model/BlackboardDelegates.java:119-167 | the default broker and topics, empty queues, six `0%` frequencies, zero counts, cap 15, row size 100, threshold 50, length 100, not started |
| Hub.Blackboard.PropertyChange | affectTracker/src/main/java/app/Model/Blackboard.java:87-96 | client data is routed, subscriber errors are reported, and other events change nothing |
| Hub.Blackboard.AddSubscriberData | affectTracker/src/main/java/app/Model/Blackboard.java:104-121 | each queue gains the body exactly when the message is valid and tagged for it |
| Hub.Blackboard.AlertError | affectTracker/src/main/java/app/Model/Blackboard.java:129-142 | one event, carrying the body, on the channel of a known tag; nothing otherwise |
| Hub.Blackboard.ReportEyeThreadError | affectTracker/src/main/java/app/Model/Blackboard.java:262-264 | one event on the `EYE` channel with the message |
| Hub.Blackboard.ReportEmotionThreadError | affectTracker/src/main/java/app/Model/Blackboard.java:266-268 | one event on the `EMOTION` channel with the message |
| Hub.Blackboard.ReportMqttBrokerError | affectTracker/src/main/java/app/Model/Blackboard.java:270-272 | one event on the `MQTTE` channel with the message |
| Hub.Blackboard.AddToEyeTrackingQueue | affectTracker/src/main/java/app/Model/BlackboardDelegates.java:107-110 | `put` appends at the tail and never drops |
| Hub.Blackboard.PollEyeTrackingQueue | affectTracker/src/main/java/app/Model/BlackboardDelegates.java:112-115 | the oldest entry is returned and removed, or `null` when empty |
| Hub.Blackboard.AddToEmotionQueue | affectTracker/src/main/java/app/Model/BlackboardDelegates.java:124-127 | `put` appends at the tail and never drops |
| Hub.Blackboard.PollEmotionQueue | affectTracker/src/main/java/app/Model/BlackboardDelegates.java:155-158 | the oldest entry is returned and removed, or `null` when empty |
| Hub.Blackboard.IncrementEmotionCount | affectTracker/src/main/java/app/Model/BlackboardDelegates.java:134-138 | slot `index` grows by one, the others stay, and the total stays the sum of the slots |
| Hub.Blackboard.SetFrequencies | affectTracker/src/main/java/app/Model/BlackboardDelegates.java:129-132 | the frequency list is replaced |
| Hub.Blackboard.AddToProcessedDataQueue | affectTracker/src/main/java/app/Model/Blackboard.java:191-194 | the sample is queued once, then the processed-data channel fires twice: with no value, then with the sample |
| Hub.Blackboard.GetFromProcessedDataObjectQueue | affectTracker/src/main/java/app/Model/BlackboardDelegates.java:271-273 | the oldest sample is returned and removed, or `null` when empty |
| Hub.Blackboard.SetHighlightList | affectTracker/src/main/java/app/Model/BlackboardDelegates.java:208-211 | the list becomes the live list and the view is notified with it |
| Hub.Blackboard.AddHighlightCollection | affectTracker/src/main/java/app/Model/BlackboardDelegates.java:170-178 | a copy of the live list is archived (evicting the head at the cap), the live list is cleared, and the view is notified with the empty list |
| Hub.SetColors | affectTracker/src/main/java/app/Model/BlackboardDelegates.java:191-193 | every highlight of the list gets the colour and keeps its position and length |
| Hub.Blackboard.UpdateHighlightColors | affectTracker/src/main/java/app/Model/BlackboardDelegates.java:181-195 | a list starting gray has every colour set, other lists are untouched, and the view is notified unless the list is empty |
| Hub.Blackboard.StartedProcessing | affectTracker/src/main/java/app/Model/Blackboard.java:274-277 | `started` holds after, and STARTED fires only when it did not hold before |
| Hub.Blackboard.StoppedProcessing | affectTracker/src/main/java/app/Model/Blackboard.java:279-282 | `started` fails after, and STOPPED fires only when it held before |
| Hub.Blackboard.SetMqttBroker | affectTracker/src/main/java/app/Model/Blackboard.java:288-290 | the broker read back is the one set |
| Hub.Blackboard.SetMqttEyeTopic | affectTracker/src/main/java/app/Model/Blackboard.java:296-298 | the eye topic read back is the one set |
| Hub.Blackboard.SetMqttEmotionTopic | affectTracker/src/main/java/app/Model/Blackboard.java:304-306 | the emotion topic read back is the one set |
| Hub.Blackboard.SetMaxHighlights | affectTracker/src/main/java/app/Model/BlackboardDelegates.java:235-237 | the cap changes and the history is not trimmed |
| Hub.Blackboard.SetThresholdLength | affectTracker/src/main/java/app/Model/BlackboardDelegates.java:225-227 | the threshold read back is the one set |
| Hub.Blackboard.SetHighlightLength | affectTracker/src/main/java/app/Model/BlackboardDelegates.java:245-247 | the highlight length read back is the one set |
| Hub.Blackboard.SetRowSize | affectTracker/src/main/java/app/Model/BlackboardDelegates.java:255-257 | the row size read back is the one set |
| Fusion.ParseAllMeaning | affectTracker/src/main/java/app/Model/RawDataProcessor.java:140-147 | the list exists exactly when every field parses, and then holds their values in order |
| Fusion.ParseAllPair | affectTracker/src/main/java/app/Model/RawDataProcessor.java:140-143 | two fields give a list exactly when both parse, and then the list of their two values |
| Fusion.FirstMaxIndex | affectTracker/src/main/java/app/Model/RawDataProcessor.java:175-181 | the index is the first position of the maximum |
| Fusion.FirstMaxUnique | affectTracker/src/main/java/app/Model/RawDataProcessor.java:175-181 | there is only one first maximum |
| Fusion.GetProminentEmotion | affectTracker/src/main/java/app/Model/RawDataProcessor.java:171-187 | the loop computes the first-maximum emotion, throwing on a null or empty list |
| Fusion.ProminentEmotionIsFirstMax | affectTracker/src/main/java/app/Model/RawDataProcessor.java:171-187 | only a null or empty list is rejected; otherwise the first maximum chooses (ties go to the lowest index), a maximum of -1 gives NONE, and an index past 5 gives `null` |
| Fusion.SixValidScores | affectTracker/src/main/java/app/Model/RawDataProcessor.java:155-157 | six valid scores always name an emotion, NONE exactly when all are -1 |
| Fusion.IdleIffNoData | affectTracker/src/main/java/app/Model/RawDataProcessor.java:123-126 | nothing happens exactly when both polls were empty |
| Fusion.EmittedCoordinates | affectTracker/src/main/java/app/Model/RawDataProcessor.java:99-120 | a sample with gaze has non-negative coordinates; one without gaze sits at (-1, -1) |
| Fusion.GazeSample | affectTracker/src/main/java/app/Model/RawDataProcessor.java:80-109 | valid gaze gives the sample of its first two coordinates, with NONE for missing or invalid emotion data and the prominent emotion otherwise |
| Fusion.RejectedGazeDrops | affectTracker/src/main/java/app/Model/RawDataProcessor.java:99-102 | rejected gaze queues nothing (unless empty valid scores throw first) |
| Fusion.DroppedOnlyForRejectedGaze | affectTracker/src/main/java/app/Model/RawDataProcessor.java:99-102 | a sample is dropped only for present, parsed but rejected gaze |
| Fusion.EmotionOnlyUnvalidated | affectTracker/src/main/java/app/Model/RawDataProcessor.java:112-122 | without gaze, out-of-range scores are not validated and still name an emotion at (-1, -1) |
| Fusion.SingleScore | affectTracker/src/main/java/app/Model/RawDataProcessor.java:159-164 | a comma-free emotion field is one score |
| Fusion.GazeWithoutColonFails | affectTracker/src/main/java/app/Model/RawDataProcessor.java:137 | gaze text without `:` throws |
| Fusion.RawDataProcessor.constructor | affectTracker/src/main/java/app/Model/RawDataProcessor.java:52-57 | the classifier starts stopped |
| Fusion.RawDataProcessor.PropertyChange | affectTracker/src/main/java/app/Model/RawDataProcessor.java:194-206 | STOPPED stops, STARTED starts, and other events leave `running` |
| Fusion.RawDataProcessor.DoYourWork | affectTracker/src/main/java/app/Model/RawDataProcessor.java:76-127 | both queues lose their head; the hub gains the decided sample, with its two events, and nothing otherwise |
| MouseEncoder.EncodeFailsIff | affectTracker/src/main/java/app/Model/MouseDataEncoder.java:21-25 | the encoder throws exactly for all-space text or one word followed only by spaces |
| MouseEncoder.EncodeTwoWords | affectTracker/src/main/java/app/Model/MouseDataEncoder.java:21-25 | `"a b …"` encodes as the gaze payload of `a` and `b`, whatever follows |
| MouseEncoder.StrippedPayload | affectTracker/src/main/java/app/Model/RawDataProcessor.java:138 | deleting the punctuation of the payload's value leaves `x, y` |
| MouseEncoder.RemovePunctuationAround | affectTracker/src/main/java/app/Model/RawDataProcessor.java:138 | clean text survives deletion between pieces that vanish or stay whole |
| MouseEncoder.PayloadGazeField | affectTracker/src/main/java/app/Model/MouseDataEncoder.java:23-24 | the payload has exactly two `:`-fields, the second being the coordinate pair after a blank |
| MouseEncoder.CommaFields | affectTracker/src/main/java/app/Model/MouseDataEncoder.java:23-24 | the pair `x, y` splits at `,` into `x` and ` y` |
| MouseEncoder.GazeFieldPair | affectTracker/src/main/java/app/Model/RawDataProcessor.java:133-148 | a message whose second `:`-field, trimmed and stripped of punctuation, is `a,b` gives `[a, b]` when both are decimal `int`s, and `null` otherwise (never an exception) |
| MouseEncoder.GazeOfPayload | affectTracker/src/main/java/app/Model/RawDataProcessor.java:133-148 | the gaze parser reads a payload back as its two coordinates |
| MouseEncoder.DecimalTextIsPlain | affectTracker/src/main/java/app/Model/MouseDataEncoder.java:7-13 | printed `int`s have no separator, blank or punctuation, and parse back |
| MouseEncoder.DecimalTextParses | affectTracker/src/main/java/app/Model/RawDataProcessor.java:141-142 | printed `int`s parse back after a trim, with or without a blank in front |
| MouseEncoder.UnpaddedParses | affectTracker/src/main/java/app/Model/RawDataProcessor.java:141-142 | text without blank ends parses the same after a trim, with or without a blank in front |
| MouseEncoder.PlainCoordinatesRoundTrip | affectTracker/src/main/java/app/Model/MouseDataEncoder.java:21-25 | plain coordinate texts survive the encoder and the gaze parser |
| MouseEncoder.MouseGazeRoundTrip | affectTracker/src/main/java/app/Model/MouseDataEncoder.java:7-25 | printing two `int`s, encoding them and reading them back gives the two `int`s |
| MouseEncoder.MouseOnlySample | affectTracker/src/main/java/app/Model/MouseDataEncoder.java:7-25 | an on-screen mouse position, alone, becomes a sample at that position with emotion NONE |
| MouseEncoder.GazeOnlySample | affectTracker/src/main/java/app/Model/RawDataProcessor.java:80-109 | gaze reading as two on-screen coordinates, alone, becomes a sample with emotion NONE |
| Aggregation.WithinThresholdOfItself | affectTracker/src/main/java/app/Model/ViewDataProcessor.java:140-143 | a highlight is within any non-negative threshold of itself |
| Aggregation.WithinThresholdOfNear | affectTracker/src/main/java/app/Model/ViewDataProcessor.java:140-143 | without overflow the test compares the true distances to the threshold |
| Aggregation.FirstWithin | affectTracker/src/main/java/app/Model/ViewDataProcessor.java:114-119 | the index found is within the threshold with none before it; none is found only when no highlight is near |
| Aggregation.FirstWithinAt | affectTracker/src/main/java/app/Model/ViewDataProcessor.java:114-119 | the first near index is determined by the list |
| Aggregation.ConsolidationWidensOne | affectTracker/src/main/java/app/Model/ViewDataProcessor.java:109-119 | consolidation appends one highlight and widens exactly one, the first near it (the new one when no older one is near), and changes nothing else |
| Aggregation.ConsolidatedColors | affectTracker/src/main/java/app/Model/ViewDataProcessor.java:109-119 | consolidation keeps every colour |
| Aggregation.ArchivedBatchIsUniform | affectTracker/src/main/java/app/Model/ViewDataProcessor.java:121-124 | over an all-gray live list, the batch archived for an emotion is uniformly its colour |
| Aggregation.Percentages | affectTracker/src/main/java/app/Model/ViewDataProcessor.java:161-162 | one truncated percentage per slot |
| Aggregation.PercentagesSumBounds | affectTracker/src/main/java/app/Model/ViewDataProcessor.java:161-162 | truncation loses less than one point per slot |
| Aggregation.PercentagesSumToAtMost100 | affectTracker/src/main/java/app/Model/ViewDataProcessor.java:154-166 | with counts adding up to the total, the percentages add up to at most 100 and more than 100 minus the slot count |
| Aggregation.PercentageRange | affectTracker/src/main/java/app/Model/ViewDataProcessor.java:162 | each percentage lies in 0..100 |
| Aggregation.BuildFrequencies | affectTracker/src/main/java/app/Model/ViewDataProcessor.java:158-164 | the loop builds one `n%` entry per slot, in order |
| Aggregation.UpdateFrequency | affectTracker/src/main/java/app/Model/ViewDataProcessor.java:154-166 | the emotion's slot and the total grow by one, and the frequencies are rebuilt from the new counts |
| Aggregation.FirstNear | affectTracker/src/main/java/app/Model/ViewDataProcessor.java:114-119 | the loop stops at the first near highlight |
| Aggregation.AppendHighlight | affectTracker/src/main/java/app/Model/ViewDataProcessor.java:111 | the new highlight joins the hub's live list at the end |
| Aggregation.WidenFirstNear | affectTracker/src/main/java/app/Model/ViewDataProcessor.java:114-119 | only the first near highlight is widened by 50 |
| Aggregation.HandleNoEmotion | affectTracker/src/main/java/app/Model/ViewDataProcessor.java:105-128 | for NONE, the consolidated list stays live and is republished; history, counts and frequencies are unchanged |
| Aggregation.HandleEmotion | affectTracker/src/main/java/app/Model/ViewDataProcessor.java:105-128 | for a real emotion, the consolidated and recoloured list is archived, the live list is cleared, the emotion is counted and the frequencies are rebuilt |
| Aggregation.ArchiveForEmotion | affectTracker/src/main/java/app/Model/ViewDataProcessor.java:121-128 | recolour, archive, clear, count and republish, with three view events |
| Aggregation.HandleProcessedData | affectTracker/src/main/java/app/Model/ViewDataProcessor.java:105-129 | a sample without an emotion throws before any change; otherwise the highlight is at the sample's position, in the emotion's colour and of the configured length, handled as above |
| Aggregation.PropertyChange | affectTracker/src/main/java/app/Model/ViewDataProcessor.java:175-190 | only a non-null sample on the processed-data channel is handled; anything else leaves the hub and the values of its live highlights unchanged |
| EmotivMqtt.GetBoolean | library/src/main/java/emotivLib/EmotivMQTTDelegate.java:49 | a boolean reads as itself, and a number or null throws |
| EmotivMqtt.GetDouble | library/src/main/java/emotivLib/EmotivMQTTDelegate.java:51 | a number reads as itself, and a failure names the index |
| EmotivMqtt.IndicesRead | library/src/main/java/emotivLib/EmotivMQTTDelegate.java:40-48 | every index except 6 is read by some metric |
| EmotivMqtt.IndicesInRange | library/src/main/java/emotivLib/EmotivMQTTDelegate.java:40-48 | the indices read lie within the 13 elements and are never 6 |
| EmotivMqtt.ParsedEmotions | library/src/main/java/emotivLib/EmotivMQTTDelegate.java:35-39 | `null` exactly when the array does not have 13 elements |
| EmotivMqtt.FailureStays | library/src/main/java/emotivLib/EmotivMQTTDelegate.java:40-55 | once an entry throws, filling more entries throws the same |
| EmotivMqtt.SlotsUpToMeaning | library/src/main/java/emotivLib/EmotivMQTTDelegate.java:40-55 | the entries exist exactly when none throws, and entry i is metric i |
| EmotivMqtt.ParsedEmotionsMeaning | library/src/main/java/emotivLib/EmotivMQTTDelegate.java:32-58 | success exactly when no entry throws, and then six entries, each the value when active and 0 when not |
| EmotivMqtt.MiddleIgnoredUpTo | library/src/main/java/emotivLib/EmotivMQTTDelegate.java:40-48 | element 6 does not affect any filled prefix |
| EmotivMqtt.MiddleIgnored | library/src/main/java/emotivLib/EmotivMQTTDelegate.java:40-48 | element 6 does not affect the result |
| EmotivMqtt.SampleArray | library/src/main/java/emotivLib/EmotivMQTTDelegate.java:43-44 | the sample array in the comment gives its six values |
| EmotivMqtt.ActiveSlot | library/src/main/java/emotivLib/EmotivMQTTDelegate.java:49-51 | an active metric with a number appends that number |
| EmotivMqtt.ParseEmotions | library/src/main/java/emotivLib/EmotivMQTTDelegate.java:32-58 | the array-filling loop computes the decoded table |
| EmotivMqtt.HandleEmotions | library/src/main/java/emotivLib/EmotivMQTTDelegate.java:59-66 | nothing when disconnected; otherwise the joined line, the getter's exception, or the exception of streaming a `null` table |
| EmotivMqtt.EmotionDataFields | library/src/main/java/emotivLib/EmotivMQTTDelegate.java:62-64 | the line splits at `,` into one field per value |
| EmotivMqtt.EmotionDataReadBack | library/src/main/java/emotivLib/EmotivMQTTDelegate.java:59-66 | the fusion classifier's score parser reads the joined line back as the values |
| EmotivTestHandler.ParseEmotions | affectTracker/src/main/java/test/Emotiv/MQTTEmotivHandler.java:29-52 | the test copy returns what the library copy returns on every array |
| EmotivTestHandler.HandleEmotions | affectTracker/src/main/java/test/Emotiv/MQTTEmotivHandler.java:53-61 | the test copy publishes what the library copy publishes |
| Cortex.PutText | library/src/main/java/emotivLib/EmotivLauncherDelegate.java:47-48 | the key is present afterwards exactly when it was before or the value is non-null; a non-null value is stored under the key, a `null` one leaves an existing entry alone, and every other entry is kept and no other key appears |
| Cortex.GetString | library/src/main/java/emotivLib/EmotivLauncherDelegate.java:135-136 | a string is returned exactly when the reply is an object holding the key |
| Cortex.FirstHeadsetId | library/src/main/java/emotivLib/EmotivLauncherDelegate.java:148-149 | the first headset's id is returned exactly when the reply is a non-empty array whose first object has one |
| Cortex.RequestsWellFormed | library/src/main/java/emotivLib/EmotivLauncherDelegate.java:31-119 | every request is JSON-RPC 2.0 with the id of its step |
| Cortex.CredentialsSentWhenSet | library/src/main/java/emotivLib/EmotivLauncherDelegate.java:40-65 | the credentials are in `requestAccess` and `authorize` exactly when set; `authorize` debits 1 |
| Cortex.LauncherDelegate.constructor | library/src/main/java/emotivLib/EmotivLauncherDelegate.java:21-29 | nothing held, not subscribed, nothing sent |
| Cortex.LauncherDelegate.Send | library/src/main/java/emotivLib/EmotivLauncherDelegate.java:37 | the request joins the outbox |
| Cortex.LauncherDelegate.GetCortexInfo | library/src/main/java/emotivLib/EmotivLauncherDelegate.java:31-38 | sends request 1 |
| Cortex.LauncherDelegate.RequestAccess | library/src/main/java/emotivLib/EmotivLauncherDelegate.java:40-51 | sends request 2 with the credentials |
| Cortex.LauncherDelegate.Authorize | library/src/main/java/emotivLib/EmotivLauncherDelegate.java:53-65 | sends request 3 with the credentials |
| Cortex.LauncherDelegate.GetUserInformation | library/src/main/java/emotivLib/EmotivLauncherDelegate.java:67-77 | sends request 4 only when a token is held |
| Cortex.LauncherDelegate.QueryHeadsets | library/src/main/java/emotivLib/EmotivLauncherDelegate.java:79-86 | sends request 5 |
| Cortex.LauncherDelegate.CreateSession | library/src/main/java/emotivLib/EmotivLauncherDelegate.java:88-102 | sends request 6 only when a token and a headset are held |
| Cortex.LauncherDelegate.Subscribe | library/src/main/java/emotivLib/EmotivLauncherDelegate.java:104-119 | sends request 7 (stream `met`) only when a token and a session are held |
| Cortex.LauncherDelegate.Handle | library/src/main/java/emotivLib/EmotivLauncherDelegate.java:121-160 | reply k sends request k + 1 and stores what it carries; an unknown id changes nothing; `subscribed` latches at 7; a missing member throws after the fields before it were stored |

## Left out

- Threads and timing are not modelled. This covers the `run` loops, `Thread.sleep` and `wait`, interrupts, and the poll timeouts. A poll returns `null` at once when its queue is empty, and one `doYourWork` call is one step.
- The `java.beans` listener machinery is not modelled: registration, delivery and delivery order. Each notification is appended to a ghost event log. The boolean suppression rule is kept for STARTED and STOPPED. The aggregator's listener is a method the caller invokes.
- Concurrency of the `ConcurrentLinkedDeque` and `LinkedBlockingQueue` is not modelled. They are sequences.
- Floating point is not modelled. `Float.parseFloat` and `Double.parseDouble` are the parameters `parseFloat` and `parseDouble`, `String.valueOf(double)` is `valueText`, and scores are exact reals.
- Aggregation.Percentage: computes `count * 100 / total` exactly. The source's double division can land one lower: 29 of 100 gives `0.29 * 100 = 28.999…`, which truncates to 28.
- Counter overflow is not modelled. Emotion counts and the processed total are unbounded integers, so overflow after 2^31 samples is not captured. Highlight coordinates and lengths do wrap at 32 bits.
- Highlight row size and drawing are not modelled. The `rowSize` field and `drawHighlight` only serve rendering. The constructor's rounding of y is commented out in the source, so y is stored as given.
- Getters are not modelled as members: the model reads the fields directly. `getFormattedConnectionSettings` only formats text and is left out.
- `HighlightDataDelegate.addToHighlightList` is left out: the hub has no wrapper for it, so nothing in the pipeline reaches it.
- Hub.Blackboard.PropertyChange: the new value is a `string`, so a `null` new value, which the `(String)` cast lets through and which throws a `NullPointerException` once the message is split, is not modelled. Every notification on these channels carries a non-null string.
- Hub.Blackboard.AddHighlightCollection: takes no list argument. Its only caller passes the hub's own live list, so the model archives and clears that list.
- Hub.Blackboard.constructor: the two timeout constants (500 and 200 ms) and the logger are not modelled.
- Transport is not modelled: MQTT and web-socket I/O, SSL, and the servers. `connected` stands for `isConnected()`. The socket is the outbox `sent`.
- The encoder that `ThePublisherMQTT.publish` applies before sending (library/src/main/java/headSimulatorOneLibrary/ThePublisherMQTT.java:66) is not modelled for the Emotiv path. The encoder handed to `EmotivMQTTDelegate` by its server is not part of this model, so the model assumes it passes the line through unchanged. `HandleEmotions`'s result is the line before encoding, and `EmotivMqtt.EmotionDataReadBack` speaks of that line.
- JSON text is not modelled. A Cortex reply arrives as an object, an array of objects, or something else, each object reduced to its string-valued members; a member that is not a string counts as missing. Request objects are values, not serialized text.
- EmotivMqtt.GetBoolean: accepts strings spelling `true`/`false` in ASCII letters of either case, plus U+017F for `s`; no other Unicode case folding is modelled.
- JavaStrings.ParseInt: only ASCII digits are accepted, whereas `Integer.parseInt` also accepts other Unicode decimal digits.
- Logging is not modelled.
- The user names that the Cortex handshake stores are kept, but nothing reads them.
