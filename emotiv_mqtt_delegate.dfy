/**
 * `emotivLib.EmotivMQTTDelegate`: decodes the 13-element `met` array of an Emotiv
 * headset into six performance-metric values and publishes them as one
 * comma-separated line, the line the fusion classifier later reads as emotion scores.
 */
module EmotivMqtt {
  import opened Wrappers
  import opened JavaStrings
  import opened Fusion

  /** An element of an `org.json.JSONArray`; a JSON number is read as a real. */
  datatype JsonValue = JBool(b: bool) | JNumber(r: real) | JString(s: string) | JNull

  /** The `JSONException` a typed getter throws, with the index it was asked for. */
  datatype JsonFault = NotABoolean(index: nat) | NotANumber(index: nat)

  /** What escapes `handleEmotions`: a getter's `JSONException`, or the
      `NullPointerException` of streaming the `null` that `parseEmotions` returns. */
  datatype EmotionFault = Json(fault: JsonFault) | NullTable

  /** The number of metrics, and the length of the array that carries them. */
  const EMOTION_CT: nat := 6
  const ARRAY_LENGTH: nat := EMOTION_CT * 2 + 1

  // ---------------------------------------------------------------------------
  // The typed getters of JSONArray
  // ---------------------------------------------------------------------------

  /** `Character` case-insensitive equality against a lower-case ASCII letter: the letter
      itself, its upper case, and U+017F (long s), whose upper case is `S`. */
  predicate SameLetterIgnoringCase(c: char, letter: char)
  {
    c == letter || c as int + 32 == letter as int || (letter == 's' && c == '\U{017F}')
  }

  /** `s.equalsIgnoreCase(word)` for a lower-case ASCII word. */
  predicate EqualsIgnoreCase(s: string, word: string)
  {
    |s| == |word| && forall k :: 0 <= k < |s| ==> SameLetterIgnoringCase(s[k], word[k])
  }

  /** `getBoolean(index)`: a JSON boolean, or a string spelling `true` or `false` in any
      case; anything else throws. */
  function GetBoolean(v: JsonValue, index: nat): (r: Result<bool, JsonFault>)
    ensures v.JBool? ==> r == Success(v.b)
    ensures v.JNumber? || v.JNull? ==> r == Failure(NotABoolean(index))
  {
    match v
    case JBool(b) => Success(b)
    case JString(s) =>
      if EqualsIgnoreCase(s, "false") then Success(false)
      else if EqualsIgnoreCase(s, "true") then Success(true)
      else Failure(NotABoolean(index))
    case _ => Failure(NotABoolean(index))
  }

  /** `getDouble(index)`: a JSON number's value; anything else is printed and handed to
      `Double.parseDouble`, here the parameter `parseDouble`, and throws when that fails. */
  function GetDouble(v: JsonValue, index: nat, parseDouble: string -> Option<real>): (r: Result<real, JsonFault>)
    ensures v.JNumber? ==> r == Success(v.r)
    ensures r.Failure? ==> r.error == NotANumber(index)
  {
    var parsed :=
      match v
      case JNumber(x) => Some(x)
      case JString(s) => parseDouble(s)
      case JBool(b) => parseDouble(if b then "true" else "false")
      case JNull => parseDouble("null");
    if parsed.Some? then Success(parsed.value) else Failure(NotANumber(index))
  }

  // ---------------------------------------------------------------------------
  // parseEmotions
  // ---------------------------------------------------------------------------

  /** Where metric `i` keeps its active flag: pairs from index 0, but from the fourth
      metric on one index later, because index 6 holds an extra value. */
  function FlagIndex(i: nat): nat
  {
    if i >= 3 then 2 * i + 1 else 2 * i
  }

  /** Where metric `i` keeps its value: right after its flag. */
  function ValueIndex(i: nat): nat
  {
    FlagIndex(i) + 1
  }

  /** Every index of the array but 6 is read, and nothing beyond it. */
  lemma IndicesRead(j: nat)
    requires j < ARRAY_LENGTH
    ensures j != 6 <==> exists i :: 0 <= i < EMOTION_CT && (FlagIndex(i) == j || ValueIndex(i) == j)
  {
    if j < 6 {
      var i := j / 2;
      assert FlagIndex(i) == j || ValueIndex(i) == j;
    } else if j > 6 {
      var i := (j - 1) / 2;
      assert FlagIndex(i) == j || ValueIndex(i) == j;
    }
  }

  /** The indices read for a metric stay inside a 13-element array. */
  lemma IndicesInRange(i: nat)
    requires i < EMOTION_CT
    ensures FlagIndex(i) < ValueIndex(i) < ARRAY_LENGTH
    ensures FlagIndex(i) != 6 && ValueIndex(i) != 6
  {
  }

  /** One table entry: the value when the metric is active, `0` when it is not; a flag
      that is not a boolean, or an active value that is not a number, throws. */
  function Slot(emotions: seq<JsonValue>, i: nat, parseDouble: string -> Option<real>): (r: Result<real, JsonFault>)
    requires |emotions| == ARRAY_LENGTH && i < EMOTION_CT
  {
    IndicesInRange(i);
    var isActive := GetBoolean(emotions[FlagIndex(i)], FlagIndex(i));
    if isActive.Failure? then Failure(isActive.error)
    else if isActive.value then GetDouble(emotions[ValueIndex(i)], ValueIndex(i), parseDouble)
    else Success(0.0)
  }

  /** The first `n` table entries filled in order, stopping at the first that throws. */
  function SlotsUpTo(emotions: seq<JsonValue>, n: nat, parseDouble: string -> Option<real>): Result<seq<real>, JsonFault>
    requires |emotions| == ARRAY_LENGTH && n <= EMOTION_CT
  {
    if n == 0 then Success([])
    else
      var earlier := SlotsUpTo(emotions, n - 1, parseDouble);
      if earlier.Failure? then earlier
      else
        var last := Slot(emotions, n - 1, parseDouble);
        if last.Failure? then Failure(last.error) else Success(earlier.value + [last.value])
  }

  /** What `parseEmotions` returns: `null` unless the array has exactly 13 elements,
      otherwise the six entries, or the exception of the first entry that throws. */
  function ParsedEmotions(emotions: seq<JsonValue>, parseDouble: string -> Option<real>): (r: Result<Option<seq<real>>, JsonFault>)
    ensures r == Success(None) <==> |emotions| != ARRAY_LENGTH
  {
    if |emotions| != ARRAY_LENGTH then Success(None)
    else
      var table := SlotsUpTo(emotions, EMOTION_CT, parseDouble);
      if table.Failure? then Failure(table.error) else Success(Some(table.value))
  }

  /** Once an entry has thrown, filling further entries throws the same. */
  lemma {:induction false} FailureStays(emotions: seq<JsonValue>, i: nat, n: nat, parseDouble: string -> Option<real>)
    requires |emotions| == ARRAY_LENGTH && i <= n <= EMOTION_CT
    requires SlotsUpTo(emotions, i, parseDouble).Failure?
    ensures SlotsUpTo(emotions, n, parseDouble) == SlotsUpTo(emotions, i, parseDouble)
    decreases n
  {
    if n > i {
      FailureStays(emotions, i, n - 1, parseDouble);
    }
  }

  /** The filled entries are there exactly when no entry up to `n` throws, and then
      entry `i` is the `i`-th metric. */
  lemma {:induction false} SlotsUpToMeaning(emotions: seq<JsonValue>, n: nat, parseDouble: string -> Option<real>)
    requires |emotions| == ARRAY_LENGTH && n <= EMOTION_CT
    ensures var t := SlotsUpTo(emotions, n, parseDouble);
      (t.Success? <==> forall i :: 0 <= i < n ==> Slot(emotions, i, parseDouble).Success?) &&
      (t.Success? ==> |t.value| == n && forall i :: 0 <= i < n ==> Slot(emotions, i, parseDouble) == Success(t.value[i]))
    decreases n
  {
    if n > 0 {
      SlotsUpToMeaning(emotions, n - 1, parseDouble);
    }
  }

  /** `parseEmotions` of a 13-element array succeeds exactly when no entry throws, and
      then gives six entries, each its metric's value when active and 0 when not. */
  lemma ParsedEmotionsMeaning(emotions: seq<JsonValue>, parseDouble: string -> Option<real>)
    requires |emotions| == ARRAY_LENGTH
    ensures var r := ParsedEmotions(emotions, parseDouble);
      (r.Success? <==> forall i :: 0 <= i < EMOTION_CT ==> Slot(emotions, i, parseDouble).Success?) &&
      (r.Success? ==>
         r.value.Some? && |r.value.value| == EMOTION_CT &&
         forall i :: 0 <= i < EMOTION_CT ==> IsEntry(emotions, i, parseDouble, r.value.value[i]))
  {
    SlotsUpToMeaning(emotions, EMOTION_CT, parseDouble);
    var r := ParsedEmotions(emotions, parseDouble);
    if r.Success? {
      forall i | 0 <= i < EMOTION_CT ensures IsEntry(emotions, i, parseDouble, r.value.value[i]) {
        assert Slot(emotions, i, parseDouble) == Success(r.value.value[i]);
      }
    }
  }

  /** `v` is what metric `i` puts in the table: its flag reads as a boolean, and `v` is
      its value when the flag is true and 0 when it is false. */
  predicate IsEntry(emotions: seq<JsonValue>, i: nat, parseDouble: string -> Option<real>, v: real)
    requires |emotions| == ARRAY_LENGTH && i < EMOTION_CT
  {
    var active := GetBoolean(emotions[FlagIndex(i)], FlagIndex(i));
    active.Success? &&
    if active.value then GetDouble(emotions[ValueIndex(i)], ValueIndex(i), parseDouble) == Success(v)
    else v == 0.0
  }

  /** The element at index 6 never matters. */
  lemma {:induction false} MiddleIgnoredUpTo(emotions: seq<JsonValue>, v: JsonValue, n: nat, parseDouble: string -> Option<real>)
    requires |emotions| == ARRAY_LENGTH && n <= EMOTION_CT
    ensures SlotsUpTo(emotions[6 := v], n, parseDouble) == SlotsUpTo(emotions, n, parseDouble)
    decreases n
  {
    if n > 0 {
      MiddleIgnoredUpTo(emotions, v, n - 1, parseDouble);
      IndicesInRange(n - 1);
      assert Slot(emotions[6 := v], n - 1, parseDouble) == Slot(emotions, n - 1, parseDouble);
    }
  }

  lemma MiddleIgnored(emotions: seq<JsonValue>, v: JsonValue, parseDouble: string -> Option<real>)
    requires |emotions| == ARRAY_LENGTH
    ensures ParsedEmotions(emotions[6 := v], parseDouble) == ParsedEmotions(emotions, parseDouble)
  {
    MiddleIgnoredUpTo(emotions, v, EMOTION_CT, parseDouble);
  }

  /** The sample array written next to the index shift: six active metrics around an
      extra `0` at index 6. */
  lemma SampleArray(parseDouble: string -> Option<real>)
    ensures ParsedEmotions(
      [JBool(true), JNumber(0.788972), JBool(true), JNumber(0.768653), JBool(true), JNumber(0.81132),
       JNumber(0.0), JBool(true), JNumber(0.772702), JBool(true), JNumber(0.787863), JBool(true), JNumber(0.764932)],
      parseDouble) == Success(Some([0.788972, 0.768653, 0.81132, 0.772702, 0.787863, 0.764932]))
  {
    var a := [JBool(true), JNumber(0.788972), JBool(true), JNumber(0.768653), JBool(true), JNumber(0.81132),
              JNumber(0.0), JBool(true), JNumber(0.772702), JBool(true), JNumber(0.787863), JBool(true), JNumber(0.764932)];
    ghost var t: seq<real> := [];
    ActiveSlot(a, 0, parseDouble, t, 0.788972);
    t := t + [0.788972];
    ActiveSlot(a, 1, parseDouble, t, 0.768653);
    t := t + [0.768653];
    ActiveSlot(a, 2, parseDouble, t, 0.81132);
    t := t + [0.81132];
    ActiveSlot(a, 3, parseDouble, t, 0.772702);
    t := t + [0.772702];
    ActiveSlot(a, 4, parseDouble, t, 0.787863);
    t := t + [0.787863];
    ActiveSlot(a, 5, parseDouble, t, 0.764932);
    t := t + [0.764932];
    assert t == [0.788972, 0.768653, 0.81132, 0.772702, 0.787863, 0.764932];
  }

  /** One more entry, for an active metric whose value is a JSON number. */
  lemma ActiveSlot(emotions: seq<JsonValue>, i: nat, parseDouble: string -> Option<real>, earlier: seq<real>, v: real)
    requires |emotions| == ARRAY_LENGTH && i < EMOTION_CT
    requires SlotsUpTo(emotions, i, parseDouble) == Success(earlier)
    requires emotions[FlagIndex(i)] == JBool(true) && emotions[ValueIndex(i)] == JNumber(v)
    ensures SlotsUpTo(emotions, i + 1, parseDouble) == Success(earlier + [v])
  {
  }

  /** `parseEmotions`: fills a fresh six-entry table slot by slot. */
  method ParseEmotions(emotions: seq<JsonValue>, parseDouble: string -> Option<real>) returns (r: Result<Option<seq<real>>, JsonFault>)
    ensures r == ParsedEmotions(emotions, parseDouble)
  {
    var emotionTable := new real[EMOTION_CT];
    if |emotions| != EMOTION_CT * 2 + 1 {
      return Success(None);
    }
    for i := 0 to EMOTION_CT
      invariant SlotsUpTo(emotions, i, parseDouble) == Success(emotionTable[..i])
    {
      var isActiveIdx := 2 * i;
      var valueIdx := 2 * i + 1;
      if i >= 3 {
        isActiveIdx := isActiveIdx + 1;
        valueIdx := valueIdx + 1;
      }
      assert isActiveIdx == FlagIndex(i) && valueIdx == ValueIndex(i);
      var isActive := GetBoolean(emotions[isActiveIdx], isActiveIdx);
      if isActive.Failure? {
        assert SlotsUpTo(emotions, i + 1, parseDouble) == Failure(isActive.error);
        FailureStays(emotions, i + 1, EMOTION_CT, parseDouble);
        return Failure(isActive.error);
      }
      if isActive.value {
        var value := GetDouble(emotions[valueIdx], valueIdx, parseDouble);
        if value.Failure? {
          assert SlotsUpTo(emotions, i + 1, parseDouble) == Failure(value.error);
          FailureStays(emotions, i + 1, EMOTION_CT, parseDouble);
          return Failure(value.error);
        }
        emotionTable[i] := value.value;
      } else {
        emotionTable[i] := 0.0;
      }
      assert emotionTable[..i + 1] == emotionTable[..i] + [emotionTable[i]];
    }
    assert emotionTable[..] == emotionTable[..EMOTION_CT];
    return Success(Some(emotionTable[..]));
  }

  // ---------------------------------------------------------------------------
  // handleEmotions
  // ---------------------------------------------------------------------------

  /** The `String.valueOf` text of every value, in order. */
  function Texts(values: seq<real>, valueText: real -> string): (r: seq<string>)
    ensures |r| == |values|
  {
    seq(|values|, i requires 0 <= i < |values| => valueText(values[i]))
  }

  /** `Arrays.stream(values).mapToObj(String::valueOf).collect(joining(", "))`, with
      `String.valueOf(double)` the parameter `valueText`. */
  function EmotionData(values: seq<real>, valueText: real -> string): string
  {
    Join(Texts(values, valueText), ", ")
  }

  /** `handleEmotions`: nothing when the publisher is not connected; otherwise the line
      to publish, or what `parseEmotions` threw, or the `NullPointerException` of a
      `null` table (the call does not guard it). */
  method HandleEmotions(connected: bool, emotions: seq<JsonValue>, parseDouble: string -> Option<real>, valueText: real -> string)
    returns (published: Result<Option<string>, EmotionFault>)
    ensures !connected ==> published == Success(None)
    ensures connected ==>
      match ParsedEmotions(emotions, parseDouble)
      case Failure(f) => published == Failure(Json(f))
      case Success(None) => published == Failure(NullTable)
      case Success(Some(t)) => published == Success(Some(EmotionData(t, valueText)))
  {
    if !connected {
      return Success(None);
    }
    var emotionVals := ParseEmotions(emotions, parseDouble);
    if emotionVals.Failure? {
      return Failure(Json(emotionVals.error));
    }
    if emotionVals.value.None? {
      return Failure(NullTable);
    }
    var emotionData := EmotionData(emotionVals.value.value, valueText);
    return Success(Some(emotionData));
  }

  /** The published line splits at `,` into one field per value: the first value's text,
      then each further value's text after one blank. */
  lemma EmotionDataFields(values: seq<real>, valueText: real -> string)
    requires |values| >= 1
    requires forall k :: 0 <= k < |values| ==> ',' !in valueText(values[k])
    ensures var fields := Fields(EmotionData(values, valueText), ',');
      |fields| == |values| && fields[0] == valueText(values[0]) &&
      forall k :: 1 <= k < |values| ==> fields[k] == " " + valueText(values[k])
  {
    var texts := Texts(values, valueText);
    assert [','] + " " == ", ";
    assert [] + Join(texts, [','] + " ") == EmotionData(values, valueText);
    FieldsOfJoin([], texts, ',', " ");
  }

  /** The fusion classifier reads a published line back as the values themselves, when
      every value's text is free of commas, not empty, and is read back by the score
      parser with or without the blank in front of it. */
  lemma EmotionDataReadBack(values: seq<real>, valueText: real -> string, parseFloat: string -> Option<real>)
    requires |values| >= 1
    requires forall k :: 0 <= k < |values| ==> ',' !in valueText(values[k]) && valueText(values[k]) != []
    requires forall k :: 0 <= k < |values| ==>
      parseFloat(valueText(values[k])) == Some(values[k]) && parseFloat(" " + valueText(values[k])) == Some(values[k])
    ensures ConvertToFloatList(EmotionData(values, valueText), parseFloat) == Some(values)
  {
    var data := EmotionData(values, valueText);
    var fields := Fields(data, ',');
    EmotionDataFields(values, valueText);
    assert Split(data, ',') == fields by {
      if ',' in data {
        assert fields[|fields| - 1] != [];
      } else {
        assert fields == [data];
      }
    }
    ParseAllMeaning(fields, parseFloat);
    assert forall k :: 0 <= k < |fields| ==> parseFloat(fields[k]) == Some(values[k]);
    var r := ParseAll(fields, parseFloat);
    assert r.Some?;
    assert r.value == values;
  }
}
