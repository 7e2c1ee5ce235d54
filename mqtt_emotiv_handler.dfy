/**
 * `test.Emotiv.MQTTEmotivHandler`: the copy of the Emotiv decoder kept among the test programs.
 * Its `parseEmotions` and `handleEmotions` are written out again here and proved to
 * compute what the library's `EmotivMqtt` copy computes.
 */
module EmotivTestHandler {
  import opened Wrappers
  import opened EmotivMqtt

  /** `parseEmotions` of the test copy, whose flag is a boxed `Boolean`; it returns
      exactly what the library copy returns on every array. */
  method ParseEmotions(emotions: seq<JsonValue>, parseDouble: string -> Option<real>) returns (r: Result<Option<seq<real>>, JsonFault>)
    ensures r == ParsedEmotions(emotions, parseDouble)
  {
    var emotionTable := new real[EMOTION_CT];
    if |emotions| != EMOTION_CT * 2 + 1 {
      return Success(None);
    }
    for i := 0 to EMOTION_CT
      invariant SlotsUpTo(emotions, i, parseDouble) == Success(emotionTable[..i])
    {
      var isActiveIdx := 2 * i;
      var valueIdx := 2 * i + 1;
      if i >= 3 {
        isActiveIdx := isActiveIdx + 1;
        valueIdx := valueIdx + 1;
      }
      assert isActiveIdx == FlagIndex(i) && valueIdx == ValueIndex(i);
      var isActive := GetBoolean(emotions[isActiveIdx], isActiveIdx);
      if isActive.Failure? {
        assert SlotsUpTo(emotions, i + 1, parseDouble) == Failure(isActive.error);
        FailureStays(emotions, i + 1, EMOTION_CT, parseDouble);
        return Failure(isActive.error);
      }
      if isActive.value {
        var value := GetDouble(emotions[valueIdx], valueIdx, parseDouble);
        if value.Failure? {
          assert SlotsUpTo(emotions, i + 1, parseDouble) == Failure(value.error);
          FailureStays(emotions, i + 1, EMOTION_CT, parseDouble);
          return Failure(value.error);
        }
        emotionTable[i] := value.value;
      } else {
        emotionTable[i] := 0.0;
      }
      assert emotionTable[..i + 1] == emotionTable[..i] + [emotionTable[i]];
    }
    assert emotionTable[..] == emotionTable[..EMOTION_CT];
    return Success(Some(emotionTable[..]));
  }

  /** `handleEmotions` of the test copy: the same line as the library copy publishes,
      from the test copy's own decoder. */
  method HandleEmotions(connected: bool, emotions: seq<JsonValue>, parseDouble: string -> Option<real>, valueText: real -> string)
    returns (published: Result<Option<string>, EmotionFault>)
    ensures !connected ==> published == Success(None)
    ensures connected ==>
      match ParsedEmotions(emotions, parseDouble)
      case Failure(f) => published == Failure(Json(f))
      case Success(None) => published == Failure(NullTable)
      case Success(Some(t)) => published == Success(Some(EmotionData(t, valueText)))
  {
    if !connected {
      return Success(None);
    }
    var emotionVals := ParseEmotions(emotions, parseDouble);
    if emotionVals.Failure? {
      return Failure(Json(emotionVals.error));
    }
    if emotionVals.value.None? {
      return Failure(NullTable);
    }
    var emotionData := EmotionData(emotionVals.value.value, valueText);
    return Success(Some(emotionData));
  }
}
