/** The emotion table of `app.Data.Emotion`: each constant's display colour and value. */
module Emotions {
  import opened Wrappers

  /** The `java.awt.Color` constants that the table uses. */
  datatype Color = Gray | Yellow | Green | Blue | Red | Magenta | Cyan

  datatype Emotion = NONE | ATTENTION | ENGAGEMENT | EXCITEMENT | STRESS | RELAXATION | INTEREST

  /** `Emotion.values()`, in declaration order. */
  const Values: seq<Emotion> := [NONE, ATTENTION, ENGAGEMENT, EXCITEMENT, STRESS, RELAXATION, INTEREST]

  /** `getValue()`: -1 for the sentinel, 0..5 for the six categories. */
  function Value(e: Emotion): (v: int)
    ensures -1 <= v <= 5
    ensures v == -1 <==> e == NONE
  {
    match e
    case NONE => -1
    case ATTENTION => 0
    case ENGAGEMENT => 1
    case EXCITEMENT => 2
    case STRESS => 3
    case RELAXATION => 4
    case INTEREST => 5
  }

  /** `getColor()`. */
  function ColorOf(e: Emotion): (c: Color)
    ensures c == Gray <==> e == NONE
  {
    match e
    case NONE => Gray
    case ATTENTION => Yellow
    case ENGAGEMENT => Green
    case EXCITEMENT => Blue
    case STRESS => Red
    case RELAXATION => Magenta
    case INTEREST => Cyan
  }

  /** The loop of `getByValue` over `vs`: the first constant with value `n`, or `null`. */
  function Search(vs: seq<Emotion>, n: int): (r: Option<Emotion>)
    ensures r.Some? ==> r.value in vs && Value(r.value) == n
    ensures r.None? ==> forall k :: 0 <= k < |vs| ==> Value(vs[k]) != n
  {
    if vs == [] then None
    else if Value(vs[0]) == n then Some(vs[0])
    else Search(vs[1..], n)
  }

  /** `Emotion.getByValue(n)`. */
  function GetByValue(n: int): Option<Emotion>
  {
    Search(Values, n)
  }

  /** `getByValue` finds a constant exactly for the values -1..5, and the constant it
      finds has that value. */
  lemma GetByValueFinds(n: int)
    ensures GetByValue(n).Some? <==> -1 <= n <= 5
    ensures GetByValue(n).Some? ==> Value(GetByValue(n).value) == n
  {
    if -1 <= n <= 5 {
      assert Value(Values[n + 1]) == n;
    }
  }

  /** `getByValue` inverts `getValue`, because the values are distinct. */
  lemma GetByValueOfValue(e: Emotion)
    ensures GetByValue(Value(e)) == Some(e)
  {
    assert Values[Value(e) + 1] == e;
  }

  /** The seven colours are pairwise distinct, so a colour determines its emotion. */
  lemma ColorsDistinct(e1: Emotion, e2: Emotion)
    ensures ColorOf(e1) == ColorOf(e2) ==> e1 == e2
  {
  }
}
