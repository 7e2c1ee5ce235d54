/** `app.Data.Highlight`: a mutable screen mark, and the value of its fields at one moment. */
module Highlights {
  import opened JavaInt
  import opened Emotions

  /** The fields of a highlight at one moment; an archived copy keeps exactly these. */
  datatype HighlightValue = HighlightValue(x: int32, y: int32, color: Color, length: int32)

  /** What `increaseLength(k)` makes of a highlight: it grows by `k` and its x moves by `k`. */
  function Widened(h: HighlightValue, increment: int32): (r: HighlightValue)
    ensures r.y == h.y && r.color == h.color
    ensures MIN <= h.x as int + increment as int <= MAX ==> r.x as int == h.x as int + increment as int
    ensures MIN <= h.length as int + increment as int <= MAX ==> r.length as int == h.length as int + increment as int
  {
    h.(x := Add(h.x, increment), length := Add(h.length, increment))
  }

  class Highlight {
    var x: int32
    var y: int32
    var color: Color
    var length: int32

    /** The fields are stored as given; the rounding of y to the row size is not applied. */
    constructor (x: int32, y: int32, color: Color, length: int32)
      ensures Current() == HighlightValue(x, y, color, length)
    {
      this.x := x;
      this.y := y;
      this.color := color;
      this.length := length;
    }

    function Current(): HighlightValue
      reads this
    {
      HighlightValue(x, y, color, length)
    }

    method SetColor(color: Color)
      modifies this
      ensures Current() == old(Current()).(color := color)
    {
      this.color := color;
    }

    method SetX(x: int32)
      modifies this
      ensures Current() == old(Current()).(x := x)
    {
      this.x := x;
    }

    method SetY(y: int32)
      modifies this
      ensures Current() == old(Current()).(y := y)
    {
      this.y := y;
    }

    /** Java `int` arithmetic: both additions wrap around. */
    method IncreaseLength(increment: int32)
      modifies this
      ensures Current() == Widened(old(Current()), increment)
    {
      x := Add(x, increment);
      length := Add(length, increment);
    }
  }

  /** The current fields of every highlight of a list, in list order. */
  function ValuesOf(list: seq<Highlight>): (r: seq<HighlightValue>)
    reads list
    ensures |r| == |list|
  {
    seq(|list|, k reads list requires 0 <= k < |list| => list[k].Current())
  }
}
