/**
 * `app.Model.MouseDataEncoder`: turns a mouse position `"x y"` into the payload an eye
 * tracker publishes, so that the mouse can stand in for the tracker.
 */
module MouseEncoder {
  import opened Wrappers
  import opened JavaInt
  import opened JavaStrings
  import opened Emotions
  import opened Samples
  import opened Fusion

  /** The key of the eye tracker's gaze field. */
  const GAZE_KEY := "{'gaze_point_on_display_area'"

  /** The format `{'gaze_point_on_display_area': (%s, %s)}` with the two coordinates. */
  function GazePayload(x: string, y: string): string
  {
    GAZE_KEY + [':'] + [' '] + GazeValue(x, y)
  }

  /** The part of the payload after `: `: the coordinate pair and the closing brace. */
  function GazeValue(x: string, y: string): string
  {
    "(" + x + ", " + y + ")}"
  }

  /** `encodeMessageForMQTT`: the first two space-separated fields of the message as the
      two coordinates; `None` where `coords[1]` does not exist and the call throws. */
  function EncodeMessageForMqtt(message: string): Option<string>
  {
    var coords := Split(message, ' ');
    if |coords| < 2 then None else Some(GazePayload(coords[0], coords[1]))
  }

  /** The encoder throws exactly for a message that is all spaces (the empty one
      included) or a single word followed only by spaces. */
  lemma EncodeFailsIff(message: string)
    ensures EncodeMessageForMqtt(message).None? <==>
      (forall k :: 0 <= k < |message| ==> message[k] == ' ') || OneFieldThenDelimiters(message, ' ')
  {
    if ' ' in message {
      NoFieldsIffAllDelimiters(message, ' ');
      OneFieldIff(message, ' ');
    } else if message != [] {
      assert OneFieldThenDelimiters(message, ' ');
    }
  }

  /** Two words make the payload, whatever further space-separated fields follow. */
  lemma EncodeTwoWords(a: string, b: string, tail: string)
    requires ' ' !in a && ' ' !in b && b != []
    requires tail == [] || tail[0] == ' '
    ensures EncodeMessageForMqtt(a + [' '] + b + tail) == Some(GazePayload(a, b))
  {
    var m := a + [' '] + (b + tail);
    assert a + [' '] + b + tail == m;
    assert ' ' in m by { assert m[|a|] == ' '; }
    var rest := Fields(b + tail, ' ');
    assert Fields(m, ' ') == [a] + rest by { FieldsAfterFirst(a, ' ', b + tail); }
    assert rest == [b] + rest[1..] by {
      if tail == [] {
        assert b + tail == b;
      } else {
        assert b + tail == b + [' '] + tail[1..];
        FieldsAfterFirst(b, ' ', tail[1..]);
      }
    }
    var kept := DropTrailingEmpty(rest);
    assert kept != [] && kept[0] == b by { DropTrailingEmptyCons(b, rest[1..]); }
    assert Split(m, ' ') == [a] + kept by { DropTrailingEmptyCons(a, rest); }
  }

  /** Deleting the payload's punctuation leaves the two coordinates and the `, ` between
      them, when the coordinates hold no punctuation themselves. */
  lemma StrippedPayload(x: string, y: string)
    requires forall k :: 0 <= k < |x| ==> x[k] !in GAZE_PUNCTUATION
    requires forall k :: 0 <= k < |y| ==> y[k] !in GAZE_PUNCTUATION
    ensures RemoveChars(GazeValue(x, y), GAZE_PUNCTUATION) == x + ", " + y
  {
    OpeningRemoved();
    ClosingRemoved();
    CommaKept();
    RemovePunctuationAround("(", x, ", ", y, ")}", GAZE_PUNCTUATION);
  }

  /** Deleting characters from clean text between pieces that vanish or stay whole. */
  lemma RemovePunctuationAround(open: string, x: string, comma: string, y: string, close: string, cs: set<char>)
    requires RemoveChars(open, cs) == [] && RemoveChars(comma, cs) == comma && RemoveChars(close, cs) == []
    requires forall k :: 0 <= k < |x| ==> x[k] !in cs
    requires forall k :: 0 <= k < |y| ==> y[k] !in cs
    ensures RemoveChars(open + x + comma + y + close, cs) == x + comma + y
  {
    var w1 := open + x;
    assert RemoveChars(w1, cs) == x by {
      RemoveCharsAppend(open, x, cs);
      RemoveCharsOfClean(x, cs);
      assert [] + x == x;
    }
    var w2 := w1 + comma;
    assert RemoveChars(w2, cs) == x + comma by {
      RemoveCharsAppend(w1, comma, cs);
    }
    var w3 := w2 + y;
    assert RemoveChars(w3, cs) == x + comma + y by {
      RemoveCharsAppend(w2, y, cs);
      RemoveCharsOfClean(y, cs);
    }
    RemoveCharsAppend(w3, close, cs);
    assert x + comma + y + [] == x + comma + y;
  }

  lemma CommaKept()
    ensures RemoveChars(", ", GAZE_PUNCTUATION) == ", "
  {
    assert ", "[1..] == " ";
    assert " "[1..] == [];
    assert RemoveChars(" ", GAZE_PUNCTUATION) == " ";
  }

  lemma OpeningRemoved()
    ensures RemoveChars("(", GAZE_PUNCTUATION) == []
  {
    assert "("[1..] == [];
  }

  lemma ClosingRemoved()
    ensures RemoveChars(")}", GAZE_PUNCTUATION) == []
  {
    assert ")}"[1..] == "}";
    assert "}"[1..] == [];
    assert RemoveChars("}", GAZE_PUNCTUATION) == [];
  }

  /** The payload's text after the first `:`, which is also its last field at `:`. */
  lemma PayloadGazeField(x: string, y: string)
    requires ':' !in x && ':' !in y
    ensures var fields := Split(GazePayload(x, y), ':');
      |fields| == 2 && fields[1] == [' '] + GazeValue(x, y)
  {
    var value := [' '] + GazeValue(x, y);
    assert GazePayload(x, y) == GAZE_KEY + [':'] + value;
    assert ':' !in GAZE_KEY;
    assert ':' !in value;
    SplitTwo(GAZE_KEY, ':', value);
  }

  /** `x, y` splits at the comma into `x` and ` y`. */
  lemma CommaFields(x: string, y: string)
    requires ',' !in x && ',' !in y && y != []
    ensures Split(x + ", " + y, ',') == [x, " " + y]
  {
    assert x + ", " + y == x + [','] + (" " + y);
    SplitTwo(x, ',', " " + y);
  }

  /** A message whose second `:`-field, trimmed and stripped of punctuation, is two texts
      around one comma gives the list of their two values, and `null` when either of them
      is not a decimal `int`. */
  lemma GazeFieldPair(p: string, a: string, b: string)
    requires |Split(p, ':')| >= 2
    requires RemoveChars(Trim(Split(p, ':')[1]), GAZE_PUNCTUATION) == a + [','] + b
    requires ',' !in a && ',' !in b && b != []
    ensures ConvertToIntegerList(p).Success?
    ensures ConvertToIntegerList(p).value.Some? <==> ParseIntField(a).Some? && ParseIntField(b).Some?
    ensures ConvertToIntegerList(p).value.Some? ==>
      ConvertToIntegerList(p).value.value == [ParseIntField(a).value, ParseIntField(b).value]
  {
    assert ConvertToIntegerList(p) == Success(ParseAll(Split(a + [','] + b, ','), ParseIntField));
    assert Split(a + [','] + b, ',') == [a, b] by {
      SplitTwo(a, ',', b);
    }
    ParseAllPair(a, b, ParseIntField);
  }

  /** The payload's second `:`-field, trimmed and stripped of punctuation, is `x, y`. */
  lemma GazeFieldOfPayload(x: string, y: string)
    requires ':' !in x && ':' !in y
    requires forall k :: 0 <= k < |x| ==> x[k] !in GAZE_PUNCTUATION
    requires forall k :: 0 <= k < |y| ==> y[k] !in GAZE_PUNCTUATION
    ensures var fields := Split(GazePayload(x, y), ':');
      |fields| >= 2 && RemoveChars(Trim(fields[1]), GAZE_PUNCTUATION) == x + [','] + (" " + y)
  {
    PayloadGazeField(x, y);
    TrimmedGazeValue(x, y);
    StrippedPayload(x, y);
    assert x + ", " + y == x + [','] + (" " + y);
  }

  /** The blank after the payload's `:` is trimmed away. */
  lemma TrimmedGazeValue(x: string, y: string)
    ensures Trim([' '] + GazeValue(x, y)) == GazeValue(x, y)
  {
    var inner := GazeValue(x, y);
    assert inner[0] == '(' && inner[|inner| - 1] == '}';
    TrimOfUnpadded([' '], inner);
  }

  /** The gaze parser reads a payload back as its two coordinates, for coordinates made
      of non-blank text free of the separators and of the stripped punctuation. */
  lemma GazeOfPayload(x: string, y: string, vx: int32, vy: int32)
    requires ':' !in x && ':' !in y && ',' !in x && ',' !in y && y != []
    requires forall k :: 0 <= k < |x| ==> x[k] !in GAZE_PUNCTUATION
    requires forall k :: 0 <= k < |y| ==> y[k] !in GAZE_PUNCTUATION
    requires ParseIntField(x) == Some(vx) && ParseIntField(" " + y) == Some(vy)
    ensures ConvertToIntegerList(GazePayload(x, y)) == Success(Some([vx, vy]))
  {
    GazeFieldOfPayload(x, y);
    GazeFieldPair(GazePayload(x, y), x, " " + y);
  }

  /** The decimal text of an `int` holds only digits and a leading minus. */
  lemma DecimalTextIsPlain(n: int32)
    ensures var s := DecimalString(n as int);
      ':' !in s && ',' !in s && ' ' !in s && s != [] &&
      (forall k :: 0 <= k < |s| ==> s[k] !in GAZE_PUNCTUATION) &&
      ParseIntField(s) == Some(n) && ParseIntField(" " + s) == Some(n)
  {
    var s := DecimalString(n as int);
    assert forall k :: 0 <= k < |s| ==> s[k] != ':' && s[k] != ',' && s[k] != ' ' && s[k] !in GAZE_PUNCTUATION;
    assert ParseIntField(s) == Some(n) && ParseIntField(" " + s) == Some(n) by {
      DecimalTextParses(n, s);
    }
  }

  /** The decimal text reads back through `Integer.parseInt` after a trim, with or
      without a blank before it. */
  lemma DecimalTextParses(n: int32, s: string)
    requires s == DecimalString(n as int)
    ensures ParseIntField(s) == Some(n) && ParseIntField(" " + s) == Some(n)
  {
    ParseIntOfDecimalString(n);
    assert |s| > 0 && !IsBlank(s[0]) && !IsBlank(s[|s| - 1]);
    UnpaddedParses(s, n);
  }

  /** Text that parses and has no blank at either end parses the same after a trim, with
      or without a blank before it. */
  lemma UnpaddedParses(s: string, n: int32)
    requires |s| > 0 && !IsBlank(s[0]) && !IsBlank(s[|s| - 1])
    requires ParseInt(s) == Some(n)
    ensures ParseIntField(s) == Some(n) && ParseIntField(" " + s) == Some(n)
  {
    assert Trim(s) == s by {
      TrimOfUnpadded([], s);
      assert [] + s == s;
    }
    TrimOfUnpadded(" ", s);
  }

  /** Plain coordinate texts survive the encoder and the gaze parser unchanged. */
  lemma PlainCoordinatesRoundTrip(sx: string, sy: string, x: int32, y: int32)
    requires ':' !in sx && ',' !in sx && ' ' !in sx
    requires ':' !in sy && ',' !in sy && ' ' !in sy && sy != []
    requires forall k :: 0 <= k < |sx| ==> sx[k] !in GAZE_PUNCTUATION
    requires forall k :: 0 <= k < |sy| ==> sy[k] !in GAZE_PUNCTUATION
    requires ParseIntField(sx) == Some(x) && ParseIntField(" " + sy) == Some(y)
    ensures EncodeMessageForMqtt(sx + " " + sy) == Some(GazePayload(sx, sy))
    ensures ConvertToIntegerList(GazePayload(sx, sy)) == Success(Some([x, y]))
  {
    assert sx + " " + sy == sx + [' '] + sy + [];
    EncodeTwoWords(sx, sy, []);
    GazeOfPayload(sx, sy, x, y);
  }

  /** The encoded mouse position is read back by the fusion classifier as exactly the
      two coordinates. */
  lemma MouseGazeRoundTrip(x: int32, y: int32)
    ensures var encoded := EncodeMessageForMqtt(DecimalString(x as int) + " " + DecimalString(y as int));
      encoded.Some? && ConvertToIntegerList(encoded.value) == Success(Some([x, y]))
  {
    DecimalTextIsPlain(x);
    DecimalTextIsPlain(y);
    PlainCoordinatesRoundTrip(DecimalString(x as int), DecimalString(y as int), x, y);
  }

  /** A mouse position on the screen, with no emotion sample beside it, becomes a sample
      at that position with no emotion. */
  lemma MouseOnlySample(x: int32, y: int32, parseFloat: string -> Option<real>)
    requires x >= 0 && y >= 0
    ensures var encoded := EncodeMessageForMqtt(DecimalString(x as int) + " " + DecimalString(y as int));
      encoded.Some? && Classify(encoded, None, parseFloat) == Emitted(ProcessedData(x, y, Some(NONE), None))
  {
    var encoded := EncodeMessageForMqtt(DecimalString(x as int) + " " + DecimalString(y as int));
    assert encoded.Some? && ConvertToIntegerList(encoded.value) == Success(Some([x, y])) by {
      MouseGazeRoundTrip(x, y);
    }
    GazeOnlySample(encoded, x, y, parseFloat);
  }

  /** An eye message that reads as two on-screen coordinates, alone, becomes a sample
      with no emotion. */
  lemma GazeOnlySample(eye: Option<string>, x: int32, y: int32, parseFloat: string -> Option<real>)
    requires x >= 0 && y >= 0
    requires eye.Some? && ConvertToIntegerList(eye.value) == Success(Some([x, y]))
    ensures Classify(eye, None, parseFloat) == Emitted(ProcessedData(x, y, Some(NONE), None))
  {
    assert Classify(eye, None, parseFloat) == Decide(Some(Success(Some([x, y]))), None);
    GazeSample([x, y], None);
  }
}
