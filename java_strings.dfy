/**
 * The pieces of `java.lang.String` and `java.lang.Integer` that the core relies on:
 * `split` on a one-character delimiter (with and without a limit), `trim`,
 * deleting a character class with `replaceAll`, `Integer.parseInt`, `Integer.toString`
 * (and `%d`), and `Collectors.joining`.
 */
module JavaStrings {
  import opened Wrappers
  import opened JavaInt

  // ---------------------------------------------------------------------------
  // Splitting
  // ---------------------------------------------------------------------------

  /** `s.indexOf(d)` for a string that contains `d`. */
  function IndexOf(s: string, d: char): (i: nat)
    requires d in s
    ensures i < |s| && s[i] == d
    ensures forall j :: 0 <= j < i ==> s[j] != d
  {
    if s[0] == d then 0
    else
      var j := IndexOf(s[1..], d);
      1 + j
  }

  /** Every field of `s` between occurrences of `d`, empty ones included. */
  function Fields(s: string, d: char): (r: seq<string>)
    ensures |r| >= 1
    decreases |s|
  {
    if d in s then
      var i := IndexOf(s, d);
      [s[..i]] + Fields(s[i + 1..], d)
    else
      [s]
  }

  /** Removes the empty strings at the end of a field list, as `split` with limit 0 does. */
  function DropTrailingEmpty(fs: seq<string>): seq<string>
  {
    if fs != [] && fs[|fs| - 1] == [] then DropTrailingEmpty(fs[..|fs| - 1]) else fs
  }

  /** `s.split(d)` for a delimiter that is not a regular-expression metacharacter:
      a string without `d` gives itself (even the empty string); otherwise every
      field, with the trailing empty fields dropped. */
  function Split(s: string, d: char): seq<string>
  {
    if d in s then DropTrailingEmpty(Fields(s, d)) else [s]
  }

  /** `s.split(d, 2)`: the text before the first `d` and everything after it. */
  function SplitLimit2(s: string, d: char): (r: seq<string>)
    ensures d in s ==> |r| == 2 && r[0] + [d] + r[1] == s && d !in r[0]
    ensures d !in s ==> r == [s]
  {
    if d in s then
      var i := IndexOf(s, d);
      assert s == s[..i] + [d] + s[i + 1..];
      [s[..i], s[i + 1..]]
    else
      [s]
  }

  /** A string made of one non-empty field followed by nothing but delimiters. */
  ghost predicate OneFieldThenDelimiters(p: string, d: char)
  {
    |p| > 0 && p[0] != d && forall j, k :: 0 <= j < k < |p| && p[j] == d ==> p[k] == d
  }

  /** Dropping trailing empty fields from a list with one more field in front. */
  lemma {:induction false} DropTrailingEmptyCons(a: string, fs: seq<string>)
    ensures DropTrailingEmpty([a] + fs) ==
      if DropTrailingEmpty(fs) == [] then (if a == [] then [] else [a])
      else [a] + DropTrailingEmpty(fs)
    decreases |fs|
  {
    if fs != [] && fs[|fs| - 1] == [] {
      assert ([a] + fs)[..|fs|] == [a] + fs[..|fs| - 1];
      DropTrailingEmptyCons(a, fs[..|fs| - 1]);
    } else if fs == [] {
      assert [a] + fs == [a];
    }
  }

  /** The fields of `a + d + b`, for `a` free of `d`. */
  lemma FieldsAfterFirst(a: string, d: char, b: string)
    requires d !in a
    ensures Fields(a + [d] + b, d) == [a] + Fields(b, d)
  {
    var s := a + [d] + b;
    assert s[|a|] == d;
    var i := IndexOf(s, d);
    assert i == |a|;
    assert s[..i] == a;
    assert s[i + 1..] == b;
  }

  /** `split(d, 2)` cuts at the first delimiter: after `a`, when `a` is free of `d`. */
  lemma SplitLimit2After(a: string, d: char, b: string)
    requires d !in a
    ensures SplitLimit2(a + [d] + b, d) == [a, b]
  {
    var s := a + [d] + b;
    assert s[|a|] == d;
    var i := IndexOf(s, d);
    assert i == |a|;
    assert s[..i] == a;
    assert s[i + 1..] == b;
  }

  /** `split` of two fields around one delimiter gives exactly those two fields. */
  lemma SplitTwo(a: string, d: char, b: string)
    requires d !in a && d !in b && b != []
    ensures Split(a + [d] + b, d) == [a, b]
  {
    var s := a + [d] + b;
    assert s[|a|] == d;
    FieldsAfterFirst(a, d, b);
    assert Fields(s, d) == [a, b];
  }

  /** Dropping trailing empty fields leaves nothing exactly when `r` is all delimiters. */
  lemma {:induction false} NoFieldsIffAllDelimiters(r: string, d: char)
    ensures DropTrailingEmpty(Fields(r, d)) == [] <==> forall k :: 0 <= k < |r| ==> r[k] == d
    decreases |r|
  {
    if d in r {
      var i := IndexOf(r, d);
      var rest := r[i + 1..];
      assert r == r[..i] + [d] + rest;
      DropTrailingEmptyCons(r[..i], Fields(rest, d));
      NoFieldsIffAllDelimiters(rest, d);
      if forall k :: 0 <= k < |r| ==> r[k] == d {
        assert r[0] == d;
        assert forall k :: 0 <= k < |rest| ==> rest[k] == r[i + 1 + k];
      }
      if DropTrailingEmpty(Fields(r, d)) == [] {
        assert i == 0;
        forall k | 0 <= k < |r| ensures r[k] == d {
          if k > 0 { assert r[k] == rest[k - 1]; }
        }
      }
    } else {
      if |r| > 0 {
        assert r[0] in r;
      }
    }
  }

  /** The shape of one field followed by delimiters, in terms of the first delimiter `i`. */
  lemma OneFieldThenDelimitersAt(p: string, d: char, i: nat)
    requires i < |p| && p[i] == d && forall j :: 0 <= j < i ==> p[j] != d
    ensures OneFieldThenDelimiters(p, d) <==> i > 0 && forall k :: i < k < |p| ==> p[k] == d
  {
    if OneFieldThenDelimiters(p, d) {
      assert i > 0;
    }
  }

  /** The number of fields left of `w + d + rest`, for `w` free of `d`: one exactly when
      `w` is non-empty and `rest` is all delimiters. */
  lemma OneFieldAfterFirst(w: string, d: char, rest: string)
    requires d !in w
    ensures |DropTrailingEmpty(Fields(w + [d] + rest, d))| == 1 <==>
      w != [] && forall k :: 0 <= k < |rest| ==> rest[k] == d
  {
    FieldsAfterFirst(w, d, rest);
    DropTrailingEmptyCons(w, Fields(rest, d));
    NoFieldsIffAllDelimiters(rest, d);
  }

  /** Everything after position `i` is a delimiter exactly when the suffix is. */
  lemma AllDelimitersAfter(p: string, d: char, i: nat, rest: string)
    requires i < |p| && rest == p[i + 1..]
    ensures (forall k :: 0 <= k < |rest| ==> rest[k] == d) <==> (forall k :: i < k < |p| ==> p[k] == d)
  {
    assert forall k :: 0 <= k < |rest| ==> rest[k] == p[i + 1 + k];
    assert forall k :: i < k < |p| ==> p[k] == rest[k - i - 1];
  }

  /** Without a delimiter there is one field exactly when the string is non-empty. */
  lemma OneFieldWithoutDelimiter(p: string, d: char)
    requires d !in p
    ensures |DropTrailingEmpty(Fields(p, d))| == 1 <==> OneFieldThenDelimiters(p, d)
  {
    assert Fields(p, d) == [p];
    if |p| > 0 {
      assert p[0] in p;
    }
  }

  /** Dropping trailing empty fields leaves one field exactly when `p` is one non-empty
      field followed by nothing but delimiters. */
  lemma OneFieldIff(p: string, d: char)
    ensures |DropTrailingEmpty(Fields(p, d))| == 1 <==> OneFieldThenDelimiters(p, d)
  {
    if d in p {
      var i := IndexOf(p, d);
      var w, rest := p[..i], p[i + 1..];
      assert p == w + [d] + rest;
      OneFieldAfterFirst(w, d, rest);
      OneFieldThenDelimitersAt(p, d, i);
      AllDelimitersAfter(p, d, i, rest);
    } else {
      OneFieldWithoutDelimiter(p, d);
    }
  }

  // ---------------------------------------------------------------------------
  // Trimming and deleting characters
  // ---------------------------------------------------------------------------

  /** `String.trim` considers every character up to U+0020 blank. */
  predicate IsBlank(c: char) { c <= ' ' }

  function TrimLeft(s: string): (r: string)
    ensures |r| <= |s| && r == s[|s| - |r|..]
    ensures |r| > 0 ==> !IsBlank(r[0])
    ensures forall k :: 0 <= k < |s| - |r| ==> IsBlank(s[k])
  {
    if |s| > 0 && IsBlank(s[0]) then TrimLeft(s[1..]) else s
  }

  function TrimRight(s: string): (r: string)
    ensures |r| <= |s| && r == s[..|r|]
    ensures |r| > 0 ==> !IsBlank(r[|r| - 1])
    ensures forall k :: |r| <= k < |s| ==> IsBlank(s[k])
  {
    if |s| > 0 && IsBlank(s[|s| - 1]) then TrimRight(s[..|s| - 1]) else s
  }

  /** `s.trim()`: `s` without its leading and trailing blanks. */
  function Trim(s: string): (r: string)
    ensures |r| > 0 ==> !IsBlank(r[0]) && !IsBlank(r[|r| - 1])
    ensures |r| <= |s|
  {
    TrimRight(TrimLeft(s))
  }

  /** A string that neither starts nor ends with a blank is its own trim, and blanks in
      front of it are trimmed away. */
  lemma TrimOfUnpadded(blanks: string, s: string)
    requires forall k :: 0 <= k < |blanks| ==> IsBlank(blanks[k])
    requires |s| > 0 && !IsBlank(s[0]) && !IsBlank(s[|s| - 1])
    ensures Trim(blanks + s) == s
  {
    var t := blanks + s;
    var l := TrimLeft(t);
    assert t[|blanks|] == s[0];
    assert |l| >= |s|;
    assert l[0] == t[|t| - |l|];
    assert |l| <= |s|;
    assert l == s;
  }

  /** Trimming removes exactly the blank padding: text made of blanks, a core without blank
      ends (or no core), and blanks again trims to the core. */
  lemma TrimOfPadded(lead: string, core: string, trail: string)
    requires forall k :: 0 <= k < |lead| ==> IsBlank(lead[k])
    requires forall k :: 0 <= k < |trail| ==> IsBlank(trail[k])
    requires core == [] || (!IsBlank(core[0]) && !IsBlank(core[|core| - 1]))
    ensures Trim(lead + core + trail) == core
  {
    if core == [] {
      assert lead + core + trail == (lead + trail) + [];
      TrimLeftOfPadded(lead + trail, []);
    } else {
      assert lead + core + trail == lead + (core + trail);
      TrimLeftOfPadded(lead, core + trail);
      TrimRightOfPadded(core, trail);
    }
  }

  lemma {:induction false} TrimLeftOfPadded(lead: string, rest: string)
    requires forall k :: 0 <= k < |lead| ==> IsBlank(lead[k])
    requires rest == [] || !IsBlank(rest[0])
    ensures TrimLeft(lead + rest) == rest
    decreases |lead|
  {
    if lead == [] {
      assert lead + rest == rest;
    } else {
      assert (lead + rest)[1..] == lead[1..] + rest;
      TrimLeftOfPadded(lead[1..], rest);
    }
  }

  lemma {:induction false} TrimRightOfPadded(rest: string, trail: string)
    requires forall k :: 0 <= k < |trail| ==> IsBlank(trail[k])
    requires rest == [] || !IsBlank(rest[|rest| - 1])
    ensures TrimRight(rest + trail) == rest
    decreases |trail|
  {
    if trail == [] {
      assert rest + trail == rest;
    } else {
      var s := rest + trail;
      assert s[..|s| - 1] == rest + trail[..|trail| - 1];
      TrimRightOfPadded(rest, trail[..|trail| - 1]);
    }
  }

  /** `s.replaceAll("[...]", "")`: `s` with every character of `cs` deleted. */
  function RemoveChars(s: string, cs: set<char>): string
  {
    if s == [] then []
    else (if s[0] in cs then [] else [s[0]]) + RemoveChars(s[1..], cs)
  }

  /** No deleted character is left, and a string without any of them is unchanged. */
  lemma {:induction false} RemoveCharsMeaning(s: string, cs: set<char>)
    ensures forall k :: 0 <= k < |RemoveChars(s, cs)| ==> RemoveChars(s, cs)[k] !in cs
    ensures (forall k :: 0 <= k < |s| ==> s[k] !in cs) ==> RemoveChars(s, cs) == s
  {
    if s != [] {
      RemoveCharsMeaning(s[1..], cs);
      if forall k :: 0 <= k < |s| ==> s[k] !in cs {
        assert forall k :: 0 <= k < |s[1..]| ==> s[1..][k] == s[k + 1];
        assert s == [s[0]] + s[1..];
      }
    }
  }

  /** A string free of the deleted characters is unchanged. */
  lemma RemoveCharsOfClean(s: string, cs: set<char>)
    requires forall k :: 0 <= k < |s| ==> s[k] !in cs
    ensures RemoveChars(s, cs) == s
  {
    RemoveCharsMeaning(s, cs);
  }

  /** Deleting characters distributes over concatenation. */
  lemma {:induction false} RemoveCharsAppend(a: string, b: string, cs: set<char>)
    ensures RemoveChars(a + b, cs) == RemoveChars(a, cs) + RemoveChars(b, cs)
  {
    if a != [] {
      assert (a + b)[1..] == a[1..] + b;
      RemoveCharsAppend(a[1..], b, cs);
    } else {
      assert a + b == b;
    }
  }

  // ---------------------------------------------------------------------------
  // Decimal integers
  // ---------------------------------------------------------------------------

  predicate IsDigit(c: char) { '0' <= c <= '9' }

  predicate AllDigits(s: string) { forall k :: 0 <= k < |s| ==> IsDigit(s[k]) }

  function DigitChar(n: nat): (c: char)
    requires n < 10
    ensures IsDigit(c)
  {
    ('0' as int + n) as char
  }

  /** The decimal digits of `n`, without leading zeros. */
  function NatDigits(n: nat): (s: string)
    ensures |s| >= 1 && AllDigits(s)
    decreases n
  {
    if n < 10 then [DigitChar(n)] else NatDigits(n / 10) + [DigitChar(n % 10)]
  }

  /** The value of a string of decimal digits (leading zeros allowed). */
  function DigitsValue(s: string): nat
    requires AllDigits(s)
  {
    if s == [] then 0 else DigitsValue(s[..|s| - 1]) * 10 + (s[|s| - 1] as int - '0' as int)
  }

  lemma {:induction false} DigitsValueOfNatDigits(n: nat)
    ensures DigitsValue(NatDigits(n)) == n
    decreases n
  {
    if n >= 10 {
      var s := NatDigits(n);
      assert s[..|s| - 1] == NatDigits(n / 10);
      DigitsValueOfNatDigits(n / 10);
    }
  }

  /** `Integer.toString(n)`, which is also what `"%d"` and `n + ""` print. */
  function DecimalString(n: int): (s: string)
    ensures |s| >= 1
    ensures forall k :: 0 <= k < |s| ==> IsDigit(s[k]) || (k == 0 && s[k] == '-')
    ensures IsDigit(s[|s| - 1])
  {
    if n < 0 then "-" + NatDigits(-n) else NatDigits(n)
  }

  /** `Integer.parseInt(s)`: an optional sign and at least one decimal digit, within the
      range of `int`; `None` where Java throws `NumberFormatException`. Only the ASCII
      digits are modelled. */
  function ParseInt(s: string): (r: Option<int32>)
    ensures r.Some? ==> |s| > 0
  {
    if |s| == 0 then None
    else
      var digits := if s[0] == '-' || s[0] == '+' then s[1..] else s;
      if |digits| == 0 || !AllDigits(digits) then None
      else
        var v: int := if s[0] == '-' then -(DigitsValue(digits) as int) else DigitsValue(digits);
        if MIN <= v <= MAX then Some(v as int32) else None
  }

  /** Text made of an optional sign and ASCII digits parses to its signed decimal value,
      and to `None` when there is no digit or the value is outside the range of `int`. */
  lemma ParseIntMeaning(sign: string, digits: string)
    requires sign == "" || sign == "-" || sign == "+"
    requires AllDigits(digits)
    ensures var v: int := if sign == "-" then -(DigitsValue(digits) as int) else DigitsValue(digits);
      ParseInt(sign + digits) == if digits != [] && MIN <= v <= MAX then Some(v as int32) else None
  {
    var s := sign + digits;
    if sign == "" {
      assert s == digits;
      if digits != [] {
        assert IsDigit(s[0]);
      }
    } else {
      assert s[0] == sign[0] && s[1..] == digits;
    }
  }

  /** Text with a character that is neither a digit nor a leading sign does not parse. */
  lemma ParseIntRejects(s: string, k: nat)
    requires k < |s| && !IsDigit(s[k])
    requires k > 0 || (s[k] != '-' && s[k] != '+')
    ensures ParseInt(s) == None
  {
    var digits := if s[0] == '-' || s[0] == '+' then s[1..] else s;
    if s[0] == '-' || s[0] == '+' {
      assert k > 0 && digits[k - 1] == s[k];
    } else {
      assert digits[k] == s[k];
    }
  }

  /** Parsing what `Integer.toString` printed gives the number back. */
  lemma ParseIntOfDecimalString(n: int32)
    ensures ParseInt(DecimalString(n as int)) == Some(n)
  {
    if n < 0 {
      var m := -(n as int);
      var digits := NatDigits(m);
      var s := "-" + digits;
      assert DecimalString(n as int) == s;
      assert s[0] == '-' && s[1..] == digits;
      DigitsValueOfNatDigits(m);
      assert MIN <= -(DigitsValue(digits) as int) <= MAX;
    } else {
      var digits := NatDigits(n as int);
      assert IsDigit(digits[0]);
      DigitsValueOfNatDigits(n as int);
    }
  }

  // ---------------------------------------------------------------------------
  // Joining
  // ---------------------------------------------------------------------------

  /** `Collectors.joining(sep)`. */
  function Join(parts: seq<string>, sep: string): string
  {
    if parts == [] then []
    else if |parts| == 1 then parts[0]
    else parts[0] + sep + Join(parts[1..], sep)
  }

  /** The first field of a join of two or more parts, and what follows it. */
  lemma FieldsOfJoinStep(q: string, parts: seq<string>, d: char, pad: string)
    requires |parts| >= 2 && d !in parts[0] && d !in q
    ensures Fields(q + Join(parts, [d] + pad), d) == [q + parts[0]] + Fields(pad + Join(parts[1..], [d] + pad), d)
  {
    var sep := [d] + pad;
    var tail := pad + Join(parts[1..], sep);
    assert q + Join(parts, sep) == (q + parts[0]) + [d] + tail;
    assert d !in q + parts[0];
    FieldsAfterFirst(q + parts[0], d, tail);
  }

  /** Splitting a joined string at the separator's first character recovers the parts,
      each one after the first carrying the rest of the separator in front (and the
      first carrying whatever text `q` stood before the join). */
  lemma {:induction false} FieldsOfJoin(q: string, parts: seq<string>, d: char, pad: string)
    requires |parts| >= 1
    requires forall k :: 0 <= k < |parts| ==> d !in parts[k]
    requires d !in pad && d !in q
    ensures |Fields(q + Join(parts, [d] + pad), d)| == |parts|
    ensures Fields(q + Join(parts, [d] + pad), d)[0] == q + parts[0]
    ensures forall k :: 1 <= k < |parts| ==> Fields(q + Join(parts, [d] + pad), d)[k] == pad + parts[k]
    decreases |parts|
  {
    if |parts| == 1 {
      assert d !in q + parts[0];
    } else {
      var sep := [d] + pad;
      var rest := parts[1..];
      var whole := Fields(q + Join(parts, sep), d);
      var after := Fields(pad + Join(rest, sep), d);
      assert whole == [q + parts[0]] + after by {
        FieldsOfJoinStep(q, parts, d, pad);
      }
      assert |after| == |rest| && after[0] == pad + rest[0] &&
             forall k :: 1 <= k < |rest| ==> after[k] == pad + rest[k] by {
        FieldsOfJoin(pad, rest, d, pad);
      }
      forall k | 1 <= k < |parts| ensures whole[k] == pad + parts[k] {
        assert whole[k] == after[k - 1];
        assert rest[k - 1] == parts[k];
      }
    }
  }
}
