/** String helpers the library relies on from Python: `sep.join(parts)`,
    `str.split`, and `str(n)` for integers, each with the inverse that
    pins it down. */
module Text {
  import opened Wrappers

  /** The total length of some strings. */
  function TotalLength(parts: seq<string>): nat
  {
    if parts == [] then 0 else |parts[0]| + TotalLength(parts[1..])
  }

  /** Python's `sep.join(parts)`: the parts with one separator between
      each two of them. */
  function Join(sep: string, parts: seq<string>): (s: string)
    ensures parts != [] ==> |s| == TotalLength(parts) + |sep| * (|parts| - 1)
    ensures parts == [] ==> s == ""
  {
    if parts == [] then ""
    else if |parts| == 1 then parts[0]
    else parts[0] + sep + Join(sep, parts[1..])
  }

  /** Python's `s.split(c)` for a one-character separator: never empty
      (`SplitCount` gives the exact number of parts). */
  function Split(c: char, s: string): (parts: seq<string>)
    ensures |parts| >= 1
  {
    if s == [] then [""]
    else if s[0] == c then [""] + Split(c, s[1..])
    else
      var rest := Split(c, s[1..]);
      [[s[0]] + rest[0]] + rest[1..]
  }

  /** A split has one more part than there are separators in `s`. */
  lemma {:induction false} SplitCount(c: char, s: string)
    ensures |Split(c, s)| == multiset(s)[c] + 1
  {
    if s != [] {
      assert s == [s[0]] + s[1..];
      SplitCount(c, s[1..]);
    }
  }

  /** A part that contains no separator stays in one piece, whatever follows it. */
  lemma {:induction false} SplitPrefix(c: char, p: string, tail: string)
    requires c !in p
    ensures Split(c, p + tail) == [p + Split(c, tail)[0]] + Split(c, tail)[1..]
  {
    if p == [] {
      var r := Split(c, tail);
      assert p + tail == tail && p + r[0] == r[0];
      assert [r[0]] + r[1..] == r;
    } else {
      assert (p + tail)[0] == p[0];
      assert (p + tail)[1..] == p[1..] + tail;
      SplitPrefix(c, p[1..], tail);
      assert [p[0]] + (p[1..] + Split(c, tail)[0]) == p + Split(c, tail)[0];
    }
  }

  /** Splitting a join recovers the parts, provided no part contains the separator. */
  lemma {:induction false} SplitJoin(c: char, parts: seq<string>)
    requires parts != []
    requires forall p :: p in parts ==> c !in p
    ensures Split(c, Join([c], parts)) == parts
  {
    if |parts| == 1 {
      SplitPrefix(c, parts[0], "");
      assert parts[0] + "" == parts[0];
    } else {
      var rest := Join([c], parts[1..]);
      assert Join([c], parts) == parts[0] + ([c] + rest);
      SplitPrefix(c, parts[0], [c] + rest);
      assert ([c] + rest)[0] == c && ([c] + rest)[1..] == rest;
      SplitJoin(c, parts[1..]);
      assert Split(c, [c] + rest) == [""] + parts[1..];
      assert parts[0] + "" == parts[0];
      assert [parts[0]] + parts[1..] == parts;
    }
  }

  /** Joining what was split gives back the original string. */
  lemma {:induction false} JoinSplit(c: char, s: string)
    ensures Join([c], Split(c, s)) == s
  {
    if s == [] {
    } else if s[0] == c {
      JoinSplit(c, s[1..]);
      var r := Split(c, s[1..]);
      assert Split(c, s) == [""] + r;
      assert ([""] + r)[1..] == r;
      assert [c] + s[1..] == s;
    } else {
      JoinSplit(c, s[1..]);
      var r := Split(c, s[1..]);
      var parts := [[s[0]] + r[0]] + r[1..];
      assert Split(c, s) == parts;
      if |r| == 1 {
        assert Join([c], parts) == [s[0]] + r[0];
      } else {
        assert parts[1..] == r[1..];
        assert Join([c], r) == r[0] + [c] + Join([c], r[1..]);
      }
      assert [s[0]] + s[1..] == s;
    }
  }

  /** A join starts with its first part and ends with its last one:
      separators appear only between parts. */
  lemma {:induction false} JoinEdges(sep: string, parts: seq<string>)
    requires parts != []
    ensures parts[0] <= Join(sep, parts)
    ensures var j := Join(sep, parts); var last := parts[|parts| - 1];
            |last| <= |j| && j[|j| - |last|..] == last
  {
    if |parts| > 1 {
      JoinEdges(sep, parts[1..]);
      var rest := Join(sep, parts[1..]);
      var j := parts[0] + sep + rest;
      assert j[..|parts[0]|] == parts[0];
      assert j[|j| - |rest|..] == rest;
      assert parts[1..][|parts[1..]| - 1] == parts[|parts| - 1];
    }
  }

  predicate IsDigits(s: string)
  {
    forall i :: 0 <= i < |s| ==> '0' <= s[i] <= '9'
  }

  function DigitChar(d: nat): (c: char)
    requires d < 10
    ensures '0' <= c <= '9' && c as int - '0' as int == d
  {
    ('0' as int + d) as char
  }

  /** Python's `str(n)` for a non-negative integer: a non-empty run of
      decimal digits with no leading zero. */
  function NatToDecimal(n: nat): (s: string)
    ensures |s| >= 1 && IsDigits(s)
    ensures s[0] == '0' ==> n == 0 && s == "0"
  {
    if n < 10 then [DigitChar(n)] else NatToDecimal(n / 10) + [DigitChar(n % 10)]
  }

  /** The value of a run of decimal digits. */
  function DecimalValue(s: string): nat
    requires IsDigits(s)
  {
    if s == [] then 0
    else DecimalValue(s[..|s| - 1]) * 10 + (s[|s| - 1] as int - '0' as int)
  }

  lemma {:induction false} DecimalRoundTrip(n: nat)
    ensures DecimalValue(NatToDecimal(n)) == n
  {
    if n >= 10 {
      var s := NatToDecimal(n);
      assert s[..|s| - 1] == NatToDecimal(n / 10);
      DecimalRoundTrip(n / 10);
    }
  }

  /** Python's `str(i)` for an integer (f-string `{i}`): a minus sign
      exactly for a negative number, then digits with no leading zero. */
  function IntToDecimal(i: int): (s: string)
    ensures |s| >= 1 && ' ' !in s
    ensures (s[0] == '-') <==> i < 0
    ensures var d := if i < 0 then s[1..] else s;
            |d| >= 1 && IsDigits(d) && (d[0] == '0' ==> d == "0")
  {
    var d := if i < 0 then NatToDecimal(-i) else NatToDecimal(i);
    var s := if i < 0 then "-" + d else d;
    assert i < 0 ==> s[1..] == d;
    assert forall k :: 0 <= k < |s| ==> s[k] != ' ';
    s
  }

  /** Python's `int(s)` restricted to an optional minus sign and decimal digits. */
  function ParseInt(s: string): Option<int>
  {
    if |s| >= 2 && s[0] == '-' && IsDigits(s[1..]) then Some(0 - DecimalValue(s[1..]) as int)
    else if |s| >= 1 && IsDigits(s) then Some(DecimalValue(s))
    else None
  }

  /** `str(i)` of a negative number is a minus sign before `str(-i)`. */
  lemma IntToDecimalNegative(i: int)
    requires i < 0
    ensures IntToDecimal(i) == "-" + NatToDecimal(-i)
  {
  }

  /** `str(i)` of a non-negative number is its digits. */
  lemma IntToDecimalNatural(i: int)
    requires i >= 0
    ensures IntToDecimal(i) == NatToDecimal(i)
  {
  }

  /** A minus sign before the digits of `n` parses back as `-n`. */
  lemma ParseNegative(n: nat)
    ensures ParseInt("-" + NatToDecimal(n)) == Some(-(n as int))
  {
    var d := NatToDecimal(n);
    var s := "-" + d;
    assert s[0] == '-' && s[1..] == d;
    DecimalRoundTrip(n);
  }

  /** The digits of `n` parse back as `n`. */
  lemma ParseDigits(n: nat)
    ensures ParseInt(NatToDecimal(n)) == Some(n)
  {
    assert NatToDecimal(n)[0] != '-';
    DecimalRoundTrip(n);
  }

  lemma IntRoundTrip(i: int)
    ensures ParseInt(IntToDecimal(i)) == Some(i)
  {
    if i < 0 {
      IntToDecimalNegative(i);
      ParseNegative(-i);
    } else {
      IntToDecimalNatural(i);
      ParseDigits(i);
    }
  }

  /** The text before the first space (Python's `s.split(" ")[0]`). */
  function FirstWord(s: string): string
  {
    if s == [] || s[0] == ' ' then "" else [s[0]] + FirstWord(s[1..])
  }

  lemma {:induction false} FirstWordOf(w: string, rest: string)
    requires ' ' !in w
    ensures FirstWord(w + " " + rest) == w
  {
    if w != [] {
      assert (w + " " + rest)[1..] == w[1..] + " " + rest;
      FirstWordOf(w[1..], rest);
    }
  }
}
