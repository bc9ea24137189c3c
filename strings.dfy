// Text helpers shared by the Go and Python parts of the model: Go's byte
// length of a string, prefix and suffix handling, joining and splitting on
// a one-character separator, Python's whitespace stripping and decimal
// rendering of integers.
module Strings {

  // ---------------------------------------------------------------------------
  // Byte length (Go's len on a string is the length of its UTF-8 encoding)
  // ---------------------------------------------------------------------------

  /** Number of bytes UTF-8 uses for one code point. */
  function Utf8Width(c: char): (n: nat)
    ensures 1 <= n <= 4
    ensures n == 1 <==> c as int < 0x80
  {
    if c as int < 0x80 then 1
    else if c as int < 0x800 then 2
    else if c as int < 0x10000 then 3
    else 4
  }

  /** Go's len(s): the number of bytes of the UTF-8 encoding of s. */
  function Utf8Len(s: string): (n: nat)
  {
    if s == [] then 0 else Utf8Width(s[0]) + Utf8Len(s[1..])
  }

  lemma {:induction false} Utf8LenAppend(a: string, b: string)
    ensures Utf8Len(a + b) == Utf8Len(a) + Utf8Len(b)
  {
    if a == [] {
      assert a + b == b;
    } else {
      assert (a + b)[0] == a[0];
      assert (a + b)[1..] == a[1..] + b;
      Utf8LenAppend(a[1..], b);
    }
  }

  /** A string takes at least one byte per character, exactly one when it is ASCII. */
  lemma {:induction false} Utf8LenBounds(s: string)
    ensures |s| <= Utf8Len(s) <= 4 * |s|
    ensures Utf8Len(s) == |s| <==> forall i :: 0 <= i < |s| ==> s[i] as int < 0x80
  {
    if s != [] {
      Utf8LenBounds(s[1..]);
      assert forall i :: 1 <= i < |s| ==> s[i] == s[1..][i - 1];
    }
  }

  // ---------------------------------------------------------------------------
  // Prefixes and suffixes (Go's strings.HasPrefix, TrimPrefix, ...)
  // ---------------------------------------------------------------------------

  predicate HasPrefix(s: string, p: string)
  {
    |p| <= |s| && s[..|p|] == p
  }

  predicate HasSuffix(s: string, p: string)
  {
    |p| <= |s| && s[|s| - |p|..] == p
  }

  /** strings.TrimPrefix: s without p when s starts with p, otherwise s. */
  function TrimPrefix(s: string, p: string): (r: string)
    ensures HasPrefix(s, p) ==> p + r == s
    ensures !HasPrefix(s, p) ==> r == s
  {
    if HasPrefix(s, p) then s[|p|..] else s
  }

  /** strings.TrimSuffix: s without p when s ends with p, otherwise s. */
  function TrimSuffix(s: string, p: string): (r: string)
    ensures HasSuffix(s, p) ==> r + p == s
    ensures !HasSuffix(s, p) ==> r == s
  {
    if HasSuffix(s, p) then s[..|s| - |p|] else s
  }

  /** Go's strings.Contains and Python's `t in s`. */
  predicate Contains(s: string, t: string)
  {
    exists i :: 0 <= i <= |s| - |t| && OccursAt(s, t, i)
  }

  /** t occurs in s starting at index i. */
  predicate OccursAt(s: string, t: string, i: int)
  {
    0 <= i <= |s| - |t| && s[i..i + |t|] == t
  }

  lemma ContainsPrefix(s: string, t: string)
    requires HasPrefix(s, t)
    ensures Contains(s, t)
  {
    assert OccursAt(s, t, 0);
  }

  /** Whatever is concatenated around t, t occurs in the result. */
  lemma ContainsMiddle(a: string, t: string, b: string)
    ensures Contains(a + t + b, t)
  {
    assert (a + t + b)[|a|..|a| + |t|] == t;
    assert OccursAt(a + t + b, t, |a|);
  }

  /** A string that occurs in a part of a string occurs in the whole. */
  lemma ContainsWithin(s: string, i: int, j: int, t: string)
    requires 0 <= i <= j <= |s| && Contains(s[i..j], t)
    ensures Contains(s, t)
  {
    var k :| 0 <= k <= |s[i..j]| - |t| && OccursAt(s[i..j], t, k);
    var u := s[i..j][k..k + |t|];
    assert forall x :: 0 <= x < |t| ==> u[x] == s[i + k + x];
    assert s[i + k..i + k + |t|] == u;
    assert OccursAt(s, t, i + k);
  }

  // ---------------------------------------------------------------------------
  // Joining and splitting on a separator
  // ---------------------------------------------------------------------------

  /** Go's strings.Join and Python's sep.join(parts). */
  function Join(parts: seq<string>, sep: string): (r: string)
  {
    if |parts| == 0 then ""
    else if |parts| == 1 then parts[0]
    else parts[0] + sep + Join(parts[1..], sep)
  }

  lemma {:induction false} JoinAppend(parts: seq<string>, last: string, sep: string)
    requires |parts| >= 1
    ensures Join(parts + [last], sep) == Join(parts, sep) + sep + last
  {
    if |parts| == 1 {
      assert parts + [last] == [parts[0], last];
      assert [parts[0], last][1..] == [last];
    } else {
      assert (parts + [last])[1..] == parts[1..] + [last];
      JoinAppend(parts[1..], last, sep);
    }
  }

  /** Python's s.split(d) and Go's strings.Split(s, d) for a one-character separator. */
  function Split(s: string, d: char): (r: seq<string>)
    ensures |r| >= 1
    decreases |s|
  {
    if |s| == 0 then [""]
    else if s[0] == d then [""] + Split(s[1..], d)
    else
      var t := Split(s[1..], d);
      [[s[0]] + t[0]] + t[1..]
  }

  predicate NoSeparator(part: string, d: char)
  {
    forall i :: 0 <= i < |part| ==> part[i] != d
  }

  /** Splitting and rejoining gives the string back. */
  lemma {:induction false} JoinSplit(s: string, d: char)
    ensures Join(Split(s, d), [d]) == s
    decreases |s|
  {
    if |s| > 0 {
      JoinSplit(s[1..], d);
      var t := Split(s[1..], d);
      if s[0] == d {
        assert Split(s, d) == [""] + t;
        if |t| == 1 {
        } else {
          assert ([""] + t)[1..] == t;
        }
      } else {
        var r := Split(s, d);
        assert r == [[s[0]] + t[0]] + t[1..];
        if |t| == 1 {
          assert r == [[s[0]] + t[0]];
        } else {
          assert r[1..] == t[1..];
          assert Join(t, [d]) == t[0] + [d] + Join(t[1..], [d]);
        }
      }
    }
  }

  /** No piece of a split contains the separator. */
  lemma {:induction false} SplitPartsHaveNoSeparator(s: string, d: char)
    ensures forall k :: 0 <= k < |Split(s, d)| ==> NoSeparator(Split(s, d)[k], d)
    decreases |s|
  {
    if |s| > 0 {
      SplitPartsHaveNoSeparator(s[1..], d);
      var t := Split(s[1..], d);
      if s[0] != d {
        var first := [s[0]] + t[0];
        assert NoSeparator(t[0], d);
        assert forall i :: 1 <= i < |first| ==> first[i] == t[0][i - 1];
        assert NoSeparator(first, d);
      }
    }
  }

  /** Joining separator-free pieces and splitting again gives the pieces back. */
  lemma {:induction false} SplitJoin(parts: seq<string>, d: char)
    requires |parts| >= 1
    requires forall k :: 0 <= k < |parts| ==> NoSeparator(parts[k], d)
    ensures Split(Join(parts, [d]), d) == parts
    decreases |parts|, |parts[0]|
  {
    if |parts[0]| == 0 {
      if |parts| > 1 {
        SplitJoin(parts[1..], d);
        assert Join(parts, [d]) == [d] + Join(parts[1..], [d]);
        assert Split(Join(parts, [d]), d) == [""] + parts[1..];
      }
    } else {
      var c := parts[0][0];
      var rest := [parts[0][1..]] + parts[1..];
      assert NoSeparator(parts[0][1..], d) by {
        assert forall i :: 0 <= i < |parts[0][1..]| ==> parts[0][1..][i] == parts[0][i + 1];
      }
      assert forall k :: 0 <= k < |rest| ==> NoSeparator(rest[k], d) by {
        assert forall k :: 1 <= k < |rest| ==> rest[k] == parts[k];
      }
      SplitJoin(rest, d);
      assert Join(parts, [d]) == [c] + Join(rest, [d]) by {
        if |parts| == 1 {
          assert parts[0] == [c] + parts[0][1..];
        } else {
          assert rest[1..] == parts[1..];
          assert parts[0] == [c] + parts[0][1..];
        }
      }
      var j := Join(parts, [d]);
      assert j[1..] == Join(rest, [d]);
      assert c != d;
      assert [[c] + rest[0]] + rest[1..] == parts by {
        assert [c] + rest[0] == parts[0];
        assert rest[1..] == parts[1..];
      }
    }
  }

  // ---------------------------------------------------------------------------
  // Python's str.isspace, str.strip and str.rstrip
  // ---------------------------------------------------------------------------

  /** The characters Python's str.isspace() accepts (and strip() removes). */
  predicate IsPySpace(c: char)
  {
    (0x09 <= c as int <= 0x0D) || (0x1C <= c as int <= 0x20) || c as int == 0x85 || c as int == 0xA0
    || c as int == 0x1680 || (0x2000 <= c as int <= 0x200A) || c as int == 0x2028 || c as int == 0x2029
    || c as int == 0x202F || c as int == 0x205F || c as int == 0x3000
  }

  /** s.rstrip(): the longest prefix of s that does not end in whitespace. */
  function RStrip(s: string): (r: string)
    ensures |r| <= |s| && r == s[..|r|]
    ensures r == [] || !IsPySpace(r[|r| - 1])
    ensures forall i :: |r| <= i < |s| ==> IsPySpace(s[i])
    decreases |s|
  {
    if |s| == 0 || !IsPySpace(s[|s| - 1]) then s else RStrip(s[..|s| - 1])
  }

  /** s.lstrip(): the longest suffix of s that does not start with whitespace. */
  function LStrip(s: string): (r: string)
    ensures |r| <= |s| && r == s[|s| - |r|..]
    ensures r == [] || !IsPySpace(r[0])
    ensures forall i :: 0 <= i < |s| - |r| ==> IsPySpace(s[i])
    decreases |s|
  {
    if |s| == 0 || !IsPySpace(s[0]) then s else LStrip(s[1..])
  }

  /** s.strip(): whitespace removed from both ends. */
  function Strip(s: string): (r: string)
  {
    LStrip(RStrip(s))
  }

  /** What strip() leaves is the slice s[i..j], free of whitespace at both
      ends, and everything cut away is whitespace. */
  lemma StripIsSlice(s: string) returns (i: int, j: int)
    ensures 0 <= i <= j <= |s| && Strip(s) == s[i..j]
    ensures forall k :: 0 <= k < i ==> IsPySpace(s[k])
    ensures forall k :: j <= k < |s| ==> IsPySpace(s[k])
    ensures Strip(s) == [] || (!IsPySpace(Strip(s)[0]) && !IsPySpace(Strip(s)[|Strip(s)| - 1]))
  {
    var r := RStrip(s);
    var t := LStrip(r);
    i, j := |r| - |t|, |r|;
    assert t == s[i..j];
    forall k | 0 <= k < i
      ensures IsPySpace(s[k])
    {
      assert s[k] == r[k];
    }
    StripEnds(s);
  }

  /** strip() leaves no whitespace at either end. */
  lemma StripEnds(s: string)
    ensures Strip(s) == [] || (!IsPySpace(Strip(s)[0]) && !IsPySpace(Strip(s)[|Strip(s)| - 1]))
  {
    var r := RStrip(s);
    var t := LStrip(r);
    if t != [] {
      assert t[|t| - 1] == r[|r| - 1];
    }
  }

  /** strip() returns the empty string exactly when every character is whitespace. */
  lemma StripEmptyIffBlank(s: string)
    ensures Strip(s) == [] <==> forall i :: 0 <= i < |s| ==> IsPySpace(s[i])
  {
    var r := RStrip(s);
    if Strip(s) == [] {
      assert r == [];
    }
  }

  // ---------------------------------------------------------------------------
  // Decimal rendering (Go's %d and strconv.Itoa, Python's str(int))
  // ---------------------------------------------------------------------------

  predicate IsDigit(c: char)
  {
    '0' <= c <= '9'
  }

  predicate AllDigits(s: string)
  {
    forall i :: 0 <= i < |s| ==> IsDigit(s[i])
  }

  function DigitChar(d: nat): (c: char)
    requires d < 10
    ensures IsDigit(c) && c as int - '0' as int == d
  {
    ('0' as int + d) as char
  }

  /** Decimal digits of a natural number, most significant first, no leading zero. */
  function NatToString(n: nat): (r: string)
    ensures |r| >= 1 && AllDigits(r)
    ensures |r| > 1 ==> r[0] != '0'
    decreases n
  {
    if n < 10 then [DigitChar(n)] else NatToString(n / 10) + [DigitChar(n % 10)]
  }

  /** The value a string of decimal digits denotes. */
  function DigitsValue(s: string): (v: nat)
    requires AllDigits(s)
    decreases |s|
  {
    if s == [] then 0 else 10 * DigitsValue(s[..|s| - 1]) + (s[|s| - 1] as int - '0' as int)
  }

  /** Reading back the digits of NatToString gives the number. */
  lemma {:induction false} NatToStringValue(n: nat)
    ensures DigitsValue(NatToString(n)) == n
    decreases n
  {
    if n >= 10 {
      NatToStringValue(n / 10);
      var r := NatToString(n);
      assert r[..|r| - 1] == NatToString(n / 10);
    }
  }

  /** Distinct numbers render to distinct strings. */
  lemma NatToStringInjective(m: nat, n: nat)
    requires NatToString(m) == NatToString(n)
    ensures m == n
  {
    NatToStringValue(m);
    NatToStringValue(n);
  }

  /** Go's %d for a signed integer. */
  function IntToString(i: int): (r: string)
    ensures |r| >= 1
    ensures i >= 0 ==> AllDigits(r)
    ensures i < 0 ==> r[0] == '-' && AllDigits(r[1..])
  {
    if i >= 0 then NatToString(i) else "-" + NatToString(-i)
  }

  // ---------------------------------------------------------------------------
  // Go's %q verb
  // ---------------------------------------------------------------------------

  function Escape(s: string): string
  {
    if |s| == 0 then ""
    else
      (match s[0]
       case '"' => "\\\""
       case '\\' => "\\\\"
       case '\n' => "\\n"
       case '\t' => "\\t"
       case '\r' => "\\r"
       case _ => [s[0]])
      + Escape(s[1..])
  }

  /** %q of a string: quoted, with quotes, backslashes and the common control characters escaped. */
  function Quote(s: string): string
  {
    "\"" + Escape(s) + "\""
  }

}
