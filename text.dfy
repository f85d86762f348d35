/**
 * The string operations of Python 2 that the library relies on, for ASCII
 * text: str.split with a one-character separator, ''.join, lower, title,
 * strip, int() and str() of integers.
 */
module Text {
  import opened Py

  /** The pieces of s between occurrences of sep, as s.split(sep) returns them. */
  function Split(s: string, sep: char): (r: seq<string>)
    ensures |r| >= 1
    ensures forall i :: 0 <= i < |r| ==> sep !in r[i]
    decreases |s|
  {
    if |s| == 0 then [""]
    else
      var rest := Split(s[1..], sep);
      if s[0] == sep then [""] + rest
      else [[s[0]] + rest[0]] + rest[1..]
  }

  /** sep.join(pieces). */
  function Join(pieces: seq<string>, sep: char): string
    requires |pieces| >= 1
  {
    if |pieces| == 1 then pieces[0] else pieces[0] + [sep] + Join(pieces[1..], sep)
  }

  /** ''.join(pieces). */
  function Concat(pieces: seq<string>): string
  {
    if |pieces| == 0 then "" else pieces[0] + Concat(pieces[1..])
  }

  /** s.split(sep)[-1]: the text after the last separator. */
  function LastPiece(s: string, sep: char): string
  {
    var p := Split(s, sep);
    p[|p| - 1]
  }

  /** s.split(sep)[0]: the text before the first separator. */
  function FirstPiece(s: string, sep: char): string
  {
    Split(s, sep)[0]
  }

  /** Splitting and joining again gives back the original text. */
  lemma {:induction false} JoinSplit(s: string, sep: char)
    ensures Join(Split(s, sep), sep) == s
    decreases |s|
  {
    if |s| > 0 {
      JoinSplit(s[1..], sep);
      var rest := Split(s[1..], sep);
      if s[0] == sep {
        assert [""] + rest == [""] + rest;
        assert ([""] + rest)[1..] == rest;
      } else {
        var p := [[s[0]] + rest[0]] + rest[1..];
        assert p[1..] == rest[1..];
        if |rest| > 1 {
          assert rest[1..][1..] == rest[2..];
          assert Join(rest, sep) == rest[0] + [sep] + Join(rest[1..], sep);
        }
      }
    }
  }

  /** A piece without separators splits into itself. */
  lemma {:induction false} SplitNoSep(a: string, sep: char)
    requires sep !in a
    ensures Split(a, sep) == [a]
    decreases |a|
  {
    if |a| > 0 {
      SplitNoSep(a[1..], sep);
      assert [a[0]] + a[1..] == a;
    }
  }

  /** Splitting a + sep + b yields a followed by the pieces of b. */
  lemma {:induction false} SplitAfterPiece(a: string, sep: char, b: string)
    requires sep !in a
    ensures Split(a + [sep] + b, sep) == [a] + Split(b, sep)
    decreases |a|
  {
    if |a| == 0 {
      assert a + [sep] + b == [sep] + b;
      assert ([sep] + b)[1..] == b;
    } else {
      SplitAfterPiece(a[1..], sep, b);
      assert (a + [sep] + b)[1..] == a[1..] + [sep] + b;
      assert [a[0]] + a[1..] == a;
    }
  }

  /** One step of splitting a non-empty text. */
  lemma SplitStep(s: string, sep: char)
    requires |s| > 0
    ensures Split(s, sep) == if s[0] == sep then [""] + Split(s[1..], sep)
      else [[s[0]] + Split(s[1..], sep)[0]] + Split(s[1..], sep)[1..]
  {
  }

  /** Gluing a character onto the first of several pieces commutes with appending more pieces. */
  lemma GlueFirst(c: char, pa: seq<string>, pb: seq<string>)
    requires |pa| >= 1
    ensures [[c] + (pa + pb)[0]] + (pa + pb)[1..] == ([[c] + pa[0]] + pa[1..]) + pb
  {
    assert (pa + pb)[0] == pa[0];
    assert (pa + pb)[1..] == pa[1..] + pb;
  }

  /** Splitting a + sep + b yields the pieces of a followed by the pieces of b. */
  lemma {:induction false} SplitConcat(a: string, sep: char, b: string)
    ensures Split(a + [sep] + b, sep) == Split(a, sep) + Split(b, sep)
    decreases |a|
  {
    var s := a + [sep] + b;
    SplitStep(s, sep);
    if |a| == 0 {
      assert s[0] == sep && s[1..] == b;
    } else {
      assert s[0] == a[0] && s[1..] == a[1..] + [sep] + b;
      var pa := Split(a[1..], sep);
      var pb := Split(b, sep);
      calc {
        Split(s, sep);
      == { SplitConcat(a[1..], sep, b); }
        if a[0] == sep then [""] + (pa + pb) else [[a[0]] + (pa + pb)[0]] + (pa + pb)[1..];
      == { if a[0] != sep { GlueFirst(a[0], pa, pb); } }
        (if a[0] == sep then [""] + pa else [[a[0]] + pa[0]] + pa[1..]) + pb;
      == { SplitStep(a, sep); }
        Split(a, sep) + pb;
      }
    }
  }

  /** The text after the last separator is whatever follows it when that has no separator. */
  lemma LastPieceAfter(a: string, sep: char, b: string)
    requires sep !in b
    ensures LastPiece(a + [sep] + b, sep) == b
  {
    SplitConcat(a, sep, b);
    SplitNoSep(b, sep);
  }

  /** The text before the first separator is the separator-free text in front of it. */
  lemma FirstPieceBefore(a: string, sep: char, b: string)
    requires sep !in a
    ensures FirstPiece(a + [sep] + b, sep) == a
  {
    SplitAfterPiece(a, sep, b);
  }

  /** A text without the separator is its own first and last piece. */
  lemma PiecesWithoutSep(a: string, sep: char)
    requires sep !in a
    ensures LastPiece(a, sep) == a && FirstPiece(a, sep) == a
  {
    SplitNoSep(a, sep);
  }

  /** Joining separator-free pieces and splitting again gives back the pieces. */
  lemma {:induction false} SplitJoin(pieces: seq<string>, sep: char)
    requires |pieces| >= 1
    requires forall i :: 0 <= i < |pieces| ==> sep !in pieces[i]
    ensures Split(Join(pieces, sep), sep) == pieces
    decreases |pieces|
  {
    if |pieces| == 1 {
      SplitNoSep(pieces[0], sep);
    } else {
      SplitJoin(pieces[1..], sep);
      SplitAfterPiece(pieces[0], sep, Join(pieces[1..], sep));
      assert [pieces[0]] + pieces[1..] == pieces;
    }
  }

  predicate IsLetter(c: char)
  {
    ('a' <= c <= 'z') || ('A' <= c <= 'Z')
  }

  function LowerChar(c: char): char
  {
    if 'A' <= c <= 'Z' then (c as int + 32) as char else c
  }

  function UpperChar(c: char): char
  {
    if 'a' <= c <= 'z' then (c as int - 32) as char else c
  }

  /** s.lower(). */
  function Lower(s: string): (r: string)
    ensures |r| == |s|
    ensures forall i :: 0 <= i < |s| ==> r[i] == LowerChar(s[i])
  {
    seq(|s|, i requires 0 <= i < |s| => LowerChar(s[i]))
  }

  /**
   * s.title(): a letter that starts a run of letters becomes upper case, every
   * other letter lower case, and non-letters are kept.
   */
  function Title(s: string): (r: string)
    ensures |r| == |s|
    ensures forall i :: 0 <= i < |s| ==>
              r[i] == (if !IsLetter(s[i]) then s[i]
                       else if i == 0 || !IsLetter(s[i - 1]) then UpperChar(s[i])
                       else LowerChar(s[i]))
  {
    seq(|s|, i requires 0 <= i < |s| =>
          if !IsLetter(s[i]) then s[i]
          else if i == 0 || !IsLetter(s[i - 1]) then UpperChar(s[i])
          else LowerChar(s[i]))
  }

  function DigitChar(d: nat): char
    requires d < 10
  {
    ('0' as int + d) as char
  }

  predicate IsDigit(c: char)
  {
    '0' <= c <= '9'
  }

  /** The decimal digits of n without leading zeros. */
  function NatDigits(n: nat): (r: string)
    ensures |r| >= 1
    ensures forall i :: 0 <= i < |r| ==> IsDigit(r[i])
    decreases n
  {
    if n < 10 then [DigitChar(n)] else NatDigits(n / 10) + [DigitChar(n % 10)]
  }

  /** str(n) and "%d" % n for an integer n. */
  function Decimal(n: int): string
  {
    if n < 0 then "-" + NatDigits(-n) else NatDigits(n)
  }

  /** The value of a non-empty string of decimal digits. */
  function ParseDigits(s: string): Option<nat>
    decreases |s|
  {
    if |s| == 0 || !IsDigit(s[|s| - 1]) then None
    else
      var d := s[|s| - 1] as int - '0' as int;
      if |s| == 1 then Some(d)
      else match ParseDigits(s[..|s| - 1])
        case None => None
        case Some(p) => Some(p * 10 + d)
  }

  /** The whitespace Python 2's int() skips: space, \t, \n, \v, \f and \r. */
  predicate IsSpace(c: char)
  {
    c == ' ' || (9 <= c as int <= 13)
  }

  predicate AllSpace(s: string)
  {
    forall i :: 0 <= i < |s| ==> IsSpace(s[i])
  }

  /** s.lstrip(). */
  function TrimStart(s: string): string
    decreases |s|
  {
    if |s| > 0 && IsSpace(s[0]) then TrimStart(s[1..]) else s
  }

  /** s.rstrip(). */
  function TrimEnd(s: string): string
    decreases |s|
  {
    if |s| > 0 && IsSpace(s[|s| - 1]) then TrimEnd(s[..|s| - 1]) else s
  }

  /** lstrip() gives the suffix of s after its leading whitespace, which starts with no whitespace. */
  lemma {:induction false} TrimStartSuffix(s: string)
    ensures var r := TrimStart(s);
      && |r| <= |s| && r == s[|s| - |r|..]
      && AllSpace(s[..|s| - |r|])
      && (|r| > 0 ==> !IsSpace(r[0]))
    decreases |s|
  {
    if |s| > 0 && IsSpace(s[0]) {
      TrimStartSuffix(s[1..]);
      var r := TrimStart(s[1..]);
      assert s[..|s| - |r|] == [s[0]] + s[1..][..|s| - 1 - |r|];
    }
  }

  /** rstrip() gives the prefix of s before its trailing whitespace, which ends with no whitespace. */
  lemma {:induction false} TrimEndPrefix(s: string)
    ensures var r := TrimEnd(s);
      && |r| <= |s| && r == s[..|r|]
      && AllSpace(s[|r|..])
      && (|r| > 0 ==> !IsSpace(r[|r| - 1]))
    decreases |s|
  {
    if |s| > 0 && IsSpace(s[|s| - 1]) {
      TrimEndPrefix(s[..|s| - 1]);
      var r := TrimEnd(s[..|s| - 1]);
      assert s[|r|..] == s[..|s| - 1][|r|..] + [s[|s| - 1]];
    }
  }

  /** s.strip(). */
  function Strip(s: string): string
  {
    TrimEnd(TrimStart(s))
  }

  /** Leading whitespace is dropped whatever follows it. */
  lemma {:induction false} TrimStartPadded(pre: string, x: string)
    requires AllSpace(pre) && (|x| > 0 ==> !IsSpace(x[0]))
    ensures TrimStart(pre + x) == x
    decreases |pre|
  {
    if |pre| > 0 {
      assert (pre + x)[1..] == pre[1..] + x;
      TrimStartPadded(pre[1..], x);
    } else {
      assert pre + x == x;
    }
  }

  /** Trailing whitespace is dropped whatever precedes it. */
  lemma {:induction false} TrimEndPadded(x: string, post: string)
    requires AllSpace(post) && (|x| > 0 ==> !IsSpace(x[|x| - 1]))
    ensures TrimEnd(x + post) == x
    decreases |post|
  {
    if |post| > 0 {
      assert (x + post)[..|x + post| - 1] == x + post[..|post| - 1];
      TrimEndPadded(x, post[..|post| - 1]);
    } else {
      assert x + post == x;
    }
  }

  /** A stripped text: an optional sign, whitespace after it, then decimal digits. */
  function ParseSigned(t: string): Option<int>
  {
    if |t| > 0 && (t[0] == '-' || t[0] == '+') then
      match ParseDigits(TrimStart(t[1..]))
      case None => None
      case Some(n) =>
        var v: int := if t[0] == '-' then 0 - (n as int) else n as int;
        Some(v)
    else
      match ParseDigits(t)
      case None => None
      case Some(n) => Some(n)
  }

  /**
   * int(s) of Python 2: whitespace at either end is skipped, and so is
   * whitespace between the sign and the digits; anything else than an
   * optional sign and decimal digits is None (a ValueError).
   */
  function ParseInt(s: string): Option<int>
  {
    ParseSigned(Strip(s))
  }

  lemma {:induction false} ParseNatDigits(n: nat)
    ensures ParseDigits(NatDigits(n)) == Some(n)
    decreases n
  {
    if n >= 10 {
      ParseNatDigits(n / 10);
      var s := NatDigits(n / 10) + [DigitChar(n % 10)];
      assert s[..|s| - 1] == NatDigits(n / 10);
    }
  }

  /** str(n) is left alone by strip(). */
  lemma StripDecimal(n: int, pre: string, post: string)
    requires AllSpace(pre) && AllSpace(post)
    ensures Strip(pre + Decimal(n) + post) == Decimal(n)
  {
    var d := Decimal(n);
    var digits := NatDigits(if n < 0 then -n else n);
    assert d[|d| - 1] == digits[|digits| - 1];
    assert IsDigit(d[|d| - 1]);
    assert d[0] == '-' || d[0] == digits[0];
    assert pre + d + post == pre + (d + post);
    TrimStartPadded(pre, d + post);
    TrimEndPadded(d, post);
  }

  /** A minus sign, whitespace, then the digits of m read back as -m. */
  lemma ParseSignedMinus(m: nat, gap: string)
    requires AllSpace(gap)
    ensures ParseSigned("-" + gap + NatDigits(m)) == Some(0 - m)
  {
    var d := NatDigits(m);
    var t := "-" + gap + d;
    assert t[0] == '-';
    assert t[1..] == gap + d;
    TrimStartPadded(gap, d);
    assert TrimStart(t[1..]) == d;
    ParseNatDigits(m);
    assert ParseDigits(TrimStart(t[1..])) == Some(m);
  }

  /** The sign-and-digits part reads str(n) back. */
  lemma ParseSignedDecimal(n: int)
    ensures ParseSigned(Decimal(n)) == Some(n)
  {
    if n < 0 {
      var m: nat := -n;
      assert Decimal(n) == "-" + "" + NatDigits(m);
      ParseSignedMinus(m, "");
    } else {
      ParseNatDigits(n);
      var d := NatDigits(n);
      assert IsDigit(d[0]);
    }
  }

  /** int(" " + str(n) + "\n") == n: whitespace around a number does not matter. */
  lemma ParseIntPadded(n: int, pre: string, post: string)
    requires AllSpace(pre) && AllSpace(post)
    ensures ParseInt(pre + Decimal(n) + post) == Some(n)
  {
    StripDecimal(n, pre, post);
    ParseSignedDecimal(n);
  }

  /** int(str(n)) == n. */
  lemma ParseIntDecimal(n: int)
    ensures ParseInt(Decimal(n)) == Some(n)
  {
    assert "" + Decimal(n) + "" == Decimal(n);
    ParseIntPadded(n, "", "");
  }

  /** int(" " + str(n) + "\n") == n, the padded case written out. */
  lemma ParseIntSpaced(n: int)
    ensures ParseInt(" " + Decimal(n) + "\n") == Some(n)
  {
    ParseIntPadded(n, " ", "\n");
  }

  /** Whitespace between the sign and the digits is skipped too: int("- 5") == -5. */
  lemma ParseIntSignSpace(m: nat, gap: string)
    requires AllSpace(gap)
    ensures ParseInt("-" + gap + NatDigits(m)) == Some(0 - m)
  {
    var d := NatDigits(m);
    var s := "-" + gap + d;
    assert IsDigit(d[|d| - 1]);
    assert s[|s| - 1] == d[|d| - 1];
    assert TrimStart(s) == s;
    assert TrimEnd(s) == s;
    ParseSignedMinus(m, gap);
  }

  /** str(n) holds only digits and, for a negative n, a leading minus sign. */
  lemma DecimalAvoids(n: int, c: char)
    requires !IsDigit(c) && (c == '-' ==> n >= 0)
    ensures c !in Decimal(n)
  {
    var d := NatDigits(if n < 0 then -n else n);
    assert forall i :: 0 <= i < |d| ==> d[i] != c;
    if n < 0 {
      assert Decimal(n) == "-" + d;
    }
  }

  /** repr(b) for a bool. */
  function BoolRepr(b: bool): string
  {
    if b then "True" else "False"
  }

  /** Python's clamped slice s[lo:hi] for non-negative bounds. */
  function Slice(s: string, lo: nat, hi: nat): (r: string)
    ensures |r| <= |s|
  {
    var h := if hi <= |s| then hi else |s|;
    if lo >= h then "" else s[lo..h]
  }

  /** The position of the first occurrence of c in s. */
  function IndexOf(s: string, c: char): (r: Option<nat>)
    ensures r.None? <==> c !in s
    ensures r.Some? ==> r.value < |s| && s[r.value] == c && c !in s[..r.value]
  {
    if |s| == 0 then None
    else if s[0] == c then Some(0)
    else match IndexOf(s[1..], c)
      case None => None
      case Some(k) =>
        assert s[..k + 1] == [s[0]] + s[1..][..k];
        Some(k + 1)
  }
}
