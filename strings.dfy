/**
 * The Python `str` operations that the modelled code relies on, written out
 * over `seq<char>`: prefix tests, `split`, `splitlines`, `strip`, `lower`,
 * `upper`, `int()` and `str()` of integers, `join` and `replace`.
 */
module Strings {
  import opened Wrappers

  predicate StartsWith(s: string, prefix: string) {
    prefix <= s
  }

  predicate EndsWith(s: string, suffix: string) {
    |suffix| <= |s| && s[|s| - |suffix|..] == suffix
  }

  /** Python slicing `s[n:]`, which yields '' when n is past the end. */
  function Drop(s: string, n: nat): (r: string)
    ensures n <= |s| ==> r == s[n..]
    ensures n > |s| ==> r == []
  {
    if n <= |s| then s[n..] else []
  }

  /** The first index of `c` in `s`, if any. */
  function IndexOf(s: string, c: char): (r: Option<nat>)
    ensures r.None? <==> c !in s
    ensures r.Some? ==> r.value < |s| && s[r.value] == c && c !in s[..r.value]
  {
    if |s| == 0 then None
    else if s[0] == c then Some(0)
    else
      match IndexOf(s[1..], c)
      case None => None
      case Some(i) =>
        assert s[1..][..i] == s[1..i + 1];
        Some(i + 1)
  }

  /**
   * `a, b = s.split(c, 1)`: the text before and after the first `c`; None
   * when `s` holds no `c` (the unpacking then raises ValueError).
   */
  function SplitAtFirst(s: string, c: char): (r: Option<(string, string)>)
    ensures r.None? <==> c !in s
    ensures r.Some? ==> r.value.0 + [c] + r.value.1 == s && c !in r.value.0
  {
    match IndexOf(s, c)
    case None => None
    case Some(i) =>
      assert s[..i] + [c] + s[i + 1..] == s;
      Some((s[..i], s[i + 1..]))
  }

  /** Splitting at the first `c` finds the text around the first `c`, whatever follows it. */
  lemma SplitAtFirstOf(a: string, c: char, b: string)
    requires c !in a
    ensures SplitAtFirst(a + [c] + b, c) == Some((a, b))
  {
    var s := a + [c] + b;
    assert s[|a|] == c;
    var i := IndexOf(s, c).value;
    assert s[..i] == a;
    assert s[i + 1..] == b;
  }

  /** How many times `c` occurs in `s`. */
  function CountChar(s: string, c: char): nat {
    if |s| == 0 then 0 else (if s[0] == c then 1 else 0) + CountChar(s[1..], c)
  }

  /** `s.split(c)`: every piece between occurrences of `c`. */
  function Split(s: string, c: char): (r: seq<string>)
    ensures |r| == CountChar(s, c) + 1
    decreases |s|
  {
    match IndexOf(s, c)
    case None =>
      CountNone(s, c);
      [s]
    case Some(i) =>
      CountAt(s, c, i);
      [s[..i]] + Split(s[i + 1..], c)
  }

  lemma {:induction false} CountNone(s: string, c: char)
    requires c !in s
    ensures CountChar(s, c) == 0
  {
    if |s| > 0 {
      assert s[0] != c;
      CountNone(s[1..], c);
    }
  }

  lemma {:induction false} CountAt(s: string, c: char, i: nat)
    requires i < |s| && s[i] == c && c !in s[..i]
    ensures CountChar(s, c) == 1 + CountChar(s[i + 1..], c)
  {
    if i == 0 {
    } else {
      assert s[0] != c by { assert s[0] == s[..i][0]; }
      assert s[1..][..i - 1] == s[1..i];
      assert c !in s[1..][..i - 1] by {
        forall k | 0 <= k < i - 1 ensures s[1..][k] != c {
          assert s[1..][k] == s[..i][k + 1];
        }
      }
      CountAt(s[1..], c, i - 1);
      assert s[1..][i..] == s[i + 1..];
    }
  }

  /** The last index of `c` in `s`, if any (what `rsplit(c, 1)` cuts at). */
  function LastIndexOf(s: string, c: char): (r: Option<nat>)
    ensures r.None? <==> c !in s
    ensures r.Some? ==> r.value < |s| && s[r.value] == c && c !in s[r.value + 1..]
  {
    if |s| == 0 then None
    else if s[|s| - 1] == c then Some(|s| - 1)
    else
      match LastIndexOf(s[..|s| - 1], c)
      case None =>
        assert s == s[..|s| - 1] + [s[|s| - 1]];
        None
      case Some(i) =>
        assert s[i + 1..] == s[..|s| - 1][i + 1..] + [s[|s| - 1]];
        Some(i)
  }

  /** `s.replace('\r\n', '\n')`. */
  function ReplaceCrLf(s: string): (r: string)
    ensures |s| > 0 ==> |r| > 0
    ensures |s| > 0 ==> r[|r| - 1] == s[|s| - 1]
    ensures '\r' !in s ==> r == s
  {
    if |s| >= 2 && s[0] == '\r' && s[1] == '\n' then "\n" + ReplaceCrLf(s[2..])
    else if |s| == 0 then []
    else [s[0]] + ReplaceCrLf(s[1..])
  }

  /** `sep.join(parts)`. */
  function Join(sep: string, parts: seq<string>): string {
    if |parts| == 0 then []
    else if |parts| == 1 then parts[0]
    else parts[0] + sep + Join(sep, parts[1..])
  }

  // ---------------------------------------------------------------- lines

  /**
   * Line boundaries of `splitlines` on a byte string: '\n', '\r' (and
   * "\r\n" as one). On a Unicode string Python also breaks at further
   * characters, which this predicate does not include.
   */
  predicate IsLineBreak(c: char) {
    c == '\n' || c == '\r'
  }

  predicate NoLineBreak(s: string) {
    forall k :: 0 <= k < |s| ==> !IsLineBreak(s[k])
  }

  /** The index of the first line break in `s`, or |s| when there is none. */
  function FirstBreak(s: string): (i: nat)
    ensures i <= |s|
    ensures i < |s| ==> IsLineBreak(s[i])
    ensures NoLineBreak(s[..i])
  {
    if |s| == 0 then 0
    else if IsLineBreak(s[0]) then 0
    else
      var j := FirstBreak(s[1..]);
      assert s[..j + 1] == [s[0]] + s[1..][..j];
      j + 1
  }

  /** `s.splitlines()`: the lines of `s` without their terminators. */
  function SplitLines(s: string): (r: seq<string>)
    decreases |s|
  {
    if |s| == 0 then []
    else
      var i := FirstBreak(s);
      if i == |s| then [s]
      else
        var next := if s[i] == '\r' && i + 1 < |s| && s[i + 1] == '\n' then i + 2 else i + 1;
        [s[..i]] + SplitLines(s[next..])
  }

  /** ''.join(l + '\n' for l in lines) */
  function JoinTerminated(lines: seq<string>): string {
    if |lines| == 0 then [] else lines[0] + "\n" + JoinTerminated(lines[1..])
  }

  lemma {:induction false} SplitLinesHaveNoBreaks(s: string)
    ensures forall l :: l in SplitLines(s) ==> NoLineBreak(l)
    decreases |s|
  {
    if |s| > 0 {
      var i := FirstBreak(s);
      if i < |s| {
        var next := if s[i] == '\r' && i + 1 < |s| && s[i + 1] == '\n' then i + 2 else i + 1;
        SplitLinesHaveNoBreaks(s[next..]);
      }
    }
  }

  /** Lines written one per '\n'-terminated line are read back unchanged. */
  lemma {:induction false} SplitJoinTerminated(lines: seq<string>)
    requires forall l :: l in lines ==> NoLineBreak(l)
    ensures SplitLines(JoinTerminated(lines)) == lines
  {
    if |lines| > 0 {
      assert lines[0] in lines;
      assert forall m :: m in lines[1..] ==> m in lines;
      SplitJoinTerminated(lines[1..]);
      SplitLinesCons(lines[0], JoinTerminated(lines[1..]));
    }
  }

  /** One '\n'-terminated line in front of `rest` is split off whole. */
  lemma SplitLinesCons(l: string, rest: string)
    requires NoLineBreak(l)
    ensures SplitLines(l + "\n" + rest) == [l] + SplitLines(rest)
  {
    var s := l + "\n" + rest;
    FirstBreakOf(l, "\n" + rest);
    assert s == l + ("\n" + rest);
    assert s[|l|] == '\n';
    assert s[..|l|] == l;
    assert s[|l| + 1..] == rest;
  }

  lemma FirstBreakOf(l: string, t: string)
    requires NoLineBreak(l) && |t| > 0 && t[0] == '\n'
    ensures FirstBreak(l + t) == |l|
  {
    assert (l + t)[|l|] == '\n';
    assert forall k :: 0 <= k < |l| ==> (l + t)[k] == l[k];
  }

  // ----------------------------------------------------------- whitespace

  /** The characters `str.strip()` removes. */
  predicate IsSpace(c: char) {
    c == ' ' || c == '\t' || c == '\n' || c == '\r' || c == '\U{000B}' || c == '\U{000C}'
  }

  function LStrip(s: string): (r: string)
    ensures |r| <= |s| && r == s[|s| - |r|..]
    ensures |r| > 0 ==> !IsSpace(r[0])
    ensures forall k :: 0 <= k < |s| - |r| ==> IsSpace(s[k])
  {
    if |s| > 0 && IsSpace(s[0]) then LStrip(s[1..]) else s
  }

  function RStrip(s: string): (r: string)
    ensures |r| <= |s| && r == s[..|r|]
    ensures |r| > 0 ==> !IsSpace(r[|r| - 1])
    ensures forall k :: |r| <= k < |s| ==> IsSpace(s[k])
  {
    if |s| > 0 && IsSpace(s[|s| - 1]) then RStrip(s[..|s| - 1]) else s
  }

  function Strip(s: string): string {
    LStrip(RStrip(s))
  }

  /** A word of `s.split()`: non-empty and free of whitespace. */
  predicate IsWord(w: string) {
    |w| > 0 && forall k :: 0 <= k < |w| ==> !IsSpace(w[k])
  }

  /** `s.split()`: the maximal runs of non-whitespace characters. */
  function Words(s: string): seq<string>
    decreases |s|
  {
    var t := LStrip(s);
    if |t| == 0 then []
    else
      var n := WordLength(t);
      [t[..n]] + Words(t[n..])
  }

  /** Every piece `split()` returns is a word. */
  lemma {:induction false} WordsAreWords(s: string)
    ensures forall w :: w in Words(s) ==> IsWord(w)
    decreases |s|
  {
    var t := LStrip(s);
    if |t| > 0 {
      var n := WordLength(t);
      var rest := Words(t[n..]);
      assert Words(s) == [t[..n]] + rest;
      assert IsWord(t[..n]) by {
        forall k | 0 <= k < n ensures !IsSpace(t[..n][k]) {
          assert t[..n][k] == t[k];
        }
      }
      WordsAreWords(t[n..]);
      forall w | w in Words(s) ensures IsWord(w) {
        if w != t[..n] {
          assert w in rest;
        }
      }
    }
  }

  /** A string without whitespace splits into itself alone. */
  lemma WordsOfWord(w: string)
    requires IsWord(w)
    ensures Words(w) == [w]
  {
    var n := WordLength(w);
    assert LStrip(w) == w;
    WordLengthAll(w);
    assert w[..n] == w && w[n..] == [];
    assert Words(w[n..]) == [];
  }

  lemma {:induction false} WordLengthAll(t: string)
    requires forall k :: 0 <= k < |t| ==> !IsSpace(t[k])
    ensures WordLength(t) == |t|
  {
    if |t| > 0 {
      WordLengthAll(t[1..]);
    }
  }

  function WordLength(t: string): (n: nat)
    ensures n <= |t|
    ensures |t| > 0 && !IsSpace(t[0]) ==> n > 0
    ensures forall k :: 0 <= k < n ==> !IsSpace(t[k])
  {
    if |t| == 0 || IsSpace(t[0]) then 0 else 1 + WordLength(t[1..])
  }

  // ------------------------------------------------------------ letter case

  function LowerChar(c: char): char {
    if 'A' <= c <= 'Z' then (c as int + 32) as char else c
  }

  function UpperChar(c: char): char {
    if 'a' <= c <= 'z' then (c as int - 32) as char else c
  }

  /** `s.lower()` on ASCII letters. */
  function Lower(s: string): (r: string)
    ensures |r| == |s| && forall k :: 0 <= k < |s| ==> r[k] == LowerChar(s[k])
  {
    if |s| == 0 then [] else [LowerChar(s[0])] + Lower(s[1..])
  }

  /** `s.upper()` on ASCII letters. */
  function Upper(s: string): (r: string)
    ensures |r| == |s| && forall k :: 0 <= k < |s| ==> r[k] == UpperChar(s[k])
  {
    if |s| == 0 then [] else [UpperChar(s[0])] + Upper(s[1..])
  }

  // --------------------------------------------------------------- integers

  predicate IsDigit(c: char) {
    '0' <= c <= '9'
  }

  predicate AllDigits(s: string) {
    forall k :: 0 <= k < |s| ==> IsDigit(s[k])
  }

  function DigitValue(c: char): nat
    requires IsDigit(c)
  {
    c as int - '0' as int
  }

  /** The decimal value of a run of digits. */
  function DigitsValue(s: string): nat
    requires AllDigits(s)
  {
    if |s| == 0 then 0 else DigitsValue(s[..|s| - 1]) * 10 + DigitValue(s[|s| - 1])
  }

  /**
   * Python's `int(s)` in base 10 on a byte string: surrounding whitespace,
   * an optional sign, then at least one ASCII decimal digit; None when
   * `int()` raises ValueError. On a Unicode string `int()` also accepts
   * other decimal digits, which this function rejects.
   */
  function ParseInt(s: string): Option<int> {
    var t := Strip(s);
    if |t| > 1 && (t[0] == '-' || t[0] == '+') && AllDigits(t[1..]) then
      var v: int := DigitsValue(t[1..]);
      Some(if t[0] == '-' then -v else v)
    else if |t| > 0 && AllDigits(t) then Some(DigitsValue(t))
    else None
  }

  function DigitChar(d: nat): char
    requires d < 10
  {
    ('0' as int + d) as char
  }

  /** `str(n)` for a natural number. */
  function NatToString(n: nat): (r: string)
    ensures |r| > 0 && AllDigits(r)
  {
    if n < 10 then [DigitChar(n)] else NatToString(n / 10) + [DigitChar(n % 10)]
  }

  /** `str(n)` and `'%d' % n`. */
  function IntToString(n: int): string {
    if n < 0 then "-" + NatToString(-n) else NatToString(n)
  }

  lemma {:induction false} NatToStringValue(n: nat)
    ensures DigitsValue(NatToString(n)) == n
  {
    if n >= 10 {
      var s := NatToString(n);
      assert s[..|s| - 1] == NatToString(n / 10);
      NatToStringValue(n / 10);
    }
  }

  lemma StripOfDigits(s: string)
    requires |s| > 0 && AllDigits(s)
    ensures Strip(s) == s
  {
    assert !IsSpace(s[|s| - 1]);
    assert RStrip(s) == s;
    assert !IsSpace(s[0]);
  }

  lemma StripSigned(d: string)
    requires |d| > 0 && AllDigits(d)
    ensures Strip("-" + d) == "-" + d
  {
    var s := "-" + d;
    assert s[|s| - 1] == d[|d| - 1];
    assert !IsSpace(s[|s| - 1]);
    assert RStrip(s) == s;
    assert !IsSpace(s[0]);
  }

  /** `int(str(n)) == n`. */
  lemma IntToStringRoundTrip(n: int)
    ensures ParseInt(IntToString(n)) == Some(n)
  {
    if n < 0 {
      var d := NatToString(-n);
      NatToStringValue(-n);
      StripSigned(d);
      assert ("-" + d)[1..] == d;
    } else {
      NatToStringValue(n);
      StripOfDigits(NatToString(n));
    }
  }

  // ---------------------------------------------------------------- UTF-8

  /** The number of bytes UTF-8 uses for `c`. */
  function Utf8Width(c: char): nat {
    if c as int < 0x80 then 1 else if c as int < 0x800 then 2 else if c as int < 0x10000 then 3 else 4
  }

  /** `len(s.encode('utf-8'))`. */
  function Utf8Length(s: string): (n: nat)
    ensures n >= |s|
  {
    if |s| == 0 then 0 else Utf8Length(s[..|s| - 1]) + Utf8Width(s[|s| - 1])
  }

  predicate IsAscii(s: string) {
    forall k :: 0 <= k < |s| ==> s[k] as int < 0x80
  }

  /** The position of the first character outside ASCII, where the ASCII codec stops. */
  function FirstNonAscii(s: string): (i: nat)
    requires !IsAscii(s)
    ensures i < |s| && s[i] as int >= 0x80
    ensures forall k :: 0 <= k < i ==> s[k] as int < 0x80
  {
    if s[0] as int >= 0x80 then 0
    else
      assert !IsAscii(s[1..]) by {
        var k :| 0 <= k < |s| && s[k] as int >= 0x80;
        assert s[1..][k - 1] == s[k];
      }
      1 + FirstNonAscii(s[1..])
  }

  /** Appending an ASCII string adds one byte per character. */
  lemma Utf8LengthAppendAscii(a: string, p: string)
    requires IsAscii(p)
    ensures Utf8Length(a + p) == Utf8Length(a) + |p|
    ensures IsAscii(a) ==> Utf8Length(a + p) == |a| + |p|
  {
    Utf8LengthAppend(a, p);
    Utf8LengthAscii(p);
    Utf8LengthAscii(a);
  }

  /** Encoding is additive over concatenation. */
  lemma {:induction false} Utf8LengthAppend(a: string, b: string)
    ensures Utf8Length(a + b) == Utf8Length(a) + Utf8Length(b)
    decreases |b|
  {
    if |b| == 0 {
      assert a + b == a;
    } else {
      var n := |b| - 1;
      assert (a + b)[..|a + b| - 1] == a + b[..n] && (a + b)[|a + b| - 1] == b[n];
      Utf8LengthAppend(a, b[..n]);
    }
  }

  /** ASCII text is one byte per character, and any other character makes the encoding longer than the text. */
  lemma {:induction false} Utf8LengthAscii(s: string)
    ensures Utf8Length(s) == |s| <==> IsAscii(s)
  {
    if |s| > 0 {
      var n := |s| - 1;
      Utf8LengthAscii(s[..n]);
      if IsAscii(s) {
        assert IsAscii(s[..n]) by {
          forall k | 0 <= k < n ensures s[..n][k] as int < 0x80 {
            assert s[..n][k] == s[k];
          }
        }
      } else if s[n] as int < 0x80 {
        var k :| 0 <= k < |s| && s[k] as int >= 0x80;
        assert k < n && s[..n][k] == s[k];
        assert !IsAscii(s[..n]);
      }
    }
  }

  // ---------------------------------------------------------- shell quote

  /** The characters Python 2's `pipes.quote` leaves unquoted. */
  predicate ShellSafe(c: char) {
    ('a' <= c <= 'z') || ('A' <= c <= 'Z') || ('0' <= c <= '9') || c in "@%_-+=:,./"
  }

  /** `pipes.quote(s)`: `s` itself when every character is safe, else single-quoted. */
  function ShellQuote(s: string): (r: string)
    ensures |s| > 0 && (forall k :: 0 <= k < |s| ==> ShellSafe(s[k])) ==> r == s
    ensures |r| >= 2 || r == s
  {
    if |s| == 0 then "''"
    else if forall k :: 0 <= k < |s| ==> ShellSafe(s[k]) then s
    else "'" + ReplaceChar(s, '\'', "'\"'\"'") + "'"
  }

  // -------------------------------------------------------------- replace

  /** `s.replace(c, with)` for a one-character pattern. */
  function ReplaceChar(s: string, c: char, with: string): (r: string)
    ensures c !in with ==> c !in r
    ensures c !in s ==> r == s
  {
    if |s| == 0 then []
    else (if s[0] == c then with else [s[0]]) + ReplaceChar(s[1..], c, with)
  }
}
