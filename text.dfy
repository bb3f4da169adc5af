/** Python's string primitives as the session protocol uses them: `str.split` on a
    single-character separator, `bytes.strip()` and `str.strip()` with no argument,
    the ASCII codec check, and the decimal rendering of non-negative integers.

    Wire bytes are modelled as `string`s whose characters carry the byte values, so
    `decode("ascii")` is the identity on an ASCII string and raises on any other. */
module Text {

  /** Number of occurrences of `c` in `s`. */
  function Count(s: string, c: char): nat
  {
    if s == [] then 0 else (if s[0] == c then 1 else 0) + Count(s[1..], c)
  }

  lemma {:induction false} CountAppend(a: string, b: string, c: char)
    ensures Count(a + b, c) == Count(a, c) + Count(b, c)
  {
    if a == [] {
      assert a + b == b;
    } else {
      assert (a + b)[1..] == a[1..] + b;
      CountAppend(a[1..], b, c);
    }
  }

  lemma {:induction false} CountAbsent(s: string, c: char)
    ensures Count(s, c) == 0 <==> c !in s
  {
    if s != [] {
      CountAbsent(s[1..], c);
      assert s == [s[0]] + s[1..];
    }
  }

  /** `s.split(sep)`: the pieces between occurrences of `sep`, empty pieces kept. */
  function Split(s: string, sep: char): (parts: seq<string>)
    ensures |parts| == Count(s, sep) + 1
    ensures forall i :: 0 <= i < |parts| ==> sep !in parts[i]
  {
    if s == [] then [[]]
    else if s[0] == sep then [[]] + Split(s[1..], sep)
    else
      var rest := Split(s[1..], sep);
      [[s[0]] + rest[0]] + rest[1..]
  }

  /** `sep.join(parts)`. */
  function Join(parts: seq<string>, sep: char): string
  {
    if parts == [] then []
    else if |parts| == 1 then parts[0]
    else parts[0] + [sep] + Join(parts[1..], sep)
  }

  /** Joining the pieces of a split gives back the original string. */
  lemma {:induction false} JoinSplit(s: string, sep: char)
    ensures Join(Split(s, sep), sep) == s
  {
    if s != [] {
      var rest := Split(s[1..], sep);
      JoinSplit(s[1..], sep);
      if s[0] != sep {
        var parts := Split(s, sep);
        assert parts[0] == [s[0]] + rest[0] && parts[1..] == rest[1..];
        if |rest| > 1 {
          assert Join(rest, sep) == rest[0] + [sep] + Join(rest[1..], sep);
        }
      }
    }
  }

  /** Splitting a join of separator-free pieces gives back the pieces. */
  lemma {:induction false} SplitJoin(parts: seq<string>, sep: char)
    requires |parts| > 0
    requires forall i :: 0 <= i < |parts| ==> sep !in parts[i]
    ensures Split(Join(parts, sep), sep) == parts
  {
    if |parts| == 1 {
      SplitPiece(parts[0], [], sep);
      assert parts[0] + [] == parts[0];
      assert Split([], sep) == [[]];
    } else {
      var rest := Join(parts[1..], sep);
      SplitJoin(parts[1..], sep);
      var tail := [sep] + rest;
      assert tail[0] == sep && tail[1..] == rest;
      assert Split(tail, sep) == [[]] + parts[1..];
      SplitPiece(parts[0], tail, sep);
      assert Join(parts, sep) == parts[0] + tail;
      assert Split(tail, sep)[0] == [] && Split(tail, sep)[1..] == parts[1..];
      assert parts[0] + [] == parts[0];
      assert [parts[0]] + parts[1..] == parts;
    }
  }

  /** Prefixing a separator-free piece extends the first part of a split. */
  lemma {:induction false} SplitPiece(p: string, s: string, sep: char)
    requires sep !in p
    ensures Split(p + s, sep) == [p + Split(s, sep)[0]] + Split(s, sep)[1..]
  {
    var S := Split(s, sep);
    if p == [] {
      assert p + s == s && p + S[0] == S[0];
      assert [S[0]] + S[1..] == S;
    } else {
      assert (p + s)[0] == p[0] && (p + s)[1..] == p[1..] + s;
      SplitPiece(p[1..], s, sep);
      var rest := Split(p[1..] + s, sep);
      assert rest[0] == p[1..] + S[0] && rest[1..] == S[1..];
      assert [p[0]] + (p[1..] + S[0]) == p + S[0];
    }
  }

  /** Whitespace for `bytes.strip()`: space, \t, \n, \r, \x0b and \x0c. */
  predicate IsByteSpace(c: char)
  {
    c == ' ' || c == '\t' || c == '\n' || c == '\r' || c == '\U{0B}' || c == '\U{0C}'
  }

  /** Whitespace for `str.strip()` within ASCII: the byte whitespace and also the
      separators \x1c to \x1f, which `str.isspace` accepts. */
  predicate IsStrSpace(c: char)
  {
    IsByteSpace(c) || ('\U{1C}' <= c <= '\U{1F}')
  }

  /** `lstrip()` with the whitespace class `ws`. */
  function StripLeft(s: string, ws: char -> bool): string
  {
    if s != [] && ws(s[0]) then StripLeft(s[1..], ws) else s
  }

  /** `rstrip()` with the whitespace class `ws`. */
  function StripRight(s: string, ws: char -> bool): string
  {
    if s != [] && ws(s[|s| - 1]) then StripRight(s[..|s| - 1], ws) else s
  }

  /** `strip()` with the whitespace class `ws`: leading, then trailing whitespace removed. */
  function Strip(s: string, ws: char -> bool): string
  {
    StripRight(StripLeft(s, ws), ws)
  }

  /** `lstrip` drops a whitespace-only prefix and keeps the rest, which starts with a
      non-whitespace character unless it is empty. */
  lemma {:induction false} StripLeftSpec(s: string, ws: char -> bool)
    ensures var r := StripLeft(s, ws);
      && |r| <= |s| && r == s[|s| - |r|..]
      && (forall j :: 0 <= j < |s| - |r| ==> ws(s[j]))
      && (r != [] ==> !ws(r[0]))
  {
    if s != [] && ws(s[0]) {
      StripLeftSpec(s[1..], ws);
      var r := StripLeft(s, ws);
      forall j | 0 <= j < |s| - |r| ensures ws(s[j]) {
        if j > 0 { assert s[j] == s[1..][j - 1]; }
      }
    }
  }

  /** `rstrip` drops a whitespace-only suffix and keeps the rest, which ends with a
      non-whitespace character unless it is empty. */
  lemma {:induction false} StripRightSpec(s: string, ws: char -> bool)
    ensures var r := StripRight(s, ws);
      && |r| <= |s| && r == s[..|r|]
      && (forall j :: |r| <= j < |s| ==> ws(s[j]))
      && (r != [] ==> !ws(r[|r| - 1]))
  {
    if s != [] && ws(s[|s| - 1]) {
      StripRightSpec(s[..|s| - 1], ws);
      var r := StripRight(s, ws);
      forall j | |r| <= j < |s| ensures ws(s[j]) {
        if j < |s| - 1 { assert s[j] == s[..|s| - 1][j]; }
      }
    }
  }

  /** `bytes.strip()`. */
  function StripBytes(s: string): string
  {
    Strip(s, IsByteSpace)
  }

  /** `str.strip()` on a decoded ASCII string. */
  function StripStr(s: string): string
  {
    Strip(s, IsStrSpace)
  }

  /** A string with no whitespace at either end, followed by whitespace only, strips to itself. */
  lemma StripTrailing(s: string, w: string, ws: char -> bool)
    requires s == [] || (!ws(s[0]) && !ws(s[|s| - 1]))
    requires forall i :: 0 <= i < |w| ==> ws(w[i])
    ensures Strip(s + w, ws) == s
  {
    var t := s + w;
    assert forall j :: |s| <= j < |t| ==> t[j] == w[j - |s|];
    StripLeftSpec(t, ws);
    var l := StripLeft(t, ws);
    if s == [] {
      assert t == w;
    } else {
      assert t[0] == s[0];
    }
    assert l == (if s == [] then [] else t);
    StripRightSpec(l, ws);
    var r := StripRight(l, ws);
    if s != [] {
      assert t[|s| - 1] == s[|s| - 1];
      assert |r| == |s|;
      assert r == t[..|s|] == s;
    }
  }

  /** A character that is not whitespace survives `strip`. */
  lemma StripKeeps(s: string, i: nat, ws: char -> bool)
    requires i < |s| && !ws(s[i])
    ensures s[i] in Strip(s, ws)
  {
    StripLeftSpec(s, ws);
    var l := StripLeft(s, ws);
    var k := i - (|s| - |l|);
    assert 0 <= k < |l| && l[k] == s[i];
    StripRightSpec(l, ws);
    var r := StripRight(l, ws);
    assert k < |r|;
    assert r[k] == s[i];
  }

  /** `strip` keeps a contiguous piece of its input, so it adds no character. */
  lemma StripAbsent(s: string, c: char, ws: char -> bool)
    requires c !in s
    ensures c !in Strip(s, ws)
  {
    StripLeftSpec(s, ws);
    var l := StripLeft(s, ws);
    StripRightSpec(l, ws);
    var r := Strip(s, ws);
    forall i | 0 <= i < |r|
      ensures r[i] != c
    {
      assert r[i] == l[i] == s[|s| - |l| + i];
    }
  }

  /** Strings that pass the ASCII codec (`decode("ascii")` / `encode("ascii")`). */
  predicate IsAscii(s: string)
  {
    forall i :: 0 <= i < |s| ==> s[i] as int < 128
  }

  lemma AsciiAppend(a: string, b: string)
    ensures IsAscii(a + b) <==> IsAscii(a) && IsAscii(b)
  {
    if IsAscii(a + b) {
      forall i | 0 <= i < |a| ensures a[i] as int < 128 {
        assert (a + b)[i] == a[i];
      }
      forall i | 0 <= i < |b| ensures b[i] as int < 128 {
        assert (a + b)[|a| + i] == b[i];
      }
    }
    if IsAscii(a) && IsAscii(b) {
      forall i | 0 <= i < |a + b| ensures (a + b)[i] as int < 128 {
        if i < |a| { assert (a + b)[i] == a[i]; } else { assert (a + b)[i] == b[i - |a|]; }
      }
    }
  }

  predicate IsDigit(c: char)
  {
    '0' as int <= c as int <= '9' as int
  }

  /** `str(n)` for a non-negative integer: its decimal digits. */
  function NatToString(n: nat): (s: string)
    ensures |s| > 0
    ensures forall i :: 0 <= i < |s| ==> IsDigit(s[i])
  {
    if n < 10 then [Digit(n)] else NatToString(n / 10) + [Digit(n % 10)]
  }

  function Digit(d: nat): (c: char)
    requires d < 10
    ensures IsDigit(c)
  {
    ('0' as int + d) as char
  }

  /** `int(s)` for a string of decimal digits. */
  function DigitsValue(s: string): nat
    requires forall i :: 0 <= i < |s| ==> IsDigit(s[i])
  {
    if s == [] then 0
    else
      assert IsDigit(s[|s| - 1]);
      10 * DigitsValue(s[..|s| - 1]) + (s[|s| - 1] as int - '0' as int)
  }

  /** Reading back the rendered digits gives the number. */
  lemma {:induction false} NatToStringRoundTrip(n: nat)
    ensures DigitsValue(NatToString(n)) == n
  {
    if n >= 10 {
      NatToStringRoundTrip(n / 10);
      var s := NatToString(n);
      assert s[..|s| - 1] == NatToString(n / 10);
    }
  }

  /** Concatenation of a list of lines (`b"".join(lines)`). */
  function Concat(lines: seq<string>): string
  {
    if lines == [] then [] else Concat(lines[..|lines| - 1]) + lines[|lines| - 1]
  }

  lemma {:induction false} ConcatAppend(a: seq<string>, b: seq<string>)
    ensures Concat(a + b) == Concat(a) + Concat(b)
  {
    if b == [] {
      assert a + b == a;
    } else {
      assert (a + b)[..|a + b| - 1] == a + b[..|b| - 1];
      ConcatAppend(a, b[..|b| - 1]);
    }
  }

  /** `n` copies of `x`. */
  function Repeat(x: string, n: nat): (r: seq<string>)
    ensures |r| == n && forall i :: 0 <= i < n ==> r[i] == x
  {
    seq(n, _ => x)
  }

  /** A single line as `readline` returns it: one '\n', at the end. */
  predicate IsLine(s: string)
  {
    |s| > 0 && s[|s| - 1] == '\n' && Count(s, '\n') == 1
  }

  /** `readline()` on the bytes not yet read: everything up to and including the first
      '\n', or all of them when no '\n' is left. */
  function ReadLine(s: string): string
  {
    if s == [] then [] else if s[0] == '\n' then "\n" else [s[0]] + ReadLine(s[1..])
  }

  /** A text with no '\n' before its terminating '\n' is read as one line, whatever follows. */
  lemma {:induction false} ReadLineStops(a: string, b: string)
    requires '\n' !in a
    ensures ReadLine(a + "\n" + b) == a + "\n"
  {
    if a == [] {
      assert a + "\n" + b == "\n" + b;
    } else {
      assert (a + "\n" + b)[1..] == a[1..] + "\n" + b;
      ReadLineStops(a[1..], b);
    }
  }

  /** When `a` holds a '\n', a read of `a + b` ends inside `a`: it returns a prefix of `a`
      and nothing of `b`. */
  lemma {:induction false} ReadLineWithin(a: string, b: string)
    requires '\n' in a
    ensures ReadLine(a + b) == ReadLine(a)
    ensures ReadLine(a) <= a
  {
    assert (a + b)[0] == a[0];
    if a[0] != '\n' {
      assert '\n' in a[1..] by {
        var k :| 0 <= k < |a| && a[k] == '\n';
        assert a[1..][k - 1] == '\n';
      }
      assert (a + b)[1..] == a[1..] + b;
      ReadLineWithin(a[1..], b);
    }
  }

  /** Splitting a concatenation of whole lines on '\n' gives one more part than there are lines. */
  lemma {:induction false} SplitLines(lines: seq<string>)
    requires forall i :: 0 <= i < |lines| ==> IsLine(lines[i])
    ensures |Split(Concat(lines), '\n')| == |lines| + 1
  {
    LinesNewlines(lines);
  }

  lemma {:induction false} LinesNewlines(lines: seq<string>)
    requires forall i :: 0 <= i < |lines| ==> IsLine(lines[i])
    ensures Count(Concat(lines), '\n') == |lines|
  {
    if lines != [] {
      LinesNewlines(lines[..|lines| - 1]);
      CountAppend(Concat(lines[..|lines| - 1]), lines[|lines| - 1], '\n');
    }
  }
}
