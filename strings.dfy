/** Small string helpers: substring search, decimal rendering, joining. */
module Strings {

  import opened Options

  /** `s` begins with `p`. */
  predicate StartsWith(s: string, p: string) {
    |p| <= |s| && s[..|p|] == p
  }

  /** `s.contains(sub)` on Rust strings: `sub` occurs somewhere in `s`. */
  predicate Contains(s: string, sub: string) {
    StartsWith(s, sub) || (|s| > 0 && Contains(s[1..], sub))
  }

  function DigitChar(d: nat): (c: char)
    requires d < 10
    ensures '0' <= c <= '9'
  {
    "0123456789"[d]
  }

  /** Decimal rendering of a natural number, as `{}` formats an unsigned integer. */
  function NatToString(n: nat): (r: string)
    ensures |r| > 0
    ensures forall i :: 0 <= i < |r| ==> '0' <= r[i] <= '9'
    decreases n
  {
    if n < 10 then [DigitChar(n)] else NatToString(n / 10) + [DigitChar(n % 10)]
  }

  /** Decimal rendering of a signed integer, as `{}` formats an `i32`. */
  function IntToString(n: int): (r: string)
    ensures '\n' !in r
  {
    if n < 0 then "-" + NatToString(-n) else NatToString(n)
  }

  /** `xs.join(sep)`. */
  function JoinWith(sep: string, xs: seq<string>): string
  {
    if |xs| == 0 then "" else if |xs| == 1 then xs[0] else xs[0] + sep + JoinWith(sep, xs[1..])
  }

  /** The texts one after the other: what writing each of them in turn produces. */
  function Concat(xs: seq<string>): string {
    if |xs| == 0 then "" else xs[0] + Concat(xs[1..])
  }

  lemma {:induction false} ConcatAppend(a: seq<string>, b: seq<string>)
    ensures Concat(a + b) == Concat(a) + Concat(b)
  {
    if |a| == 0 {
      assert a + b == b;
    } else {
      assert (a + b)[1..] == a[1..] + b;
      ConcatAppend(a[1..], b);
    }
  }

  /** The index of the last occurrence of `c` in `s`, if any. */
  function LastIndexOf(s: string, c: char): Option<nat> {
    if |s| == 0 then None
    else if s[|s| - 1] == c then Some(|s| - 1)
    else LastIndexOf(s[..|s| - 1], c)
  }

  /** `LastIndexOf` finds the last occurrence of `c`, or reports that there is none. */
  lemma {:induction false} LastIndexOfSpec(s: string, c: char)
    ensures var r := LastIndexOf(s, c);
            && (r.Some? ==> r.value < |s| && s[r.value] == c && c !in s[r.value + 1..])
            && (r.None? ==> c !in s)
    decreases |s|
  {
    if |s| > 0 && s[|s| - 1] != c {
      LastIndexOfSpec(s[..|s| - 1], c);
      assert s == s[..|s| - 1] + [s[|s| - 1]];
    }
  }

  /** Appending a separator followed by text free of it puts the last separator at the join. */
  lemma {:induction false} LastIndexOfAppend(s: string, c: char, t: string)
    requires c !in t
    ensures LastIndexOf(s + [c] + t, c) == Some(|s|)
    decreases |t|
  {
    var u := s + [c] + t;
    if |t| == 0 {
      assert u[|u| - 1] == c;
    } else {
      var t' := t[..|t| - 1];
      assert u[|u| - 1] == t[|t| - 1] != c;
      assert u[..|u| - 1] == s + [c] + t';
      LastIndexOfAppend(s, c, t');
    }
  }

  /** The index of the first occurrence of `c` in `s`, if any. */
  function IndexOf(s: string, c: char): (r: Option<nat>)
    ensures r.Some? ==> r.value < |s| && s[r.value] == c && c !in s[..r.value]
    ensures r.None? ==> c !in s
  {
    if |s| == 0 then None
    else if s[0] == c then Some(0)
    else match IndexOf(s[1..], c)
      case None => None
      case Some(i) => assert s[..i + 1] == [s[0]] + s[1..][..i]; Some(i + 1)
  }

  /** Each line followed by a newline, concatenated: what a run of `writeln!` produces. */
  function Unlines(lines: seq<string>): string {
    if |lines| == 0 then "" else lines[0] + "\n" + Unlines(lines[1..])
  }

  lemma {:induction false} UnlinesConcat(a: seq<string>, b: seq<string>)
    ensures Unlines(a + b) == Unlines(a) + Unlines(b)
  {
    if |a| == 0 {
      assert a + b == b;
    } else {
      assert (a + b)[1..] == a[1..] + b;
      UnlinesConcat(a[1..], b);
    }
  }

  lemma UnlinesSnoc(lines: seq<string>, line: string)
    ensures Unlines(lines + [line]) == Unlines(lines) + line + "\n"
  {
    UnlinesConcat(lines, [line]);
  }

  /** The lines of a text: pieces ended by a newline, plus a last piece when the text does not
      end with one. */
  function SplitLines(s: string): seq<string>
    decreases |s|
  {
    if |s| == 0 then []
    else match IndexOf(s, '\n')
      case None => [s]
      case Some(i) => [s[..i]] + SplitLines(s[i + 1..])
  }

  /** The first occurrence of `c` is the only index before which `c` does not occur. */
  lemma {:induction false} IndexOfFirst(s: string, c: char, i: nat)
    requires i < |s| && s[i] == c && c !in s[..i]
    ensures IndexOf(s, c) == Some(i)
  {
    if i > 0 {
      assert s[0] == s[..i][0];
      assert s[1..][..i - 1] == s[1..i];
      assert forall j :: 0 <= j < i - 1 ==> s[1..i][j] == s[..i][j + 1];
      IndexOfFirst(s[1..], c, i - 1);
    }
  }

  /** A line without a newline, its newline, then more text: the line comes off first. */
  lemma SplitFirst(l: string, rest: string)
    requires '\n' !in l
    ensures SplitLines(l + "\n" + rest) == [l] + SplitLines(rest)
  {
    var s := l + "\n" + rest;
    assert s[..|l|] == l;
    IndexOfFirst(s, '\n', |l|);
    assert s[|l| + 1..] == rest;
  }

  /** Splitting text written line by line gives back the lines, when none holds a newline. */
  lemma {:induction false} SplitUnlines(lines: seq<string>)
    requires forall k :: 0 <= k < |lines| ==> '\n' !in lines[k]
    ensures SplitLines(Unlines(lines)) == lines
  {
    if |lines| > 0 {
      SplitFirst(lines[0], Unlines(lines[1..]));
      SplitUnlines(lines[1..]);
    }
  }

  /** Text without a newline is a single line. */
  lemma SplitSingle(x: string)
    requires x != "" && '\n' !in x
    ensures SplitLines(x) == [x]
  {
    assert IndexOf(x, '\n') == None;
  }

  /** Text written line by line and then once more without a newline splits into those lines
      and the unterminated last one. */
  lemma {:induction false} SplitUnlinesTail(lines: seq<string>, x: string)
    requires forall k :: 0 <= k < |lines| ==> '\n' !in lines[k]
    requires x != "" && '\n' !in x
    ensures SplitLines(Unlines(lines) + x) == lines + [x]
  {
    if |lines| == 0 {
      assert Unlines(lines) + x == x;
      SplitSingle(x);
    } else {
      SplitTailStep(lines, x);
      SplitUnlinesTail(lines[1..], x);
      assert lines + [x] == [lines[0]] + (lines[1..] + [x]);
    }
  }

  /** The first line of text written line by line, with more text after it, comes off first. */
  lemma SplitTailStep(lines: seq<string>, x: string)
    requires |lines| > 0 && '\n' !in lines[0]
    ensures SplitLines(Unlines(lines) + x) == [lines[0]] + SplitLines(Unlines(lines[1..]) + x)
  {
    assert Unlines(lines) + x == lines[0] + "\n" + (Unlines(lines[1..]) + x);
    SplitFirst(lines[0], Unlines(lines[1..]) + x);
  }
}
