/**
 * The handful of Python `str` operations the service relies on, over
 * `seq<char>`: prefix tests, `find`/`rfind`, `strip`, `lower`,
 * single-character `replace`, `split`/`join`, slicing and decimal rendering.
 * Whitespace and case are ASCII only.
 */
module Text {
  import opened Wrappers

  predicate StartsWith(s: string, p: string)
  {
    |p| <= |s| && s[..|p|] == p
  }

  predicate EndsWith(s: string, p: string)
  {
    |p| <= |s| && s[|s| - |p|..] == p
  }

  /** `sub` occurs in `s` starting at index `i`. */
  predicate OccursAt(s: string, sub: string, i: int)
  {
    0 <= i && i + |sub| <= |s| && s[i..i + |sub|] == sub
  }

  /** Python's `sub in s`. */
  predicate Contains(s: string, sub: string)
  {
    exists i :: 0 <= i <= |s| && OccursAt(s, sub, i)
  }

  lemma ContainsInSuffix(s: string, k: nat, sub: string)
    requires k <= |s| && Contains(s[k..], sub)
    ensures Contains(s, sub)
  {
    var i :| 0 <= i <= |s[k..]| && OccursAt(s[k..], sub, i);
    assert s[k + i..k + i + |sub|] == s[k..][i..i + |sub|];
    assert OccursAt(s, sub, k + i);
  }

  /** First occurrence of `sub` at or after `from`, or -1. */
  function FindFrom(s: string, sub: string, from: nat): (r: int)
    ensures r == -1 || (from <= r && OccursAt(s, sub, r))
    ensures forall j :: from <= j && (r == -1 || j < r) ==> !OccursAt(s, sub, j)
    decreases |s| - from
  {
    if from + |sub| > |s| then -1
    else if s[from..from + |sub|] == sub then from
    else FindFrom(s, sub, from + 1)
  }

  /** Python's `s.find(sub)`. */
  function Find(s: string, sub: string): (r: int)
    ensures r == -1 <==> !Contains(s, sub)
    ensures r != -1 ==> OccursAt(s, sub, r) && forall j :: 0 <= j < r ==> !OccursAt(s, sub, j)
  {
    var r := FindFrom(s, sub, 0);
    assert r != -1 ==> OccursAt(s, sub, r);
    r
  }

  /** Last occurrence of `sub` starting at or before `upto`, or -1. */
  function RFindUpTo(s: string, sub: string, upto: int): (r: int)
    ensures r == -1 || (0 <= r <= upto && OccursAt(s, sub, r))
    ensures forall j :: r < j <= upto ==> !OccursAt(s, sub, j)
    decreases upto + 1
  {
    if upto < 0 then -1
    else if OccursAt(s, sub, upto) then upto
    else RFindUpTo(s, sub, upto - 1)
  }

  /** Python's `s.rfind(sub)`. */
  function RFind(s: string, sub: string): (r: int)
    ensures r == -1 <==> !Contains(s, sub)
    ensures r != -1 ==> OccursAt(s, sub, r) && forall j :: r < j ==> !OccursAt(s, sub, j)
  {
    var r := RFindUpTo(s, sub, |s| - |sub|);
    assert forall j :: j > |s| - |sub| ==> !OccursAt(s, sub, j);
    r
  }

  /**
   * Python's `c[c.find(open):c.rfind(close) + 1]`, from the first `open` to
   * the last `close`, both included; None when either is missing. When the
   * last `close` comes before the first `open` the slice is empty.
   */
  function Delimited(c: string, open: char, close: char): (r: Option<string>)
    ensures r.None? <==> (open !in c || close !in c)
    ensures r.Some? && r.value != "" ==>
      r.value[0] == open && r.value[|r.value| - 1] == close &&
      exists i :: 0 <= i && i + |r.value| <= |c| && c[i..i + |r.value|] == r.value && open !in c[..i] && close !in c[i + |r.value|..]
  {
    var start := Find(c, [open]);
    var stop := RFind(c, [close]) + 1;
    CharContains(c, open);
    CharContains(c, close);
    if start == -1 || stop == 0 then None
    else if start < stop then
      FirstChar(c, open);
      LastChar(c, close);
      Some(c[start..stop])
    else Some("")
  }

  /** Where `find` puts a one-character pattern: at that character, with none before it. */
  lemma FirstChar(c: string, ch: char)
    requires ch in c
    ensures var k := Find(c, [ch]); 0 <= k < |c| && c[k] == ch && ch !in c[..k]
  {
    CharContains(c, ch);
    var k := Find(c, [ch]);
    assert c[k] == c[k..k + 1][0];
    forall j | 0 <= j < k ensures c[j] != ch {
      assert !OccursAt(c, [ch], j);
      assert c[j..j + 1] == [c[j]];
    }
  }

  /** Where `rfind` puts a one-character pattern: at that character, with none after it. */
  lemma LastChar(c: string, ch: char)
    requires ch in c
    ensures var k := RFind(c, [ch]); 0 <= k < |c| && c[k] == ch && ch !in c[k + 1..]
  {
    CharContains(c, ch);
    var k := RFind(c, [ch]);
    assert c[k] == c[k..k + 1][0];
    forall j | k + 1 <= j < |c| ensures c[j] != ch {
      assert !OccursAt(c, [ch], j);
      assert c[j..j + 1] == [c[j]];
    }
  }

  /** A one-character pattern occurs exactly when the character does. */
  lemma CharContains(s: string, ch: char)
    ensures Contains(s, [ch]) <==> ch in s
  {
    if ch in s {
      var i :| 0 <= i < |s| && s[i] == ch;
      assert s[i..i + 1] == [ch];
      assert OccursAt(s, [ch], i);
    }
    if Contains(s, [ch]) {
      var i :| 0 <= i <= |s| && OccursAt(s, [ch], i);
      assert s[i] == s[i..i + 1][0];
    }
  }

  /** Python's `s[:n]` for a non-negative `n`. */
  function Take<T>(s: seq<T>, n: nat): (r: seq<T>)
    ensures |r| <= n && |r| <= |s|
    ensures n <= |s| ==> |r| == n
    ensures r == s[..|r|]
  {
    if n < |s| then s[..n] else s
  }

  /** Python's `s[n:]` for a non-negative `n`. */
  function Drop<T>(s: seq<T>, n: nat): (r: seq<T>)
    ensures n <= |s| ==> r == s[n..]
    ensures n > |s| ==> r == []
  {
    if n < |s| then s[n..] else []
  }

  /** Python's `s[:n]`, negative `n` counting from the end. */
  function SliceTo<T>(s: seq<T>, n: int): seq<T>
  {
    if n >= 0 then Take(s, n) else if -n >= |s| then [] else s[..|s| + n]
  }

  predicate IsSpace(c: char)
  {
    c == ' ' || ('\t' <= c <= '\r')
  }

  function LStrip(s: string): (r: string)
    ensures |r| <= |s| && r == s[|s| - |r|..]
    ensures r == [] || !IsSpace(r[0])
  {
    if s != [] && IsSpace(s[0]) then LStrip(s[1..]) else s
  }

  function RStrip(s: string): (r: string)
    ensures |r| <= |s| && r == s[..|r|]
    ensures r == [] || !IsSpace(r[|r| - 1])
  {
    if s != [] && IsSpace(s[|s| - 1]) then RStrip(s[..|s| - 1]) else s
  }

  /** Python's `s.strip()`. */
  function Strip(s: string): (r: string)
    ensures |r| <= |s|
    ensures r == [] || (!IsSpace(r[0]) && !IsSpace(r[|r| - 1]))
  {
    RStrip(LStrip(s))
  }

  function LowerChar(c: char): char
  {
    if 'A' <= c <= 'Z' then (c as int + 32) as char else c
  }

  /** Python's `s.lower()` on ASCII letters. */
  function Lower(s: string): (r: string)
    ensures |r| == |s|
    ensures forall i :: 0 <= i < |s| ==> r[i] == LowerChar(s[i])
  {
    seq(|s|, i requires 0 <= i < |s| => LowerChar(s[i]))
  }

  function UpperChar(c: char): char
  {
    if 'a' <= c <= 'z' then (c as int - 32) as char else c
  }

  /** Python's `s.upper()` on ASCII letters. */
  function Upper(s: string): (r: string)
    ensures |r| == |s|
    ensures forall i :: 0 <= i < |s| ==> r[i] == UpperChar(s[i])
  {
    seq(|s|, i requires 0 <= i < |s| => UpperChar(s[i]))
  }

  /** Python's `s.replace(c, t)` for a one-character pattern `c`. */
  function ReplaceChar(s: string, c: char, t: string): (r: string)
    ensures c !in s ==> r == s
  {
    if s == [] then []
    else (if s[0] == c then t else [s[0]]) + ReplaceChar(s[1..], c, t)
  }

  /** `s.replace(c, d)` for a one-character replacement: same length, every `c` now `d`. */
  function SwapChar(s: string, c: char, d: char): (r: string)
    ensures |r| == |s|
    ensures forall i :: 0 <= i < |s| ==> r[i] == if s[i] == c then d else s[i]
  {
    seq(|s|, i requires 0 <= i < |s| => if s[i] == c then d else s[i])
  }

  lemma {:induction false} ReplaceCharConcat(a: string, b: string, c: char, t: string)
    ensures ReplaceChar(a + b, c, t) == ReplaceChar(a, c, t) + ReplaceChar(b, c, t)
    decreases |a|
  {
    if a == [] {
      assert a + b == b;
    } else {
      assert (a + b)[1..] == a[1..] + b;
      ReplaceCharConcat(a[1..], b, c, t);
    }
  }

  function CountChar(s: string, c: char): (n: nat)
    ensures n <= |s|
    ensures n == 0 <==> c !in s
  {
    if s == [] then 0 else (if s[0] == c then 1 else 0) + CountChar(s[1..], c)
  }

  function IndexOfChar(s: string, c: char): (k: nat)
    requires c in s
    ensures k < |s| && s[k] == c && c !in s[..k]
  {
    if s[0] == c then 0 else 1 + IndexOfChar(s[1..], c)
  }

  /** Python's `sep.join(parts)`. */
  function Join(parts: seq<string>, sep: string): string
  {
    if |parts| == 0 then ""
    else if |parts| == 1 then parts[0]
    else parts[0] + sep + Join(parts[1..], sep)
  }

  /** Python's `s.split(sep)` for a one-character separator. */
  function Split(s: string, sep: char): (r: seq<string>)
    ensures |r| >= 1
    ensures forall i :: 0 <= i < |r| ==> sep !in r[i]
    decreases |s|
  {
    if sep !in s then [s]
    else
      var k := IndexOfChar(s, sep);
      [s[..k]] + Split(s[k + 1..], sep)
  }

  lemma SplitJoin(s: string, sep: char)
    ensures Join(Split(s, sep), [sep]) == s
    ensures |Split(s, sep)| == CountChar(s, sep) + 1
  {
    SplitRejoins(s, sep);
    SplitCount(s, sep);
  }

  lemma {:induction false} SplitRejoins(s: string, sep: char)
    ensures Join(Split(s, sep), [sep]) == s
    decreases |s|
  {
    if sep in s {
      var k := IndexOfChar(s, sep);
      var rest := Split(s[k + 1..], sep);
      SplitRejoins(s[k + 1..], sep);
      assert Split(s, sep) == [s[..k]] + rest;
      assert Split(s, sep)[1..] == rest;
      assert Join(Split(s, sep), [sep]) == s[..k] + [sep] + s[k + 1..];
      assert s == s[..k] + [sep] + s[k + 1..];
    }
  }

  lemma {:induction false} SplitCount(s: string, sep: char)
    ensures |Split(s, sep)| == CountChar(s, sep) + 1
    decreases |s|
  {
    if sep in s {
      var k := IndexOfChar(s, sep);
      SplitCount(s[k + 1..], sep);
      assert |Split(s, sep)| == 1 + |Split(s[k + 1..], sep)|;
      CountSplitAt(s, k, sep);
    }
  }

  /** Joining parts that do not contain the separator and splitting again gives the parts back. */
  lemma {:induction false} JoinSplit(parts: seq<string>, sep: char)
    requires |parts| >= 1
    requires forall i :: 0 <= i < |parts| ==> sep !in parts[i]
    ensures Split(Join(parts, [sep]), sep) == parts
    decreases |parts|
  {
    if |parts| > 1 {
      var rest := Join(parts[1..], [sep]);
      var s := Join(parts, [sep]);
      assert s == parts[0] + [sep] + rest;
      var n := |parts[0]|;
      assert s[n] == sep && s[..n] == parts[0];
      IndexOfCharAt(s, sep, n);
      assert s[n + 1..] == rest;
      JoinSplit(parts[1..], sep);
    }
  }

  lemma {:induction false} IndexOfCharAt(s: string, c: char, n: nat)
    requires n < |s| && s[n] == c && c !in s[..n]
    ensures IndexOfChar(s, c) == n
    decreases n
  {
    if n > 0 {
      assert s[0] == s[..n][0];
      assert s[1..][..n - 1] == s[1..n];
      IndexOfCharAt(s[1..], c, n - 1);
    }
  }

  lemma {:induction false} CountSplitAt(s: string, k: nat, c: char)
    requires k < |s| && s[k] == c && c !in s[..k]
    ensures CountChar(s, c) == 1 + CountChar(s[k + 1..], c)
    decreases k
  {
    if k > 0 {
      assert s[1..][..k - 1] == s[1..k];
      assert s[1..][k..] == s[k + 1..];
      assert s[0] != c by { assert s[0] == s[..k][0]; }
      CountSplitAt(s[1..], k - 1, c);
    }
  }

  /** The decimal digit character for `d`. */
  function DigitChar(d: int): char
    requires 0 <= d < 10
  {
    ('0' as int + d) as char
  }

  /** Python's `str(n)` for a natural number. */
  function NatToString(n: nat): (r: string)
    ensures |r| >= 1
    ensures forall i :: 0 <= i < |r| ==> '0' <= r[i] <= '9'
    decreases n
  {
    if n < 10 then [DigitChar(n)] else NatToString(n / 10) + [DigitChar(n % 10)]
  }

  lemma {:induction false} NatToStringInjective(m: nat, n: nat)
    requires NatToString(m) == NatToString(n)
    ensures m == n
    decreases m
  {
    var a, b := NatToString(m), NatToString(n);
    if m < 10 && n >= 10 {
      assert false;
    } else if m >= 10 && n < 10 {
      assert false;
    } else if m >= 10 && n >= 10 {
      assert a[..|a| - 1] == NatToString(m / 10);
      assert b[..|b| - 1] == NatToString(n / 10);
      NatToStringInjective(m / 10, n / 10);
      assert DigitChar(m % 10) == a[|a| - 1] == b[|b| - 1] == DigitChar(n % 10);
    }
  }

  /** Python's `str(i)` for an integer. */
  function IntToString(i: int): (r: string)
    ensures |r| >= 1
  {
    if i < 0 then "-" + NatToString(-i) else NatToString(i)
  }

  function FracDigits(f: real, fuel: nat): string
    requires 0.0 <= f < 1.0
    decreases fuel
  {
    if fuel == 0 || f == 0.0 then ""
    else
      var d := (f * 10.0).Floor;
      [DigitChar(d)] + FracDigits(f * 10.0 - d as real, fuel - 1)
  }

  /**
   * Python's `str(x)` for a float written in positional notation: the
   * integer part, a dot and the fractional digits (at least one).
   */
  function FloatToString(x: real): (r: string)
    ensures |r| >= 3
  {
    if x < 0.0 then "-" + NonNegFloatToString(-x) else NonNegFloatToString(x)
  }

  function NonNegFloatToString(x: real): (r: string)
    requires x >= 0.0
    ensures |r| >= 3
  {
    var ip := x.Floor;
    var fd := FracDigits(x - ip as real, 17);
    NatToString(ip) + "." + (if fd == "" then "0" else fd)
  }
}
