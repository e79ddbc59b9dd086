/** Optional values, builder results and the string operations of the JavaScript runtime that
    the event core relies on: `String.prototype.trim`, decimal rendering of
    integers, `split(/\r?\n/)` and `Array.prototype.join`. */
module Wrappers {
  datatype Option<+T> = None | Some(value: T) {
    function GetOr(default: T): T {
      if Some? then value else default
    }
  }

  /** The `{ error }` or successful result of a builder. */
  datatype Result<T> = Ok(value: T) | Failure(error: string)
}

module JsText {

  /** The characters `trim` removes: ECMAScript WhiteSpace and LineTerminator. */
  predicate IsWhiteSpace(c: char) {
    || c == ' ' || c == '\t' || c == '\n' || c == '\r'
    || c == '\U{000B}' || c == '\U{000C}' || c == '\U{00A0}' || c == '\U{1680}'
    || ('\U{2000}' <= c <= '\U{200A}')
    || c == '\U{2028}' || c == '\U{2029}' || c == '\U{202F}' || c == '\U{205F}'
    || c == '\U{3000}' || c == '\U{FEFF}'
  }

  predicate AllWhiteSpace(s: string) {
    forall k :: 0 <= k < |s| ==> IsWhiteSpace(s[k])
  }

  /** Drops leading whitespace. */
  function TrimStart(s: string): string {
    if s != [] && IsWhiteSpace(s[0]) then TrimStart(s[1..]) else s
  }

  /** What TrimStart leaves is a suffix of `s`, everything cut off is
      whitespace and the result does not start with whitespace. */
  lemma {:induction false} TrimStartMeaning(s: string)
    ensures var r := TrimStart(s);
      && |r| <= |s| && r == s[|s| - |r|..]
      && AllWhiteSpace(s[..|s| - |r|])
      && (r == [] || !IsWhiteSpace(r[0]))
  {
    if s != [] && IsWhiteSpace(s[0]) {
      TrimStartMeaning(s[1..]);
      var r := TrimStart(s[1..]);
      assert s[..|s| - |r|] == [s[0]] + s[1..][..|s| - 1 - |r|];
    }
  }

  /** Drops trailing whitespace. */
  function TrimEnd(s: string): string {
    if s != [] && IsWhiteSpace(s[|s| - 1]) then TrimEnd(s[..|s| - 1]) else s
  }

  /** What TrimEnd leaves is a prefix of `s`, everything cut off is
      whitespace and the result does not end with whitespace. */
  lemma {:induction false} TrimEndMeaning(s: string)
    ensures var r := TrimEnd(s);
      && |r| <= |s| && r == s[..|r|]
      && AllWhiteSpace(s[|r|..])
      && (r == [] || !IsWhiteSpace(r[|r| - 1]))
  {
    if s != [] && IsWhiteSpace(s[|s| - 1]) {
      TrimEndMeaning(s[..|s| - 1]);
      var r := TrimEnd(s[..|s| - 1]);
      assert s[|r|..] == s[..|s| - 1][|r|..] + [s[|s| - 1]];
    }
  }

  /** `String.prototype.trim`. */
  function Trim(s: string): string {
    TrimEnd(TrimStart(s))
  }

  /** Trimming cuts whitespace off both ends and nothing else: the result is
      the stretch `s[i..j]` with only whitespace before and after it and no
      whitespace at either of its ends. It is "" exactly for all-whitespace
      text. */
  lemma TrimMeaning(s: string)
    ensures var r := Trim(s);
      exists i, j :: 0 <= i <= j <= |s| && r == s[i..j]
        && AllWhiteSpace(s[..i]) && AllWhiteSpace(s[j..])
        && (i < j ==> !IsWhiteSpace(s[i]) && !IsWhiteSpace(s[j - 1]))
    ensures var r := Trim(s);
      && |r| <= |s|
      && (r == [] <==> AllWhiteSpace(s))
      && (r == [] || (!IsWhiteSpace(r[0]) && !IsWhiteSpace(r[|r| - 1])))
  {
    TrimCut(s);
    var i := |s| - |TrimStart(s)|;
    var j := i + |Trim(s)|;
    assert Trim(s) == s[i..j];
    if Trim(s) == [] {
      assert s == s[..i] + s[j..];
    } else {
      assert Trim(s)[0] == s[i] && Trim(s)[|Trim(s)| - 1] == s[j - 1];
    }
  }

  /** Where trim cuts: after the leading whitespace and before the
      trailing whitespace of what is left. */
  lemma TrimCut(s: string)
    ensures var i := |s| - |TrimStart(s)|;
      var j := i + |Trim(s)|;
      && 0 <= i <= j <= |s| && Trim(s) == s[i..j]
      && AllWhiteSpace(s[..i]) && AllWhiteSpace(s[j..])
      && (i < j ==> !IsWhiteSpace(s[i]) && !IsWhiteSpace(s[j - 1]))
  {
    var t := TrimStart(s);
    var r := TrimEnd(t);
    TrimStartMeaning(s);
    TrimEndMeaning(t);
    var i := |s| - |t|;
    var j := i + |r|;
    SliceOfSuffix(s, i, |r|);
    if r != [] {
      assert r[0] == s[i] && r[|r| - 1] == s[j - 1];
    }
  }

  lemma SliceOfSuffix(s: string, i: nat, a: nat)
    requires i + a <= |s|
    ensures s[i..][..a] == s[i..i + a] && s[i..][a..] == s[i + a..]
  {
  }

  /** A string that neither starts nor ends with whitespace is its own trim. */
  lemma TrimUntouched(s: string)
    requires s != [] && !IsWhiteSpace(s[0]) && !IsWhiteSpace(s[|s| - 1])
    ensures Trim(s) == s
  {
  }

  predicate IsDigit(c: char) { '0' <= c <= '9' }

  predicate AllDigits(s: string) {
    forall k :: 0 <= k < |s| ==> IsDigit(s[k])
  }

  function DigitValue(c: char): nat
    requires IsDigit(c)
  {
    c as int - '0' as int
  }

  /** The value of a string of decimal digits, most significant first. */
  function DigitsValue(s: string): nat
    requires AllDigits(s)
  {
    if s == [] then 0 else DigitsValue(s[..|s| - 1]) * 10 + DigitValue(s[|s| - 1])
  }

  function DigitChar(d: nat): (c: char)
    requires d < 10
    ensures IsDigit(c) && DigitValue(c) == d
  {
    ('0' as int + d) as char
  }

  /** `String(n)` for a non-negative integer: decimal digits without leading
      zeros, whose value is `n`. */
  function NatToString(n: nat): (r: string)
    ensures |r| >= 1 && AllDigits(r) && DigitsValue(r) == n
    ensures r[0] == '0' ==> n == 0
  {
    if n < 10 then [DigitChar(n)]
    else
      var p := NatToString(n / 10);
      var r := p + [DigitChar(n % 10)];
      assert r[..|r| - 1] == p;
      r
  }

  /** `String(i)` for an integer. */
  function IntToString(i: int): string {
    if i < 0 then "-" + NatToString(-i) else NatToString(i)
  }

  /** `parts.join(sep)`. */
  function Join(parts: seq<string>, sep: string): string {
    if |parts| == 0 then ""
    else if |parts| == 1 then parts[0]
    else parts[0] + sep + Join(parts[1..], sep)
  }

  /** The parts with every empty string removed: `filter(Boolean)` on strings. */
  function NonEmpty(parts: seq<string>): (r: seq<string>)
    ensures forall k :: 0 <= k < |r| ==> r[k] != ""
    ensures forall x :: x in r <==> x in parts && x != ""
  {
    if parts == [] then []
    else if parts[0] == "" then NonEmpty(parts[1..])
    else [parts[0]] + NonEmpty(parts[1..])
  }

  /** Each line followed by a line break. */
  function Terminated(lines: seq<string>): string {
    if lines == [] then "" else lines[0] + "\n" + Terminated(lines[1..])
  }

  /** `lines.join("\n") + "\n"` puts a line break after every line. */
  lemma {:induction false} JoinThenBreak(lines: seq<string>)
    requires |lines| >= 1
    ensures Join(lines, "\n") + "\n" == Terminated(lines)
  {
    if |lines| > 1 {
      JoinThenBreak(lines[1..]);
    }
  }

  lemma {:induction false} TerminatedAppend(a: seq<string>, b: seq<string>)
    ensures Terminated(a + b) == Terminated(a) + Terminated(b)
  {
    if a == [] {
      assert a + b == b;
    } else {
      assert (a + b)[1..] == a[1..] + b;
      TerminatedAppend(a[1..], b);
    }
  }

  /** The pieces of `s` between line breaks, as `s.split(/\r?\n/)` returns
      them: a carriage return right before a line feed belongs to the break. */
  function SplitLines(s: string): (r: seq<string>)
    ensures |r| >= 1
    decreases |s|
  {
    if s == [] then [""]
    else if s[0] == '\n' then [""] + SplitLines(s[1..])
    else if s[0] == '\r' && |s| >= 2 && s[1] == '\n' then [""] + SplitLines(s[2..])
    else
      var rest := SplitLines(s[1..]);
      [[s[0]] + rest[0]] + rest[1..]
  }

  /** Text ending in a line break, or no text at all: what this server's own
      appends leave behind. */
  predicate WellTerminated(s: string) {
    s == [] || s[|s| - 1] == '\n'
  }

  /** A line without a line feed is a single piece. */
  lemma {:induction false} SplitSingleLine(l: string)
    requires '\n' !in l
    ensures SplitLines(l) == [l]
    decreases |l|
  {
    if l != [] {
      assert l[0] != '\n' && '\n' !in l[1..];
      SplitSingleLine(l[1..]);
      assert [l[0]] + l[1..] == l;
    }
  }

  /** Text that holds a line feed splits into at least two pieces. */
  lemma {:induction false} SplitAtBreak(s: string)
    requires '\n' in s
    ensures |SplitLines(s)| >= 2
    decreases |s|
  {
    if s[0] == '\n' {
    } else if s[0] == '\r' && |s| >= 2 && s[1] == '\n' {
    } else {
      assert '\n' in s[1..];
      SplitAtBreak(s[1..]);
    }
  }

  /** Splitting after a line break: the pieces of well-terminated text `a`
      (whose last piece is the empty one after its final break) are followed
      by the pieces of whatever comes next. */
  lemma {:induction false} SplitConcat(a: string, b: string)
    requires WellTerminated(a)
    ensures SplitLines(a)[|SplitLines(a)| - 1] == ""
    ensures SplitLines(a + b) == SplitLines(a)[..|SplitLines(a)| - 1] + SplitLines(b)
    decreases |a|, 1
  {
    if a == [] {
      assert a + b == b;
    } else if a[0] == '\n' {
      SplitConcatBreak(a, b, 1);
    } else if a[0] == '\r' && |a| >= 2 && a[1] == '\n' {
      SplitConcatBreak(a, b, 2);
    } else {
      SplitConcatHead(a, b);
    }
  }

  /** The step of SplitConcat past a leading line break of length `k`. */
  lemma {:induction false} SplitConcatBreak(a: string, b: string, k: nat)
    requires WellTerminated(a)
    requires k == 1 || k == 2
    requires k <= |a| && a[k - 1] == '\n' && (k == 2 ==> a[0] == '\r')
    ensures SplitLines(a)[|SplitLines(a)| - 1] == ""
    ensures SplitLines(a + b) == SplitLines(a)[..|SplitLines(a)| - 1] + SplitLines(b)
    decreases |a|, 0
  {
    assert (a + b)[k..] == a[k..] + b;
    SplitConcat(a[k..], b);
    SplitBreak(a, k);
    SplitBreak(a + b, k);
    DropFirstEmpty(SplitLines(a[k..]), SplitLines(b));
  }

  /** A leading line break of length `k` ends an empty first piece. */
  lemma SplitBreak(s: string, k: nat)
    requires (k == 1 || k == 2) && k <= |s| && s[k - 1] == '\n' && (k == 2 ==> s[0] == '\r')
    ensures SplitLines(s) == [""] + SplitLines(s[k..])
  {
  }

  /** An empty first piece stays in front when the last piece is replaced. */
  lemma DropFirstEmpty(st: seq<string>, bs: seq<string>)
    requires |st| >= 1
    ensures var sa := [""] + st;
      && sa[|sa| - 1] == st[|st| - 1]
      && sa[..|sa| - 1] + bs == [""] + (st[..|st| - 1] + bs)
  {
    var sa := [""] + st;
    assert sa[..|sa| - 1] == [""] + st[..|st| - 1];
  }

  /** The step of SplitConcat past a first character that is not a break. */
  lemma {:induction false} SplitConcatHead(a: string, b: string)
    requires WellTerminated(a) && a != [] && a[0] != '\n' && !(a[0] == '\r' && |a| >= 2 && a[1] == '\n')
    ensures SplitLines(a)[|SplitLines(a)| - 1] == ""
    ensures SplitLines(a + b) == SplitLines(a)[..|SplitLines(a)| - 1] + SplitLines(b)
    decreases |a|, 0
  {
    var t := a[1..];
    assert |a| >= 2 && (a + b)[0] == a[0] && (a + b)[1] == a[1];
    assert (a + b)[1..] == t + b;
    assert t != [] && t[|t| - 1] == '\n';
    SplitConcat(t, b);
    SplitAtBreak(t);
    SplitHead(a);
    SplitHead(a + b);
    JoinFirstPiece(a[0], SplitLines(t), SplitLines(b));
  }

  /** Putting `c` in front of the first piece commutes with replacing the
      last piece by `bs`. */
  lemma JoinFirstPiece(c: char, st: seq<string>, bs: seq<string>)
    requires |st| >= 2
    ensures var sa := [[c] + st[0]] + st[1..];
      var r := st[..|st| - 1] + bs;
      && sa[|sa| - 1] == st[|st| - 1]
      && sa[..|sa| - 1] + bs == [[c] + r[0]] + r[1..]
  {
    var sa := [[c] + st[0]] + st[1..];
    var r := st[..|st| - 1] + bs;
    assert r[0] == st[0];
    assert r[1..] == st[1..|st| - 1] + bs;
    assert sa[..|sa| - 1] == [[c] + st[0]] + st[1..|st| - 1];
  }

  /** A first character that does not start a line break joins the first
      piece of the rest. */
  lemma SplitHead(s: string)
    requires s != [] && s[0] != '\n' && !(s[0] == '\r' && |s| >= 2 && s[1] == '\n')
    ensures SplitLines(s) == [[s[0]] + SplitLines(s[1..])[0]] + SplitLines(s[1..])[1..]
  {
  }

  /** A line followed by a line break, then more text. */
  lemma SplitFirstLine(l: string, rest: string)
    requires '\n' !in l && '\r' !in l
    ensures SplitLines(l + "\n" + rest) == [l] + SplitLines(rest)
  {
    SplitSingleLine(l);
    SplitConcat(l + "\n", rest);
    SplitLineFeedEnd(l);
  }

  lemma {:induction false} SplitLineFeedEnd(l: string)
    requires '\n' !in l && '\r' !in l
    ensures SplitLines(l + "\n") == [l, ""]
    decreases |l|
  {
    if l == [] {
    } else {
      assert (l + "\n")[1..] == l[1..] + "\n";
      SplitLineFeedEnd(l[1..]);
      assert [l[0]] + l[1..] == l;
    }
  }
}
