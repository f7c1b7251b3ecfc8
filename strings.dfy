/** String operations of the JavaScript runtime that the application relies on:
    `split` with a one-character separator, `pop` of the parts, `trim`,
    `slice(0, n)`, `replace` of the first occurrence, `includes`, and ASCII case
    conversion. Strings are sequences of characters. */
module Strings {

  /** The characters that `String.prototype.trim` removes: the WhiteSpace and
      LineTerminator productions of section 12.2 and 12.3 of ECMA-262. */
  predicate IsJsSpace(c: char) {
    c == '\t' || c == '\n' || c == '\U{0B}' || c == '\U{0C}' || c == '\r' || c == ' '
    || c == '\U{A0}' || c == '\U{1680}' || ('\U{2000}' <= c <= '\U{200A}')
    || c == '\U{2028}' || c == '\U{2029}' || c == '\U{202F}' || c == '\U{205F}'
    || c == '\U{3000}' || c == '\U{FEFF}'
  }

  /** `s.trimStart()` */
  function TrimStart(s: string): string {
    if |s| > 0 && IsJsSpace(s[0]) then TrimStart(s[1..]) else s
  }

  /** `s.trimEnd()` */
  function TrimEnd(s: string): string {
    if |s| > 0 && IsJsSpace(s[|s| - 1]) then TrimEnd(s[..|s| - 1]) else s
  }

  /** `s.trim()` */
  function Trim(s: string): string {
    TrimEnd(TrimStart(s))
  }

  /** `trimStart` removes a prefix of white space and nothing more. */
  lemma {:induction false} TrimStartSpec(s: string)
    ensures var r := TrimStart(s);
      |r| <= |s| && r == s[|s| - |r|..] && (|r| > 0 ==> !IsJsSpace(r[0]))
      && forall i :: 0 <= i < |s| - |r| ==> IsJsSpace(s[i])
  {
    if |s| > 0 && IsJsSpace(s[0]) {
      TrimStartSpec(s[1..]);
      var r := TrimStart(s);
      forall i | 0 <= i < |s| - |r| ensures IsJsSpace(s[i]) {
        if i > 0 { assert s[i] == s[1..][i - 1]; }
      }
    }
  }

  /** `trimEnd` removes a suffix of white space and nothing more. */
  lemma {:induction false} TrimEndSpec(s: string)
    ensures var r := TrimEnd(s);
      |r| <= |s| && r == s[..|r|] && (|r| > 0 ==> !IsJsSpace(r[|r| - 1]))
      && forall i :: |r| <= i < |s| ==> IsJsSpace(s[i])
  {
    if |s| > 0 && IsJsSpace(s[|s| - 1]) {
      TrimEndSpec(s[..|s| - 1]);
      var r := TrimEnd(s);
      forall i | |r| <= i < |s| ensures IsJsSpace(s[i]) {
        if i < |s| - 1 { assert s[i] == s[..|s| - 1][i]; }
      }
    }
  }

  lemma {:induction false} TrimStartAllSpace(s: string)
    requires forall i :: 0 <= i < |s| ==> IsJsSpace(s[i])
    ensures TrimStart(s) == ""
  {
    if |s| > 0 {
      assert IsJsSpace(s[0]);
      TrimStartAllSpace(s[1..]);
    }
  }

  /** A character that is not white space survives `trim`. */
  lemma TrimKeeps(s: string, i: nat)
    requires i < |s| && !IsJsSpace(s[i])
    ensures Trim(s) != ""
  {
    var t := TrimStart(s);
    TrimStartSpec(s);
    TrimEndSpec(t);
    var j := i - (|s| - |t|);
    assert 0 <= j < |t| && t[j] == s[i];
  }

  /** `s.trim()` is empty exactly when every character of `s` is white space. */
  lemma TrimEmptyIff(s: string)
    ensures Trim(s) == "" <==> forall i :: 0 <= i < |s| ==> IsJsSpace(s[i])
  {
    if forall i :: 0 <= i < |s| ==> IsJsSpace(s[i]) {
      TrimStartAllSpace(s);
    } else {
      var i :| 0 <= i < |s| && !IsJsSpace(s[i]);
      TrimKeeps(s, i);
    }
  }

  /** `s.split(sep)` for a one-character separator: the maximal runs between
      separators, including empty runs; never an empty list. */
  function Split(s: string, sep: char): (parts: seq<string>)
    ensures |parts| >= 1
    ensures forall i :: 0 <= i < |parts| ==> sep !in parts[i]
    decreases |s|
  {
    if |s| == 0 then [""]
    else if s[0] == sep then [""] + Split(s[1..], sep)
    else
      var rest := Split(s[1..], sep);
      [[s[0]] + rest[0]] + rest[1..]
  }

  /** `parts.join(sep)` */
  function Join(parts: seq<string>, sep: char): string {
    if |parts| == 0 then ""
    else if |parts| == 1 then parts[0]
    else parts[0] + [sep] + Join(parts[1..], sep)
  }

  /** Splitting and joining again with the same separator gives back the input. */
  lemma {:induction false} JoinSplit(s: string, sep: char)
    ensures Join(Split(s, sep), sep) == s
    decreases |s|
  {
    if |s| == 0 {
    } else if s[0] == sep {
      JoinSplit(s[1..], sep);
      assert s == [sep] + s[1..];
    } else {
      var rest := Split(s[1..], sep);
      JoinSplit(s[1..], sep);
      if |rest| == 1 {
        assert s == [s[0]] + s[1..];
      } else {
        assert rest == [rest[0]] + rest[1..];
        assert s == [s[0]] + s[1..];
      }
    }
  }

  /** A string without the separator splits into itself alone. */
  lemma {:induction false} SplitWithoutSep(s: string, sep: char)
    requires sep !in s
    ensures Split(s, sep) == [s]
    decreases |s|
  {
    if |s| > 0 {
      assert s[1..] == s[|s| - |s[1..]|..];
      assert sep !in s[1..] by {
        forall i | 0 <= i < |s[1..]| ensures s[1..][i] != sep { assert s[1..][i] == s[i + 1]; }
      }
      SplitWithoutSep(s[1..], sep);
      assert s == [s[0]] + s[1..];
    }
  }

  /** A separator-free word followed by the separator splits off as the
      first part. */
  lemma {:induction false} SplitPrefix(w: string, sep: char, rest: string)
    requires sep !in w
    ensures Split(w + [sep] + rest, sep) == [w] + Split(rest, sep)
    decreases |w|
  {
    var s := w + [sep] + rest;
    if |w| == 0 {
      assert s[1..] == rest;
    } else {
      assert s[1..] == w[1..] + [sep] + rest;
      assert sep !in w[1..] by {
        forall i | 0 <= i < |w[1..]| ensures w[1..][i] != sep { assert w[1..][i] == w[i + 1]; }
      }
      SplitPrefix(w[1..], sep, rest);
      assert w == [w[0]] + w[1..];
    }
  }

  /** Joining separator-free parts and splitting again gives back the parts. */
  lemma {:induction false} SplitJoin(parts: seq<string>, sep: char)
    requires |parts| >= 1
    requires forall i :: 0 <= i < |parts| ==> sep !in parts[i]
    ensures Split(Join(parts, sep), sep) == parts
    decreases |parts|
  {
    if |parts| == 1 {
      SplitWithoutSep(parts[0], sep);
    } else {
      SplitJoin(parts[1..], sep);
      SplitPrefix(parts[0], sep, Join(parts[1..], sep));
      assert parts == [parts[0]] + parts[1..];
    }
  }

  lemma {:induction false} JoinSnoc(parts: seq<string>, last: string, sep: char)
    requires |parts| >= 1
    ensures Join(parts + [last], sep) == Join(parts, sep) + [sep] + last
    decreases |parts|
  {
    if |parts| == 1 {
      assert parts + [last] == [parts[0], last];
    } else {
      assert (parts + [last])[1..] == parts[1..] + [last];
      JoinSnoc(parts[1..], last, sep);
    }
  }

  /** `s.split(sep).pop()`: the text after the last separator, or all of `s`
      when it has none. */
  function AfterLast(s: string, sep: char): (r: string)
    ensures sep !in r
  {
    var parts := Split(s, sep);
    parts[|parts| - 1]
  }

  /** `AfterLast` is a separator-free suffix of its input, which is either the
      whole input (no separator in it) or preceded by a separator. */
  lemma AfterLastShape(s: string, sep: char)
    ensures var r := AfterLast(s, sep);
      |r| <= |s| && s[|s| - |r|..] == r
      && (sep !in s ==> r == s)
      && (sep in s ==> |r| < |s| && s[|s| - |r| - 1] == sep)
  {
    var parts := Split(s, sep);
    var r := parts[|parts| - 1];
    JoinSplit(s, sep);
    if sep !in s {
      SplitWithoutSep(s, sep);
    } else if |parts| == 1 {
      assert false;
    } else {
      var init := parts[..|parts| - 1];
      assert parts == init + [r];
      JoinSnoc(init, r, sep);
      assert s == Join(init, sep) + [sep] + r;
      assert s[|s| - |r|..] == r;
    }
  }

  /** Text appended after a separator, without a separator of its own, is
      what `AfterLast` finds. */
  lemma AfterLastAppend(x: string, sep: char, r: string)
    requires sep !in r
    ensures AfterLast(x + [sep] + r, sep) == r
  {
    SplitAppend(x, sep, r);
  }

  lemma {:induction false} SplitAppend(x: string, sep: char, r: string)
    requires sep !in r
    ensures var parts := Split(x + [sep] + r, sep); |parts| >= 2 && parts[|parts| - 1] == r
    decreases |x|
  {
    var s := x + [sep] + r;
    if |x| == 0 {
      assert s[1..] == r;
      SplitWithoutSep(r, sep);
    } else {
      assert s[1..] == x[1..] + [sep] + r;
      SplitAppend(x[1..], sep, r);
    }
  }

  /** `s.split(sep)[0]`: the text before the first separator. */
  function BeforeFirst(s: string, sep: char): (r: string)
    ensures sep !in r
  {
    Split(s, sep)[0]
  }

  lemma {:induction false} BeforeFirstIsPrefix(s: string, sep: char)
    ensures var r := BeforeFirst(s, sep);
      |r| <= |s| && s[..|r|] == r && (|r| < |s| ==> s[|r|] == sep)
    decreases |s|
  {
    if |s| > 0 && s[0] != sep {
      BeforeFirstIsPrefix(s[1..], sep);
    }
  }

  /** `s.slice(0, n)` */
  function Take(s: string, n: nat): (r: string)
    ensures |r| == if |s| < n then |s| else n
    ensures r <= s
  {
    if |s| <= n then s else s[..n]
  }

  /** `s.replace(from, to)` with one-character strings: only the first
      occurrence is replaced. */
  function ReplaceFirst(s: string, from: char, to: char): (r: string)
    ensures |r| == |s|
  {
    if |s| == 0 then ""
    else if s[0] == from then [to] + s[1..]
    else [s[0]] + ReplaceFirst(s[1..], from, to)
  }

  /** Without an occurrence, `ReplaceFirst` changes nothing. */
  lemma {:induction false} ReplaceFirstAbsent(s: string, from: char, to: char)
    requires from !in s
    ensures ReplaceFirst(s, from, to) == s
    decreases |s|
  {
    if |s| > 0 {
      assert from !in s[1..];
      ReplaceFirstAbsent(s[1..], from, to);
    }
  }

  /** `ReplaceFirst` changes exactly the first occurrence and nothing else. */
  lemma {:induction false} ReplaceFirstAt(s: string, from: char, to: char, k: nat)
    requires k < |s| && s[k] == from && from !in s[..k]
    ensures ReplaceFirst(s, from, to) == s[..k] + [to] + s[k + 1..]
    decreases k
  {
    if k > 0 {
      assert s[0] != from by { assert s[..k][0] == s[0]; }
      assert s[1..][..k - 1] == s[1..k];
      assert from !in s[1..k] by {
        forall j | 1 <= j < k ensures s[j] != from { assert s[..k][j] == s[j]; }
      }
      ReplaceFirstAt(s[1..], from, to, k - 1);
      assert s[..k] == [s[0]] + s[1..][..k - 1];
      assert s[k + 1..] == s[1..][k..];
    }
  }

  function UpperChar(c: char): char {
    if 'a' <= c <= 'z' then (c as int - 32) as char else c
  }

  function LowerChar(c: char): char {
    if 'A' <= c <= 'Z' then (c as int + 32) as char else c
  }

  /** `s.toUpperCase()` restricted to ASCII letters. */
  function Upper(s: string): (r: string)
    ensures |r| == |s| && forall i :: 0 <= i < |s| ==> r[i] == UpperChar(s[i])
  {
    if |s| == 0 then "" else [UpperChar(s[0])] + Upper(s[1..])
  }

  /** `s.toLowerCase()` restricted to ASCII letters. */
  function Lower(s: string): (r: string)
    ensures |r| == |s| && forall i :: 0 <= i < |s| ==> r[i] == LowerChar(s[i])
  {
    if |s| == 0 then "" else [LowerChar(s[0])] + Lower(s[1..])
  }

  /** `s.includes(sub)` */
  predicate Contains(s: string, sub: string) {
    exists i :: 0 <= i <= |s| - |sub| && OccursAt(s, sub, i)
  }

  predicate OccursAt(s: string, sub: string, i: int)
    requires 0 <= i <= |s| - |sub|
  {
    s[i..i + |sub|] == sub
  }
}
