/** The few `str` operations of Rust's standard library that the recipe
    grammar relies on: `to_lowercase`, `trim`, `starts_with`, `ends_with`,
    `split` on a single character, and character classes. Case mapping,
    white space and alphanumerics are modelled on ASCII. */
module Strings {
  import opened Wrappers

  /** `char::to_lowercase` restricted to ASCII: 'A'..'Z' map to 'a'..'z',
      every other character is left as it is. */
  function LowerChar(c: char): char {
    if 'A' <= c <= 'Z' then (c as int - 'A' as int + 'a' as int) as char else c
  }

  /** `str::to_lowercase`, character by character. */
  function Lower(s: string): (r: string)
    ensures |r| == |s|
    ensures forall i :: 0 <= i < |s| ==> r[i] == LowerChar(s[i])
  {
    seq(|s|, i requires 0 <= i < |s| => LowerChar(s[i]))
  }

  lemma LowerIdempotent(s: string)
    ensures Lower(Lower(s)) == Lower(s)
  {
    forall i | 0 <= i < |s|
      ensures Lower(Lower(s))[i] == Lower(s)[i]
    {
      assert LowerChar(LowerChar(s[i])) == LowerChar(s[i]);
    }
  }

  /** `char::is_whitespace` restricted to ASCII. */
  predicate IsWhitespace(c: char) {
    c == ' ' || c == '\t' || c == '\n' || c == '\r' || c == 11 as char || c == 12 as char
  }

  predicate AllWhitespace(s: string) {
    forall i :: 0 <= i < |s| ==> IsWhitespace(s[i])
  }

  /** Neither end of `s` is white space. */
  predicate IsTrimmed(s: string) {
    |s| > 0 ==> !IsWhitespace(s[0]) && !IsWhitespace(s[|s| - 1])
  }

  /** `str::trim_start`: drops the longest all-white-space prefix. */
  function TrimStart(s: string): (r: string)
    ensures |r| <= |s| && r == s[|s| - |r|..]
    ensures |r| > 0 ==> !IsWhitespace(r[0])
  {
    if |s| > 0 && IsWhitespace(s[0]) then TrimStart(s[1..]) else s
  }

  /** `str::trim_end`: drops the longest all-white-space suffix. */
  function TrimEnd(s: string): (r: string)
    ensures |r| <= |s| && r == s[..|r|]
    ensures |r| > 0 ==> !IsWhitespace(r[|r| - 1])
  {
    if |s| > 0 && IsWhitespace(s[|s| - 1]) then TrimEnd(s[..|s| - 1]) else s
  }

  /** `str::trim`: `s` with white space removed from both ends. */
  function Trim(s: string): (r: string)
    ensures |r| <= |s|
    ensures IsTrimmed(r)
  {
    var t := TrimStart(s);
    var r := TrimEnd(t);
    assert |r| > 0 ==> r[0] == t[0];
    r
  }

  /** Every character `trim` keeps is a character of its input. */
  lemma TrimIsInfix(s: string)
    ensures forall c :: c in Trim(s) ==> c in s
  {
    var t := TrimStart(s);
    var r := Trim(s);
    assert r == t[..|r|];
    assert forall k :: 0 <= k < |r| ==> r[k] == s[|s| - |t| + k];
  }

  lemma {:induction false} TrimStartOfTrimmed(s: string)
    requires |s| == 0 || !IsWhitespace(s[0])
    ensures TrimStart(s) == s
  {
  }

  lemma {:induction false} TrimEndOfTrimmed(s: string)
    requires |s| == 0 || !IsWhitespace(s[|s| - 1])
    ensures TrimEnd(s) == s
  {
  }

  /** Trimming a string that is already trimmed changes nothing. */
  lemma TrimOfTrimmed(s: string)
    requires IsTrimmed(s)
    ensures Trim(s) == s
  {
    TrimStartOfTrimmed(s);
    TrimEndOfTrimmed(s);
  }

  lemma {:induction false} TrimStartPadded(w: string, s: string)
    requires AllWhitespace(w)
    ensures TrimStart(w + s) == TrimStart(s)
    decreases |w|
  {
    if |w| > 0 {
      assert (w + s)[1..] == w[1..] + s;
      TrimStartPadded(w[1..], s);
    } else {
      assert w + s == s;
    }
  }

  lemma {:induction false} TrimEndPadded(s: string, w: string)
    requires AllWhitespace(w)
    ensures TrimEnd(s + w) == TrimEnd(s)
    decreases |w|
  {
    if |w| > 0 {
      assert (s + w)[..|s + w| - 1] == s + w[..|w| - 1];
      TrimEndPadded(s, w[..|w| - 1]);
    } else {
      assert s + w == s;
    }
  }

  lemma {:induction false} TrimStartOfWhitespace(w: string)
    requires AllWhitespace(w)
    ensures TrimStart(w) == []
    decreases |w|
  {
    if |w| > 0 {
      TrimStartOfWhitespace(w[1..]);
    }
  }

  lemma {:induction false} TrimPaddedEnd(s: string, w: string)
    requires AllWhitespace(w)
    ensures TrimEnd(TrimStart(s + w)) == TrimEnd(TrimStart(s))
    decreases |s|
  {
    if |s| == 0 {
      assert s + w == w;
      TrimStartOfWhitespace(w);
    } else if IsWhitespace(s[0]) {
      assert (s + w)[1..] == s[1..] + w;
      TrimPaddedEnd(s[1..], w);
    } else {
      assert (s + w)[0] == s[0];
      TrimEndPadded(s, w);
    }
  }

  /** White space around a string does not change what `trim` returns. */
  lemma {:induction false} TrimPadded(w1: string, s: string, w2: string)
    requires AllWhitespace(w1) && AllWhitespace(w2)
    ensures Trim(w1 + s + w2) == Trim(s)
  {
    calc {
      Trim(w1 + s + w2);
      { assert w1 + s + w2 == w1 + (s + w2); }
      TrimEnd(TrimStart(w1 + (s + w2)));
      { TrimStartPadded(w1, s + w2); }
      TrimEnd(TrimStart(s + w2));
      { TrimPaddedEnd(s, w2); }
      TrimEnd(TrimStart(s));
    }
  }

  predicate StartsWith(s: string, prefix: string) {
    |prefix| <= |s| && s[..|prefix|] == prefix
  }

  predicate EndsWith(s: string, suffix: string) {
    |suffix| <= |s| && s[|s| - |suffix|..] == suffix
  }

  /** `str::find` for one character: the position of its first occurrence. */
  function IndexOf(s: string, c: char): (r: Option<nat>)
    ensures r.None? <==> c !in s
    ensures r.Some? ==> r.value < |s| && s[r.value] == c && c !in s[..r.value]
  {
    if |s| == 0 then None
    else if s[0] == c then Some(0)
    else
      match IndexOf(s[1..], c)
      case None => None
      case Some(i) =>
        assert s[..i + 1] == [s[0]] + s[1..][..i];
        Some(i + 1)
  }

  /** Concatenation of `parts` with `sep` between neighbours. */
  function Join(parts: seq<string>, sep: char): string {
    if |parts| == 0 then []
    else if |parts| == 1 then parts[0]
    else parts[0] + [sep] + Join(parts[1..], sep)
  }

  /** `str::split` on a single character: the maximal pieces between
      occurrences of `sep`, always at least one (possibly empty) piece. */
  function Split(s: string, sep: char): (parts: seq<string>)
    ensures |parts| >= 1
    ensures |parts| == 1 <==> sep !in s
    ensures forall i :: 0 <= i < |parts| ==> sep !in parts[i]
    ensures Join(parts, sep) == s
    decreases |s|
  {
    match IndexOf(s, sep)
    case None => [s]
    case Some(i) =>
      var rest := Split(s[i + 1..], sep);
      assert s == s[..i] + [sep] + s[i + 1..];
      [s[..i]] + rest
  }

  /** The first piece of `Split` is everything before the first separator. */
  lemma SplitHead(s: string, sep: char)
    ensures Split(s, sep)[0] == (match IndexOf(s, sep) case None => s case Some(i) => s[..i])
  {
  }

  /** `Split` inverts `Join` when no piece contains the separator. */
  lemma {:induction false} SplitJoin(parts: seq<string>, sep: char)
    requires |parts| >= 1
    requires forall i :: 0 <= i < |parts| ==> sep !in parts[i]
    ensures Split(Join(parts, sep), sep) == parts
    decreases |parts|
  {
    if |parts| > 1 {
      var s := Join(parts, sep);
      var tail := Join(parts[1..], sep);
      assert s == parts[0] + [sep] + tail;
      assert s[|parts[0]|] == sep;
      assert s[..|parts[0]|] == parts[0];
      assert IndexOf(s, sep) == Some(|parts[0]|);
      assert s[|parts[0]| + 1..] == tail;
      SplitJoin(parts[1..], sep);
      assert Split(s, sep) == [parts[0]] + Split(tail, sep);
    }
  }
}
