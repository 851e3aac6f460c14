/**
 * The two JavaScript library operations the core leans on:
 * `String.prototype.trim` and `Array.prototype.join`, plus splitting a string
 * at a separator character, which serves as the reference for "one line per
 * element" of a join.
 */
module JsString {

  /**
   * The code points `trim` strips: the ECMAScript WhiteSpace set (TAB, VT, FF,
   * SPACE, NO-BREAK SPACE, ZERO WIDTH NO-BREAK SPACE and the other
   * space separators) and the LineTerminator set (LF, CR, LINE SEPARATOR,
   * PARAGRAPH SEPARATOR).
   */
  predicate IsWhitespace(c: char) {
    || c == '\t' || c == '\n' || c == '\U{B}' || c == '\U{C}' || c == '\r'
    || c == ' ' || c == '\U{A0}' || c == '\U{1680}'
    || ('\U{2000}' <= c <= '\U{200A}')
    || c == '\U{2028}' || c == '\U{2029}' || c == '\U{202F}' || c == '\U{205F}'
    || c == '\U{3000}' || c == '\U{FEFF}'
  }

  predicate AllWhitespace(s: string) {
    forall i :: 0 <= i < |s| ==> IsWhitespace(s[i])
  }

  /** Neither the first nor the last character is whitespace. */
  predicate Trimmed(s: string) {
    s == [] || (!IsWhitespace(s[0]) && !IsWhitespace(s[|s| - 1]))
  }

  /** The length of the longest all-whitespace prefix. */
  function LeadingWhitespace(s: string): (n: nat)
    ensures n <= |s|
    ensures AllWhitespace(s[..n])
    ensures n < |s| ==> !IsWhitespace(s[n])
  {
    if |s| == 0 || !IsWhitespace(s[0]) then 0
    else
      var n := 1 + LeadingWhitespace(s[1..]);
      assert s[..n] == [s[0]] + s[1..][..n - 1];
      n
  }

  /** The length of the longest all-whitespace suffix. */
  function TrailingWhitespace(s: string): (n: nat)
    ensures n <= |s|
    ensures AllWhitespace(s[|s| - n..])
    ensures n < |s| ==> !IsWhitespace(s[|s| - n - 1])
  {
    if |s| == 0 || !IsWhitespace(s[|s| - 1]) then 0
    else
      var init := s[..|s| - 1];
      var n := 1 + TrailingWhitespace(init);
      assert s[|s| - n..] == init[|init| - (n - 1)..] + [s[|s| - 1]];
      n
  }

  /**
   * `s.trim()`: `s` without its leading and trailing whitespace. The result is
   * a contiguous piece of `s`, everything cut away is whitespace, and what is
   * left starts and ends with a non-whitespace character.
   */
  function Trim(s: string): (r: string)
    ensures |r| <= |s|
    ensures Trimmed(r)
    ensures exists i :: 0 <= i <= |s| - |r| && r == s[i..i + |r|]
                        && AllWhitespace(s[..i]) && AllWhitespace(s[i + |r|..])
  {
    var a := LeadingWhitespace(s);
    var t := s[a..];
    var r := t[..|t| - TrailingWhitespace(t)];
    assert r == s[a..a + |r|];
    assert s[a + |r|..] == t[|t| - TrailingWhitespace(t)..];
    r
  }

  /** `xs.join(sep)`: "" for no parts, otherwise the parts with `sep` between neighbours. */
  function Join(parts: seq<string>, sep: string): (r: string)
    ensures |parts| > 0 ==> |r| >= |parts[0]|
  {
    if |parts| == 0 then ""
    else if |parts| == 1 then parts[0]
    else parts[0] + sep + Join(parts[1..], sep)
  }

  /** `s.split(c)` for a one-character separator: the pieces between occurrences of `c`. */
  function Split(s: string, c: char): (pieces: seq<string>)
    ensures |pieces| >= 1
  {
    if |s| == 0 then [""]
    else
      var rest := Split(s[1..], c);
      if s[0] == c then [""] + rest
      else [[s[0]] + rest[0]] + rest[1..]
  }

  /** A string that does not start or end with whitespace is its own trim. */
  lemma TrimOfTrimmed(s: string)
    requires Trimmed(s)
    ensures Trim(s) == s
  {
    if |s| > 0 {
      assert LeadingWhitespace(s) == 0;
      assert TrailingWhitespace(s) == 0;
    }
  }

  /** Trimming twice is trimming once. */
  lemma TrimIdempotent(s: string)
    ensures Trim(Trim(s)) == Trim(s)
  {
    TrimOfTrimmed(Trim(s));
  }

  /** A string trims to "" exactly when it is whitespace only (the source's "blank" test). */
  lemma {:induction false} TrimEmptyIff(s: string)
    ensures Trim(s) == "" <==> AllWhitespace(s)
  {
    var r := Trim(s);
    var i :| 0 <= i <= |s| - |r| && r == s[i..i + |r|]
             && AllWhitespace(s[..i]) && AllWhitespace(s[i + |r|..]);
    if r == "" {
      assert s == s[..i] + s[i..];
      forall k | 0 <= k < |s| ensures IsWhitespace(s[k]) {
        if k < i { assert s[..i][k] == s[k]; } else { assert s[i..][k - i] == s[k]; }
      }
    }
  }

  /** Joining one more part puts it behind the separator, after everything before. */
  lemma {:induction false} JoinSnoc(parts: seq<string>, x: string, sep: string)
    requires |parts| > 0
    ensures Join(parts + [x], sep) == Join(parts, sep) + sep + x
  {
    if |parts| > 1 {
      assert (parts + [x])[1..] == parts[1..] + [x];
      JoinSnoc(parts[1..], x, sep);
    } else {
      assert (parts + [x])[1..] == [x];
    }
  }

  /** A piece without the separator splits into itself. */
  lemma {:induction false} SplitWithoutSeparator(s: string, c: char)
    requires c !in s
    ensures Split(s, c) == [s]
  {
    if |s| > 0 {
      assert c !in s[1..] by { assert forall j :: 0 <= j < |s| - 1 ==> s[1..][j] == s[j + 1]; }
      SplitWithoutSeparator(s[1..], c);
      assert [s[0]] + s[1..] == s;
    }
  }

  /** Splitting `a + [c] + b` cuts exactly at the separator ending `a`. */
  lemma {:induction false} SplitAtSeparator(a: string, b: string, c: char)
    requires c !in a
    ensures Split(a + [c] + b, c) == [a] + Split(b, c)
  {
    var s := a + [c] + b;
    if |a| == 0 {
      assert s[0] == c && s[1..] == b;
    } else {
      assert s[0] == a[0];
      assert s[1..] == a[1..] + [c] + b;
      assert c !in a[1..] by { assert forall j :: 0 <= j < |a| - 1 ==> a[1..][j] == a[j + 1]; }
      SplitAtSeparator(a[1..], b, c);
      assert [a[0]] + a[1..] == a;
    }
  }

  /**
   * Splitting a join at its one-character separator gives the parts back,
   * provided there is at least one part and no part contains the separator.
   */
  lemma {:induction false} SplitJoin(parts: seq<string>, c: char)
    requires |parts| > 0
    requires forall k :: 0 <= k < |parts| ==> c !in parts[k]
    ensures Split(Join(parts, [c]), c) == parts
  {
    if |parts| == 1 {
      SplitWithoutSeparator(parts[0], c);
    } else {
      SplitJoin(parts[1..], c);
      SplitAtSeparator(parts[0], Join(parts[1..], [c]), c);
      assert [parts[0]] + parts[1..] == parts;
    }
  }
}
