/**
 * The parts of ECMAScript's String.prototype that the handlers rely on:
 * `split` on a one-character separator, `trim`, and `join`.
 */
module JsString {

  /**
   * The code points `String.prototype.trim` removes: WhiteSpace and LineTerminator
   * of ECMA-262 (sections 12.2 and 12.3): TAB, VT, FF, SP, NBSP, ZWNBSP, the
   * space separators of Unicode category Zs, LF, CR, LS and PS.
   */
  predicate IsSpace(c: char)
  {
    || c == '\t' || c == '\n' || c == '\U{B}' || c == '\U{C}' || c == '\r' || c == ' '
    || c == '\U{A0}' || c == '\U{1680}' || ('\U{2000}' <= c <= '\U{200A}')
    || c == '\U{2028}' || c == '\U{2029}' || c == '\U{202F}' || c == '\U{205F}'
    || c == '\U{3000}' || c == '\U{FEFF}'
  }

  predicate AllSpace(s: string)
  {
    forall i :: 0 <= i < |s| ==> IsSpace(s[i])
  }

  // ---------------------------------------------------------------- split / join

  /**
   * `s.split(sep)`: the text between consecutive separators, so a string with k
   * separators has k + 1 parts and `"".split(sep)` is `[""]`.
   */
  function Split(s: string, sep: char): (parts: seq<string>)
    ensures |parts| >= 1
    ensures forall i :: 0 <= i < |parts| ==> sep !in parts[i]
  {
    if s == [] then [""]
    else
      var rest := Split(s[1..], sep);
      if s[0] == sep then [""] + rest
      else [[s[0]] + rest[0]] + rest[1..]
  }

  /** `parts.join(sep)` for a one-character separator. */
  function Join(parts: seq<string>, sep: char): string
    requires |parts| >= 1
  {
    if |parts| == 1 then parts[0] else parts[0] + [sep] + Join(parts[1..], sep)
  }

  /** `parts.join(sep)` for a separator of any length (", " joins Set-Cookie values). */
  function JoinWith(parts: seq<string>, sep: string): string
  {
    if parts == [] then ""
    else if |parts| == 1 then parts[0]
    else parts[0] + sep + JoinWith(parts[1..], sep)
  }

  /** A string without the separator is one part. */
  lemma {:induction false} SplitNoSeparator(s: string, sep: char)
    requires sep !in s
    ensures Split(s, sep) == [s]
  {
    if s != [] {
      assert s[0] in s && s == [s[0]] + s[1..];
      SplitNoSeparator(s[1..], sep);
    }
  }

  /** Splitting at one separator splits the two sides independently. */
  lemma {:induction false} SplitAppend(a: string, sep: char, b: string)
    ensures Split(a + [sep] + b, sep) == Split(a, sep) + Split(b, sep)
  {
    if a == [] {
      assert a + [sep] + b == [sep] + b;
      assert ([sep] + b)[1..] == b;
    } else {
      assert (a + [sep] + b)[1..] == a[1..] + [sep] + b;
      SplitAppend(a[1..], sep, b);
    }
  }

  /** Joining the parts gives back the string that was split. */
  lemma {:induction false} SplitJoin(s: string, sep: char)
    ensures Join(Split(s, sep), sep) == s
  {
    if s != [] {
      SplitJoin(s[1..], sep);
      var rest := Split(s[1..], sep);
      if s[0] == sep {
        assert ([""] + rest)[1..] == rest;
      } else {
        var parts := [[s[0]] + rest[0]] + rest[1..];
        if |rest| > 1 {
          assert parts[1..] == rest[1..];
          assert Join(rest, sep) == rest[0] + [sep] + Join(rest[1..], sep);
        }
      }
    }
  }

  /** Splitting the join of separator-free parts gives back the parts. */
  lemma {:induction false} JoinSplit(parts: seq<string>, sep: char)
    requires |parts| >= 1
    requires forall i :: 0 <= i < |parts| ==> sep !in parts[i]
    ensures Split(Join(parts, sep), sep) == parts
  {
    if |parts| == 1 {
      SplitNoSeparator(parts[0], sep);
    } else {
      JoinSplit(parts[1..], sep);
      SplitAppend(parts[0], sep, Join(parts[1..], sep));
      SplitNoSeparator(parts[0], sep);
    }
  }

  // ---------------------------------------------------------------- trim

  /** How many white-space characters `s` starts with. */
  function Leading(s: string): (n: nat)
    ensures n <= |s| && (n < |s| ==> !IsSpace(s[n]))
  {
    if s != [] && IsSpace(s[0]) then 1 + Leading(s[1..]) else 0
  }

  /** How many white-space characters `s` ends with. */
  function Trailing(s: string): (n: nat)
    ensures n <= |s| && (n < |s| ==> !IsSpace(s[|s| - 1 - n]))
  {
    if s != [] && IsSpace(s[|s| - 1]) then 1 + Trailing(s[..|s| - 1]) else 0
  }

  /** `s.trim()`: the leading, then the trailing white space removed; neither end is white space. */
  function Trim(s: string): (r: string)
    ensures r == [] || (!IsSpace(r[0]) && !IsSpace(r[|r| - 1]))
  {
    var t := s[Leading(s)..];
    t[..|t| - Trailing(t)]
  }

  /** The leading characters counted are white space. */
  lemma {:induction false} LeadingAreSpace(s: string)
    ensures AllSpace(s[..Leading(s)])
  {
    if s != [] && IsSpace(s[0]) {
      LeadingAreSpace(s[1..]);
      forall k | 0 < k < Leading(s) ensures IsSpace(s[k]) {
        assert s[1..][..Leading(s[1..])][k - 1] == s[k];
      }
    }
  }

  /** The trailing characters counted are white space. */
  lemma {:induction false} TrailingAreSpace(s: string)
    ensures AllSpace(s[|s| - Trailing(s)..])
  {
    if s != [] && IsSpace(s[|s| - 1]) {
      var p := s[..|s| - 1];
      TrailingAreSpace(p);
      forall k | |s| - Trailing(s) <= k < |s| - 1 ensures IsSpace(s[k]) {
        assert p[|p| - Trailing(p)..][k - (|p| - Trailing(p))] == s[k];
      }
    }
  }

  /** What trim removes: the white space before i and after j; s[i..j] is left. */
  lemma TrimSlice(s: string) returns (i: nat, j: nat)
    ensures i <= j <= |s| && Trim(s) == s[i..j]
    ensures AllSpace(s[..i]) && AllSpace(s[j..])
  {
    var t := s[Leading(s)..];
    LeadingAreSpace(s);
    TrailingAreSpace(t);
    i, j := Leading(s), |s| - Trailing(t);
    assert s[j..] == t[|t| - Trailing(t)..];
  }

  /** Trimming a trimmed string changes nothing. */
  lemma TrimIdempotent(s: string)
    ensures Trim(Trim(s)) == Trim(s)
  {
    var t := Trim(s);
    assert Leading(t) == 0;
    assert Trailing(t) == 0;
  }

  /** Trim leaves nothing exactly when every character is white space. */
  lemma TrimEmptyIffAllSpace(s: string)
    ensures Trim(s) == "" <==> AllSpace(s)
  {
    var i, j := TrimSlice(s);
    if Trim(s) == "" {
      assert i == j;
      forall k | 0 <= k < |s| ensures IsSpace(s[k]) {
        if k < i { assert s[..i][k] == s[k]; } else { assert s[j..][k - j] == s[k]; }
      }
    }
  }
}
