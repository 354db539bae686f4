/** The string and path primitives the commands use, with os.sep fixed to '/':
    str.replace of one character, str.split(sep)[-1], str.lower,
    '%-10s' formatting and os.path.join of two parts. */
module Text {

  predicate StartsWith(s: string, prefix: string)
  {
    |prefix| <= |s| && s[..|prefix|] == prefix
  }

  predicate EndsWith(s: string, suffix: string)
  {
    |suffix| <= |s| && s[|s| - |suffix|..] == suffix
  }

  /** s.replace(target, replacement) for one-character strings: every
      occurrence of target is replaced and every other character kept. */
  function ReplaceChar(s: string, target: char, replacement: char): (r: string)
    ensures |r| == |s|
    ensures forall i :: 0 <= i < |s| ==> r[i] == (if s[i] == target then replacement else s[i])
  {
    if s == [] then []
    else [if s[0] == target then replacement else s[0]] + ReplaceChar(s[1..], target, replacement)
  }

  /** After a replacement the replaced character no longer occurs, provided it
      differs from its replacement. */
  lemma ReplaceCharRemoves(s: string, target: char, replacement: char)
    requires target != replacement
    ensures target !in ReplaceChar(s, target, replacement)
  {
  }

  /** Replacing commutes with dropping a prefix. */
  lemma {:induction false} ReplaceCharDrop(s: string, k: nat, target: char, replacement: char)
    requires k <= |s|
    ensures ReplaceChar(s, target, replacement)[k..] == ReplaceChar(s[k..], target, replacement)
  {
    var a := ReplaceChar(s, target, replacement)[k..];
    var b := ReplaceChar(s[k..], target, replacement);
    assert |a| == |b|;
    forall i | 0 <= i < |a| ensures a[i] == b[i] {
      assert s[k..][i] == s[k + i];
    }
  }

  /** Replacing distributes over concatenation. */
  lemma {:induction false} ReplaceCharAppend(a: string, b: string, target: char, replacement: char)
    ensures ReplaceChar(a + b, target, replacement) == ReplaceChar(a, target, replacement) + ReplaceChar(b, target, replacement)
  {
    var l := ReplaceChar(a + b, target, replacement);
    var r := ReplaceChar(a, target, replacement) + ReplaceChar(b, target, replacement);
    forall i | 0 <= i < |l| ensures l[i] == r[i] {
      if i < |a| {
        assert (a + b)[i] == a[i];
      } else {
        assert (a + b)[i] == b[i - |a|];
      }
    }
  }

  /** A string without the target character is left as it is. */
  lemma ReplaceCharAbsent(s: string, target: char, replacement: char)
    requires target !in s
    ensures ReplaceChar(s, target, replacement) == s
  {
  }

  /** s.split(sep)[-1]: the longest suffix of s that does not hold sep. */
  function LastSegment(s: string, sep: char): (r: string)
    ensures sep !in r
    ensures |r| <= |s| && r == s[|s| - |r|..]
    ensures |r| < |s| ==> s[|s| - |r| - 1] == sep
    decreases |s|
  {
    if s == [] then []
    else if s[|s| - 1] == sep then []
    else
      var init := s[..|s| - 1];
      var r := LastSegment(init, sep) + [s[|s| - 1]];
      assert r == s[|s| - |r|..] by {
        assert s == init + [s[|s| - 1]];
      }
      assert |r| < |s| ==> s[|s| - |r| - 1] == init[|init| - (|r| - 1) - 1];
      r
  }

  /** A string without sep is its own last segment. */
  lemma LastSegmentOfPlain(s: string, sep: char)
    requires sep !in s
    ensures LastSegment(s, sep) == s
  {
  }

  /** The last segment of a path is what follows its final separator. */
  lemma LastSegmentAfterSep(a: string, b: string, sep: char)
    requires sep !in b
    ensures LastSegment(a + [sep] + b, sep) == b
  {
    var s := a + [sep] + b;
    assert s[|s| - |b|..] == b;
    assert s[|s| - |b| - 1] == sep;
  }

  /** Python's str.lower on one ASCII character. */
  function LowerChar(c: char): char
  {
    if 'A' <= c <= 'Z' then (c as int + 32) as char else c
  }

  /** s.lower(), character by character. */
  function Lower(s: string): (r: string)
    ensures |r| == |s|
    ensures forall i :: 0 <= i < |s| ==> r[i] == LowerChar(s[i])
  {
    if s == [] then [] else [LowerChar(s[0])] + Lower(s[1..])
  }

  /** A lower-cased string holds no upper-case ASCII letter, and lowering it
      again changes nothing. */
  lemma LowerIsLower(s: string)
    ensures forall i :: 0 <= i < |s| ==> !('A' <= Lower(s)[i] <= 'Z')
    ensures Lower(Lower(s)) == Lower(s)
  {
  }

  /** n spaces. */
  function Spaces(n: nat): (r: string)
    ensures |r| == n
    ensures forall i :: 0 <= i < n ==> r[i] == ' '
  {
    if n == 0 then [] else [' '] + Spaces(n - 1)
  }

  /** '%-Ns' % s: s left-justified in a field of width N, never truncated. */
  function PadRight(s: string, width: nat): (r: string)
    ensures |r| == if |s| < width then width else |s|
    ensures r[..|s|] == s
    ensures forall i :: |s| <= i < |r| ==> r[i] == ' '
  {
    if |s| < width then s + Spaces(width - |s|) else s
  }

  /** posixpath.join(a, b): an absolute b replaces a; otherwise b follows a,
      separated by '/' unless a is empty or already ends with '/'. */
  function Join(a: string, b: string): (r: string)
    ensures EndsWith(r, b)
    ensures !StartsWith(b, "/") ==> StartsWith(r, a)
    ensures !StartsWith(b, "/") && a != [] ==> |r| > |b| && r[|r| - |b| - 1] == '/'
    ensures !StartsWith(b, "/") ==> |r| == |a| + |b| + (if a == [] || a[|a| - 1] == '/' then 0 else 1)
    ensures StartsWith(b, "/") ==> r == b
  {
    if StartsWith(b, "/") then b
    else if a == [] || a[|a| - 1] == '/' then a + b
    else a + "/" + b
  }
}
