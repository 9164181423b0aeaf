/**
 * The Dolby Vision part of the plot's subtitles, taken from the lines that
 * `dovi_tool info -s` prints (already split on '\n' and stripped). Three kinds
 * of line are looked for; for each, the last line that mentions it wins. The
 * profile and DM-version lines are then cleaned with three regular-expression
 * substitutions and joined into one subtitle.
 */
module DoviSummary {
  import opened Wrappers

  const MasteringDisplayTag := "RPU mastering display"
  const ProfileTag := "Profile"
  const DmVersionTag := "DM version"

  /** Python's substring test `pat in s`. */
  predicate Contains(s: string, pat: string)
  {
    exists i | 0 <= i <= |s| - |pat| :: OccursAt(s, pat, i)
  }

  /** `pat` appears in `s` starting at position `i`. */
  predicate OccursAt(s: string, pat: string, i: nat)
  {
    i + |pat| <= |s| && s[i..i + |pat|] == pat
  }

  /** The index of the last line mentioning `pat`, or -1 when no line does. */
  function LastMatch(lines: seq<string>, pat: string): (k: int)
    ensures -1 <= k < |lines|
    ensures k >= 0 ==> Contains(lines[k], pat)
    ensures forall j | k < j < |lines| :: !Contains(lines[j], pat)
  {
    if |lines| == 0 then -1
    else if Contains(lines[|lines| - 1], pat) then |lines| - 1
    else LastMatch(lines[..|lines| - 1], pat)
  }

  /** The line the scan keeps for `pat`: the last one mentioning it, if any. */
  function LastContaining(lines: seq<string>, pat: string): Option<string>
  {
    var k := LastMatch(lines, pat);
    if k < 0 then None else Some(lines[k])
  }

  /**
   * What the scan keeps for a tag: nothing exactly when no line mentions it,
   * and otherwise a line that mentions it and after which no line does.
   */
  lemma LastContainingIsLastMention(lines: seq<string>, pat: string)
    ensures LastContaining(lines, pat).None? <==> forall j | 0 <= j < |lines| :: !Contains(lines[j], pat)
    ensures LastContaining(lines, pat).Some? ==>
              var k := LastMatch(lines, pat);
              0 <= k < |lines| && lines[k] == LastContaining(lines, pat).value && Contains(lines[k], pat)
  {
  }

  /**
   * The loop over the summary lines, overwriting each of the three variables
   * whenever a line mentions its tag.
   */
  method ScanSummary(lines: seq<string>) returns (masteringDisplay: Option<string>, profile: Option<string>, version: Option<string>)
    ensures masteringDisplay == LastContaining(lines, MasteringDisplayTag)
    ensures profile == LastContaining(lines, ProfileTag)
    ensures version == LastContaining(lines, DmVersionTag)
  {
    masteringDisplay, profile, version := None, None, None;
    for i := 0 to |lines|
      invariant masteringDisplay == LastContaining(lines[..i], MasteringDisplayTag)
      invariant profile == LastContaining(lines[..i], ProfileTag)
      invariant version == LastContaining(lines[..i], DmVersionTag)
    {
      assert lines[..i + 1][..i] == lines[..i];
      var line := lines[i];
      if Contains(line, MasteringDisplayTag) {
        masteringDisplay := Some(line);
      }
      if Contains(line, ProfileTag) {
        profile := Some(line);
      }
      if Contains(line, DmVersionTag) {
        version := Some(line);
      }
    }
    assert lines[..|lines|] == lines;
  }

  /**
   * `re.sub(c, "", s)` for a single literal character `c`: every `c` is
   * deleted and nothing else (`RemoveCharCounts`), the kept characters stay
   * in order (`RemoveCharAppend`), and a string without `c` is returned as
   * it is (`RemoveCharAbsent`).
   */
  function RemoveChar(s: string, c: char): (r: string)
    ensures c !in r
  {
    if |s| == 0 then ""
    else
      assert s == [s[0]] + s[1..];
      (if s[0] == c then "" else [s[0]]) + RemoveChar(s[1..], c)
  }

  /**
   * Deleting a character works piece by piece: the deletion from a
   * concatenation is the concatenation of the deletions. With
   * `RemoveCharSingle` this fixes the result, so the characters that are
   * kept keep their order.
   */
  lemma {:induction false} RemoveCharAppend(a: string, b: string, c: char)
    ensures RemoveChar(a + b, c) == RemoveChar(a, c) + RemoveChar(b, c)
    decreases |a|
  {
    if |a| == 0 {
      assert a + b == b;
    } else {
      var head := if a[0] == c then "" else [a[0]];
      var ra, rb := RemoveChar(a[1..], c), RemoveChar(b, c);
      RemoveCharHead(a, c);
      RemoveCharHead(a + b, c);
      assert (a + b)[1..] == a[1..] + b;
      RemoveCharAppend(a[1..], b, c);
      assert head + (ra + rb) == (head + ra) + rb;
    }
  }

  /** A string that does not hold `c` is returned unchanged. */
  lemma {:induction false} RemoveCharAbsent(s: string, c: char)
    ensures c !in s ==> RemoveChar(s, c) == s
    decreases |s|
  {
    if |s| > 0 && c !in s {
      RemoveCharHead(s, c);
      RemoveCharAbsent(s[1..], c);
      assert s == [s[0]] + s[1..];
    }
  }

  /** A single character is kept unless it is `c`. */
  lemma RemoveCharSingle(x: char, c: char)
    ensures RemoveChar([x], c) == if x == c then "" else [x]
  {
    RemoveCharHead([x], c);
    assert [x][1..] == "";
  }

  /** Counted with multiplicity, every `c` is gone and every other character keeps its count. */
  lemma {:induction false} RemoveCharCounts(s: string, c: char)
    ensures multiset(RemoveChar(s, c)) == multiset(s)[c := 0]
    decreases |s|
  {
    if |s| > 0 {
      RemoveCharHead(s, c);
      RemoveCharCounts(s[1..], c);
      assert s == [s[0]] + s[1..];
    }
  }

  /** A character absent from `s` is absent after a deletion too. */
  lemma RemoveCharAddsNothing(s: string, c: char, x: char)
    requires x !in s
    ensures x !in RemoveChar(s, c)
  {
    RemoveCharCounts(s, c);
    assert multiset(s)[x] == 0;
  }

  /** The first character is kept or deleted on its own. */
  lemma RemoveCharHead(s: string, c: char)
    requires |s| > 0
    ensures RemoveChar(s, c) == (if s[0] == c then "" else [s[0]]) + RemoveChar(s[1..], c)
  {
  }

  /** The first position of `c` in `s`, or -1. */
  function IndexOf(s: string, c: char): (k: int)
    ensures -1 <= k < |s|
    ensures k >= 0 ==> s[k] == c
    ensures forall j | 0 <= j < |s| && (k < 0 || j < k) :: s[j] != c
  {
    if |s| == 0 then -1
    else if s[0] == c then 0
    else
      var k := IndexOf(s[1..], c);
      if k < 0 then -1 else k + 1
  }

  /** The last position of `c` in `s`, or -1. */
  function LastIndexOf(s: string, c: char): (k: int)
    ensures -1 <= k < |s|
    ensures k >= 0 ==> s[k] == c
    ensures forall j | k < j < |s| :: s[j] != c
  {
    if |s| == 0 then -1
    else if s[|s| - 1] == c then |s| - 1
    else LastIndexOf(s[..|s| - 1], c)
  }

  /** Within one line, `.*\(` takes everything through the last '('. */
  function DropThroughLastParenInLine(line: string): (r: string)
    ensures |r| <= |line| && r == line[|line| - |r|..]
    ensures '(' !in r
    ensures |r| == |line| || line[|line| - |r| - 1] == '('
  {
    var k := LastIndexOf(line, '(');
    AbsentAfter(line, '(', k);
    line[k + 1..]
  }

  /** A character that occurs at no position after `k` is not in the suffix after `k`. */
  lemma AbsentAfter(s: string, c: char, k: int)
    requires -1 <= k < |s|
    requires forall j | k < j < |s| :: s[j] != c
    ensures c !in s[k + 1..]
  {
  }

  /**
   * `re.sub(r'.*\(', '', s)`. The dot does not match '\n', so every
   * newline-separated segment loses its text through its own last '('.
   */
  function DropThroughLastParen(s: string): (r: string)
    ensures '(' !in r
    decreases |s|
  {
    var nl := IndexOf(s, '\n');
    if nl < 0 then DropThroughLastParenInLine(s)
    else DropThroughLastParenInLine(s[..nl]) + "\n" + DropThroughLastParen(s[nl + 1..])
  }

  /**
   * On a single line (a summary line never holds '\n'), the substitution keeps
   * exactly the text after the last '(', and leaves a line without '(' as it is.
   */
  lemma DropThroughLastParenOnLine(s: string)
    ensures '\n' !in s ==>
              var k := LastIndexOf(s, '(');
              DropThroughLastParen(s) == s[k + 1..] && (k >= 0 ==> s[k] == '(')
    ensures '\n' !in s && '(' !in s ==> DropThroughLastParen(s) == s
  {
    if '\n' !in s {
      assert IndexOf(s, '\n') < 0;
      assert DropThroughLastParen(s) == DropThroughLastParenInLine(s);
    }
  }

  /**
   * The DM-version clean-up: through the last '(' removed, then every ')'
   * removed. On a single line what is left is the text after the last '('
   * without its ')', and a line with neither parenthesis is unchanged.
   */
  function CleanVersion(version: string): (r: string)
    ensures '(' !in r && ')' !in r
    ensures '\n' !in version ==>
              var k := LastIndexOf(version, '(');
              r == RemoveChar(version[k + 1..], ')')
    ensures '\n' !in version && '(' !in version && ')' !in version ==> r == version
  {
    var dropped := DropThroughLastParen(version);
    DropThroughLastParenOnLine(version);
    RemoveCharAddsNothing(dropped, ')', '(');
    RemoveCharAbsent(dropped, ')');
    RemoveChar(dropped, ')')
  }

  const DolbyVisionPrefix := "Dolby Vision "

  /**
   * The first Dolby Vision subtitle, built only when both a profile line and a
   * DM-version line were found.
   */
  function DolbyVisionTitle(profile: Option<string>, version: Option<string>): (r: Option<string>)
  {
    if profile.Some? && version.Some? then
      Some(DolbyVisionPrefix + RemoveChar(profile.value, ':') + ", " + CleanVersion(version.value))
    else None
  }

  /**
   * The title exists exactly when both lines were found. It is "Dolby Vision
   * ", then the profile line stripped of its colons, then ", ", then the
   * cleaned version, which has no parentheses left.
   */
  lemma DolbyVisionTitleShape(profile: Option<string>, version: Option<string>)
    ensures DolbyVisionTitle(profile, version).Some? <==> profile.Some? && version.Some?
    ensures DolbyVisionTitle(profile, version).Some? ==>
              var t := DolbyVisionTitle(profile, version).value;
              var p := RemoveChar(profile.value, ':');
              var v := CleanVersion(version.value);
              var n := |DolbyVisionPrefix|;
              && |t| == n + |p| + 2 + |v|
              && t[..n] == DolbyVisionPrefix
              && t[n..n + |p|] == p && ':' !in p
              && t[n + |p|..n + |p| + 2] == ", "
              && t[n + |p| + 2..] == v && '(' !in v && ')' !in v
  {
    if profile.Some? && version.Some? {
      var p := RemoveChar(profile.value, ':');
      var v := CleanVersion(version.value);
      Joined(DolbyVisionPrefix, p, ", ", v);
    }
  }

  /** Each of four joined strings can be cut back out of the result. */
  lemma Joined(a: string, b: string, c: string, d: string)
    ensures var t := a + b + c + d;
            && |t| == |a| + |b| + |c| + |d|
            && t[..|a|] == a
            && t[|a|..|a| + |b|] == b
            && t[|a| + |b|..|a| + |b| + |c|] == c
            && t[|a| + |b| + |c|..] == d
  {
    var t := a + b + c + d;
    assert t[..|a|] == a;
    assert t[|a|..|a| + |b|] == b;
    assert t[|a| + |b|..|a| + |b| + |c|] == c;
    assert t[|a| + |b| + |c|..] == d;
  }
}
