/** The two Python string operations the chart route relies on: the
    substring test `pat in s` and `s.replace(target, repl)`, together with
    `str.split` / `str.join`, which give an equivalent formulation
    of `replace` (`s.replace(target, repl) == repl.join(s.split(target))`).
 */
module Text {

  /** `p` is a prefix of `s` (Python `s.startswith(p)`). */
  predicate IsPrefix(p: string, s: string) {
    |p| <= |s| && s[..|p|] == p
  }

  /** Python `pat in s`: `pat` occurs somewhere in `s` as a contiguous block. */
  predicate Contains(s: string, pat: string) {
    exists k | 0 <= k <= |s| - |pat| :: OccursAt(s, pat, k)
  }

  /** `pat` occurs in `s` starting at index `k`. */
  predicate OccursAt(s: string, pat: string, k: int) {
    0 <= k <= |s| - |pat| && s[k..k + |pat|] == pat
  }

  /** An occurrence either starts at index 0 or lies entirely in the tail. */
  lemma ContainsCases(s: string, pat: string)
    requires |s| > 0
    ensures Contains(s, pat) <==> IsPrefix(pat, s) || Contains(s[1..], pat)
  {
    if Contains(s, pat) {
      var k :| 0 <= k <= |s| - |pat| && OccursAt(s, pat, k);
      if k > 0 {
        assert s[1..][k - 1..k - 1 + |pat|] == s[k..k + |pat|];
        assert OccursAt(s[1..], pat, k - 1);
      }
    }
    if Contains(s[1..], pat) {
      var k :| 0 <= k <= |s[1..]| - |pat| && OccursAt(s[1..], pat, k);
      assert 0 <= k <= |s[1..]| - |pat| && s[1..][k..k + |pat|] == pat;
      assert s[k + 1..k + 1 + |pat|] == s[1..][k..k + |pat|];
      assert OccursAt(s, pat, k + 1);
    }
    if IsPrefix(pat, s) {
      assert s[0..0 + |pat|] == pat;
      assert OccursAt(s, pat, 0);
    }
  }

  /** Python `s.replace(target, repl)` for a non-empty `target`: one left-to-right
      pass that rewrites every non-overlapping occurrence of `target`. */
  function Replace(s: string, target: string, repl: string): (r: string)
    requires |target| > 0
    ensures !Contains(s, target) ==> r == s
    ensures |repl| <= |target| ==> |r| <= |s|
    ensures |repl| < |target| && Contains(s, target) ==> |r| < |s|
    decreases |s|
  {
    if |s| == 0 then
      []
    else if IsPrefix(target, s) then
      ContainsCases(s, target);
      repl + Replace(s[|target|..], target, repl)
    else
      ContainsCases(s, target);
      [s[0]] + Replace(s[1..], target, repl)
  }

  /** Python `sep.join(parts)`. */
  function Join(parts: seq<string>, sep: string): string {
    if |parts| == 0 then []
    else if |parts| == 1 then parts[0]
    else parts[0] + sep + Join(parts[1..], sep)
  }

  /** Python `s.split(sep)` for a non-empty `sep`, with `cur` the piece
      collected so far; `Split(s, sep) == SplitFrom(s, sep, "")`. */
  function SplitFrom(s: string, sep: string, cur: string): (parts: seq<string>)
    requires |sep| > 0
    ensures |parts| >= 1
    decreases |s|
  {
    if |s| == 0 then [cur]
    else if IsPrefix(sep, s) then [cur] + SplitFrom(s[|sep|..], sep, [])
    else SplitFrom(s[1..], sep, cur + [s[0]])
  }

  function Split(s: string, sep: string): (parts: seq<string>)
    requires |sep| > 0
    ensures |parts| >= 1
  {
    SplitFrom(s, sep, [])
  }

  /** Joining the pieces of a split with the same separator gives back the
      original text, prefixed by the piece already collected. */
  lemma {:induction false} JoinSplitFrom(s: string, sep: string, cur: string)
    requires |sep| > 0
    ensures Join(SplitFrom(s, sep, cur), sep) == cur + s
    decreases |s|
  {
    if |s| == 0 {
    } else if IsPrefix(sep, s) {
      var rest := SplitFrom(s[|sep|..], sep, []);
      JoinSplitFrom(s[|sep|..], sep, []);
      assert ([cur] + rest)[1..] == rest;
      assert s == sep + s[|sep|..];
    } else {
      JoinSplitFrom(s[1..], sep, cur + [s[0]]);
      assert cur + [s[0]] + s[1..] == cur + s;
    }
  }

  /** Round trip: `sep.join(s.split(sep)) == s`. */
  lemma JoinSplit(s: string, sep: string)
    requires |sep| > 0
    ensures Join(Split(s, sep), sep) == s
  {
    JoinSplitFrom(s, sep, []);
  }

  lemma {:induction false} ReplaceIsJoinSplitFrom(s: string, target: string, repl: string, cur: string)
    requires |target| > 0
    ensures Join(SplitFrom(s, target, cur), repl) == cur + Replace(s, target, repl)
    decreases |s|
  {
    if |s| == 0 {
    } else if IsPrefix(target, s) {
      var rest := SplitFrom(s[|target|..], target, []);
      ReplaceIsJoinSplitFrom(s[|target|..], target, repl, []);
      assert ([cur] + rest)[1..] == rest;
    } else {
      ReplaceIsJoinSplitFrom(s[1..], target, repl, cur + [s[0]]);
      assert cur + [s[0]] + Replace(s[1..], target, repl) == cur + ([s[0]] + Replace(s[1..], target, repl));
    }
  }

  /** `s.replace(target, repl) == repl.join(s.split(target))`: the single-pass
      rewrite agrees with the equivalent split/join formulation. */
  lemma ReplaceIsJoinSplit(s: string, target: string, repl: string)
    requires |target| > 0
    ensures Replace(s, target, repl) == Join(Split(s, target), repl)
  {
    ReplaceIsJoinSplitFrom(s, target, repl, []);
  }

  lemma ReplaceInute()
    ensures Replace("inute", "minute", "") == "inute"
  {
    assert !OccursAt("inute", "minute", 0);
  }

  lemma ReplaceMinuteInute()
    ensures Replace("minuteinute", "minute", "") == "inute"
  {
    var t := "minuteinute";
    assert t[..6] == "minute" && t[6..] == "inute";
    ReplaceInute();
  }

  /** Removing occurrences is a single pass: removing "minute" from
      "mminuteinute" leaves "minute" behind. */
  lemma ReplaceIsSinglePass()
    ensures Replace("mminuteinute", "minute", "") == "minute"
    ensures Contains(Replace("mminuteinute", "minute", ""), "minute")
  {
    var s := "mminuteinute";
    assert s[..6][1] != "minute"[1];
    assert s[1..] == "minuteinute";
    ReplaceMinuteInute();
    assert OccursAt("minute", "minute", 0);
  }
}
