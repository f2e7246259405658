/** `String.prototype.replace` with a string pattern and a string replacement, as
    ECMAScript 2024 (ECMA-262, 15th edition) defines it in section 22.1.3.19, with
    GetSubstitution in section 22.1.3.19.1: only the first occurrence is replaced, and the replacement
    text is a template in which `$$`, `$&`, `` $` `` and `$'` are expanded. */
module StringReplace {
  import opened Common

  /** `pat` occurs in `s` starting at index k. */
  predicate OccursAt(s: string, pat: string, k: int) {
    0 <= k && k + |pat| <= |s| && s[k..k + |pat|] == pat
  }

  /** The first index at or after k where `pat` occurs. */
  function IndexFrom(s: string, pat: string, k: nat): (r: Option<nat>)
    requires k <= |s|
    ensures r.Some? ==> k <= r.value && OccursAt(s, pat, r.value)
    ensures r.Some? ==> forall j :: k <= j < r.value ==> !OccursAt(s, pat, j)
    ensures r.None? ==> forall j :: k <= j ==> !OccursAt(s, pat, j)
    decreases |s| - k
  {
    if OccursAt(s, pat, k) then Some(k)
    else if k == |s| then None
    else IndexFrom(s, pat, k + 1)
  }

  /** `s.indexOf(pat)`, with `None` for -1. */
  function IndexOf(s: string, pat: string): (r: Option<nat>)
    ensures r.Some? ==> OccursAt(s, pat, r.value) && forall j :: 0 <= j < r.value ==> !OccursAt(s, pat, j)
    ensures r.None? <==> forall j :: 0 <= j ==> !OccursAt(s, pat, j)
  {
    IndexFrom(s, pat, 0)
  }

  /** The replacement template expanded for a match `matched` that has `before` to
      its left and `after` to its right. Without capture groups, `$` followed by
      anything else (a digit, `<`, another character, or nothing) stays literal. */
  function Expand(template: string, matched: string, before: string, after: string): (r: string)
    ensures forall c :: c in r ==> c in template || c in matched || c in before || c in after
    decreases |template|
  {
    if template == [] then []
    else if template[0] == '$' && |template| >= 2 && template[1] == '$' then "$" + Expand(template[2..], matched, before, after)
    else if template[0] == '$' && |template| >= 2 && template[1] == '&' then matched + Expand(template[2..], matched, before, after)
    else if template[0] == '$' && |template| >= 2 && template[1] == '`' then before + Expand(template[2..], matched, before, after)
    else if template[0] == '$' && |template| >= 2 && template[1] == '\'' then after + Expand(template[2..], matched, before, after)
    else [template[0]] + Expand(template[1..], matched, before, after)
  }

  /** `s.replace(pat, replacement)` */
  function ReplaceFirst(s: string, pat: string, replacement: string): (r: string)
    ensures IndexOf(s, pat).None? ==> r == s
    ensures IndexOf(s, pat).Some? ==>
      var k := IndexOf(s, pat).value;
      && |r| >= |s| - |pat|
      && r[..k] == s[..k]
      && r[|r| - (|s| - k - |pat|)..] == s[k + |pat|..]
  {
    match IndexOf(s, pat)
    case None => s
    case Some(k) => s[..k] + Expand(replacement, pat, s[..k], s[k + |pat|..]) + s[k + |pat|..]
  }

  /** A replacement without `$` is inserted as it stands. */
  lemma {:induction false} ExpandLiteral(template: string, matched: string, before: string, after: string)
    requires '$' !in template
    ensures Expand(template, matched, before, after) == template
    decreases |template|
  {
    if template != [] {
      assert '$' !in template[1..] by {
        assert forall c :: c in template[1..] ==> c in template;
      }
      ExpandLiteral(template[1..], matched, before, after);
      assert template == [template[0]] + template[1..];
    }
  }

  /** `$$` yields a single `$`, `$&` the matched text, `` $` `` the text before it,
      `$'` the text after it; `$1` stays as written, since there are no capture groups. */
  lemma ExpandSpecials(matched: string, before: string, after: string)
    ensures Expand("$$", matched, before, after) == "$"
    ensures Expand("$&", matched, before, after) == matched
    ensures Expand("$`", matched, before, after) == before
    ensures Expand("$'", matched, before, after) == after
    ensures Expand("$1", matched, before, after) == "$1"
  {
    assert "$$"[2..] == [] && "$&"[2..] == [] && "$`"[2..] == [] && "$'"[2..] == [];
    assert "$1"[1..] == "1" && "1"[1..] == [];
  }

  /** With every character of `a` different from the pattern's first one, the first
      occurrence of the pattern in `a + pat + b` is right after `a`. */
  lemma FirstOccurrence(a: string, pat: string, b: string)
    requires pat != [] && pat[0] !in a
    ensures IndexOf(a + pat + b, pat) == Some(|a|)
  {
    var s := a + pat + b;
    assert s[|a|..|a| + |pat|] == pat;
    assert OccursAt(s, pat, |a|);
    forall j | 0 <= j < |a|
      ensures !OccursAt(s, pat, j)
    {
      assert s[j] == a[j] != pat[0];
    }
  }

  /** Replacing in `a + pat + b`, when the first occurrence is the one after `a`:
      everything outside that occurrence is kept, and it becomes the expanded template. */
  lemma ReplaceAfterPrefix(a: string, pat: string, b: string, replacement: string)
    requires pat != [] && pat[0] !in a
    ensures ReplaceFirst(a + pat + b, pat, replacement) == a + Expand(replacement, pat, a, b) + b
    ensures '$' !in replacement ==> ReplaceFirst(a + pat + b, pat, replacement) == a + replacement + b
  {
    var s := a + pat + b;
    FirstOccurrence(a, pat, b);
    assert s[..|a|] == a;
    assert s[|a| + |pat|..] == b;
    if '$' !in replacement {
      ExpandLiteral(replacement, pat, a, b);
    }
  }

  /** Without an occurrence, replacing changes nothing. */
  lemma ReplaceWithoutOccurrence(s: string, pat: string, replacement: string)
    requires forall j :: 0 <= j ==> !OccursAt(s, pat, j)
    ensures ReplaceFirst(s, pat, replacement) == s
  {
  }

  /** What the call is evidently meant to do: put the replacement text, as it stands,
      in place of the first occurrence. */
  function ReplaceFirstLiterally(s: string, pat: string, replacement: string): (r: string)
    ensures IndexOf(s, pat).None? ==> r == s
    ensures IndexOf(s, pat).Some? ==>
      var k := IndexOf(s, pat).value;
      && |r| == |s| - |pat| + |replacement|
      && r[..k] == s[..k]
      && r[k..k + |replacement|] == replacement
      && r[k + |replacement|..] == s[k + |pat|..]
  {
    match IndexOf(s, pat)
    case None => s
    case Some(k) => s[..k] + replacement + s[k + |pat|..]
  }

  /** The two readings agree whenever the replacement holds no `$`. */
  lemma LiteralAgreesWithoutDollar(s: string, pat: string, replacement: string)
    requires '$' !in replacement
    ensures ReplaceFirst(s, pat, replacement) == ReplaceFirstLiterally(s, pat, replacement)
  {
    match IndexOf(s, pat)
    case None =>
    case Some(k) =>
      ExpandLiteral(replacement, pat, s[..k], s[k + |pat|..]);
  }
}
