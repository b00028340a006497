/** The two JavaScript string operations the server uses to build upstream
    URLs: `indexOf` and `String.prototype.replace` with a string (not a
    regular expression) as the pattern. */
module JsStrings {
  import opened Wrappers

  /** `p` occurs in `s` starting at position `i`. */
  predicate OccursAt(s: string, p: string, i: nat) {
    i + |p| <= |s| && s[i..i + |p|] == p
  }

  /** The first occurrence of `p` in `s` at or after `from`. */
  function IndexFrom(s: string, p: string, from: nat): (r: Option<nat>)
    requires from <= |s|
    ensures r.Some? ==> from <= r.value && OccursAt(s, p, r.value)
    ensures r.Some? ==> forall j :: from <= j < r.value ==> !OccursAt(s, p, j)
    ensures r.None? ==> forall j :: from <= j <= |s| ==> !OccursAt(s, p, j)
    decreases |s| - from
  {
    if from + |p| > |s| then None
    else if s[from..from + |p|] == p then Some(from)
    else IndexFrom(s, p, from + 1)
  }

  /** `s.indexOf(p)`, with `None` for JavaScript's -1. */
  function IndexOf(s: string, p: string): (r: Option<nat>)
    ensures r.Some? ==> OccursAt(s, p, r.value) && forall j :: 0 <= j < r.value ==> !OccursAt(s, p, j)
    ensures r.None? <==> forall j :: 0 <= j <= |s| ==> !OccursAt(s, p, j)
  {
    IndexFrom(s, p, 0)
  }

  /** The replacement text for one match, as the GetSubstitution operation
      of ECMA-262 builds it when the pattern is a string (so there are no
      capture groups): `$$` gives `$`, `$&` the matched text, `` $` `` the
      text before the match, `$'` the text after it; every other
      character, a `$` among them, is copied. */
  function Substitution(rep: string, matched: string, before: string, after: string): (r: string)
    ensures '$' !in rep ==> r == rep
    decreases |rep|
  {
    if rep == [] then []
    else if |rep| >= 2 && rep[0] == '$' && rep[1] == '$' then "$" + Substitution(rep[2..], matched, before, after)
    else if |rep| >= 2 && rep[0] == '$' && rep[1] == '&' then matched + Substitution(rep[2..], matched, before, after)
    else if |rep| >= 2 && rep[0] == '$' && rep[1] == '`' then before + Substitution(rep[2..], matched, before, after)
    else if |rep| >= 2 && rep[0] == '$' && rep[1] == '\'' then after + Substitution(rep[2..], matched, before, after)
    else [rep[0]] + Substitution(rep[1..], matched, before, after)
  }

  /** Each two-character `$` pattern at the head of a replacement text
      produces its own piece and leaves the rest of the text to be read
      after it; a lone `$` is copied. */
  lemma DollarPatterns(rest: string, matched: string, before: string, after: string)
    ensures Substitution("$$" + rest, matched, before, after) == "$" + Substitution(rest, matched, before, after)
    ensures Substitution("$&" + rest, matched, before, after) == matched + Substitution(rest, matched, before, after)
    ensures Substitution("$`" + rest, matched, before, after) == before + Substitution(rest, matched, before, after)
    ensures Substitution("$'" + rest, matched, before, after) == after + Substitution(rest, matched, before, after)
    ensures Substitution("$", matched, before, after) == "$"
  {
    assert ("$$" + rest)[2..] == rest;
    assert ("$&" + rest)[2..] == rest;
    assert ("$`" + rest)[2..] == rest;
    assert ("$'" + rest)[2..] == rest;
  }

  /** A `$` followed by any character other than `$`, `&`, `` ` `` or `'`
      is copied together with that character. */
  lemma DollarOther(c: char, rest: string, matched: string, before: string, after: string)
    requires c != '$' && c != '&' && c != '`' && c != '\''
    ensures Substitution(['$', c] + rest, matched, before, after) == ['$', c] + Substitution(rest, matched, before, after)
  {
    var rep := ['$', c] + rest;
    var tail := [c] + rest;
    assert rep[1..] == tail;
    assert tail[1..] == rest;
    assert Substitution(tail, matched, before, after) == [c] + Substitution(rest, matched, before, after);
    assert Substitution(rep, matched, before, after) == ['$'] + Substitution(tail, matched, before, after);
  }

  /** `s.replace(pat, rep)` with a string pattern: only the FIRST occurrence
      of `pat` is replaced; without one, `s` is returned unchanged. */
  function Replace(s: string, pat: string, rep: string): (r: string)
    ensures IndexOf(s, pat).None? ==> r == s
    ensures IndexOf(s, pat).Some? ==>
      var i := IndexOf(s, pat).value;
      var tail := s[i + |pat|..];
      && |r| >= i + |tail| && r[..i] == s[..i] && r[|r| - |tail|..] == tail
  {
    match IndexOf(s, pat)
    case None => s
    case Some(i) =>
      s[..i] + Substitution(rep, pat, s[..i], s[i + |pat|..]) + s[i + |pat|..]
  }

  lemma Associative(x: string, y: string, z: string)
    ensures x + (y + z) == x + y + z
  {
  }

  /** When the text before a placeholder holds no `{` and the placeholder
      starts with `{`, the placeholder's first occurrence is the one right
      after that text. */
  lemma FirstPlaceholder(prefix: string, pat: string, rest: string)
    requires |pat| > 0 && pat[0] == '{' && '{' !in prefix
    ensures IndexOf(prefix + pat + rest, pat) == Some(|prefix|)
  {
    var s := prefix + pat + rest;
    assert s[|prefix|..|prefix| + |pat|] == pat;
    assert OccursAt(s, pat, |prefix|);
    forall j | 0 <= j < |prefix|
      ensures !OccursAt(s, pat, j)
    {
      assert s[j] == prefix[j] != '{';
    }
  }

  /** `Replace` on a template whose placeholder is preceded by `{`-free text,
      with a `$`-free replacement: the placeholder is swapped for the
      replacement and nothing else changes. */
  lemma ReplacePlaceholder(prefix: string, pat: string, rest: string, rep: string)
    requires |pat| > 0 && pat[0] == '{' && '{' !in prefix && '$' !in rep
    ensures Replace(prefix + pat + rest, pat, rep) == prefix + rep + rest
  {
    var s := prefix + pat + rest;
    FirstPlaceholder(prefix, pat, rest);
    assert s[..|prefix|] == prefix;
    assert s[|prefix| + |pat|..] == rest;
  }

  /** The replacement `$&` puts the matched placeholder back: a parameter
      spelled `$&` leaves the template unchanged. */
  lemma DollarAmpersandKeepsPlaceholder(prefix: string, pat: string, rest: string)
    requires |pat| > 0 && pat[0] == '{' && '{' !in prefix
    ensures Replace(prefix + pat + rest, pat, "$&") == prefix + pat + rest
  {
    var s := prefix + pat + rest;
    FirstPlaceholder(prefix, pat, rest);
    assert s[..|prefix|] == prefix;
    assert s[|prefix| + |pat|..] == rest;
    var middle := Substitution("$&", pat, prefix, rest);
    assert middle == pat + Substitution("", pat, prefix, rest);
    assert Replace(s, pat, "$&") == prefix + middle + rest;
  }

  /** A pattern that does not occur leaves the string unchanged. */
  lemma ReplaceAbsent(s: string, pat: string, rep: string)
    requires forall j :: 0 <= j <= |s| ==> !OccursAt(s, pat, j)
    ensures Replace(s, pat, rep) == s
  {
  }
}
