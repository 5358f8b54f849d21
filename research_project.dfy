/** The repository-name helper of the research-project script (test.py). */
module ResearchProject {
  import opened Wrappers
  import opened Strings

  const Fallback: string := "research-project"
  const MaxNameLength: nat := 50

  /** ASCII `str.lower()` for one character. */
  function Lower(c: char): (d: char)
    ensures 'A' <= c <= 'Z' ==> 'a' <= d <= 'z'
    ensures !('A' <= c <= 'Z') ==> d == c
  {
    if 'A' <= c <= 'Z' then (c as int + 32) as char else c
  }

  /** ASCII `str.isalnum()`: exactly the characters that lower-case to a letter or digit of
      a repository name. */
  predicate IsAlnum(c: char)
    ensures IsAlnum(c) <==> IsSlugChar(Lower(c)) && Lower(c) != '-'
  {
    'a' <= c <= 'z' || 'A' <= c <= 'Z' || '0' <= c <= '9'
  }

  /** A character a sanitized name may hold. */
  predicate IsSlugChar(c: char)
  {
    'a' <= c <= 'z' || '0' <= c <= '9' || c == '-'
  }

  function LowerAll(s: string): (r: string)
    ensures |r| == |s| && forall i | 0 <= i < |s| :: r[i] == Lower(s[i])
  {
    seq(|s|, i requires 0 <= i < |s| => Lower(s[i]))
  }

  /** `''.join(c if c.isalnum() else '-' for c in name)`. */
  function HyphenateAll(s: string): (r: string)
    ensures |r| == |s| && forall i | 0 <= i < |s| :: r[i] == if IsAlnum(s[i]) then s[i] else '-'
  {
    seq(|s|, i requires 0 <= i < |s| => if IsAlnum(s[i]) then s[i] else '-')
  }

  /** `'-'.join(filter(None, name.split('-')))`: runs of '-' become one and '-' at either end
      goes; the result is never longer than the input. */
  function CollapseHyphens(s: string): (r: string)
    ensures |r| <= |s|
    ensures NoStraySep(r, '-')
  {
    var pieces := Split(s, '-');
    var kept := NonEmpty(pieces);
    JoinSplit(s, '-');
    NonEmptyLength(pieces);
    JoinNoStraySep(kept, '-');
    Join(kept, '-')
  }

  /** The first `n` characters, as Python's `s[:n]`. */
  function Prefix(s: string, n: nat): (r: string)
    ensures |r| == if |s| <= n then |s| else n
  {
    if |s| <= n then s else s[..n]
  }

  /** `_sanitize_repo_name`: lowercase, keep the first 50 characters, turn every
      non-alphanumeric character into '-', collapse runs of '-' and trim them at both ends,
      and fall back to "research-project" when nothing is left. Every result is a slug. */
  function SanitizeRepoName(topic: string): (r: string)
    ensures IsSlug(r)
  {
    var h := HyphenateAll(Prefix(LowerAll(topic), MaxNameLength));
    CollapsedIsSlug(h);
    var name := CollapseHyphens(h);
    if name == [] then
      assert forall i | 0 <= i < |Fallback| :: IsSlugChar(Fallback[i]);
      Fallback
    else name
  }

  /** A hyphenated, lower-cased prefix collapses to a slug unless nothing is left. */
  lemma CollapsedIsSlug(h: string)
    requires |h| <= MaxNameLength && forall i | 0 <= i < |h| :: IsSlugChar(h[i])
    ensures CollapseHyphens(h) != [] ==> IsSlug(CollapseHyphens(h))
  {
    var name := CollapseHyphens(h);
    forall i | 0 <= i < |name|
      ensures IsSlugChar(name[i])
    {
      CollapseChars(h, name[i]);
      if name[i] != '-' {
        var j :| 0 <= j < |h| && h[j] == name[i];
      }
    }
  }

  /** What a sanitized name looks like: non-empty, at most 50 characters, only lower-case
      letters, digits and '-', and no '-' at either end or twice in a row. */
  predicate IsSlug(s: string)
  {
    && s != []
    && |s| <= MaxNameLength
    && (forall i | 0 <= i < |s| :: IsSlugChar(s[i]))
    && NoStraySep(s, '-')
  }

  /** `create_research_project` derives the repository name from the topic only when no name
      is given; an explicit name, even an empty one, is used as it is. */
  function RepoNameFor(topic: string, repoName: Option<string>): (r: string)
    ensures repoName.None? ==> r == SanitizeRepoName(topic)
    ensures repoName.Some? ==> r == repoName.value
  {
    match repoName
    case None => SanitizeRepoName(topic)
    case Some(name) => name
  }

  /** The collapse step keeps only characters of its input, and '-'. */
  lemma CollapseChars(s: string, c: char)
    requires c in CollapseHyphens(s)
    ensures c == '-' || c in s
  {
    JoinChars(NonEmpty(Split(s, '-')), '-', c);
    if c != '-' {
      var p :| p in NonEmpty(Split(s, '-')) && c in p;
      SplitChars(s, '-', p, c);
    }
  }

  /** A string already in slug form passes through the collapse step unchanged. */
  lemma CollapseSlug(s: string)
    requires s != [] && NoStraySep(s, '-')
    ensures CollapseHyphens(s) == s
  {
    SplitPiecesNonEmpty(s, '-');
    NonEmptyIdentity(Split(s, '-'));
    JoinSplit(s, '-');
  }

  /** A slug is its own sanitized name. */
  lemma SanitizeFixesSlugs(s: string)
    requires IsSlug(s)
    ensures SanitizeRepoName(s) == s
  {
    assert LowerAll(s) == s;
    assert Prefix(s, MaxNameLength) == s;
    assert HyphenateAll(s) == s;
    CollapseSlug(s);
  }

  /** Sanitizing twice gives the same name as sanitizing once. */
  lemma SanitizeIdempotent(topic: string)
    ensures SanitizeRepoName(SanitizeRepoName(topic)) == SanitizeRepoName(topic)
  {
    SanitizeFixesSlugs(SanitizeRepoName(topic));
  }

  /** Only the first 50 characters of the topic matter. */
  lemma SanitizeReadsPrefix(topic: string, other: string)
    requires Prefix(topic, MaxNameLength) == Prefix(other, MaxNameLength)
    ensures SanitizeRepoName(topic) == SanitizeRepoName(other)
  {
    assert Prefix(LowerAll(topic), MaxNameLength) == LowerAll(Prefix(topic, MaxNameLength));
    assert Prefix(LowerAll(other), MaxNameLength) == LowerAll(Prefix(other, MaxNameLength));
  }
}
