/** `extract_kaggle_slug(path_or_url)`: the `owner/dataset` part of a Kaggle
    reference, found by two regular expressions. Python's `\w` is taken over
    ASCII: letters, digits and `_`; the character class adds `-`. */
module FileUtils {
  import opened Wrappers
  import opened Strings

  /** `[\w\-]` */
  predicate IsWordChar(c: char) {
    'a' <= c <= 'z' || 'A' <= c <= 'Z' || '0' <= c <= '9' || c == '_' || c == '-'
  }

  /** `[\w\-]+` matches all of `w`. */
  predicate IsWordRun(w: string) {
    |w| > 0 && forall i | 0 <= i < |w| :: IsWordChar(w[i])
  }

  /** `[\w\-]+/[\w\-]+` matches all of `t`. */
  predicate IsSlug(t: string) {
    exists k | 0 < k < |t| :: t[k] == '/' && IsWordRun(t[..k]) && IsWordRun(t[k + 1..])
  }

  /** Where the slug group can start: the first character of `s[q..]` not
      shaped like a slug, or the greedy `[\w\-]+/[\w\-]+` match at `q`. */
  function SlugAt(s: string, q: nat): (r: Option<string>)
    requires q <= |s|
    ensures r.Some? ==> IsSlug(r.value) && q + |r.value| <= |s| && s[q..q + |r.value|] == r.value
    ensures r.Some? ==> q + |r.value| == |s| || !IsWordChar(s[q + |r.value|])
  {
    var n1 := Span(s[q..], IsWordChar);
    if n1 == 0 || q + n1 == |s| || s[q + n1] != '/' then None
    else
      var n2 := Span(s[q + n1 + 1..], IsWordChar);
      if n2 == 0 then None
      else
        var t := s[q..q + n1 + 1 + n2];
        assert t[..n1] == s[q..][..n1] && t[n1 + 1..] == s[q + n1 + 1..][..n2];
        Some(t)
  }

  const ColonPrefix := "kaggle:"
  const SitePrefix := "kaggle.com/"
  const DatasetsPrefix := "datasets/"

  /** The whole first pattern tried at position `p`: `kaggle:` then a slug;
      else `kaggle.com/`, then `datasets/` and a slug, else (backtracking
      over the optional group) a slug straight after `kaggle.com/`. */
  function MatchAt(s: string, p: nat): (r: Option<string>)
    requires p <= |s|
    ensures r.Some? ==> IsSlug(r.value)
    ensures r.Some? ==> StartsWith(s[p..], ColonPrefix) || StartsWith(s[p..], SitePrefix)
    ensures StartsWith(s[p..], ColonPrefix) ==> r == SlugAt(s, p + 7)
    ensures StartsWith(s[p..], SitePrefix) && StartsWith(s[p + 11..], DatasetsPrefix) && SlugAt(s, p + 20).Some? ==>
      r == SlugAt(s, p + 20)
    ensures StartsWith(s[p..], SitePrefix) && !(StartsWith(s[p + 11..], DatasetsPrefix) && SlugAt(s, p + 20).Some?) ==>
      r == SlugAt(s, p + 11)
  {
    PrefixMarks(s, p);
    var viaColon := if StartsWith(s[p..], ColonPrefix) then SlugAt(s, p + 7) else None;
    if viaColon.Some? then viaColon
    else if StartsWith(s[p..], SitePrefix) then
      var viaDatasets :=
        if StartsWith(s[p + 11..], DatasetsPrefix) then SlugAt(s, p + 20) else None;
      if viaDatasets.Some? then viaDatasets else SlugAt(s, p + 11)
    else None
  }

  /** `re.search`: the leftmost position from `p` on where the pattern matches. */
  function LeftmostMatch(s: string, p: nat): (r: Option<nat>)
    requires p <= |s|
    ensures r.Some? ==> p <= r.value <= |s| && MatchAt(s, r.value).Some?
    ensures r.Some? ==> forall j | p <= j < r.value :: MatchAt(s, j).None?
    ensures r.None? ==> forall j | p <= j <= |s| :: MatchAt(s, j).None?
    decreases |s| - p
  {
    if MatchAt(s, p).Some? then Some(p)
    else if p == |s| then None
    else LeftmostMatch(s, p + 1)
  }

  /** `extract_kaggle_slug(path_or_url)`: the slug after the leftmost Kaggle
      prefix; failing that, the whole stripped input when it is a bare slug;
      failing that, `None`. */
  function ExtractKaggleSlug(s: string): (r: Option<string>)
    ensures r.Some? ==> IsSlug(r.value)
    ensures r.None? <==> (forall i | 0 <= i <= |s| :: MatchAt(s, i).None?) && !IsSlug(Strip(s))
    ensures (forall i | 0 <= i <= |s| :: MatchAt(s, i).None?) && IsSlug(Strip(s)) ==> r == Some(Strip(s))
  {
    match LeftmostMatch(s, 0)
    case Some(i) => MatchAt(s, i)
    case None => if IsSlug(Strip(s)) then Some(Strip(s)) else None
  }

  // ---------------------------------------------------------------------------
  // Properties

  /** The first pattern wins at its leftmost match, whatever the rest of
      the string holds. */
  lemma LeftmostWins(s: string, i: nat)
    requires i <= |s| && MatchAt(s, i).Some?
    requires forall j | 0 <= j < i :: MatchAt(s, j).None?
    ensures ExtractKaggleSlug(s) == MatchAt(s, i)
  {
    LeftmostFrom(s, 0, i);
  }

  lemma {:induction false} LeftmostFrom(s: string, p: nat, i: nat)
    requires p <= i <= |s| && MatchAt(s, i).Some?
    requires forall j | p <= j < i :: MatchAt(s, j).None?
    ensures LeftmostMatch(s, p) == Some(i)
    decreases i - p
  {
    if p < i {
      LeftmostFrom(s, p + 1, i);
    }
  }

  /** A returned slug holds exactly one "/". */
  lemma SlugHasOneSlash(t: string)
    requires IsSlug(t)
    ensures Occurrences(t, '/') == 1
  {
    var k :| 0 < k < |t| && t[k] == '/' && IsWordRun(t[..k]) && IsWordRun(t[k + 1..]);
    var owner, rest := t[..k], t[k..];
    NoSlashInRun(owner);
    NoSlashInRun(t[k + 1..]);
    assert t == owner + rest;
    OccurrencesAppend(owner, rest, '/');
    assert rest[0] == '/' && rest[1..] == t[k + 1..];
  }

  lemma NoSlashInRun(w: string)
    requires IsWordRun(w)
    ensures Occurrences(w, '/') == 0
  {
    forall i | 0 <= i < |w|
      ensures w[i] != '/'
    {
      assert IsWordChar(w[i]);
    }
  }

  /** Every result, from either pattern, is `owner/name` with one "/". */
  lemma ResultHasOneSlash(s: string)
    requires ExtractKaggleSlug(s).Some?
    ensures Occurrences(ExtractKaggleSlug(s).value, '/') == 1
  {
    SlugHasOneSlash(ExtractKaggleSlug(s).value);
  }

  /** The slug match at `q` takes a whole `owner/name` that ends at a
      non-word character or the end of the string. */
  lemma SlugAtJoin(s: string, q: nat, o: string, n: string)
    requires IsWordRun(o) && IsWordRun(n)
    requires q + |o| + 1 + |n| <= |s| && s[q..q + |o| + 1 + |n|] == o + "/" + n
    requires q + |o| + 1 + |n| == |s| || !IsWordChar(s[q + |o| + 1 + |n|])
    ensures SlugAt(s, q) == Some(o + "/" + n)
  {
    var m := q + |o| + 1 + |n|;
    SlugPieces(s, q, o, n);
    RunAt(s, q, o);
    RunAt(s, q + |o| + 1, n);
    var n1 := Span(s[q..], IsWordChar);
    assert n1 == |o| && q + n1 < |s| && s[q + n1] == '/';
    var n2 := Span(s[q + n1 + 1..], IsWordChar);
    assert n2 == |n| && q + n1 + 1 + n2 == m;
  }

  /** Where `owner/name` sits in `s`, its owner, slash and name sit too. */
  lemma SlugPieces(s: string, q: nat, o: string, n: string)
    requires q + |o| + 1 + |n| <= |s| && s[q..q + |o| + 1 + |n|] == o + "/" + n
    ensures s[q..q + |o|] == o && s[q + |o|] == '/'
    ensures s[q + |o| + 1..q + |o| + 1 + |n|] == n
  {
    var m, t := q + |o| + 1 + |n|, o + "/" + n;
    assert s[q..q + |o|] == s[q..m][..|o|] == t[..|o|] == o;
    assert s[q + |o|] == s[q..m][|o|] == t[|o|];
    assert s[q + |o| + 1..m] == s[q..m][|o| + 1..] == t[|o| + 1..] == n;
  }

  /** A run `w` of word characters at `q`, not followed by another word
      character: the greedy span from `q` covers exactly `w`. */
  lemma RunAt(s: string, q: nat, w: string)
    requires IsWordRun(w) && q + |w| <= |s| && s[q..q + |w|] == w
    requires q + |w| == |s| || !IsWordChar(s[q + |w|])
    ensures Span(s[q..], IsWordChar) == |w|
  {
    forall i | 0 <= i < |w|
      ensures IsWordChar(s[q..][i])
    {
      assert s[q..][i] == s[q..q + |w|][i];
    }
    SpanOfRun(s[q..], |w|);
  }

  /** The greedy span over a run of `k` word characters followed by a
      non-word character or the end is `k`. */
  lemma {:induction false} SpanOfRun(s: string, k: nat)
    requires k <= |s| && forall i | 0 <= i < k :: IsWordChar(s[i])
    requires k == |s| || !IsWordChar(s[k])
    ensures Span(s, IsWordChar) == k
  {
    if k > 0 {
      SpanOfRun(s[1..], k - 1);
    }
  }

  /** `kaggle:owner/name` gives `owner/name`. */
  lemma ColonForm(o: string, n: string)
    requires IsWordRun(o) && IsWordRun(n)
    ensures ExtractKaggleSlug(ColonPrefix + o + "/" + n) == Some(o + "/" + n)
  {
    var s := ColonPrefix + o + "/" + n;
    assert s[..7] == ColonPrefix;
    assert s[7..] == o + "/" + n;
    SlugAtJoin(s, 7, o, n);
  }

  /** A string opening with `kaggle.com/` has no `kaggle:` there. */
  lemma SiteStart(rest: string)
    ensures StartsWith(SitePrefix + rest, SitePrefix)
    ensures !StartsWith(SitePrefix + rest, ColonPrefix)
    ensures (SitePrefix + rest)[11..] == rest
  {
    assert (SitePrefix + rest)[6] == '.';
    assert (SitePrefix + rest)[..11] == SitePrefix;
  }

  lemma DatasetsStart(rest: string)
    ensures StartsWith(DatasetsPrefix + rest, DatasetsPrefix)
    ensures (DatasetsPrefix + rest)[9..] == rest
  {
    assert (DatasetsPrefix + rest)[..9] == DatasetsPrefix;
  }

  /** `kaggle.com/datasets/owner/name` gives `owner/name`. */
  lemma DatasetsForm(o: string, n: string)
    requires IsWordRun(o) && IsWordRun(n)
    ensures ExtractKaggleSlug(SitePrefix + (DatasetsPrefix + (o + "/" + n))) == Some(o + "/" + n)
  {
    var slug := o + "/" + n;
    var rest := DatasetsPrefix + slug;
    var s := SitePrefix + rest;
    SiteStart(rest);
    DatasetsStart(slug);
    assert s[0..] == s;
    assert s[20..] == slug;
    SlugAtJoin(s, 20, o, n);
    assert MatchAt(s, 0) == Some(slug);
  }

  /** `kaggle.com/datasets/name`, with no owner, backtracks over the optional
      `datasets/` and gives `datasets/name`. */
  lemma DatasetsBacktrack(n: string)
    requires IsWordRun(n)
    ensures ExtractKaggleSlug(SitePrefix + (DatasetsPrefix + n)) == Some(DatasetsPrefix + n)
  {
    var rest := DatasetsPrefix + n;
    var s := SitePrefix + rest;
    SiteStart(rest);
    DatasetsStart(n);
    assert s[0..] == s;
    assert s[20..] == n;
    SpanOfRun(s[20..], |n|);
    assert SlugAt(s, 20).None?;
    var o := "datasets";
    assert IsWordRun(o);
    assert rest == o + "/" + n;
    SlugAtJoin(s, 11, o, n);
    assert MatchAt(s, 0) == Some(rest);
  }

  /** Each Kaggle prefix holds a character no slug has, at offset 6. */
  lemma PrefixMarks(s: string, i: nat)
    requires i <= |s|
    ensures StartsWith(s[i..], ColonPrefix) ==> i + 6 < |s| && s[i + 6] == ':'
    ensures StartsWith(s[i..], SitePrefix) ==> i + 6 < |s| && s[i + 6] == '.'
  {
  }

  lemma SlugChars(t: string)
    requires IsSlug(t)
    ensures forall j | 0 <= j < |t| :: IsWordChar(t[j]) || t[j] == '/'
  {
    var k :| 0 < k < |t| && t[k] == '/' && IsWordRun(t[..k]) && IsWordRun(t[k + 1..]);
    forall j | 0 <= j < |t|
      ensures IsWordChar(t[j]) || t[j] == '/'
    {
      if j < k {
        assert t[..k][j] == t[j];
      } else if j > k {
        assert t[k + 1..][j - k - 1] == t[j];
      }
    }
  }

  /** No Kaggle prefix starts anywhere inside a string of slug characters. */
  lemma NoPrefixAt(t: string, i: nat)
    requires i <= |t|
    requires forall j | 0 <= j < |t| :: IsWordChar(t[j]) || t[j] == '/'
    ensures MatchAt(t, i).None?
  {
    PrefixMarks(t, i);
  }

  /** A bare `owner/name` is returned unchanged: it holds neither ":" nor
      ".", so no Kaggle prefix occurs in it. */
  lemma BareSlug(t: string)
    requires IsSlug(t)
    ensures ExtractKaggleSlug(t) == Some(t)
  {
    SlugChars(t);
    forall i | 0 <= i <= |t|
      ensures MatchAt(t, i).None?
    {
      NoPrefixAt(t, i);
    }
    StripTrimmed(t);
  }
}
