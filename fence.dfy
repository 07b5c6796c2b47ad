/** The regular expression /```json\s*\n([\s\S]*?)\n\s*```/ that both
    response parsers use to find a fenced JSON block. It is written as a
    scan that tries the candidate matches in the order a backtracking regex
    engine does: leftmost opener first, then the longest `\s*` after it,
    then the shortest capture group. `MatchAt` states the pattern itself,
    independently of the scan. */
module Fence {
  import opened Text
  import opened JsValues

  const Opener: string := "```json"
  const Closer: string := "```"

  /** `\n\s*```` matches starting at index `e`. */
  ghost predicate CloseAt(s: string, e: int) {
    0 <= e < |s| && s[e] == '\n' && CloserAfterSpaces(s, e + 1)
  }

  /** `\s*```` matches starting at index `i`. */
  ghost predicate CloserAfterSpaces(s: string, i: int) {
    exists j :: AllSpace(s, i, j) && j + 3 <= |s| && s[j..j + 3] == Closer
  }

  /** The whole pattern matches with its opener at `p` and the capture
      group `s[g..e]`. */
  ghost predicate MatchAt(s: string, p: int, g: int, e: int) {
    0 <= p && p + 7 <= |s| && s[p..p + 7] == Opener
    && p + 7 < g <= e < |s| && AllSpace(s, p + 7, g - 1) && s[g - 1] == '\n'
    && CloseAt(s, e)
  }

  /** The match `(p, g, e)` is the one a backtracking engine reports: no
      match starts further left, and at the same start none has a longer
      `\s*` or, with the same `\s*`, a shorter group. */
  ghost predicate FirstMatch(s: string, p: int, g: int, e: int) {
    forall p', g', e' :: MatchAt(s, p', g', e') ==>
      p < p' || (p == p' && (g' < g || (g' == g && e <= e')))
  }

  /** Deciding `CloseAt` by looking only at the end of the whitespace run:
      the backquote is not whitespace, so `\s*` must take the whole run. */
  predicate CloseHere(s: string, e: nat) {
    e < |s| && s[e] == '\n'
    && var j := SpaceRunEnd(s, e + 1); j + 3 <= |s| && s[j..j + 3] == Closer
  }

  lemma CloseHereIff(s: string, e: nat)
    ensures CloseHere(s, e) <==> CloseAt(s, e)
  {
    if CloseAt(s, e) {
      var j :| AllSpace(s, e + 1, j) && j + 3 <= |s| && s[j..j + 3] == Closer;
      var r := SpaceRunEnd(s, e + 1);
      assert s[j] == '`';
      assert r == j;
    }
    if CloseHere(s, e) {
      var r := SpaceRunEnd(s, e + 1);
      assert AllSpace(s, e + 1, r);
    }
  }

  /** The lazy group: the smallest `e >= from` where the closing part
      matches. */
  function FirstClose(s: string, from: nat): (r: Option<nat>)
    requires from <= |s|
    ensures r.Some? ==> from <= r.value && CloseAt(s, r.value)
                        && forall e :: from <= e < r.value ==> !CloseAt(s, e)
    ensures r.None? ==> forall e :: from <= e ==> !CloseAt(s, e)
    decreases |s| - from
  {
    CloseHereIff(s, from);
    if from == |s| then None
    else if CloseHere(s, from) then Some(from)
    else FirstClose(s, from + 1)
  }

  /** The greedy `\s*` before the `\n`: group starts `k, k-1, ..., lo+1`
      are tried from the largest; a start counts when the character before
      it is `\n` and a closing part follows. */
  function TryGroupStarts(s: string, lo: nat, k: nat): (r: Option<(nat, nat)>)
    requires lo <= k <= |s|
    ensures r.Some? ==> lo < r.value.0 <= k && s[r.value.0 - 1] == '\n'
                        && FirstClose(s, r.value.0) == Some(r.value.1)
                        && forall g :: r.value.0 < g <= k && s[g - 1] == '\n' ==> FirstClose(s, g).None?
    ensures r.None? ==> forall g :: lo < g <= k && s[g - 1] == '\n' ==> FirstClose(s, g).None?
    decreases k
  {
    if k == lo then None
    else
      var here := if s[k - 1] == '\n' then FirstClose(s, k) else None;
      if here.Some? then Some((k, here.value))
      else
        var r := TryGroupStarts(s, lo, k - 1);
        assert forall g :: (if r.Some? then r.value.0 else lo) < g <= k - 1 && s[g - 1] == '\n' ==> FirstClose(s, g).None?;
        r
  }

  /** The pattern anchored at `p`: its preferred `(g, e)`, if any. */
  function MatchFrom(s: string, p: nat): (r: Option<(nat, nat)>)
    requires p <= |s|
    ensures r.Some? ==> MatchAt(s, p, r.value.0, r.value.1)
                        && forall g, e :: MatchAt(s, p, g, e) ==>
                             g < r.value.0 || (g == r.value.0 && r.value.1 <= e)
    ensures r.None? ==> forall g, e :: !MatchAt(s, p, g, e)
  {
    if p + 7 <= |s| && s[p..p + 7] == Opener then
      var w := SpaceRunEnd(s, p + 7);
      var r := TryGroupStarts(s, p + 7, w);
      assert forall g, e :: MatchAt(s, p, g, e) ==> g <= w && FirstClose(s, g).Some? by {
        forall g, e | MatchAt(s, p, g, e) ensures g <= w && FirstClose(s, g).Some? {
          assert AllSpace(s, p + 7, g);
        }
      }
      r
    else
      None
  }

  /** Leftmost opener position `>= p` at which the pattern matches. */
  function SearchFrom(s: string, p: nat): (r: Option<(nat, nat, nat)>)
    requires p <= |s|
    ensures r.Some? ==> p <= r.value.0 <= |s| && MatchFrom(s, r.value.0) == Some((r.value.1, r.value.2))
                        && forall q :: p <= q < r.value.0 ==> MatchFrom(s, q).None?
    ensures r.None? ==> forall q :: p <= q <= |s| ==> MatchFrom(s, q).None?
    decreases |s| - p
  {
    match MatchFrom(s, p)
    case Some((g, e)) => Some((p, g, e))
    case None => if p == |s| then None else SearchFrom(s, p + 1)
  }

  /** `s.match(/```json\s*\n([\s\S]*?)\n\s*```/)?.[1]`: the capture group of
      the match the regex engine reports, and nothing when the pattern
      matches nowhere. */
  function FencedBody(s: string): (r: Option<string>)
    ensures r.None? <==> forall p, g, e :: !MatchAt(s, p, g, e)
    ensures r.Some? ==> exists p, g, e :: MatchAt(s, p, g, e) && FirstMatch(s, p, g, e) && r.value == s[g..e]
  {
    match SearchFrom(s, 0)
    case None =>
      assert forall p, g, e :: !MatchAt(s, p, g, e) by {
        forall p, g, e ensures !MatchAt(s, p, g, e) {
          if 0 <= p <= |s| {
            assert MatchFrom(s, p).None?;
          }
        }
      }
      None
    case Some((p, g, e)) =>
      assert MatchAt(s, p, g, e);
      assert FirstMatch(s, p, g, e) by {
        forall p', g', e'
          ensures MatchAt(s, p', g', e') ==> p < p' || (p == p' && (g' < g || (g' == g && e <= e')))
        {
          if 0 <= p' < p {
            assert MatchFrom(s, p').None?;
          }
        }
      }
      Some(s[g..e])
  }
}
