/** Choosing the base image: candidates, scores, and the two selection procedures. */
module Selection {
  import opened Basics
  import opened Ordering
  import opened Specs
  import opened Profiles

  const ROLE_MATCH_SCORE := 200
  const CUDA_TAG_MATCH_SCORE := 50
  const OVERRIDE_BIAS := 1000

  // ----- candidates -----

  function Lookup(m: map<string, string>, key: string): string { if key in m then m[key] else "" }

  /** `candidates_for`: policy override, then profile, then defaults. */
  function CandidatesFor(p: Profile, overrides: map<string, string>): seq<BaseCandidate> {
    var image, tag := Strip(Lookup(overrides, "base_image")), Lookup(overrides, "base_tag");
    if image != "" then
      [BaseCandidate(image, [if tag != "" then Strip(tag) else "latest"], OVERRIDE_BIAS)]
    else if p.baseCandidates != [] then p.baseCandidates
    else if HasCuda(p) then
      [BaseCandidate("nvidia/cuda", ["12.4.1-runtime-ubuntu22.04"], 0)]
    else [BaseCandidate("python", ["3.10-slim"], 0)]
  }

  // ----- matching -----

  predicate OccursAt(needle: string, hay: string, i: nat) {
    i + |needle| <= |hay| && hay[i..i + |needle|] == needle
  }

  /** The end of the text, where `$` matches: also just before a final newline. */
  predicate AtEnd(hay: string, i: nat) {
    i == |hay| || (i + 1 == |hay| && hay[i] == '\n')
  }

  predicate IsSeparator(c: char) { c in {'/', '-', '_', '.'} }
  predicate NotVersionChar(c: char) { !('0' <= c <= '9') && c != '.' }

  /** `needle` stands in `hay` between ends of the text or boundary characters. */
  predicate Bounded(boundary: char -> bool, needle: string, hay: string) {
    exists i: nat | i <= |hay| ::
      && OccursAt(needle, hay, i)
      && (i == 0 || boundary(hay[i - 1]))
      && (AtEnd(hay, i + |needle|) || (i + |needle| < |hay| && boundary(hay[i + |needle|])))
  }

  predicate RoleMatches(role: string, name: string) { Bounded(IsSeparator, role, name) }
  predicate CudaMatches(variant: string, tag: string) { Bounded(NotVersionChar, variant, tag) }

  // ----- scores -----

  /** What scoring reads: the stack's base role and the profile's CUDA variant ("" without CUDA). */
  datatype Wanted = Wanted(role: string, cuda: string)

  function FirstMatching(cuda: string, tags: seq<string>): Option<string> {
    if tags == [] then None
    else if CudaMatches(cuda, tags[0]) then Some(tags[0])
    else FirstMatching(cuda, tags[1..])
  }

  /** `_pick_best_tag`. */
  function BestTag(w: Wanted, c: BaseCandidate): (string, int) {
    if c.tags == [] then ("latest", 0)
    else
      match if w.cuda != "" then FirstMatching(w.cuda, c.tags) else None
      case Some(tag) => (tag, CUDA_TAG_MATCH_SCORE)
      case None => (c.tags[0], 0)
  }

  function Score(w: Wanted, c: BaseCandidate): int {
    c.bias + (if RoleMatches(w.role, c.name) then ROLE_MATCH_SCORE else 0) + BestTag(w, c).1
  }

  /** Sort key `(-score, name)`. */
  predicate Better(w: Wanted, a: BaseCandidate, b: BaseCandidate) {
    Score(w, a) > Score(w, b) || (Score(w, a) == Score(w, b) && StrLe(a.name, b.name))
  }

  datatype Breakdown = Breakdown(name: string, tag: string, bias: int, roleMatch: int, cudaMatch: int, total: int)

  function Detail(w: Wanted, c: BaseCandidate): Breakdown {
    var roleMatch := if RoleMatches(w.role, c.name) then ROLE_MATCH_SCORE else 0;
    var (tag, cudaMatch) := BestTag(w, c);
    Breakdown(c.name, tag, c.bias, roleMatch, cudaMatch, c.bias + roleMatch + cudaMatch)
  }

  predicate BetterDetail(a: Breakdown, b: Breakdown) {
    a.total > b.total || (a.total == b.total && StrLe(a.name, b.name))
  }

  datatype Choice = Choice(candidate: BaseCandidate, tag: string)

  /** `select_base` on the available candidates. */
  function Select(w: Wanted, cs: seq<BaseCandidate>): Option<Choice> {
    if cs == [] then None
    else
      var sorted := SortBy((a, b) => Better(w, a, b), cs);
      if sorted == [] then None else Some(Choice(sorted[0], BestTag(w, sorted[0]).0))
  }

  function FirstNamed(name: string, cs: seq<BaseCandidate>): Option<BaseCandidate> {
    if cs == [] then None
    else if cs[0].name == name then Some(cs[0])
    else FirstNamed(name, cs[1..])
  }

  /** `select_base_detailed`: sorts breakdowns, then looks the winner up by name. */
  function SelectDetailed(w: Wanted, cs: seq<BaseCandidate>): Option<Choice> {
    if cs == [] then None
    else
      var breakdowns := SortBy(BetterDetail, Map((c: BaseCandidate) => Detail(w, c), cs));
      if breakdowns == [] then None
      else
        match FirstNamed(breakdowns[0].name, cs)
        case None => None
        case Some(best) => Some(Choice(best, BestTag(w, best).0))
  }

  // ----- the loops -----

  method PickBestTag(w: Wanted, c: BaseCandidate) returns (tag: string, score: int)
    ensures (tag, score) == BestTag(w, c)
  {
    if c.tags == [] { return "latest", 0; }
    if w.cuda != "" {
      for i := 0 to |c.tags|
        invariant FirstMatching(w.cuda, c.tags[i..]) == FirstMatching(w.cuda, c.tags)
      {
        if CudaMatches(w.cuda, c.tags[i]) { return c.tags[i], CUDA_TAG_MATCH_SCORE; }
        assert c.tags[i..][1..] == c.tags[i + 1..];
      }
    }
    return c.tags[0], 0;
  }

  method ScoreCandidate(w: Wanted, c: BaseCandidate) returns (score: int)
    ensures score == Score(w, c)
  {
    score := c.bias;
    if RoleMatches(w.role, c.name) { score := score + ROLE_MATCH_SCORE; }
    var _, cudaScore := PickBestTag(w, c);
    score := score + cudaScore;
  }

  // ----- who wins -----

  /** Position `i` holds the first of the least elements. */
  ghost predicate FirstLeast<T>(le: (T, T) -> bool, s: seq<T>, i: nat) {
    && i < |s|
    && (forall j :: 0 <= j < |s| ==> le(s[i], s[j]))
    && (forall j :: 0 <= j < i ==> !le(s[j], s[i]))
  }

  lemma {:induction false} FirstTie<T>(le: (T, T) -> bool, k: T, s: seq<T>) returns (i: nat)
    requires Ties(le, k, s) != []
    ensures i < |s| && s[i] == Ties(le, k, s)[0] && Tied(le, k, s[i])
    ensures forall j :: 0 <= j < i ==> !Tied(le, k, s[j])
  {
    if Tied(le, k, s[0]) {
      i := 0;
    } else {
      var rest := FirstTie(le, k, s[1..]);
      i := rest + 1;
      forall j | 0 <= j < i ensures !Tied(le, k, s[j]) {
        if j > 0 { assert s[j] == s[1..][j - 1]; }
      }
    }
  }

  /** A stable sort puts the first of the least elements in front. */
  lemma {:induction false} SortedHead<T(!new)>(le: (T, T) -> bool, s: seq<T>) returns (i: nat)
    requires Preorder(le) && s != []
    ensures SortBy(le, s) != [] && FirstLeast(le, s, i) && SortBy(le, s)[0] == s[i]
  {
    var sorted := SortBy(le, s);
    SortByMultiset(le, s);
    SortBySorted(le, s);
    assert |sorted| == |multiset(sorted)| == |s|;
    var k := sorted[0];
    SortByTies(le, k, s);
    assert le(k, k);
    assert Ties(le, k, sorted)[0] == k;
    i := FirstTie(le, k, s);
    forall j | 0 <= j < |s| ensures le(s[i], s[j]) {
      assert s[j] in multiset(sorted);
      var n :| 0 <= n < |sorted| && sorted[n] == s[j];
      assert n == 0 || le(sorted[0], sorted[n]);
    }
  }

  lemma {:induction false} BetterOrder(w: Wanted)
    ensures Preorder((a, b) => Better(w, a, b)) && Preorder(BetterDetail)
  {
    StrOrder();
  }

  /** Position `i` holds the first candidate of the highest score and, within it, least name. */
  ghost predicate Wins(w: Wanted, cs: seq<BaseCandidate>, i: nat) {
    && i < |cs|
    && (forall j :: 0 <= j < |cs| ==> Better(w, cs[i], cs[j]))
    && (forall j :: 0 <= j < i ==> !Better(w, cs[j], cs[i]))
  }

  /** Candidates are offered in every case, so neither procedure fails. */
  lemma {:induction false} AlwaysSomeCandidate(p: Profile, overrides: map<string, string>)
    ensures CandidatesFor(p, overrides) != []
  {
  }

  /** `select_base` returns the first candidate of maximal score and least name. */
  lemma {:induction false} SelectPicksWinner(w: Wanted, cs: seq<BaseCandidate>) returns (i: nat)
    requires cs != []
    ensures Wins(w, cs, i) && Select(w, cs) == Some(Choice(cs[i], BestTag(w, cs[i]).0))
  {
    BetterOrder(w);
    i := SortedHead((a, b) => Better(w, a, b), cs);
    forall j | 0 <= j < |cs| ensures Better(w, cs[i], cs[j]) {
      assert ((a, b) => Better(w, a, b))(cs[i], cs[j]);
    }
    forall j | 0 <= j < i ensures !Better(w, cs[j], cs[i]) {
      assert !((a, b) => Better(w, a, b))(cs[j], cs[i]);
    }
  }

  lemma {:induction false} FirstNamedIs(name: string, cs: seq<BaseCandidate>, i: nat) returns (f: nat)
    requires i < |cs| && cs[i].name == name
    ensures f <= i && cs[f].name == name && FirstNamed(name, cs) == Some(cs[f])
    ensures forall j :: 0 <= j < f ==> cs[j].name != name
  {
    if cs[0].name == name {
      f := 0;
    } else {
      var rest := FirstNamedIs(name, cs[1..], i - 1);
      f := rest + 1;
      forall j | 0 <= j < f ensures cs[j].name != name {
        if j > 0 { assert cs[j] == cs[1..][j - 1]; }
      }
    }
  }

  /** `select_base_detailed` returns the first candidate bearing the winner's name. */
  lemma {:induction false} DetailedPicksName(w: Wanted, cs: seq<BaseCandidate>, i: nat) returns (f: nat)
    requires Wins(w, cs, i)
    ensures f <= i && cs[f].name == cs[i].name && (forall j :: 0 <= j < f ==> cs[j].name != cs[i].name)
    ensures SelectDetailed(w, cs) == Some(Choice(cs[f], BestTag(w, cs[f]).0))
  {
    BetterOrder(w);
    StrOrder();
    var details := Map((c: BaseCandidate) => Detail(w, c), cs);
    var n := SortedHead(BetterDetail, details);
    assert BetterDetail(details[n], details[i]) && Better(w, cs[i], cs[n]);
    assert details[n].name == cs[n].name == cs[i].name;
    f := FirstNamedIs(cs[i].name, cs, i);
  }

  ghost predicate Best(w: Wanted, cs: seq<BaseCandidate>, c: BaseCandidate) {
    c in cs && forall d :: d in cs ==> Better(w, c, d)
  }

  /** Some best candidate is the first to bear its name. */
  ghost predicate BestLeadsItsName(w: Wanted, cs: seq<BaseCandidate>) {
    exists f :: 0 <= f < |cs| && Best(w, cs, cs[f]) && forall j :: 0 <= j < f ==> cs[j].name != cs[f].name
  }

  /** The two procedures agree exactly when a best candidate is the first to bear its name. */
  lemma {:induction false} SelectionsAgreeIff(w: Wanted, cs: seq<BaseCandidate>)
    requires cs != []
    ensures Select(w, cs) == SelectDetailed(w, cs) <==> BestLeadsItsName(w, cs)
  {
    StrOrder();
    var i := SelectPicksWinner(w, cs);
    var f := DetailedPicksName(w, cs, i);
    if f == i {
      WinnerIsBest(w, cs, i);
    } else {
      assert !Better(w, cs[f], cs[i]);
      assert !Best(w, cs, cs[f]);
      forall g | 0 <= g < |cs| && Best(w, cs, cs[g]) ensures exists j :: 0 <= j < g && cs[j].name == cs[g].name {
        assert Better(w, cs[g], cs[i]) && Better(w, cs[i], cs[g]);
        assert cs[f].name == cs[g].name && f < g;
      }
      assert Score(w, cs[f]) != Score(w, cs[i]);
    }
  }

  /** Distinct names are enough for agreement. */
  lemma {:induction false} DistinctNamesAgree(w: Wanted, cs: seq<BaseCandidate>)
    requires cs != [] && Distinct(Map((c: BaseCandidate) => c.name, cs))
    ensures Select(w, cs) == SelectDetailed(w, cs)
  {
    var i := SelectPicksWinner(w, cs);
    var names := Map((c: BaseCandidate) => c.name, cs);
    WinnerIsBest(w, cs, i);
    assert forall j :: 0 <= j < i ==> names[j] != names[i];
    SelectionsAgreeIff(w, cs);
  }

  ghost predicate SelectionOrderFree(w: Wanted, cs: seq<BaseCandidate>) {
    forall ds :: multiset(ds) == multiset(cs) ==> Select(w, ds) == Select(w, cs)
  }

  lemma {:induction false} BestInFront(w: Wanted, c: BaseCandidate, rest: seq<BaseCandidate>)
    requires Best(w, [c] + rest, c)
    ensures Select(w, [c] + rest).Some? && Select(w, [c] + rest).value.candidate == c
  {
    var cs := [c] + rest;
    var i := SelectPicksWinner(w, cs);
    assert cs[0] == c && cs[i] in cs && Better(w, c, cs[i]);
  }

  lemma {:induction false} BestMovedInFront(w: Wanted, cs: seq<BaseCandidate>, c: BaseCandidate, other: BaseCandidate, rest: seq<BaseCandidate>)
    requires Best(w, cs, c) && multiset([c, other] + rest) == multiset(cs)
    ensures Select(w, [c, other] + rest).Some? && Select(w, [c, other] + rest).value.candidate == c
  {
    var tail := [other] + rest;
    assert [c] + tail == [c, other] + rest;
    SameMembers([c] + tail, cs);
    BestInFront(w, c, tail);
  }

  lemma {:induction false} TwoBestShowOrder(w: Wanted, cs: seq<BaseCandidate>, a: BaseCandidate, b: BaseCandidate)
    requires Best(w, cs, a) && Best(w, cs, b) && a != b
    ensures !SelectionOrderFree(w, cs)
  {
    var rest := PairFirst(cs, a, b);
    assert multiset([b, a] + rest) == multiset([a, b] + rest);
    BestMovedInFront(w, cs, a, b, rest);
    BestMovedInFront(w, cs, b, a, rest);
    assert Select(w, [a, b] + rest) != Select(w, [b, a] + rest);
  }

  lemma {:induction false} SameBest(w: Wanted, cs: seq<BaseCandidate>, ds: seq<BaseCandidate>)
    requires cs != [] && multiset(ds) == multiset(cs)
    requires forall a, b :: Best(w, cs, a) && Best(w, cs, b) ==> a == b
    ensures Select(w, ds) == Select(w, cs)
  {
    SameMembers(ds, cs);
    assert |ds| == |multiset(ds)| == |cs|;
    var i := SelectPicksWinner(w, ds);
    var j := SelectPicksWinner(w, cs);
    WinnerIsBest(w, ds, i);
    WinnerIsBest(w, cs, j);
    assert Best(w, cs, ds[i]);
  }

  lemma {:induction false} WinnerIsBest(w: Wanted, cs: seq<BaseCandidate>, i: nat)
    requires Wins(w, cs, i)
    ensures Best(w, cs, cs[i])
  {
    forall d | d in cs ensures Better(w, cs[i], d) {
      var k :| 0 <= k < |cs| && cs[k] == d;
    }
  }

  /** The order of the candidates is immaterial exactly when the best ones are all the same. */
  lemma {:induction false} SelectionOrderFreeIff(w: Wanted, cs: seq<BaseCandidate>)
    requires cs != []
    ensures SelectionOrderFree(w, cs) <==> forall a, b :: Best(w, cs, a) && Best(w, cs, b) ==> a == b
  {
    if a, b :| Best(w, cs, a) && Best(w, cs, b) && a != b {
      TwoBestShowOrder(w, cs, a, b);
    } else {
      forall ds | multiset(ds) == multiset(cs) ensures Select(w, ds) == Select(w, cs) {
        SameBest(w, cs, ds);
      }
    }
  }

  lemma {:induction false} SameMembers<T>(a: seq<T>, b: seq<T>)
    requires multiset(a) == multiset(b)
    ensures forall x :: x in a <==> x in b
  {
    assert forall x :: x in a <==> x in multiset(a);
    assert forall x :: x in b <==> x in multiset(b);
  }

  /** With one name listed twice the two procedures return different images. */
  lemma {:induction false} DuplicateNamesDiffer(role: string)
    ensures var cs := [BaseCandidate("base", ["old"], 0), BaseCandidate("base", ["new"], 5)];
      Select(Wanted(role, ""), cs) != SelectDetailed(Wanted(role, ""), cs)
  {
    var cs := [BaseCandidate("base", ["old"], 0), BaseCandidate("base", ["new"], 5)];
    var w := Wanted(role, "");
    assert Score(w, cs[0]) < Score(w, cs[1]);
    assert !Better(w, cs[0], cs[1]);
    SelectionsAgreeIff(w, cs);
  }
}
