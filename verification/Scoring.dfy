/** What candidates, matches and scores are, said of the texts and numbers themselves. */
module Scoring {
  import opened Basics
  import opened Specs
  import opened Profiles
  import opened Selection

  // ----- matching -----

  /** `hay` is `needle` between the two texts. */
  predicate Around(before: string, needle: string, after: string, hay: string) { hay == before + needle + after }

  predicate Slash(c: char) { c == '/' || c == '-' || c == '_' || c == '.' }
  predicate VersionChar(c: char) { c in "0123456789." }

  /** The text before ends, and the text behind begins, with a boundary character or is empty; behind may also be one newline. */
  predicate Apart(boundary: char -> bool, before: string, after: string) {
    && (before == "" || boundary(before[|before| - 1]))
    && (after == "" || after == "\n" || boundary(after[0]))
  }

  predicate FoundAt(boundary: char -> bool, needle: string, hay: string, i: nat) {
    && OccursAt(needle, hay, i) && (i == 0 || boundary(hay[i - 1]))
    && (AtEnd(hay, i + |needle|) || (i + |needle| < |hay| && boundary(hay[i + |needle|])))
  }

  lemma {:induction false} CutAt(boundary: char -> bool, needle: string, hay: string, i: nat)
    requires FoundAt(boundary, needle, hay, i)
    ensures Around(hay[..i], needle, hay[i + |needle|..], hay) && Apart(boundary, hay[..i], hay[i + |needle|..])
  {
    assert hay == hay[..i] + hay[i..i + |needle|] + hay[i + |needle|..];
    if AtEnd(hay, i + |needle|) && i + |needle| < |hay| {
      assert hay[i + |needle|..] == [hay[i + |needle|]];
    }
  }

  lemma {:induction false} AroundMatches(boundary: char -> bool, before: string, needle: string, after: string)
    requires Apart(boundary, before, after)
    ensures Bounded(boundary, needle, before + needle + after)
  {
    var hay, i := before + needle + after, |before|;
    assert hay[i..i + |needle|] == needle;
    assert before != "" ==> hay[i - 1] == before[|before| - 1];
    assert after != "" ==> hay[i + |needle|] == after[0];
    assert OccursAt(needle, hay, i);
  }

  /** The needle stands in the text, apart from what is around it. */
  ghost predicate Stands(boundary: char -> bool, needle: string, hay: string) {
    exists before, after :: Around(before, needle, after, hay) && Apart(boundary, before, after)
  }

  lemma {:induction false} BoundedStands(boundary: char -> bool, needle: string, hay: string)
    requires Bounded(boundary, needle, hay)
    ensures Stands(boundary, needle, hay)
  {
    var i: nat :| i <= |hay| && OccursAt(needle, hay, i) && (i == 0 || boundary(hay[i - 1]))
      && (AtEnd(hay, i + |needle|) || (i + |needle| < |hay| && boundary(hay[i + |needle|])));
    CutAt(boundary, needle, hay, i);
  }

  lemma {:induction false} StandsBounded(boundary: char -> bool, needle: string, hay: string)
    requires Stands(boundary, needle, hay)
    ensures Bounded(boundary, needle, hay)
  {
    var before, after :| Around(before, needle, after, hay) && Apart(boundary, before, after);
    AroundMatches(boundary, before, needle, after);
  }

  lemma {:induction false} BoundedIff(boundary: char -> bool, needle: string, hay: string)
    ensures Bounded(boundary, needle, hay) <==> Stands(boundary, needle, hay)
  {
    if Bounded(boundary, needle, hay) { BoundedStands(boundary, needle, hay); }
    if Stands(boundary, needle, hay) { StandsBounded(boundary, needle, hay); }
  }

  lemma {:induction false} SameBoundary(f: char -> bool, g: char -> bool, needle: string, hay: string)
    requires forall c :: f(c) <==> g(c)
    ensures Stands(f, needle, hay) <==> Stands(g, needle, hay)
  {
    if before, after :| Around(before, needle, after, hay) && Apart(f, before, after) {
      assert Apart(g, before, after);
    }
    if before, after :| Around(before, needle, after, hay) && Apart(g, before, after) {
      assert Apart(f, before, after);
    }
  }

  /** A role matches a name in which it stands between ends, slashes, dashes, underscores and dots. */
  lemma {:induction false} RoleMatchesIff(role: string, name: string)
    ensures RoleMatches(role, name) <==> Stands(Slash, role, name)
  {
    BoundedIff(IsSeparator, role, name);
    SameBoundary(IsSeparator, Slash, role, name);
  }

  /** A CUDA variant matches a tag in which no digit or dot touches it. */
  lemma {:induction false} CudaMatchesIff(variant: string, tag: string)
    ensures CudaMatches(variant, tag) <==> Stands(c => !VersionChar(c), variant, tag)
  {
    BoundedIff(NotVersionChar, variant, tag);
    forall c ensures NotVersionChar(c) <==> !VersionChar(c) {
      if VersionChar(c) {
        var i :| 0 <= i < |"0123456789."| && "0123456789."[i] == c;
      } else {
        assert "0123456789."[0] == '0' && "0123456789."[1] == '1' && "0123456789."[2] == '2' && "0123456789."[3] == '3' && "0123456789."[4] == '4';
        assert "0123456789."[5] == '5' && "0123456789."[6] == '6' && "0123456789."[7] == '7' && "0123456789."[8] == '8' && "0123456789."[9] == '9';
        assert "0123456789."[10] == '.';
      }
    }
    SameBoundary(NotVersionChar, c => !VersionChar(c), variant, tag);
  }

  // ----- tags -----

  /** The first tag that matches the variant. */
  ghost predicate FirstMatch(cuda: string, tags: seq<string>, i: nat) {
    i < |tags| && CudaMatches(cuda, tags[i]) && forall j :: 0 <= j < i ==> !CudaMatches(cuda, tags[j])
  }

  lemma {:induction false} FirstMatchingIs(cuda: string, tags: seq<string>)
    ensures FirstMatching(cuda, tags).None? <==> forall i :: 0 <= i < |tags| ==> !CudaMatches(cuda, tags[i])
    ensures forall i: nat :: FirstMatch(cuda, tags, i) ==> FirstMatching(cuda, tags) == Some(tags[i])
  {
    if tags != [] && !CudaMatches(cuda, tags[0]) {
      FirstMatchingIs(cuda, tags[1..]);
      forall i: nat | FirstMatch(cuda, tags, i) ensures FirstMatching(cuda, tags) == Some(tags[i]) {
        assert forall j :: 0 <= j < i - 1 ==> tags[1..][j] == tags[j + 1];
        assert FirstMatch(cuda, tags[1..], i - 1);
      }
      if forall i :: 0 <= i < |tags| ==> !CudaMatches(cuda, tags[i]) {
        assert forall i :: 0 <= i < |tags[1..]| ==> tags[1..][i] == tags[i + 1];
      }
      if FirstMatching(cuda, tags).None? {
        assert forall i :: 1 <= i < |tags| ==> tags[i] == tags[1..][i - 1];
      }
    }
  }

  /** Some tag of the candidate matches the profile's CUDA variant. */
  ghost predicate HasCudaTag(w: Wanted, c: BaseCandidate) {
    w.cuda != "" && exists i :: 0 <= i < |c.tags| && CudaMatches(w.cuda, c.tags[i])
  }

  /** The chosen tag: the first that matches, without a match the first of all, without tags `latest`. */
  lemma {:induction false} BestTagIs(w: Wanted, c: BaseCandidate)
    ensures c.tags == [] ==> BestTag(w, c) == ("latest", 0)
    ensures c.tags != [] && !HasCudaTag(w, c) ==> BestTag(w, c) == (c.tags[0], 0)
    ensures HasCudaTag(w, c) ==> BestTag(w, c).1 == 50
    ensures forall i: nat :: w.cuda != "" && FirstMatch(w.cuda, c.tags, i) ==> BestTag(w, c).0 == c.tags[i]
  {
    FirstMatchingIs(w.cuda, c.tags);
  }

  // ----- scores -----

  /** A candidate scores its bias, 200 for bearing the role, and 50 for a tag of the CUDA variant. */
  lemma {:induction false} ScoreIs(w: Wanted, c: BaseCandidate)
    ensures Score(w, c) == c.bias + (if RoleMatches(w.role, c.name) then 200 else 0) + (if HasCudaTag(w, c) then 50 else 0)
    ensures Detail(w, c) == Breakdown(c.name, BestTag(w, c).0, c.bias, if RoleMatches(w.role, c.name) then 200 else 0,
                                      if HasCudaTag(w, c) then 50 else 0, Score(w, c))
  {
    BestTagIs(w, c);
  }

  /** Among candidates of one bias the winner bears the role if any does, and then has a CUDA tag if any of those has. */
  lemma {:induction false} RoleThenCuda(w: Wanted, cs: seq<BaseCandidate>, c: BaseCandidate)
    requires c in cs && forall d :: d in cs ==> d.bias == c.bias
    ensures Select(w, cs).Some? && Select(w, cs).value.candidate in cs
    ensures var best := Select(w, cs).value.candidate;
      && (RoleMatches(w.role, c.name) ==> RoleMatches(w.role, best.name))
      && (RoleMatches(w.role, c.name) == RoleMatches(w.role, best.name) && HasCudaTag(w, c) ==> HasCudaTag(w, best))
  {
    var i := SelectPicksWinner(w, cs);
    var j :| 0 <= j < |cs| && cs[j] == c;
    assert Better(w, cs[i], cs[j]) && cs[i] in cs;
    ScoreIs(w, c);
    ScoreIs(w, cs[i]);
  }

  // ----- candidates -----

  predicate CudaProfile(p: Profile) {
    || "cuda" in p.capabilities
    || (p.cuda.Some? && p.cuda.value.major >= 1)
    || Lower(p.runtime) == "nvidia"
  }

  function Overridden(overrides: map<string, string>, key: string): string { if key in overrides then overrides[key] else "" }

  /** An overridden image stands alone; then come the profile's own candidates, and last one of two fixed images. */
  lemma {:induction false} CandidatesAre(p: Profile, overrides: map<string, string>)
    ensures var image, tag := Strip(Overridden(overrides, "base_image")), Overridden(overrides, "base_tag");
      && (image != "" && tag == "" ==> CandidatesFor(p, overrides) == [BaseCandidate(image, ["latest"], 1000)])
      && (image != "" && tag != "" ==> CandidatesFor(p, overrides) == [BaseCandidate(image, [Strip(tag)], 1000)])
      && (image == "" && p.baseCandidates != [] ==> CandidatesFor(p, overrides) == p.baseCandidates)
      && (image == "" && p.baseCandidates == [] && CudaProfile(p) ==>
            CandidatesFor(p, overrides) == [BaseCandidate("nvidia/cuda", ["12.4.1-runtime-ubuntu22.04"], 0)])
      && (image == "" && p.baseCandidates == [] && !CudaProfile(p) ==>
            CandidatesFor(p, overrides) == [BaseCandidate("python", ["3.10-slim"], 0)])
  {
  }
}
