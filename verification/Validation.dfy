/** What the specification validators accept, and what they make of it. */
module Validation {
  import opened Basics
  import opened Specs
  import opened Profiles

  // ----- texts -----

  predicate Blank(s: string) { forall c :: c in s ==> IsSpace(c) }

  /** It neither begins nor ends with whitespace. */
  predicate Trimmed(s: string) { s == "" || (!IsSpace(s[0]) && !IsSpace(s[|s| - 1])) }

  lemma {:induction false} LStripOf(before: string, rest: string)
    requires Blank(before) && (rest == "" || !IsSpace(rest[0]))
    ensures LStrip(before + rest) == rest
  {
    if before == "" {
      assert before + rest == rest;
    } else {
      assert before[0] in before && (before + rest)[1..] == before[1..] + rest;
      LStripOf(before[1..], rest);
    }
  }

  lemma {:induction false} RStripOf(core: string, after: string)
    requires Blank(after) && (core == "" || !IsSpace(core[|core| - 1]))
    ensures RStrip(core + after) == core
  {
    if after == "" {
      assert core + after == core;
    } else {
      var n := |after| - 1;
      assert after[n] in after && (core + after)[..|core + after| - 1] == core + after[..n];
      RStripOf(core, after[..n]);
    }
  }

  /** Stripping takes all whitespace from both ends and nothing else. */
  lemma {:induction false} StripOf(before: string, core: string, after: string)
    requires Blank(before) && Trimmed(core) && Blank(after)
    ensures Strip(before + core + after) == core
  {
    assert before + core + after == before + (core + after);
    if core == "" {
      assert core + after == after;
      LStripBlank(before + after);
      assert before + (core + after) == before + after;
    } else {
      LStripOf(before, core + after);
      RStripOf(core, after);
    }
  }

  lemma {:induction false} LStripBlank(s: string)
    requires Blank(s)
    ensures LStrip(s) == ""
  {
    if s != "" {
      assert s[0] in s;
      LStripBlank(s[1..]);
    }
  }

  lemma {:induction false} LStripEmpty(s: string)
    requires !Blank(s)
    ensures LStrip(s) != "" && !IsSpace(LStrip(s)[0])
  {
    if IsSpace(s[0]) {
      assert s == [s[0]] + s[1..];
      LStripEmpty(s[1..]);
    }
  }

  lemma {:induction false} RStripKeepsHead(s: string)
    requires s != "" && !IsSpace(s[0])
    ensures RStrip(s) != ""
  {
    if IsSpace(s[|s| - 1]) {
      RStripKeepsHead(s[..|s| - 1]);
    }
  }

  lemma {:induction false} StripEmptyIff(s: string)
    ensures Strip(s) == "" <==> Blank(s)
  {
    if Blank(s) {
      LStripBlank(s);
    } else {
      LStripEmpty(s);
      RStripKeepsHead(LStrip(s));
    }
  }

  /** Lower case changes the letters A to Z, by ASCII code, and nothing else. */
  lemma {:induction false} LowerAt(s: string, i: nat)
    requires i < |s|
    ensures |Lower(s)| == |s| && Lower(s)[i] as int == s[i] as int + if 65 <= s[i] as int <= 90 then 32 else 0
  {
  }

  // ----- dependencies -----

  /** A version may be missing altogether, but not blank, and a custom one may not be missing. */
  predicate VersionAllowed(version: string, mode: VersionMode) { if version == "" then mode == Latest else !Blank(version) }

  function ModeFor(version: string): VersionMode { if version == "" then Latest else Custom }

  /** A pip package is accepted exactly with an allowed version, and then its mode says whether it has one. */
  lemma {:induction false} PipAccepted(d: PipDep)
    ensures ValidatePip(d).Ok? <==> VersionAllowed(d.version, d.mode)
    ensures ValidatePip(d).Ok? ==> ValidatePip(d).value == d.(mode := ModeFor(d.version))
    ensures ValidPip(d) <==> d.mode == ModeFor(d.version)
  {
    StripEmptyIff(d.version);
  }

  /** And so is an npm package. */
  lemma {:induction false} NpmAccepted(d: NpmDep)
    ensures ValidateNpm(d).Ok? <==> VersionAllowed(d.version, d.mode)
    ensures ValidateNpm(d).Ok? ==> ValidateNpm(d).value == d.(mode := ModeFor(d.version))
    ensures ValidNpm(d) <==> d.mode == ModeFor(d.version)
  {
    StripEmptyIff(d.version);
  }

  // ----- components -----

  /** Constraints are of listed packages and of one line, and with `pin_only` every package has one. */
  predicate ConstraintsAllowed(c: Components) {
    && (forall k :: k in c.aptConstraints ==> k in c.apt && '\n' !in c.aptConstraints[k] && '\r' !in c.aptConstraints[k])
    && (c.aptMode == PinOnly ==> forall p :: p in c.apt ==> p in c.aptConstraints)
  }

  /** Components are accepted exactly with allowed constraints and, where a wheelhouse is used, its path, which alone is changed. */
  lemma {:induction false} ComponentsAccepted(c: Components)
    ensures ValidateComponents(c).Ok? <==> ConstraintsAllowed(c) && (c.pipMode != Index ==> !Blank(c.wheelhousePath))
    ensures ValidateComponents(c).Ok? && c.pipMode == Index ==> ValidateComponents(c).value == c.(wheelhousePath := "")
    ensures ValidateComponents(c).Ok? && c.pipMode != Index ==> ValidateComponents(c).value == c.(wheelhousePath := Strip(c.wheelhousePath))
  {
    StripEmptyIff(c.wheelhousePath);
  }

  // ----- lockfiles -----

  const LOCKFILES := {"package-lock.json", "pnpm-lock.yaml", "yarn.lock"}

  predicate Separator(c: char) { c == '/' || c == '\\' }

  /** The path leads to `name`: behind the start or a separator, and before nothing but separators. */
  predicate LeadsTo(front: string, name: string, tail: string) {
    (front == "" || Separator(front[|front| - 1])) && forall c :: c in tail ==> Separator(c)
  }

  lemma {:induction false} TrimmedOf(core: string, tail: string)
    requires (forall c :: c in tail ==> c == '/') && core != "" && core[|core| - 1] != '/'
    ensures TrimSlashes(core + tail) == core
  {
    if tail == "" {
      assert core + tail == core;
    } else {
      var n := |tail| - 1;
      assert tail[n] in tail && (core + tail)[..|core + tail| - 1] == core + tail[..n];
      assert forall c :: c in tail[..n] ==> c in tail;
      TrimmedOf(core, tail[..n]);
    }
  }

  lemma {:induction false} LeafOf(front: string, name: string)
    requires '/' !in name && (front == "" || front[|front| - 1] == '/')
    ensures Leaf(front + name) == name
  {
    if name == "" {
      assert front + name == front;
    } else {
      var n := |name| - 1;
      assert name[n] in name && (front + name)[..|front + name| - 1] == front + name[..n];
      assert forall c :: c in name[..n] ==> c in name;
      LeafOf(front, name[..n]);
    }
  }

  lemma {:induction false} LeafSplits(s: string)
    ensures |Leaf(s)| <= |s|
    ensures var front := s[..|s| - |Leaf(s)|];
      s == front + Leaf(s) && '/' !in Leaf(s) && (front == "" || front[|front| - 1] == '/')
  {
    if s != "" && s[|s| - 1] != '/' {
      LeafSplits(s[..|s| - 1]);
    }
  }

  lemma {:induction false} TrimSplits(s: string)
    ensures TrimSlashes(s) <= s && forall c :: c in s[|TrimSlashes(s)|..] ==> c == '/'
  {
    if s != "" && s[|s| - 1] == '/' {
      TrimSplits(s[..|s| - 1]);
      var t := TrimSlashes(s[..|s| - 1]);
      assert s[|t|..] == s[..|s| - 1][|t|..] + "/";
    }
  }

  lemma {:induction false} SlashesConcat(a: string, b: string)
    ensures Slashes(a + b) == Slashes(a) + Slashes(b)
  {
  }

  lemma {:induction false} PlainName(name: string)
    requires name in LOCKFILES
    ensures name != "" && '/' !in name && '\\' !in name && Slashes(name) == name
  {
  }

  lemma {:induction false} SeparatorsShown(tail: string)
    ensures (forall c :: c in Slashes(tail) ==> c == '/') <==> forall c :: c in tail ==> Separator(c)
  {
    if forall c :: c in Slashes(tail) ==> c == '/' {
      forall c | c in tail ensures Separator(c) {
        var j :| 0 <= j < |tail| && tail[j] == c;
        assert Slashes(tail)[j] in Slashes(tail);
      }
    } else {
      var d :| d in Slashes(tail) && d != '/';
      var j :| 0 <= j < |tail| && Slashes(tail)[j] == d;
      assert tail[j] in tail && !Separator(tail[j]);
    }
  }

  /** A text that shows itself without separators is that text. */
  lemma {:induction false} ShowsAs(text: string, name: string)
    requires Slashes(text) == name && '/' !in name
    ensures text == name
  {
    forall i | 0 <= i < |text| ensures text[i] == name[i] {
      assert name[i] == Slashes(text)[i] && name[i] in name;
    }
  }

  /** A path to a lockfile is recognised, with either separator and any number of them at the end. */
  lemma {:induction false} LockfileFound(front: string, name: string, tail: string)
    requires name in LOCKFILES && LeadsTo(front, name, tail)
    ensures IsLockfile(front + name + tail)
  {
    PlainName(name);
    SlashesConcat(front + name, tail);
    SlashesConcat(front, name);
    var core := Slashes(front) + name;
    assert core[|core| - 1] == name[|name| - 1] && name[|name| - 1] in name;
    SeparatorsShown(tail);
    TrimmedOf(core, Slashes(tail));
    LeafOf(Slashes(front), name);
  }

  lemma {:induction false} FrontOf(src: string, core: string, m: nat)
    requires core <= Slashes(src) && m <= |core|
    requires m == 0 || core[m - 1] == '/'
    ensures Slashes(src[m..|core|]) == core[m..] && (src[..m] == "" || Separator(src[..m][m - 1]))
  {
    assert m > 0 ==> Slashes(src)[m - 1] == core[m - 1];
  }

  lemma {:induction false} CutUp(src: string, core: string, m: nat) returns (front: string, tail: string)
    requires core <= Slashes(src) && m <= |core| && (m == 0 || core[m - 1] == '/') && '/' !in core[m..]
    requires forall c :: c in Slashes(src)[|core|..] ==> c == '/'
    ensures LeadsTo(front, core[m..], tail) && src == front + core[m..] + tail
  {
    front, tail := src[..m], src[|core|..];
    FrontOf(src, core, m);
    ShowsAs(src[m..|core|], core[m..]);
    assert Slashes(src)[|core|..] == Slashes(tail);
    SeparatorsShown(tail);
    assert src == src[..m] + src[m..|core|] + src[|core|..];
  }

  lemma {:induction false} LeafStands(src: string) returns (front: string, tail: string)
    ensures var name := Leaf(TrimSlashes(Slashes(src))); LeadsTo(front, name, tail) && src == front + name + tail
  {
    var core := TrimSlashes(Slashes(src));
    TrimSplits(Slashes(src));
    LeafSplits(core);
    var m := |core| - |Leaf(core)|;
    assert core[m..] == Leaf(core);
    front, tail := CutUp(src, core, m);
  }

  /** And nothing else is. */
  lemma {:induction false} LockfileIs(src: string) returns (front: string, name: string, tail: string)
    requires IsLockfile(src)
    ensures name in LOCKFILES && LeadsTo(front, name, tail) && src == front + name + tail
  {
    name := Leaf(TrimSlashes(Slashes(src)));
    front, tail := LeafStands(src);
  }
}
