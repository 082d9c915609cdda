/** The name of the lock file that serialises builds of one target. */
module Locking {
  import opened Basics

  /** What a build is for; variant values are already stringified. */
  datatype Target = Target(profile: string, stack: string, variants: map<string, string>)

  predicate SafeChar(c: char) {
    'a' <= c <= 'z' || 'A' <= c <= 'Z' || '0' <= c <= '9' || c in {'.', '_', '-'}
  }

  /** `_sanitize_filename`. */
  function Sanitize(key: string): string { Map((c: char) => if SafeChar(c) then c else '_', key) }

  /** The truncated hash of the sorted JSON of a variant dictionary. */
  type ShortHash = map<string, string> -> string

  /** `compute_variant_hash`. */
  function VariantHash(short: ShortHash, variants: map<string, string>): string {
    if variants == map[] then "" else short(variants)
  }

  function LockName(short: ShortHash, t: Target): string {
    Sanitize(t.profile + ":" + t.stack + ":" + VariantHash(short, t.variants))
  }

  /** By ASCII code: letters, digits, dash, dot and underscore stay, any other character becomes an underscore. */
  lemma {:induction false} SanitizeAt(key: string, i: nat)
    requires i < |key|
    ensures |Sanitize(key)| == |key|
    ensures var code := key[i] as int;
      Sanitize(key)[i] == if 97 <= code <= 122 || 65 <= code <= 90 || 48 <= code <= 57 || code in {45, 46, 95} then key[i] else '_'
  {
  }

  /** Sanitised names are safe, and sanitising again changes nothing. */
  lemma {:induction false} SanitizeSettles(key: string)
    ensures forall c :: c in Sanitize(key) ==> SafeChar(c)
    ensures Sanitize(Sanitize(key)) == Sanitize(key)
    ensures Sanitize(key) == key <==> forall c :: c in key ==> SafeChar(c)
  {
    forall c | c in key ensures Sanitize(key) == key ==> SafeChar(c) {
      var i :| 0 <= i < |key| && key[i] == c;
      assert Sanitize(key) == key ==> Sanitize(key)[i] == c;
    }
    if forall c :: c in key ==> SafeChar(c) {
      assert forall i :: 0 <= i < |key| ==> key[i] in key;
    }
  }

  lemma {:induction false} SanitizeConcat(a: string, b: string)
    ensures Sanitize(a + b) == Sanitize(a) + Sanitize(b)
  {
  }

  lemma {:induction false} LockNameIs(short: ShortHash, t: Target)
    ensures LockName(short, t) == Sanitize(t.profile) + "_" + (Sanitize(t.stack) + "_" + Sanitize(VariantHash(short, t.variants)))
  {
    var hash := VariantHash(short, t.variants);
    assert Sanitize(":") == "_";
    assert t.profile + ":" + t.stack + ":" + hash == t.profile + (":" + (t.stack + (":" + hash)));
    SanitizeConcat(t.profile, ":" + (t.stack + (":" + hash)));
    SanitizeConcat(":", t.stack + (":" + hash));
    SanitizeConcat(t.stack, ":" + hash);
    SanitizeConcat(":", hash);
    Rejoin(Sanitize(t.profile), Sanitize(t.stack), Sanitize(hash));
  }

  lemma {:induction false} Rejoin(a: string, b: string, c: string)
    ensures a + ("_" + (b + ("_" + c))) == a + "_" + (b + "_" + c)
  {
  }

  /** Two targets of one profile and stack share a lock exactly when their variants share a sanitised hash. */
  lemma {:induction false} SamePairLocks(short: ShortHash, s: Target, t: Target)
    requires s.profile == t.profile && s.stack == t.stack
    ensures LockName(short, s) == LockName(short, t)
      <==> Sanitize(VariantHash(short, s.variants)) == Sanitize(VariantHash(short, t.variants))
  {
    LockNameIs(short, s);
    LockNameIs(short, t);
    var x, y := Sanitize(VariantHash(short, s.variants)), Sanitize(VariantHash(short, t.variants));
    var front := Sanitize(s.profile) + "_" + (Sanitize(s.stack) + "_");
    assert LockName(short, s) == front + x && LockName(short, t) == front + y;
    assert (front + x)[|front|..] == x && (front + y)[|front|..] == y;
  }

  lemma {:induction false} FirstUnderscore(a: string, x: string)
    requires '_' !in a
    ensures var whole := a + "_" + x; whole[|a|] == '_' && forall i :: 0 <= i < |a| ==> whole[i] != '_'
  {
    assert forall i :: 0 <= i < |a| ==> a[i] in a;
  }

  lemma {:induction false} CutAtUnderscore(a: string, x: string, b: string, y: string)
    requires '_' !in a && '_' !in b && a + "_" + x == b + "_" + y
    ensures a == b && x == y
  {
    FirstUnderscore(a, x);
    FirstUnderscore(b, y);
    var whole := a + "_" + x;
    assert |a| == |b|;
    assert whole[..|a|] == a && whole[..|b|] == b;
    assert whole[|a| + 1..] == x && whole[|b| + 1..] == y;
  }

  /** A name of safe characters, none of which stands for another. */
  predicate PlainName(name: string) { forall c :: c in name ==> SafeChar(c) && c != '_' }

  /** Where profile and stack ids are plain, only targets of one pair and one sanitised variant hash share a lock. */
  lemma {:induction false} LocksCoincideIff(short: ShortHash, s: Target, t: Target)
    requires PlainName(s.profile) && PlainName(s.stack) && PlainName(t.profile) && PlainName(t.stack)
    ensures LockName(short, s) == LockName(short, t) <==>
      && s.profile == t.profile && s.stack == t.stack
      && Sanitize(VariantHash(short, s.variants)) == Sanitize(VariantHash(short, t.variants))
  {
    SanitizeSettles(s.profile);
    SanitizeSettles(s.stack);
    SanitizeSettles(t.profile);
    SanitizeSettles(t.stack);
    LockNameIs(short, s);
    LockNameIs(short, t);
    var x, y := Sanitize(VariantHash(short, s.variants)), Sanitize(VariantHash(short, t.variants));
    if LockName(short, s) == LockName(short, t) {
      CutAtUnderscore(s.profile, s.stack + "_" + x, t.profile, t.stack + "_" + y);
      CutAtUnderscore(s.stack, x, t.stack, y);
    }
  }

  /** Hashes of variant choices are non-empty, safe, and tell the choices apart. */
  ghost predicate Separates(short: ShortHash) {
    && (forall v :: v != map[] ==> short(v) != "" && forall c :: c in short(v) ==> SafeChar(c))
    && (forall u, v :: u != map[] && v != map[] && short(u) == short(v) ==> u == v)
  }

  lemma {:induction false} SeparateVariants(short: ShortHash, u: map<string, string>, v: map<string, string>)
    requires Separates(short) && Sanitize(VariantHash(short, u)) == Sanitize(VariantHash(short, v))
    ensures u == v
  {
    SanitizeSettles(VariantHash(short, u));
    SanitizeSettles(VariantHash(short, v));
  }

  /** With an underscore in an id different targets may share a lock; that only serialises more. */
  lemma {:induction false} LocksMayCoincide(short: ShortHash)
    ensures LockName(short, Target("a_b", "c", map[])) == LockName(short, Target("a", "b_c", map[]))
  {
    var x := "a_b" + ":" + "c" + ":" + "";
    var y := "a" + ":" + "b_c" + ":" + "";
    assert x == "a_b:c:" && y == "a:b_c:";
    assert Sanitize(x) == "a_b_c_" && Sanitize(y) == "a_b_c_";
  }
}
