/** The shared ensure pipeline: resolve, pin the base digest, resolve again, execute. */
module Ensure {
  import opened Basics
  import opened Specs
  import opened Profiles
  import opened Hashing
  import opened Labels
  import opened Catalog
  import opened Resolver
  import opened ResolverTheorems
  import opened Executor

  datatype EnsureExit =
    | EnsureCanceled
    | UnknownVariant
    | Unresolved(error: ResolveError)
    | RegistryDenied
    | Executed(plan: Plan, exit: Exit)

  /** What the pipeline asks of its surroundings. */
  datatype Surroundings = Surroundings(
    cancel: nat -> bool,                       // answers of the pipeline's own cancel checks, in order
    digestOf: string -> Option<string>,        // digest of a local image, None when the lookup fails
    allowed: string -> bool,                   // registry policy
    image: string -> Option<LabelMap>)         // labels of the image under a tag

  datatype Flags = Flags(rebuild: bool, upgradeBase: bool, immutable: bool)

  predicate VariantsDefined(s: Stack, variants: Variants) { forall k :: k in variants ==> k in s.variants }

  /** The digest to pin, looked up for the first plan's base image; "" when there is none. */
  function DigestFor(first: Plan, env: Surroundings, upgradeBase: bool): string {
    if upgradeBase then "" else env.digestOf(first.baseImage).GetOr("")
  }

  /** The plan `ensure_internal` arrives at, or how it ends before having one. */
  function PlanToExecute(c: Context, p: Profile, s: Stack, o: Options, env: Surroundings, flags: Flags): Result<Plan, EnsureExit> {
    if env.cancel(0) || env.cancel(1) || env.cancel(2) then Err(EnsureCanceled)
    else if !VariantsDefined(s, o.variants) then Err(UnknownVariant)
    else
      match Resolve(c, p, s, o)
      case Err(e) => Err(Unresolved(e))
      case Ok(first) =>
        if !env.allowed(first.baseImage) then Err(RegistryDenied)
        else if env.cancel(3) then Err(EnsureCanceled)
        else
          var digest := DigestFor(first, env, flags.upgradeBase);
          match if digest == "" then Ok(first) else Resolve(c, p, s, o.(baseDigest := digest))
          case Err(e) => Err(Unresolved(e))
          case Ok(plan) => if env.cancel(4) then Err(EnsureCanceled) else Ok(plan)
  }

  /** `ensure_internal`, called without a digest; it executes with the profile and stack it loaded, not with the hinted stack. */
  method EnsureInternal(c: Context, p: Profile, s: Stack, o: Options, env: Surroundings, flags: Flags,
                        store: CatalogStore, disk: ArtifactDirs, e: Effects, id: string, now: int) returns (exit: EnsureExit)
    requires Valid(store.rows) && o.baseDigest == ""
    modifies store, disk
    ensures var planned := PlanToExecute(c, p, s, o, env, flags);
      if planned.Err? then exit == planned.error && store.rows == old(store.rows) && disk.files == old(disk.files)
      else exit.Executed? && exit.plan == planned.value
           && Ended(store.rows, exit.exit)
              == Execute(old(store.rows), env.image(planned.value.tag), planned.value, c.builderVersion, flags.rebuild, flags.immutable, e, id, now)
           && disk.files
              == ExecuteFiles(old(store.rows), old(disk.files), env.image(planned.value.tag), planned.value, p, s, c.builderVersion,
                              flags.rebuild, flags.immutable, e, id, now)
  {
    if env.cancel(0) { return EnsureCanceled; }
    if env.cancel(1) { return EnsureCanceled; }
    if env.cancel(2) { return EnsureCanceled; }
    if !VariantsDefined(s, o.variants) { return UnknownVariant; }
    var result := Resolve(c, p, s, o);
    if result.Err? { return Unresolved(result.error); }
    var first := result.value;
    if !env.allowed(first.baseImage) { return RegistryDenied; }
    if env.cancel(3) { return EnsureCanceled; }
    var digest := "";
    if !flags.upgradeBase {
      digest := env.digestOf(first.baseImage).GetOr("");
    }
    if digest != "" {
      result := Resolve(c, p, s, o.(baseDigest := digest));
      if result.Err? { return Unresolved(result.error); }
    }
    if env.cancel(4) { return EnsureCanceled; }
    var ending := DoExecute(store, disk, env.image(result.value.tag), result.value, p, s, c.builderVersion, flags.rebuild, flags.immutable, e, id, now);
    exit := Executed(result.value, ending);
  }

  /** Pinning a digest changes neither the verdict nor the base image. */
  lemma {:induction false} DigestKeepsBase(c: Context, p: Profile, s: Stack, o: Options, digest: string)
    ensures Resolve(c, p, s, o).Ok? <==> Resolve(c, p, s, o.(baseDigest := digest)).Ok?
    ensures Resolve(c, p, s, o).Ok? ==>
      Resolve(c, p, s, o.(baseDigest := digest)).value.baseImage == Resolve(c, p, s, o).value.baseImage
  {
    var pinned := o.(baseDigest := digest);
    SameChoice(p, s, o, digest);
    SomeChoice(p, s, o, o.explain);
    assert o.(explain := o.explain) == o && pinned.(explain := o.explain) == pinned;
    ResolveUnfolds(c, p, s, o, o.explain);
    ResolveUnfolds(c, p, s, pinned, o.explain);
  }

  lemma {:induction false} SameChoice(p: Profile, s: Stack, o: Options, digest: string)
    ensures Obstacle(p, s, o.(baseDigest := digest)) == Obstacle(p, s, o)
    ensures forall explain :: Chosen(p, s, o.(baseDigest := digest), explain) == Chosen(p, s, o, explain)
  {
  }

  /** So the digest that is executed, labelled and recorded is the digest of the very base image it stands beside. */
  lemma {:induction false} PlanPinsItsOwnBase(c: Context, p: Profile, s: Stack, o: Options, env: Surroundings, flags: Flags)
    requires o.baseDigest == "" && PlanToExecute(c, p, s, o, env, flags).Ok?
    ensures var plan := PlanToExecute(c, p, s, o, env, flags).value;
      && env.allowed(plan.baseImage)
      && plan.baseDigest == (if flags.upgradeBase then "" else env.digestOf(plan.baseImage).GetOr(""))
      && Resolve(c, p, s, o.(baseDigest := plan.baseDigest)) == Ok(plan)
  {
    var first := Resolve(c, p, s, o).value;
    var digest := DigestFor(first, env, flags.upgradeBase);
    DigestKeepsBase(c, p, s, o, digest);
    PlanCarriesDigest(c, p, s, o);
    PlanCarriesDigest(c, p, s, o.(baseDigest := digest));
    assert o.(baseDigest := o.baseDigest) == o;
  }

  lemma {:induction false} PlanCarriesDigest(c: Context, p: Profile, s: Stack, o: Options)
    requires Resolve(c, p, s, o).Ok?
    ensures Resolve(c, p, s, o).value.baseDigest == o.baseDigest
  {
  }

  ghost predicate PermittedBase(c: Context, p: Profile, s: Stack, o: Options, env: Surroundings) {
    Resolve(c, p, s, o).Ok? && env.allowed(Resolve(c, p, s, o).value.baseImage)
  }

  /** There is a plan to execute exactly when none of five checks cancels, variants are defined, and resolution succeeds with a permitted base image. */
  lemma {:induction false} PlanReachedIff(c: Context, p: Profile, s: Stack, o: Options, env: Surroundings, flags: Flags)
    ensures PlanToExecute(c, p, s, o, env, flags).Ok? <==>
      && !env.cancel(0) && !env.cancel(1) && !env.cancel(2) && !env.cancel(3) && !env.cancel(4)
      && (forall v :: v in o.variants ==> v in s.variants) && PermittedBase(c, p, s, o, env)
  {
    if Resolve(c, p, s, o).Ok? {
      DigestKeepsBase(c, p, s, o, DigestFor(Resolve(c, p, s, o).value, env, flags.upgradeBase));
    }
  }

  /** Why there is none: the first of these in the order of the pipeline. */
  lemma {:induction false} PipelineStops(c: Context, p: Profile, s: Stack, o: Options, env: Surroundings, flags: Flags)
    ensures var r, early := PlanToExecute(c, p, s, o, env, flags), env.cancel(0) || env.cancel(1) || env.cancel(2);
      var defined := forall v :: v in o.variants ==> v in s.variants;
      && (r == Err(UnknownVariant) <==> !early && !defined)
      && (r.Err? && r.error.Unresolved? <==> !early && defined && Resolve(c, p, s, o).Err?)
      && (r.Err? && r.error.Unresolved? ==> Resolve(c, p, s, o) == Err(r.error.error))
      && (r == Err(RegistryDenied) <==> !early && defined && Resolve(c, p, s, o).Ok? && !PermittedBase(c, p, s, o, env))
      && (r == Err(EnsureCanceled) <==> early || (defined && PermittedBase(c, p, s, o, env) && (env.cancel(3) || env.cancel(4))))
  {
    if Resolve(c, p, s, o).Ok? {
      DigestKeepsBase(c, p, s, o, DigestFor(Resolve(c, p, s, o).value, env, flags.upgradeBase));
    }
  }
}
