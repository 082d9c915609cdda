/** Checks before compatibility: the schema validators and the serve rules. */
module Rules {
  import opened Specs
  import opened Profiles

  /** `validate_profile`. */
  predicate ValidProfile(p: Profile) {
    && (p.schemaVersion >= 2 || p.baseCandidates != [])
    && ("cuda" in p.capabilities && p.cuda.Some? ==> p.cuda.value.major > 0)
    && (p.schemaVersion >= 3 && "cuda" in p.capabilities ==> p.cuda.Some?)
    && forall c :: c in p.baseCandidates ==> c.tags != []
  }

  predicate ComposedByLayers(s: Stack) { s.schemaVersion >= 2 && s.layers != [] }

  /** `validate_stack`. */
  predicate ValidStack(s: Stack) {
    && (ComposedByLayers(s) || s.components.baseRole.GetOr("") != "")
    && (ComposedByLayers(s) || s.entrypoint != [])
    && (s.schemaVersion >= 3 && s.capabilities != [] ==> s.needs != map[])
  }

  const NEEDS_CUDA := {"triton", "vllm"}

  /** `check_serve_disallowed` and `check_required_capabilities`; the architecture check only warns. */
  predicate ServeRefused(p: Profile, s: Stack) {
    s.serve in p.disallowedServe || (s.serve in NEEDS_CUDA && !HasCuda(p))
  }
}
