/** Hardware profiles, as far as resolution reads them. A missing optional string is "". */
module Profiles {
  import opened Basics

  datatype Cuda = Cuda(major: nat, minor: nat, variant: string)
  datatype BaseCandidate = BaseCandidate(name: string, tags: seq<string>, bias: int)
  /** `capabilityNamed`: the GPU or one of its devices states some compute capability, parsable or not. */
  datatype Gpu = Gpu(
    vendor: string, vendorId: string, family: string, familyId: string, computeCapability: Option<real>, capabilityNamed: bool)

  /** Detected facts; memory is in hundredths of a GB, versions are already parsed, and `driverNamed` tells whether there was one to parse. */
  datatype HostFacts = HostFacts(
    cpus: Option<nat>, memory: Option<nat>, driver: Option<real>, driverNamed: bool, confidence: map<string, string>)

  datatype Profile = Profile(
    id: string, schemaVersion: int, arch: string, runtime: string,
    os: string, osFamily: string, osFamilyId: string, osVersion: string, osVersionId: string,
    cuda: Option<Cuda>, gpu: Gpu, facts: HostFacts,
    baseCandidates: seq<BaseCandidate>, capabilities: seq<string>,
    disallowedServe: seq<string>, curated: bool)

  function Or(a: string, b: string): string { if a != "" then a else b }

  /** CUDA by declared capability, by version, or by container runtime. */
  predicate HasCuda(p: Profile) {
    "cuda" in p.capabilities || (p.cuda.Some? && p.cuda.value.major > 0) || Lower(p.runtime) == "nvidia"
  }

  function LowerChar(c: char): char {
    if 'A' <= c <= 'Z' then ((c as int) + 32) as char else c
  }

  /** Python's `str.lower()` on ASCII text. */
  function Lower(s: string): string { Map(LowerChar, s) }
}
