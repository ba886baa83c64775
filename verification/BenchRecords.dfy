/** The records that benches/cigarbench/cigarbench.py writes, and how long their canonical JSON is. */
module BenchRecords {
  import opened Wrappers
  import opened Bytes
  import opened Listings

  type Id = ByteString
  type Seed = ByteString
  type Key = ByteString

  /** A well-formed sha256 multihash. */
  datatype Digest = Digest(code: nat)

  datatype Treatment = Baseline | Cigar
  datatype Evidence = HarnessSmoke | Qualification

  /** The nine labels in the order model, runtime, tools, repository, sampling, tokenizer, source, adapter, compiler. */
  datatype Pins = Pins(labels: seq<Id>, artifact: Digest, outputBudget: int)

  /** What both treatments of a pair share. */
  datatype Common = Common(
    run: Id, pair: Id, dataset: Id, task: Id, stratum: Id, baseline: Id, sample: int,
    evidence: Evidence, pins: Pins, environment: Digest)

  datatype Assignment = Assignment(common: Common, treatment: Treatment, order: int)

  datatype Unsigned = Unsigned(
    seed: Digest, datasets: Digest, baselines: Digest, canaries: Digest, assignments: seq<Assignment>)

  datatype Plan = Plan(unsigned: Unsigned, digest: Digest)

  /** What a consumer reports of one execution, as far as the decision depends on it. */
  datatype Metrics = Metrics(tokens: nat, success: bool, harm: bool, unauthorized: nat, cost: real, variance: real)

  datatype Attestation = Attestation(key: Id, mac: Digest)

  /** An event's identity is the digest of these fields. */
  datatype Event = Event(
    assignment: Assignment, warmup: bool, metrics: Metrics, assignmentDigest: Digest, seedCommitment: Digest,
    attestation: Option<Attestation>)

  /** An entry of the dataset manifest; the details are its version, fixture, licence and canaries. */
  datatype Dataset = Dataset(id: Id, task: Id, stratum: Id, details: nat)

  /** An environment capture: the manifest it was taken for, the conditions of the host, and the digest of both. */
  datatype Environment = Environment(datasets: Digest, conditions: nat, digest: Digest)

  /**
    The digests of plans, seeds and events, of a manifest as it is listed and of an environment capture, the keyed
    digest of attestations, and the length of written metrics.
    */
  datatype Hash = Hash(
    plan: Unsigned -> Digest, seed: Seed -> Digest, event: Event -> Digest, mac: (Key, Id, Event) -> Digest,
    manifest: seq<Dataset> -> Digest, environment: (Digest, nat) -> Digest, metricsBytes: Metrics -> nat)

  const MAX_INPUT_BYTES: nat := 64 * 1024 * 1024
  const MAX_EVENT_BYTES: nat := 64 * 1024
  const MAX_EVENTS: nat := 1_000_000
  const MAX_ASSIGNMENTS: nat := 50_000

  // ---------------------------------------------------------------- identifiers and secrets

  predicate IsAlphanumeric(b: Byte) {
    0x30 <= b <= 0x39 || 0x41 <= b <= 0x5A || 0x61 <= b <= 0x7A
  }

  predicate IsIdentifierByte(b: Byte) {
    IsAlphanumeric(b) || b == 0x2D || b == 0x2E || b == 0x3A || b == 0x5F
  }

  predicate IdentifierBytes(x: Id) {
    x == [] || (IsIdentifierByte(x[|x| - 1]) && IdentifierBytes(x[..|x| - 1]))
  }

  predicate IsIdentifier(x: Id) {
    1 <= |x| <= 128 && IsAlphanumeric(x[0]) && IdentifierBytes(x)
  }

  /** Seeds and attestation keys come from files of 32 to 4096 bytes. */
  predicate ValidSecret(secret: ByteString) { 32 <= |secret| <= 4096 }

  const PIN_LABELS: nat := 9

  predicate ValidPins(pins: Pins) {
    |pins.labels| == PIN_LABELS && pins.outputBudget > 0 && forall x :: x in pins.labels ==> IsIdentifier(x)
  }

  function Digit(n: nat): (r: Byte) { 0x30 + n % 10 }

  /** Decimal digits, at least `width` of them. */
  function Decimal(n: nat, width: nat): (r: ByteString)
    decreases n + width
  {
    if n == 0 && width == 0 then []
    else Decimal(n / 10, if width == 0 then 0 else width - 1) + [Digit(n)]
  }

  // ---------------------------------------------------------------- canonical JSON lengths

  /** A name, its quotes and colon, a value, and the comma or brace after it. */
  function Member(name: string, bytes: nat): (r: nat) { |name| + 4 + bytes }

  function Quoted(n: nat): (r: nat) { n + 2 }

  /** A quoted multihash: `1220` and 64 hexadecimal digits. */
  const DIGEST_BYTES: nat := 70

  function IntegerBytes(x: int): (r: nat) {
    if x < 0 then 1 + |Decimal(-x, 1)| else |Decimal(x, 1)|
  }

  function Total<T>(weight: T -> int, xs: seq<T>): (r: nat) {
    var n := Tally(weight, xs);
    if n < 0 then 0 else n
  }

  function LabelBytes(): (r: Id -> int) { (x: Id) => Quoted(|x|) }

  // What the member names, fixed values and punctuation of each record take; `NamesCounted` spells them out.
  const PIN_NAMES: nat := 210
  const COMMON_NAMES: nat := 233
  const TREATMENT_NAME: nat := 15
  const ORDER_NAME: nat := 9
  const PLAN_NAMES: nat := 531
  const EVENT_NAMES: nat := 344

  lemma NamesCounted()
    ensures PIN_NAMES == 1 + Member("model", 0) + Member("runtime", 0) + Member("tools", 0) + Member("repository", 0)
                         + Member("sampling", 0) + Member("tokenizer", 0) + Member("source", 0) + Member("adapter", 0)
                         + Member("compiler", 0) + Member("output_budget", 0) + Member("consumer_artifact", DIGEST_BYTES)
    ensures COMMON_NAMES == Member("run_id", Quoted(0)) + Member("pair_id", Quoted(0)) + Member("dataset_id", Quoted(0))
                            + Member("task_id", Quoted(0)) + Member("stratum", Quoted(0)) + Member("baseline_id", Quoted(0))
                            + Member("sample_index", 0) + Member("evidence_class", Quoted(|"harness_smoke"|))
                            + Member("pins", 0) + Member("environment_digest", DIGEST_BYTES)
    ensures |"harness_smoke"| == |"qualification"|
    ensures TREATMENT_NAME == Member("treatment", Quoted(0)) && ORDER_NAME == Member("order", 0)
    ensures PLAN_NAMES == 2 + Member("schema_version", Quoted(|"cigar.benchmark-plan.v1"|))
                          + Member("seed_commitment", DIGEST_BYTES) + Member("dataset_manifest_digest", DIGEST_BYTES)
                          + Member("baseline_manifest_digest", DIGEST_BYTES) + Member("canary_registry_digest", DIGEST_BYTES)
                          + Member("assignment_digest", DIGEST_BYTES) + Member("assignments", 0)
    ensures EVENT_NAMES == 2 + Member("schema_version", Quoted(|"cigar.benchmark-event.v1"|)) + Member("event_id", DIGEST_BYTES)
                           + Member("assignment_digest", DIGEST_BYTES) + Member("seed_commitment", DIGEST_BYTES)
                           + Member("warmup", 0) + Member("metrics", 0) + Member("attestation", 0)
  {
  }

  function PinsBytes(pins: Pins): (r: nat) {
    PIN_NAMES + Total(LabelBytes(), pins.labels) + IntegerBytes(pins.outputBudget)
  }

  function CommonBytes(c: Common): (r: nat) {
    COMMON_NAMES + |c.run| + |c.pair| + |c.dataset| + |c.task| + |c.stratum| + |c.baseline| + IntegerBytes(c.sample)
    + PinsBytes(c.pins)
  }

  function TreatmentBytes(t: Treatment): (r: nat) { TREATMENT_NAME + if t == Baseline then 8 else 5 }

  /** The twelve members of an assignment, without the opening brace. */
  function AssignmentMembers(a: Assignment): (r: nat) {
    CommonBytes(a.common) + TreatmentBytes(a.treatment) + ORDER_NAME + IntegerBytes(a.order)
  }

  /** An assignment in a list, with the comma or bracket after it. */
  function ListedBytes(): (r: Assignment -> int) { (a: Assignment) => 1 + AssignmentMembers(a) + 1 }

  function ListBytes(xs: seq<Assignment>): (r: nat) {
    if xs == [] then 2 else 1 + Total(ListedBytes(), xs)
  }

  /** A written plan and its line feed: seven members. */
  function PlanBytes(plan: Plan): (r: nat) { PLAN_NAMES + ListBytes(plan.unsigned.assignments) }

  /** `null`, or an object of a key identity and 64 hexadecimal digits. */
  function AttestationBytes(a: Option<Attestation>): (r: nat) {
    if a.None? then 4 else 1 + Member("key_id", Quoted(|a.value.key|)) + Member("mac", Quoted(64))
  }

  /** A written event and its line feed: nineteen members. */
  function EventBytes(hash: Hash, e: Event): (r: nat) {
    EVENT_NAMES + AssignmentMembers(e.assignment) + (if e.warmup then 4 else 5)
    + hash.metricsBytes(e.metrics) + AttestationBytes(e.attestation)
  }
}
