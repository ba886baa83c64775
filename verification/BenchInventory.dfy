/** The inventories fixed by version 1 of the benchmark, and manifests that `make_plan` accepts under them. */
module BenchInventory {
  import opened Bytes
  import opened Listings
  import opened BenchRecords
  import opened BenchOrders
  import opened BenchCounterbalance
  import opened BenchPlan
  import opened BenchPlanning
  import opened BenchSizes

  // ---------------------------------------------------------------- names

  function ByteOf(c: char): (r: Byte) { if c as int < 256 then c as int else 0 }

  function Ascii(s: string): (r: ByteString)
    ensures |r| == |s|
  {
    if s == "" then [] else Ascii(s[..|s| - 1]) + [ByteOf(s[|s| - 1])]
  }

  lemma {:induction false} AsciiAt(s: string, i: nat)
    requires i < |s|
    ensures Ascii(s)[i] == ByteOf(s[i])
  {
    if i < |s| - 1 {
      AsciiAt(s[..|s| - 1], i);
    }
  }

  predicate IsLetter(c: char) { 'a' <= c <= 'z' || 'A' <= c <= 'Z' }

  predicate IsName(s: string) {
    1 <= |s| <= 31 && IsLetter(s[0]) && forall i :: 0 <= i < |s| ==> IsLetter(s[i]) || s[i] == '-'
  }

  lemma {:induction false} NameBytes(s: string)
    requires forall i :: 0 <= i < |s| ==> IsLetter(s[i]) || s[i] == '-'
    ensures IdentifierBytes(Ascii(s))
  {
    if s != "" {
      var before := s[..|s| - 1];
      NameBytes(before);
      assert Ascii(s)[..|s| - 1] == Ascii(before);
    }
  }

  lemma {:induction false} NameIsIdentifier(s: string)
    requires IsName(s)
    ensures IsIdentifier(Ascii(s))
  {
    AsciiAt(s, 0);
    NameBytes(s);
  }

  function Named(): (r: string -> Id) { (s: string) => Ascii(s) }

  /** Names that differ in length or first letter. */
  predicate Distinguished(xs: seq<string>) {
    forall i, j :: 0 <= i < j < |xs| ==> |xs[i]| != |xs[j]| || xs[i] == "" || ByteOf(xs[i][0]) != ByteOf(xs[j][0])
  }

  lemma {:induction false} DistinguishedNames(xs: seq<string>)
    requires Distinguished(xs) && forall i :: 0 <= i < |xs| ==> xs[i] != ""
    ensures NoRepeats(Map(Named(), xs))
  {
    if xs != [] {
      DistinguishedNames(xs[1..]);
      if Ascii(xs[0]) in Map(Named(), xs[1..]) {
        var j :| 0 <= j < |xs| - 1 && Map(Named(), xs[1..])[j] == Ascii(xs[0]);
        MapAt(Named(), xs[1..], j);
        AsciiAt(xs[0], 0);
        AsciiAt(xs[j + 1], 0);
      }
    }
  }

  // ---------------------------------------------------------------- the inventories

  const STRATA: seq<string> :=
    ["LongRepo-Change", "MultiProject-Switch", "Agent-Handoff", "Temporal-Truth", "Needle-and-Distractor",
     "PolicyBoundary", "EffectCrash", "CrossRuntime-Replay", "CatalogMutation"]

  const PROTECTED: seq<string> := ["PolicyBoundary", "EffectCrash", "MultiProject-Switch"]

  const COMPARATORS: seq<string> :=
    ["full-transcript-project", "fixed-window", "native-memory", "transcript-summary", "lexical-top-k-rag",
     "semantic-top-k-rag", "human-oracle", "cigar-without-temporal", "cigar-without-policy-filter", "cigar-without-graph",
     "cigar-without-delta", "cigar-without-handoff-packaging"]

  lemma {:induction false} StrataAreDistinguished()
    ensures Distinguished(STRATA)
  {
  }

  lemma {:induction false} StrataAreNames(i: nat)
    requires i < |STRATA|
    ensures IsName(STRATA[i])
  {
    if i < 3 {
      LongRepoToHandoff(i);
    } else if i < 6 {
      TemporalToPolicy(i);
    } else {
      EffectToCatalog(i);
    }
  }

  lemma {:induction false} LongRepoToHandoff(i: nat)
    requires i < 3
    ensures IsName(STRATA[i])
  {
  }

  lemma {:induction false} TemporalToPolicy(i: nat)
    requires 3 <= i < 6
    ensures IsName(STRATA[i])
  {
  }

  lemma {:induction false} EffectToCatalog(i: nat)
    requires 6 <= i < |STRATA|
    ensures IsName(STRATA[i])
  {
  }

  lemma {:induction false} StrataDoNotRepeat()
    ensures NoRepeats(Map(Named(), STRATA))
  {
    StrataAreDistinguished();
    DistinguishedNames(STRATA);
  }

  /** The nine required strata. */
  function RequiredStrata(): (r: Inventory)
    ensures |r| == 9
  {
    StrataDoNotRepeat();
    Map(Named(), STRATA)
  }

  lemma {:induction false} NamesAreIdentifiers(xs: seq<string>, s: Id)
    requires (forall i :: 0 <= i < |xs| ==> IsName(xs[i])) && s in Map(Named(), xs)
    ensures IsIdentifier(s) && |s| <= 31
  {
    var i :| 0 <= i < |xs| && Map(Named(), xs)[i] == s;
    MapAt(Named(), xs, i);
    NameIsIdentifier(xs[i]);
  }

  lemma {:induction false} RequiredAreIdentifiers()
    ensures ShortStrata(RequiredStrata())
  {
    forall i | 0 <= i < |STRATA| ensures IsName(STRATA[i]) {
      StrataAreNames(i);
    }
    forall s | s in RequiredStrata() ensures IsIdentifier(s) && |s| <= 31 {
      NamesAreIdentifiers(STRATA, s);
    }
  }

  predicate ShortStrata(required: Inventory) {
    |required| <= 9 && forall s :: s in required ==> IsIdentifier(s) && |s| <= 31
  }

  function ProtectedStrata(): (r: seq<Id>) { Map(Named(), PROTECTED) }

  lemma {:induction false} ProtectedDoNotRepeat()
    ensures |ProtectedStrata()| == 3 && NoRepeats(ProtectedStrata())
  {
    assert Distinguished(PROTECTED);
    DistinguishedNames(PROTECTED);
  }

  lemma {:induction false} NamesIncluded(xs: seq<string>, ys: seq<string>, s: Id)
    requires (forall x :: x in xs ==> x in ys) && s in Map(Named(), xs)
    ensures s in Map(Named(), ys)
  {
    MapMember(Named(), xs, s);
    MapMember(Named(), ys, s);
  }

  lemma {:induction false} ProtectedAreStrata()
    ensures forall x :: x in PROTECTED ==> x in STRATA
  {
    assert STRATA[5] == PROTECTED[0] && STRATA[6] == PROTECTED[1] && STRATA[1] == PROTECTED[2];
  }

  lemma {:induction false} ProtectedAreRequired(s: Id)
    requires s in ProtectedStrata()
    ensures s in RequiredStrata()
  {
    ProtectedAreStrata();
    NamesIncluded(PROTECTED, STRATA, s);
  }

  // ---------------------------------------------------------------- a manifest with one dataset for each stratum

  function SelfNamed(): (r: Id -> Dataset) { (s: Id) => Dataset(s, s, s, 0) }

  function StratumOfDataset(): (r: Dataset -> Id) { (d: Dataset) => d.stratum }

  /** One dataset for each stratum, the first under an identifier of its own. */
  function ManifestOver(required: Inventory, first: Id): (r: seq<Dataset>)
    ensures |r| == |required|
  {
    [Dataset(first, required[0], required[0], 0)] + Map(SelfNamed(), required[1..])
  }

  lemma {:induction false} SelfNamedImages(xs: seq<Id>)
    ensures Map(IdOf(), Map(SelfNamed(), xs)) == xs && Map(StratumOfDataset(), Map(SelfNamed(), xs)) == xs
  {
    if xs != [] {
      SelfNamedImages(xs[1..]);
      assert Map(SelfNamed(), xs)[1..] == Map(SelfNamed(), xs[1..]);
      assert xs == [xs[0]] + xs[1..];
    }
  }

  lemma {:induction false} ManifestImages(required: Inventory, first: Id)
    ensures Map(IdOf(), ManifestOver(required, first)) == [first] + required[1..]
    ensures Map(StratumOfDataset(), ManifestOver(required, first)) == required
  {
    var ds := ManifestOver(required, first);
    SelfNamedImages(required[1..]);
    assert ds[1..] == Map(SelfNamed(), required[1..]);
    assert required == [required[0]] + required[1..];
  }

  lemma {:induction false} ManifestDistinct(required: Inventory, first: Id)
    requires first !in required[1..]
    ensures DistinctIds(ManifestOver(required, first)) && NoRepeats(Map(TaskOf(), ManifestOver(required, first)))
  {
    var ds := ManifestOver(required, first);
    ManifestImages(required, first);
    assert ([first] + required[1..])[1..] == required[1..];
    CoarserNoRepeats(StratumOfDataset(), TaskOf(), ds);
  }

  lemma {:induction false} ManifestStrata(required: Inventory, first: Id)
    ensures (set s | s in Strata(ManifestOver(required, first))) == (set s | s in required)
  {
    var ds := ManifestOver(required, first);
    ManifestImages(required, first);
    forall s ensures s in Strata(ds) <==> s in required {
      StrataMeaning(ds, s);
      MapMember(StratumOfDataset(), ds, s);
    }
  }

  lemma {:induction false} ManifestEntries(required: Inventory, first: Id, d: Dataset)
    requires IsIdentifier(first) && (forall s :: s in required ==> IsIdentifier(s)) && d in ManifestOver(required, first)
    ensures ValidDataset(d)
  {
    if d != ManifestOver(required, first)[0] {
      MapMember(SelfNamed(), required[1..], d);
      var s :| s in required[1..] && SelfNamed()(s) == d;
      assert s in required;
    } else {
      assert required[0] in required;
    }
  }

  lemma {:induction false} ManifestIsValid(required: Inventory, first: Id)
    requires IsIdentifier(first) && (forall s :: s in required ==> IsIdentifier(s)) && |required| <= 10_000
    requires first !in required[1..]
    ensures ValidManifest(required, ManifestOver(required, first))
  {
    ManifestDistinct(required, first);
    ManifestStrata(required, first);
    forall d | d in ManifestOver(required, first) ensures ValidDataset(d) {
      ManifestEntries(required, first, d);
    }
  }

  // ---------------------------------------------------------------- choices that `make_plan` accepts

  /** Everything a caller chooses but the manifest, its capture, the replicate count and the seed is acceptable. */
  predicate Acceptable(setup: Setup) {
    && ValidPins(setup.pins) && ValidDeclared(setup.files.declared)
    && setup.baseline in setup.files.declared
    && IsIdentifier(setup.run)
  }

  function Repeated(n: nat): (r: Id)
    ensures |r| == n
  {
    if n == 0 then [] else Repeated(n - 1) + [0x61]
  }

  lemma {:induction false} RepeatedIsIdentifier(n: nat)
    requires 0 < n <= 128
    ensures IsIdentifier(Repeated(n))
  {
    RepeatedBytes(n);
  }

  lemma {:induction false} RepeatedBytes(n: nat)
    ensures IdentifierBytes(Repeated(n)) && (n > 0 ==> Repeated(n)[0] == 0x61)
  {
    if n > 0 {
      RepeatedBytes(n - 1);
      assert Repeated(n)[..n - 1] == Repeated(n - 1);
    }
  }

  function Labels(n: nat, count: nat): (r: seq<Id>)
    ensures |r| == count
  {
    if count == 0 then [] else Labels(n, count - 1) + [Repeated(n)]
  }

  lemma {:induction false} LabelsAre(n: nat, count: nat, x: Id)
    requires x in Labels(n, count)
    ensures x == Repeated(n)
  {
    if x in Labels(n, count - 1) {
      LabelsAre(n, count - 1, x);
    }
  }

  /** Full pins whose nine labels have a given length. */
  function PinsOf(n: nat): (r: Pins) { Pins(Labels(n, PIN_LABELS), Digest(0), 1) }

  lemma {:induction false} PinsAreValid(n: nat)
    requires 0 < n <= 128
    ensures ValidPins(PinsOf(n))
  {
    forall x | x in Labels(n, PIN_LABELS) ensures IsIdentifier(x) {
      LabelsAre(n, PIN_LABELS, x);
      RepeatedIsIdentifier(n);
    }
  }

  function SetupOf(labels: nat, comparator: Id, environment: Environment, declared: set<Id>, required: Inventory): (r: Setup) {
    Setup(Repeated(8), comparator, HarnessSmoke, PinsOf(labels), Files(Digest(0), Digest(0), environment, declared), required)
  }

  lemma {:induction false} SetupIsAcceptable(labels: nat, comparator: Id, environment: Environment, declared: set<Id>, required: Inventory)
    requires 0 < labels <= 128 && ValidDeclared(declared) && comparator in declared
    ensures Acceptable(SetupOf(labels, comparator, environment, declared, required))
  {
    PinsAreValid(labels);
    RepeatedIsIdentifier(8);
  }

  /** The comparators that the baseline manifest declares. */
  function DeclaredComparators(): (r: set<Id>) { set x | x in Map(Named(), COMPARATORS) }

  lemma {:induction false} ComparatorsAreNames(i: nat)
    requires i < |COMPARATORS|
    ensures IsName(COMPARATORS[i])
  {
    if i < 3 {
      TranscriptToMemory(i);
    } else if i < 6 {
      SummaryToSemantic(i);
    } else if i < 9 {
      OracleToPolicy(i);
    } else {
      GraphToHandoff(i);
    }
  }

  lemma {:induction false} TranscriptToMemory(i: nat)
    requires i < 3
    ensures IsName(COMPARATORS[i])
  {
  }

  lemma {:induction false} SummaryToSemantic(i: nat)
    requires 3 <= i < 6
    ensures IsName(COMPARATORS[i])
  {
  }

  lemma {:induction false} OracleToPolicy(i: nat)
    requires 6 <= i < 9
    ensures IsName(COMPARATORS[i])
  {
  }

  lemma {:induction false} GraphToHandoff(i: nat)
    requires 9 <= i < |COMPARATORS|
    ensures IsName(COMPARATORS[i])
  {
  }

  lemma {:induction false} DeclaredAreIdentifiers()
    ensures ValidDeclared(DeclaredComparators()) && Ascii(COMPARATORS[1]) in DeclaredComparators()
  {
    forall i | 0 <= i < |COMPARATORS| ensures IsName(COMPARATORS[i]) {
      ComparatorsAreNames(i);
    }
    forall x | x in DeclaredComparators() ensures IsIdentifier(x) {
      NamesAreIdentifiers(COMPARATORS, x);
    }
    MapAt(Named(), COMPARATORS, 1);
  }

  /** Choices under the version 1 inventories, with labels of a given length. */
  function VersionOneSetup(labels: nat, environment: Environment): (r: Setup) {
    SetupOf(labels, Ascii(COMPARATORS[1]), environment, DeclaredComparators(), RequiredStrata())
  }

  lemma {:induction false} VersionOneIsAcceptable(labels: nat, environment: Environment)
    requires 0 < labels <= 128
    ensures Acceptable(VersionOneSetup(labels, environment)) && VersionOneSetup(labels, environment).required == RequiredStrata()
  {
    DeclaredAreIdentifiers();
    SetupIsAcceptable(labels, Ascii(COMPARATORS[1]), environment, DeclaredComparators(), RequiredStrata());
  }

  // ---------------------------------------------------------------- inputs that are refused

  lemma {:induction false} ManifestIsPlannable(hash: Hash, setup: Setup, first: Id, n: nat, seed: Seed)
    requires Acceptable(setup) && ShortStrata(setup.required) && ValidSecret(seed)
    requires IsIdentifier(first) && first !in setup.required[1..] && 0 < n <= 2777
    requires Captured(hash, setup.files.environment, ManifestOver(setup.required, first))
    ensures Plannable(hash, setup, ManifestOver(setup.required, first), n, seed)
  {
    ManifestIsValid(setup.required, first);
    FewEnough(|setup.required|, n);
  }

  lemma {:induction false} FewEnough(k: nat, n: nat)
    requires k <= 9 && n <= 2777
    ensures k * n * 2 <= MAX_ASSIGNMENTS
  {
    assert k * n <= 9 * n;
  }

  /**
    Nine datasets over the required strata, one of them with a valid identifier of 123 to 128 characters:
    for every acceptable choice and seed the inputs are plannable, and the plan does not validate.
    */
  lemma {:induction false} LongIdentifierIsRefused(shuffle: Shuffle, hash: Hash, setup: Setup, seed: Seed, n: nat)
    requires Acceptable(setup) && setup.required == RequiredStrata() && ValidSecret(seed) && 123 <= n <= 128
    requires Captured(hash, setup.files.environment, ManifestOver(setup.required, Repeated(n)))
    ensures var ds := ManifestOver(setup.required, Repeated(n));
            && |ds| == 9 && Plannable(hash, setup, ds, 1, seed)
            && !ValidPlan(hash, PlanFor(shuffle, hash, setup, ds, 1, seed))
  {
    RequiredAreIdentifiers();
    LongIdentifier(shuffle, hash, setup, seed, n);
  }

  lemma {:induction false} LongIdentifier(shuffle: Shuffle, hash: Hash, setup: Setup, seed: Seed, n: nat)
    requires Acceptable(setup) && ShortStrata(setup.required) && ValidSecret(seed) && 123 <= n <= 128
    requires Captured(hash, setup.files.environment, ManifestOver(setup.required, Repeated(n)))
    ensures var ds := ManifestOver(setup.required, Repeated(n));
            Plannable(hash, setup, ds, 1, seed) && !ValidPlan(hash, PlanFor(shuffle, hash, setup, ds, 1, seed))
  {
    var first := Repeated(n);
    var ds := ManifestOver(setup.required, first);
    RepeatedIsIdentifier(n);
    assert first !in setup.required && first !in setup.required[1..];
    ManifestIsPlannable(hash, setup, first, 1, seed);
    PlannedIsValid(shuffle, hash, setup, ds, 1, seed);
    assert ds[0] in ds && |ds[0].id| == n;
  }

  lemma {:induction false} LabelsLength(n: nat, count: nat)
    ensures Tally(LabelBytes(), Labels(n, count)) == count * (n + 2)
  {
    if count > 0 {
      LabelsLength(n, count - 1);
      TallyConcat(LabelBytes(), Labels(n, count - 1), [Repeated(n)]);
      assert Tally(LabelBytes(), [Repeated(n)]) == n + 2 + Tally(LabelBytes(), [Repeated(n)][1..]);
      assert count * (n + 2) == (count - 1) * (n + 2) + (n + 2);
    }
  }

  /** Nine datasets, 2777 replicates and labels of 128 characters: plannable, and too long to be written. */
  lemma {:induction false} LongPlanIsRefused(hash: Hash, conditions: nat, seed: Seed)
    requires ValidSecret(seed)
    ensures var ds := ManifestOver(RequiredStrata(), RequiredStrata()[0]);
            var setup := VersionOneSetup(128, CaptureOf(hash, ds, conditions));
            Plannable(hash, setup, ds, 2777, seed) && PlannedBytes(setup, ds, 2777) > MAX_INPUT_BYTES
  {
    var environment := CaptureOf(hash, ManifestOver(RequiredStrata(), RequiredStrata()[0]), conditions);
    VersionOneIsAcceptable(128, environment);
    RequiredAreIdentifiers();
    VersionOneChoices(128, environment);
    LongPlan(hash, VersionOneSetup(128, environment), seed);
  }

  lemma {:induction false} VersionOneChoices(labels: nat, environment: Environment)
    ensures VersionOneSetup(labels, environment).pins == PinsOf(labels)
    ensures VersionOneSetup(labels, environment).files.environment == environment
  {
  }

  lemma {:induction false} LongPlan(hash: Hash, setup: Setup, seed: Seed)
    requires Acceptable(setup) && ShortStrata(setup.required) && ValidSecret(seed)
    requires |setup.required| == 9 && setup.pins == PinsOf(128)
    requires Captured(hash, setup.files.environment, ManifestOver(setup.required, setup.required[0]))
    ensures var ds := ManifestOver(setup.required, setup.required[0]);
            Plannable(hash, setup, ds, 2777, seed) && PlannedBytes(setup, ds, 2777) > MAX_INPUT_BYTES
  {
    var ds := ManifestOver(setup.required, setup.required[0]);
    ManifestIsPlannable(hash, setup, setup.required[0], 2777, seed);
    LabelsLength(128, PIN_LABELS);
    PlannedAtLeast(setup, ds, 2777);
  }
}
