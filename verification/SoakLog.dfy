/** Observation records of the broker soak, and what a complete log looks like. */
module SoakLog {
  import opened Wrappers

  datatype Phase = Mutation | Proposal | Revocation | Renewal | Restart

  /** The frozen configuration: everything follows from the registered duration. */
  datatype Config = Config(seconds: int) {
    predicate Full() { seconds == 86400 }

    /** Seconds between scheduled runs of a maintenance phase. */
    function Period(phase: Phase): (r: nat)
      ensures r > 0
    {
      match phase
      case Mutation => if Full() then 60 else 5
      case Proposal => if Full() then 300 else 10
      case Revocation => if Full() then 600 else 15
      case Renewal => if Full() then 120 else 20
      case Restart => if Full() then 3600 else 30
    }
  }

  predicate Registered(cfg: Config) { 60 <= cfg.seconds <= 86400 }

  const PHASES: seq<Phase> := [Mutation, Proposal, Revocation, Renewal, Restart]
  const MAX_GAP: real := 5.0
  const MAX_MAINTENANCE: real := 30.0
  const MAX_RSS: int := 2 * 1024 * 1024 * 1024
  const MAX_LOG: int := 2 * 1024 * 1024 * 1024
  const MAX_LINE: int := 4 * 1024 * 1024

  /** One verified expectation; `agrees` is that every expected key was observed with its value. */
  datatype Event = Event(passed: bool, agrees: bool)

  predicate ChecksPass(events: seq<Event>) {
    events != [] && forall i :: 0 <= i < |events| ==> events[i].passed && events[i].agrees
  }

  /** Unknown phases appear as `None`. */
  datatype Body =
    | Start(pids: seq<int>, checks: seq<Event>)
    | Cycle(observations: seq<bool>, rss: seq<int>)  // per actor: the observation passes its own check
    | MaintenanceStart(phase: Option<Phase>, number: int)
    | MaintenanceEnd(phase: Option<Phase>, number: int, duration: real, checks: seq<Event>)
    | DurationComplete
    | FinalVerification(checks: seq<Event>)
    | Other

  /** A line of the log; `elapsed` is `None` when it is not a finite number, `clean` is that no credential is in it. */
  datatype Line = Line(size: nat, newline: bool, clean: bool, sequence: int, elapsed: Option<real>, body: Body)

  function Time(line: Line): (r: real) {
    if line.elapsed.Some? then line.elapsed.value else 0.0
  }

  // ---------------------------------------------------------------- counters

  datatype Counts = Counts(mutation: nat, proposal: nat, revocation: nat, renewal: nat, restart: nat) {
    function At(phase: Phase): (r: nat) {
      match phase
      case Mutation => mutation
      case Proposal => proposal
      case Revocation => revocation
      case Renewal => renewal
      case Restart => restart
    }

    function Bump(phase: Phase): (r: Counts) {
      match phase
      case Mutation => this.(mutation := mutation + 1)
      case Proposal => this.(proposal := proposal + 1)
      case Revocation => this.(revocation := revocation + 1)
      case Renewal => this.(renewal := renewal + 1)
      case Restart => this.(restart := restart + 1)
    }

    function Total(): (r: nat) { mutation + proposal + revocation + renewal + restart }
  }

  const ZERO: Counts := Counts(0, 0, 0, 0, 0)

  // ---------------------------------------------------------------- framing

  function LastTime(lines: seq<Line>): (r: real) {
    if lines == [] then 0.0 else Time(lines[|lines| - 1])
  }

  function TotalSize(lines: seq<Line>): (r: nat) {
    if lines == [] then 0 else TotalSize(lines[..|lines| - 1]) + lines[|lines| - 1].size
  }

  /** A line fits after `earlier`: bounded, terminated, clean, in sequence, at a finite time that does not go back. */
  predicate FollowsFrame(earlier: seq<Line>, line: Line) {
    && line.size <= MAX_LINE && line.newline && line.clean
    && TotalSize(earlier) + line.size <= MAX_LOG
    && line.sequence == |earlier|
    && line.elapsed.Some? && line.elapsed.value >= LastTime(earlier)
  }

  predicate Framed(lines: seq<Line>) {
    lines == [] || (Framed(lines[..|lines| - 1]) && FollowsFrame(lines[..|lines| - 1], lines[|lines| - 1]))
  }

  // ---------------------------------------------------------------- blocks

  /** Between start and completion a log consists of cycles and maintenance brackets. */
  datatype Block = CycleBlock(line: Line) | MaintenanceBlock(start: Line, end: Line)

  function BlockLines(b: Block): (r: seq<Line>)
    ensures r != []
  {
    match b
    case CycleBlock(line) => [line]
    case MaintenanceBlock(start, end) => [start, end]
  }

  function Concat(blocks: seq<Block>): (r: seq<Line>) {
    if blocks == [] then [] else Concat(blocks[..|blocks| - 1]) + BlockLines(blocks[|blocks| - 1])
  }

  function Begin(b: Block): (r: Line) {
    match b
    case CycleBlock(line) => line
    case MaintenanceBlock(start, _) => start
  }

  function End(b: Block): (r: Line) {
    match b
    case CycleBlock(line) => line
    case MaintenanceBlock(_, end) => end
  }

  /** The time of last progress after the blocks. */
  function EndTime(blocks: seq<Block>): (r: real) {
    if blocks == [] then 0.0 else Time(End(blocks[|blocks| - 1]))
  }

  function Cycles(blocks: seq<Block>): (r: nat) {
    if blocks == [] then 0 else Cycles(blocks[..|blocks| - 1]) + (if blocks[|blocks| - 1].CycleBlock? then 1 else 0)
  }

  function PhaseOf(b: Block): (r: Option<Phase>) {
    match b
    case CycleBlock(_) => None
    case MaintenanceBlock(start, _) => if start.body.MaintenanceStart? then start.body.phase else None
  }

  /** How often each phase has been started. */
  function Started(blocks: seq<Block>): (r: Counts) {
    if blocks == [] then ZERO else
      var before := Started(blocks[..|blocks| - 1]);
      match PhaseOf(blocks[|blocks| - 1])
      case None => before
      case Some(phase) => before.Bump(phase)
  }

  function Max(a: real, b: real): (r: real) { if a > b then a else b }

  /** The longest time without progress before any of the blocks. */
  function LongestGap(blocks: seq<Block>): (r: real) {
    if blocks == [] then 0.0 else
      var earlier := blocks[..|blocks| - 1];
      Max(LongestGap(earlier), Time(Begin(blocks[|blocks| - 1])) - EndTime(earlier))
  }

  // ---------------------------------------------------------------- structure: what the scheduler promises

  /** A bracket opens and closes under one phase, numbered next in that phase and not before its schedule. */
  predicate BlockStructured(cfg: Config, earlier: seq<Block>, b: Block) {
    match b
    case CycleBlock(line) => line.body.Cycle?
    case MaintenanceBlock(start, end) =>
      && start.body.MaintenanceStart? && end.body.MaintenanceEnd?
      && start.body.phase.Some? && end.body.phase == start.body.phase
      && var phase := start.body.phase.value;
         var number := Started(earlier).At(phase) + 1;
      && start.body.number == number && end.body.number == number
      && Time(start) >= (number * cfg.Period(phase)) as real
  }

  predicate Structured(cfg: Config, blocks: seq<Block>) {
    blocks == [] ||
    (Structured(cfg, blocks[..|blocks| - 1]) && BlockStructured(cfg, blocks[..|blocks| - 1], blocks[|blocks| - 1]))
  }

  /** No phase ran less often than the schedule leaves room for. */
  predicate EnoughRuns(cfg: Config, counts: Counts) {
    forall phase: Phase :: counts.At(phase) >= (cfg.seconds - 30) / cfg.Period(phase)
  }

  // ---------------------------------------------------------------- measurements: what only the log can show

  predicate CycleMeasured(line: Line) {
    && line.body.Cycle?
    && |line.body.observations| == 12 && (forall i :: 0 <= i < 12 ==> line.body.observations[i])
    && |line.body.rss| == 14 && (forall i :: 0 <= i < 14 ==> line.body.rss[i] > 0)
    && SumOf(line.body.rss) <= MAX_RSS
  }

  function SumOf(xs: seq<int>): (r: int) {
    if xs == [] then 0 else xs[0] + SumOf(xs[1..])
  }

  function Abs(x: real): (r: real) { if x < 0.0 then -x else x }

  predicate BracketMeasured(start: Line, end: Line) {
    && end.body.MaintenanceEnd?
    && Time(end) - Time(start) <= MAX_MAINTENANCE
    && Abs(Time(end) - Time(start) - end.body.duration) <= 0.01
    && ChecksPass(end.body.checks)
  }

  /** Progress within five seconds, a bracket within thirty, and the recorded checks pass. */
  predicate BlockMeasured(earlier: seq<Block>, b: Block) {
    && Time(Begin(b)) - EndTime(earlier) <= MAX_GAP
    && match b
       case CycleBlock(line) => CycleMeasured(line)
       case MaintenanceBlock(start, end) => BracketMeasured(start, end)
  }

  predicate Measured(blocks: seq<Block>) {
    blocks == [] ||
    (Measured(blocks[..|blocks| - 1]) && BlockMeasured(blocks[..|blocks| - 1], blocks[|blocks| - 1]))
  }

  predicate StartMeasured(start: Line) {
    && start.body.Start?
    && |start.body.pids| == 12
    && (forall i, j :: 0 <= i < j < 12 ==> start.body.pids[i] != start.body.pids[j])
    && ChecksPass(start.body.checks)
  }

  predicate FinishMeasured(blocks: seq<Block>, done: Line, last: Line) {
    && Time(done) - EndTime(blocks) <= MAX_GAP
    && last.body.FinalVerification?
    && Time(last) - Time(done) <= MAX_MAINTENANCE
    && ChecksPass(last.body.checks)
  }

  // ---------------------------------------------------------------- a complete log

  datatype Log = Log(start: Line, blocks: seq<Block>, done: Line, last: Line)

  function LogLines(log: Log): (r: seq<Line>) {
    [log.start] + Concat(log.blocks) + [log.done, log.last]
  }

  predicate LogStructured(cfg: Config, log: Log) {
    && log.start.body.Start? && log.start.elapsed == Some(0.0)
    && Structured(cfg, log.blocks)
    && log.done.body.DurationComplete? && Time(log.done) >= cfg.seconds as real
    && log.last.body.FinalVerification?
    && Cycles(log.blocks) > 0 && EnoughRuns(cfg, Started(log.blocks))
  }

  predicate LogMeasured(log: Log) {
    && Framed(LogLines(log))
    && StartMeasured(log.start) && Measured(log.blocks) && FinishMeasured(log.blocks, log.done, log.last)
  }

  /** Start, then cycles and paired maintenance, then completion and final verification, all conditions met. */
  ghost predicate Complete(cfg: Config, lines: seq<Line>) {
    exists log :: lines == LogLines(log) && LogStructured(cfg, log) && LogMeasured(log)
  }
}
