/**
  What replaying a soak log establishes. The automaton's state after a log is
  exactly a parse of it, so a log is accepted if and only if it is complete.
  */
module SoakCompleteness {
  import opened Wrappers
  import opened SoakLog
  import opened SoakReplay

  /** Where a log stands after its last whole block. */
  datatype Position =
    | Between
    | Inside(open: Line)
    | Over(done: Line)
    | Verified(done: Line, last: Line)

  function PositionLines(pos: Position): (r: seq<Line>) {
    match pos
    case Between => []
    case Inside(open) => [open]
    case Over(done) => [done]
    case Verified(done, last) => [done, last]
  }

  function Prefix(start: Line, blocks: seq<Block>, pos: Position): (r: seq<Line>) {
    [start] + Concat(blocks) + PositionLines(pos)
  }

  predicate Opens(cfg: Config, blocks: seq<Block>, open: Line) {
    && open.body.MaintenanceStart? && open.body.phase.Some?
    && open.body.number == Started(blocks).At(open.body.phase.value) + 1
    && Time(open) >= (open.body.number * cfg.Period(open.body.phase.value)) as real
    && Time(open) - EndTime(blocks) <= MAX_GAP
  }

  predicate Finishes(cfg: Config, blocks: seq<Block>, done: Line) {
    && done.body.DurationComplete? && Time(done) >= cfg.seconds as real
    && Time(done) - EndTime(blocks) <= MAX_GAP
  }

  predicate Verifies(done: Line, last: Line) {
    && last.body.FinalVerification?
    && Time(last) - Time(done) <= MAX_MAINTENANCE
    && ChecksPass(last.body.checks)
  }

  predicate Stands(cfg: Config, blocks: seq<Block>, pos: Position) {
    match pos
    case Between => true
    case Inside(open) => Opens(cfg, blocks, open)
    case Over(done) => Finishes(cfg, blocks, done)
    case Verified(done, last) => Finishes(cfg, blocks, done) && Verifies(done, last)
  }

  predicate Parsed(cfg: Config, blocks: seq<Block>, pos: Position) {
    Structured(cfg, blocks) && Measured(blocks) && Stands(cfg, blocks, pos)
  }

  predicate Reached(cfg: Config, start: Line, blocks: seq<Block>, pos: Position) {
    && StartMeasured(start) && start.elapsed == Some(0.0)
    && Parsed(cfg, blocks, pos)
    && Framed(Prefix(start, blocks, pos))
  }

  /** What `replay` has recorded of the run, read off a parse. */
  function Totals(blocks: seq<Block>, pos: Position): (r: Progress) {
    var run := Progress(EndTime(blocks), LongestGap(blocks), None, None, false, Cycles(blocks), Started(blocks));
    match pos
    case Between => run
    case Inside(open) =>
      var phase := OpenPhase(open);
      run.(since := Time(open), longest := Max(LongestGap(blocks), Time(open) - EndTime(blocks)),
           maintenance := Some((phase, Time(open))), counts := Started(blocks).Bump(phase))
    case Over(done) =>
      run.(since := Time(done), longest := Max(LongestGap(blocks), Time(done) - EndTime(blocks)),
           completed := Some(Time(done)))
    case Verified(done, last) =>
      run.(since := Time(done), longest := Max(LongestGap(blocks), Time(done) - EndTime(blocks)),
           completed := Some(Time(done)), final := true)
  }

  function OpenPhase(open: Line): (r: Phase) {
    if open.body.MaintenanceStart? && open.body.phase.Some? then open.body.phase.value else Mutation
  }

  function StateAt(start: Line, blocks: seq<Block>, pos: Position): (r: State) {
    Framing(Prefix(start, blocks, pos), Totals(blocks, pos))
  }

  function Framing(lines: seq<Line>, run: Progress): (r: State) {
    State(|lines|, TotalSize(lines), LastTime(lines), run)
  }

  /** Where one more record leads, if anywhere: the parse extended by it. */
  function Next(cfg: Config, blocks: seq<Block>, pos: Position, line: Line): (r: Option<(seq<Block>, Position)>) {
    match pos
    case Between =>
      if BlockStructured(cfg, blocks, CycleBlock(line)) && BlockMeasured(blocks, CycleBlock(line))
      then Some((blocks + [CycleBlock(line)], Between))
      else if Opens(cfg, blocks, line) then Some((blocks, Inside(line)))
      else if Finishes(cfg, blocks, line) then Some((blocks, Over(line)))
      else None
    case Inside(open) =>
      if BlockStructured(cfg, blocks, MaintenanceBlock(open, line)) && BlockMeasured(blocks, MaintenanceBlock(open, line))
      then Some((blocks + [MaintenanceBlock(open, line)], Between))
      else None
    case Over(done) => if Verifies(done, line) then Some((blocks, Verified(done, line))) else None
    case Verified(_, _) => None
  }

  // ---------------------------------------------------------------- one record

  lemma {:induction false} AppendLine(lines: seq<Line>, line: Line)
    ensures TotalSize(lines + [line]) == TotalSize(lines) + line.size
    ensures LastTime(lines + [line]) == Time(line)
    ensures Framed(lines + [line]) <==> Framed(lines) && FollowsFrame(lines, line)
  {
  }

  lemma {:induction false} AppendBlock(cfg: Config, blocks: seq<Block>, b: Block)
    ensures Concat(blocks + [b]) == Concat(blocks) + BlockLines(b)
    ensures EndTime(blocks + [b]) == Time(End(b))
    ensures LongestGap(blocks + [b]) == Max(LongestGap(blocks), Time(Begin(b)) - EndTime(blocks))
    ensures Cycles(blocks + [b]) == Cycles(blocks) + (if b.CycleBlock? then 1 else 0)
    ensures Structured(cfg, blocks + [b]) <==> Structured(cfg, blocks) && BlockStructured(cfg, blocks, b)
    ensures Measured(blocks + [b]) <==> Measured(blocks) && BlockMeasured(blocks, b)
    ensures Started(blocks + [b]) ==
            if PhaseOf(b).Some? then Started(blocks).Bump(PhaseOf(b).value) else Started(blocks)
  {
  }

  /** What the body checks of the automaton do is to extend the parse. */
  predicate BodyAgrees(cfg: Config, blocks: seq<Block>, pos: Position, line: Line) {
    AfterBody(cfg, Totals(blocks, pos), line) ==
    match Next(cfg, blocks, pos, line)
    case None => None
    case Some(to) => Some(Totals(to.0, to.1))
  }

  lemma {:induction false} BodyBetween(cfg: Config, blocks: seq<Block>, line: Line)
    ensures BodyAgrees(cfg, blocks, Between, line)
  {
  }

  lemma {:induction false} BodyInside(cfg: Config, blocks: seq<Block>, open: Line, line: Line)
    requires Opens(cfg, blocks, open) && Time(line) >= Time(open)
    ensures BodyAgrees(cfg, blocks, Inside(open), line)
  {
    if line.body.MaintenanceEnd? {
      BodyClosing(cfg, blocks, open, line);
    }
  }

  lemma {:induction false} BodyClosing(cfg: Config, blocks: seq<Block>, open: Line, line: Line)
    requires Opens(cfg, blocks, open) && Time(line) >= Time(open) && line.body.MaintenanceEnd?
    ensures BodyAgrees(cfg, blocks, Inside(open), line)
  {
    var b := MaintenanceBlock(open, line);
    Bumped(Started(blocks), open.body.phase.value);
    assert BlockStructured(cfg, blocks, b) <==> line.body.phase == open.body.phase && line.body.number == open.body.number;
    assert BlockMeasured(blocks, b) <==> BracketMeasured(open, line);
    AppendBlock(cfg, blocks, b);
  }

  lemma {:induction false} Bumped(counts: Counts, phase: Phase)
    ensures counts.Bump(phase).At(phase) == counts.At(phase) + 1
  {
  }

  lemma {:induction false} BodyFollows(cfg: Config, start: Line, blocks: seq<Block>, pos: Position, line: Line)
    requires Reached(cfg, start, blocks, pos) && FollowsFrame(Prefix(start, blocks, pos), line)
    ensures BodyAgrees(cfg, blocks, pos, line)
  {
    var lines := Prefix(start, blocks, pos);
    match pos {
      case Between => BodyBetween(cfg, blocks, line);
      case Inside(open) =>
        assert lines[|lines| - 1] == open;
        BodyInside(cfg, blocks, open, line);
      case Over(done) =>
      case Verified(done, last) =>
    }
  }

  lemma {:induction false} NextPrefix(cfg: Config, start: Line, blocks: seq<Block>, pos: Position, line: Line)
    requires Next(cfg, blocks, pos, line).Some?
    ensures var to := Next(cfg, blocks, pos, line).value;
            Prefix(start, to.0, to.1) == Prefix(start, blocks, pos) + [line]
  {
    var to := Next(cfg, blocks, pos, line).value;
    if to.1 == Between {
      CloseBlock(cfg, start, blocks, pos, to.0[|to.0| - 1], line);
    } else {
      MoveOn(start, blocks, pos, to.1, line);
    }
  }

  lemma {:induction false} CloseBlock(cfg: Config, start: Line, blocks: seq<Block>, pos: Position, b: Block, line: Line)
    requires BlockLines(b) == PositionLines(pos) + [line]
    ensures Prefix(start, blocks + [b], Between) == Prefix(start, blocks, pos) + [line]
  {
    assert (blocks + [b])[..|blocks|] == blocks;
    assert Concat(blocks + [b]) == Concat(blocks) + (PositionLines(pos) + [line]);
  }

  lemma {:induction false} MoveOn(start: Line, blocks: seq<Block>, pos: Position, next: Position, line: Line)
    requires PositionLines(next) == PositionLines(pos) + [line]
    ensures Prefix(start, blocks, next) == Prefix(start, blocks, pos) + [line]
  {
  }

  lemma {:induction false} NextParsed(cfg: Config, blocks: seq<Block>, pos: Position, line: Line)
    requires Parsed(cfg, blocks, pos) && Next(cfg, blocks, pos, line).Some?
    ensures var to := Next(cfg, blocks, pos, line).value; Parsed(cfg, to.0, to.1)
  {
  }

  lemma {:induction false} NextReached(cfg: Config, start: Line, blocks: seq<Block>, pos: Position, line: Line)
    requires Reached(cfg, start, blocks, pos) && FollowsFrame(Prefix(start, blocks, pos), line)
    requires Next(cfg, blocks, pos, line).Some?
    ensures var to := Next(cfg, blocks, pos, line).value; Reached(cfg, start, to.0, to.1)
  {
    AppendLine(Prefix(start, blocks, pos), line);
    NextPrefix(cfg, start, blocks, pos, line);
    NextParsed(cfg, blocks, pos, line);
  }

  lemma {:induction false} StepFrames(cfg: Config, lines: seq<Line>, run: Progress, line: Line)
    requires lines != []
    ensures AfterLine(cfg, Framing(lines, run), line) ==
            if FollowsFrame(lines, line) && AfterBody(cfg, run, line).Some?
            then Some(Framing(lines + [line], AfterBody(cfg, run, line).value))
            else None
  {
  }

  /** The automaton steps exactly when the parse can be extended, and to the extended parse's totals. */
  lemma {:induction false} StepFollowsParse(cfg: Config, start: Line, blocks: seq<Block>, pos: Position, line: Line)
    requires Reached(cfg, start, blocks, pos)
    ensures AfterLine(cfg, StateAt(start, blocks, pos), line) ==
            if FollowsFrame(Prefix(start, blocks, pos), line) && Next(cfg, blocks, pos, line).Some?
            then Some(StateAt(start, Next(cfg, blocks, pos, line).value.0, Next(cfg, blocks, pos, line).value.1))
            else None
  {
    StepFrames(cfg, Prefix(start, blocks, pos), Totals(blocks, pos), line);
    if FollowsFrame(Prefix(start, blocks, pos), line) {
      BodyFollows(cfg, start, blocks, pos, line);
      if Next(cfg, blocks, pos, line).Some? {
        NextPrefix(cfg, start, blocks, pos, line);
      }
    }
  }

  // ---------------------------------------------------------------- whole logs

  lemma {:induction false} FirstLine(cfg: Config, line: Line)
    ensures AfterLines(cfg, [line]).Some? <==> Reached(cfg, line, [], Between)
    ensures AfterLines(cfg, [line]).Some? ==> AfterLines(cfg, [line]).value == StateAt(line, [], Between)
    ensures Prefix(line, [], Between) == [line]
  {
    OnlyStart(line);
    FirstStep(cfg, line);
  }

  lemma {:induction false} OnlyStart(line: Line)
    ensures Prefix(line, [], Between) == [line] && TotalSize([line]) == line.size && LastTime([line]) == Time(line)
    ensures Framed([line]) <==> FollowsFrame([], line)
  {
    assert [line][..0] == [];
    assert [] + [line] == [line];
    AppendLine([], line);
  }

  lemma {:induction false} FirstStep(cfg: Config, line: Line)
    ensures AfterLines(cfg, [line]) == AfterLine(cfg, INITIAL, line)
    ensures AfterLine(cfg, INITIAL, line).Some? <==> FollowsFrame([], line) && StartMeasured(line) && Time(line) == 0.0
  {
    assert [line][..0] == [];
    assert AfterLines(cfg, []) == Some(INITIAL);
  }

  /** Every log the automaton does not refuse has a parse, and the totals are those of the parse. */
  lemma {:induction false} AcceptedIsParsed(cfg: Config, lines: seq<Line>) returns (blocks: seq<Block>, pos: Position)
    requires lines != [] && AfterLines(cfg, lines).Some?
    ensures lines == Prefix(lines[0], blocks, pos)
    ensures Reached(cfg, lines[0], blocks, pos)
    ensures AfterLines(cfg, lines).value == StateAt(lines[0], blocks, pos)
    decreases |lines|
  {
    if |lines| == 1 {
      FirstLine(cfg, lines[0]);
      assert lines == [lines[0]];
      blocks, pos := [], Between;
    } else {
      var shorter, line := lines[..|lines| - 1], lines[|lines| - 1];
      LastStep(cfg, lines);
      var before, at := AcceptedIsParsed(cfg, shorter);
      assert lines == shorter + [line];
      blocks, pos := ParseOneMore(cfg, lines[0], before, at, line);
    }
  }

  lemma {:induction false} LastStep(cfg: Config, lines: seq<Line>)
    requires lines != [] && AfterLines(cfg, lines).Some?
    ensures var shorter := AfterLines(cfg, lines[..|lines| - 1]);
            shorter.Some? && AfterLines(cfg, lines) == AfterLine(cfg, shorter.value, lines[|lines| - 1])
  {
  }

  lemma {:induction false} ParseOneMore(cfg: Config, start: Line, before: seq<Block>, at: Position, line: Line)
    returns (blocks: seq<Block>, pos: Position)
    requires Reached(cfg, start, before, at) && AfterLine(cfg, StateAt(start, before, at), line).Some?
    ensures Prefix(start, before, at) + [line] == Prefix(start, blocks, pos)
    ensures Reached(cfg, start, blocks, pos)
    ensures AfterLine(cfg, StateAt(start, before, at), line).value == StateAt(start, blocks, pos)
  {
    StepFollowsParse(cfg, start, before, at, line);
    NextPrefix(cfg, start, before, at, line);
    NextReached(cfg, start, before, at, line);
    var to := Next(cfg, before, at, line).value;
    blocks, pos := to.0, to.1;
  }

  lemma {:induction false} BeforeBlock(cfg: Config, before: seq<Block>, b: Block) returns (at: Position, line: Line)
    requires Structured(cfg, before + [b]) && Measured(before + [b])
    ensures Parsed(cfg, before, at) && Next(cfg, before, at, line) == Some((before + [b], Between))
  {
    AppendBlock(cfg, before, b);
    line := End(b);
    at := if b.CycleBlock? then Between else Inside(b.start);
  }

  /** The parse before the last record. */
  lemma {:induction false} Before(cfg: Config, blocks: seq<Block>, pos: Position)
    returns (before: seq<Block>, at: Position, line: Line)
    requires Parsed(cfg, blocks, pos) && (blocks != [] || pos != Between)
    ensures Parsed(cfg, before, at) && Next(cfg, before, at, line) == Some((blocks, pos))
  {
    match pos {
      case Between =>
        before := blocks[..|blocks| - 1];
        assert blocks == before + [blocks[|blocks| - 1]];
        at, line := BeforeBlock(cfg, before, blocks[|blocks| - 1]);
      case Inside(open) => before, at, line := blocks, Between, open;
      case Over(done) => before, at, line := blocks, Between, done;
      case Verified(done, last) => before, at, line := blocks, Over(done), last;
    }
  }

  /** Conversely, every parsed log is accepted. */
  lemma {:induction false} ParsedIsAccepted(cfg: Config, start: Line, blocks: seq<Block>, pos: Position)
    requires Reached(cfg, start, blocks, pos)
    ensures AfterLines(cfg, Prefix(start, blocks, pos)) == Some(StateAt(start, blocks, pos))
    decreases |Prefix(start, blocks, pos)|
  {
    if blocks == [] && pos == Between {
      FirstLine(cfg, start);
    } else {
      var before, at, line := Before(cfg, blocks, pos);
      var lines := Prefix(start, before, at);
      NextPrefix(cfg, start, before, at, line);
      AppendLine(lines, line);
      ParsedIsAccepted(cfg, start, before, at);
      StepFollowsParse(cfg, start, before, at, line);
      assert (lines + [line])[..|lines + [line]| - 1] == lines;
    }
  }

  /** What `replay` reports of a complete log. */
  function Summary(log: Log): (r: Report) {
    Report(Time(log.done), Cycles(log.blocks), Started(log.blocks),
           Max(LongestGap(log.blocks), Time(log.done) - EndTime(log.blocks)), |LogLines(log)|, TotalSize(LogLines(log)))
  }

  lemma {:induction false} LogIsParsed(cfg: Config, log: Log)
    ensures LogLines(log) == Prefix(log.start, log.blocks, Verified(log.done, log.last))
    ensures LogStructured(cfg, log) && LogMeasured(log) <==>
            && Reached(cfg, log.start, log.blocks, Verified(log.done, log.last))
            && Cycles(log.blocks) > 0 && EnoughRuns(cfg, Started(log.blocks))
  {
  }

  /** A complete log is accepted, and the report is the one its blocks determine. */
  lemma {:induction false} CompleteIsAccepted(cfg: Config, log: Log)
    requires LogStructured(cfg, log) && LogMeasured(log)
    ensures Verdict(cfg, LogLines(log)) == Some(Summary(log))
  {
    LogIsParsed(cfg, log);
    ParsedIsAccepted(cfg, log.start, log.blocks, Verified(log.done, log.last));
  }

  /** An accepted log is complete: no success flag, only the records. */
  lemma {:induction false} AcceptedIsComplete(cfg: Config, lines: seq<Line>) returns (log: Log)
    requires Verdict(cfg, lines).Some?
    ensures lines == LogLines(log) && LogStructured(cfg, log) && LogMeasured(log)
    ensures Verdict(cfg, lines) == Some(Summary(log))
  {
    var blocks, pos := AcceptedIsParsed(cfg, lines);
    log := Log(lines[0], blocks, pos.done, pos.last);
    LogIsParsed(cfg, log);
  }

  /** Replay succeeds on exactly the complete logs. */
  lemma {:induction false} AcceptedIffComplete(cfg: Config, lines: seq<Line>)
    ensures Verdict(cfg, lines).Some? <==> Complete(cfg, lines)
  {
    if Verdict(cfg, lines).Some? {
      var log := AcceptedIsComplete(cfg, lines);
    }
    if Complete(cfg, lines) {
      var log :| lines == LogLines(log) && LogStructured(cfg, log) && LogMeasured(log);
      CompleteIsAccepted(cfg, log);
    }
  }
}
