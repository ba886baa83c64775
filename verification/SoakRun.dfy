/**
  The soak driver of benchmarks/broker_soak.py: the scheduler that writes the log
  `replay` later judges. The clock and everything the broker does are adversarial.
  */
module SoakRun {
  import opened Wrappers
  import opened SoakLog
  import opened SoakReplay
  import opened SoakCompleteness
  import SoakCoverage

  /** A monotonic clock that may be read finitely often; the process ends when it runs out. */
  class Clock {
    const readings: seq<real>
    var next: nat
    var last: real

    ghost predicate Valid()
      reads this
    {
      next <= |readings|
    }

    ghost function Left(): (r: nat)
      requires Valid()
      reads this
    {
      |readings| - next
    }

    constructor (readings: seq<real>)
      ensures Valid()
    {
      this.readings := readings;
      next, last := 0, 0.0;
    }

    method Read() returns (ok: bool, t: real)
      requires Valid()
      modifies this
      ensures Valid() && t == last && t >= old(last)
      ensures ok ==> Left() < old(Left())
      ensures !ok ==> Left() == old(Left())
    {
      if next == |readings| {
        return false, last;
      }
      last := Max(last, readings[next]);
      next := next + 1;
      return true, last;
    }
  }

  /** The append-only observation journal. */
  class Journal {
    const clean: Body -> bool
    const size: (nat, Option<real>, Body) -> nat
    var lines: seq<Line>
    var count: nat
    var bytes: nat

    ghost predicate Valid()
      reads this
    {
      count == |lines| && bytes == TotalSize(lines) && bytes <= MAX_LOG
    }

    constructor (clean: Body -> bool, size: (nat, Option<real>, Body) -> nat)
      ensures Valid() && lines == []
    {
      this.clean, this.size := clean, size;
      lines, count, bytes := [], 0, 0;
    }

    /** A record is written whole or not at all; credentials and oversized records are refused. */
    method Append(elapsed: Option<real>, body: Body) returns (ok: bool)
      requires Valid()
      modifies this
      ensures Valid()
      ensures !ok ==> lines == old(lines)
      ensures ok ==> lines == old(lines) + [Line(size(old(count), elapsed, body), true, true, old(count), elapsed, body)]
      ensures ok && elapsed.Some? && elapsed.value >= LastTime(old(lines)) ==> FollowsFrame(old(lines), lines[|lines| - 1])
      ensures ok <==> clean(body) && size(old(count), elapsed, body) <= MAX_LINE && old(bytes) + size(old(count), elapsed, body) <= MAX_LOG
    {
      if !clean(body) {
        return false;
      }
      var payload := size(count, elapsed, body);
      if payload > MAX_LINE || bytes + payload > MAX_LOG {
        return false;
      }
      var line := Line(payload, true, true, count, elapsed, body);
      AppendLine(lines, line);
      lines := lines + [line];
      count := count + 1;
      bytes := bytes + payload;
      return true;
    }
  }

  // ---------------------------------------------------------------- the shape of what is written

  /** A journal between blocks: started, framed and structured, whatever was measured. */
  predicate Going(cfg: Config, lines: seq<Line>, start: Line, blocks: seq<Block>) {
    && start.body.Start? && start.elapsed == Some(0.0)
    && lines == Prefix(start, blocks, Between)
    && Framed(lines) && Structured(cfg, blocks)
    && (Cycles(blocks) == 0 ==> blocks == [])
  }

  predicate Unfinished(lines: seq<Line>) {
    lines == [] || !lines[|lines| - 1].body.FinalVerification?
  }

  lemma {:induction false} GoingIsUnfinished(cfg: Config, lines: seq<Line>, start: Line, blocks: seq<Block>)
    requires Going(cfg, lines, start, blocks)
    ensures lines != [] && Unfinished(lines)
  {
  }

  lemma {:induction false} StartGoes(cfg: Config, start: Line)
    requires start.body.Start? && start.elapsed == Some(0.0) && FollowsFrame([], start)
    ensures Going(cfg, [start], start, [])
  {
  }

  lemma {:induction false} CycleGoes(cfg: Config, lines: seq<Line>, start: Line, blocks: seq<Block>, line: Line)
    requires Going(cfg, lines, start, blocks) && line.body.Cycle? && FollowsFrame(lines, line)
    ensures Going(cfg, lines + [line], start, blocks + [CycleBlock(line)])
    ensures Cycles(blocks + [CycleBlock(line)]) == Cycles(blocks) + 1
    ensures Started(blocks + [CycleBlock(line)]) == Started(blocks)
  {
  }

  lemma {:induction false} BracketGoes(cfg: Config, lines: seq<Line>, start: Line, blocks: seq<Block>, open: Line, close: Line)
    requires Going(cfg, lines, start, blocks) && blocks != []
    requires BlockStructured(cfg, blocks, MaintenanceBlock(open, close))
    requires FollowsFrame(lines, open) && FollowsFrame(lines + [open], close)
    ensures var b := MaintenanceBlock(open, close);
            && Going(cfg, lines + [open] + [close], start, blocks + [b])
            && Cycles(blocks + [b]) == Cycles(blocks)
            && Started(blocks + [b]) == Started(blocks).Bump(open.body.phase.value)
  {
    var b := MaintenanceBlock(open, close);
    AppendLine(lines, open);
    AppendLine(lines + [open], close);
    AppendBlock(cfg, blocks, b);
    MoveOn(start, blocks, Between, Inside(open), open);
    CloseBlock(cfg, start, blocks, Inside(open), b, close);
  }

  // ---------------------------------------------------------------- what the driver has judged itself

  predicate AllPass(observations: seq<bool>) {
    forall i :: 0 <= i < |observations| ==> observations[i]
  }

  /** The driver goes on only after checking observations and memory of a cycle, and the inner duration of a phase. */
  predicate Judged(b: Block) {
    match b
    case CycleBlock(line) => line.body.Cycle? && AllPass(line.body.observations) && SumOf(line.body.rss) <= MAX_RSS
    case MaintenanceBlock(start, end) =>
      end.body.MaintenanceEnd? && 0.0 <= end.body.duration <= MAX_MAINTENANCE && end.body.duration <= Time(end) - Time(start)
  }

  predicate AllJudged(blocks: seq<Block>) {
    blocks == [] || (AllJudged(blocks[..|blocks| - 1]) && Judged(blocks[|blocks| - 1]))
  }

  lemma {:induction false} JudgedSnoc(blocks: seq<Block>, b: Block)
    ensures AllJudged(blocks + [b]) <==> AllJudged(blocks) && Judged(b)
  {
  }

  /** An unfinished journal is never replayed as a success. */
  lemma {:induction false} UnfinishedIsRejected(cfg: Config, lines: seq<Line>)
    requires Unfinished(lines)
    ensures Verdict(cfg, lines).None?
  {
    if Verdict(cfg, lines).Some? {
      AcceptedEndsVerified(cfg, lines);
    }
  }

  lemma {:induction false} AcceptedEndsVerified(cfg: Config, lines: seq<Line>)
    requires Verdict(cfg, lines).Some?
    ensures !Unfinished(lines)
  {
    var log := AcceptedIsComplete(cfg, lines);
    assert lines[|lines| - 1] == log.last;
  }

  // ---------------------------------------------------------------- the driver

  datatype CycleOutcome = CycleOutcome(alive: bool, observations: seq<bool>, rss: seq<int>)

  /** What the broker and the actors do, by position in the run. */
  datatype World = World(
    pids: seq<int>, initial: seq<Event>, cycle: nat -> CycleOutcome,
    maintain: (Phase, nat) -> (bool, seq<Event>), verify: (bool, seq<Event>))

  datatype Measurements = Measurements(elapsed: real, cycles: nat, counts: Counts, maximumGap: real)

  function Last(lines: seq<Line>): (r: Line)
    requires lines != []
  {
    lines[|lines| - 1]
  }

  /** One record more, at the given time and within the frame. */
  predicate Noted(before: seq<Line>, after: seq<Line>, body: Body, t: real) {
    && after != [] && after == before + [Last(after)]
    && Last(after).body == body && Last(after).elapsed == Some(t)
    && FollowsFrame(before, Last(after))
  }

  /** The driver's counters are those of the journal. */
  predicate Tracks(cfg: Config, lines: seq<Line>, start: Line, blocks: seq<Block>, cycles: nat, counts: Counts) {
    Going(cfg, lines, start, blocks) && cycles == Cycles(blocks) && counts == Started(blocks)
  }

  lemma {:induction false} BracketNoted(
    cfg: Config, start: Line, blocks: seq<Block>, before: seq<Line>, within: seq<Line>, after: seq<Line>,
    cycles: nat, counts: Counts, phase: Phase, begin: real, end: real, duration: real, checks: seq<Event>)
    requires Tracks(cfg, before, start, blocks, cycles, counts) && cycles > 0
    requires begin >= ((counts.At(phase) + 1) * cfg.Period(phase)) as real && 0.0 <= duration <= end - begin
    requires Noted(before, within, MaintenanceStart(Some(phase), counts.At(phase) + 1), begin)
    requires Noted(within, after, MaintenanceEnd(Some(phase), counts.At(phase) + 1, duration, checks), end)
    ensures Tracks(cfg, after, start, blocks + [MaintenanceBlock(Last(within), Last(after))], cycles, counts.Bump(phase))
    ensures LastTime(after) == end
    ensures duration <= MAX_MAINTENANCE ==> Judged(MaintenanceBlock(Last(within), Last(after)))
  {
    BracketGoes(cfg, before, start, blocks, Last(within), Last(after));
  }

  /** A returned run's journal is a structured log, and its measurements are the log's. */
  predicate Wrote(cfg: Config, lines: seq<Line>, log: Log, m: Measurements) {
    && lines == LogLines(log) && Framed(lines) && LogStructured(cfg, log) && AllJudged(log.blocks)
    && m.elapsed == Time(log.done) && m.cycles == Cycles(log.blocks) && m.counts == Started(log.blocks)
  }

  lemma {:induction false} FinishNoted(
    cfg: Config, log: Log, before: seq<Line>, within: seq<Line>, after: seq<Line>,
    cycles: nat, counts: Counts, done: real, end: real, checks: seq<Event>)
    requires Registered(cfg) && Tracks(cfg, before, log.start, log.blocks, cycles, counts) && EnoughRuns(cfg, counts)
    requires Noted(before, within, DurationComplete, done) && done >= cfg.seconds as real
    requires Noted(within, after, FinalVerification(checks), end)
    requires log.done == Last(within) && log.last == Last(after)
    ensures after == LogLines(log) && Framed(after) && LogStructured(cfg, log)
  {
    AppendLine(before, log.done);
    AppendLine(within, log.last);
    assert counts.At(Mutation) >= (cfg.seconds - 30) / cfg.Period(Mutation) >= 1;
  }

  class Soak {
    const cfg: Config
    const world: World
    const clock: Clock
    const journal: Journal
    var started: real
    var counts: Counts
    var cycles: nat
    var maximumGap: real
    var lastProgress: real
    ghost var start: Line
    ghost var blocks: seq<Block>

    constructor (cfg: Config, world: World, clock: Clock, journal: Journal)
      ensures this.cfg == cfg && this.world == world && this.clock == clock && this.journal == journal
    {
      this.cfg, this.world, this.clock, this.journal := cfg, world, clock, journal;
      counts, cycles := ZERO, 0;
    }

    ghost predicate Valid()
      reads this, clock, journal
    {
      clock.Valid() && journal.Valid()
    }

    /** Between two steps of the schedule the counters are those of the journal, and its blocks have been judged. */
    ghost predicate Running()
      reads this, clock, journal
    {
      Recorded() && AllJudged(blocks)
    }

    ghost predicate Recorded()
      reads this, clock, journal
    {
      && Valid()
      && Tracks(cfg, journal.lines, start, blocks, cycles, counts)
      && LastTime(journal.lines) <= clock.last - started
    }

    method Begin() returns (ok: bool)
      requires Valid() && journal.lines == []
      modifies this, clock, journal
      ensures Valid() && clock.Left() <= old(clock.Left())
      ensures ok ==> Running()
      ensures !ok ==> Unfinished(journal.lines)
    {
      var t;
      ok, t := clock.Read();
      if !ok {
        return;
      }
      started := t;
      ok := journal.Append(Some(0.0), Start(world.pids, world.initial));
      if !ok {
        return;
      }
      counts, cycles, maximumGap, lastProgress := ZERO, 0, 0.0, t;
      start, blocks := journal.lines[0], [];
      assert journal.lines == [start];
      StartGoes(cfg, start);
    }

    /** Read the clock and record what happened at that time. */
    method Note(body: Body) returns (ok: bool, t: real)
      requires Valid() && LastTime(journal.lines) <= clock.last - started
      modifies clock, journal
      ensures Valid() && clock.Left() <= old(clock.Left())
      ensures t == clock.last >= old(clock.last)
      ensures !ok ==> journal.lines == old(journal.lines)
      ensures ok ==> Noted(old(journal.lines), journal.lines, body, t - started)
    {
      ok, t := clock.Read();
      if !ok {
        return;
      }
      ok := NoteAt(t, body);
    }

    method NoteAt(t: real, body: Body) returns (ok: bool)
      requires Valid() && LastTime(journal.lines) <= t - started
      modifies journal
      ensures Valid()
      ensures !ok ==> journal.lines == old(journal.lines)
      ensures ok ==> Noted(old(journal.lines), journal.lines, body, t - started)
    {
      ghost var before := journal.lines;
      ok := journal.Append(Some(t - started), body);
      if ok {
        assert journal.lines == before + [Last(journal.lines)];
      }
    }

    /** One cycle of all actors: recorded before it is judged. */
    method RunCycle() returns (ok: bool)
      requires Running()
      modifies this, clock, journal
      ensures Valid() && clock.Left() <= old(clock.Left())
      ensures ok ==> Running() && cycles == old(cycles) + 1 && counts == old(counts) && started == old(started)
      ensures ok ==> lastProgress == old(lastProgress) && maximumGap == old(maximumGap)
      ensures !ok ==> Unfinished(journal.lines)
    {
      GoingIsUnfinished(cfg, journal.lines, start, blocks);
      var outcome := world.cycle(cycles);
      if !outcome.alive {
        return false;
      }
      ghost var before := journal.lines;
      var t;
      ok, t := Note(Cycle(outcome.observations, outcome.rss));
      if !ok {
        return;
      }
      ghost var line := Last(journal.lines);
      CycleGoes(cfg, before, start, blocks, line);
      JudgedSnoc(blocks, CycleBlock(line));
      blocks := blocks + [CycleBlock(line)];
      if !AllPass(outcome.observations) || SumOf(outcome.rss) > MAX_RSS {
        return false;
      }
      cycles := cycles + 1;
    }

    /** A phase runs when its next scheduled time has come; its bracket is closed even when it fails. */
    method RunPhase(phase: Phase) returns (ok: bool)
      requires Running() && cycles > 0
      modifies this, clock, journal
      ensures Valid() && clock.Left() <= old(clock.Left())
      ensures ok ==> Running() && cycles == old(cycles) && started == old(started)
      ensures ok ==> counts == old(counts) || counts == old(counts).Bump(phase)
      ensures !ok ==> Unfinished(journal.lines)
    {
      GoingIsUnfinished(cfg, journal.lines, start, blocks);
      var t;
      ok, t := clock.Read();
      if !ok || t - started < ((counts.At(phase) + 1) * cfg.Period(phase)) as real {
        return;
      }
      var passed, elapsed;
      ok, passed, elapsed := RunBracket(phase);
      if !ok {
        return;
      }
      GoingIsUnfinished(cfg, journal.lines, start, blocks);
      if !passed || elapsed > MAX_MAINTENANCE {
        return false;
      }
      ok, lastProgress := clock.Read();
    }

    /** The two records of a bracket, the second one written whatever the phase did. */
    method Bracket(phase: Phase, number: nat) returns (ok: bool, begin: real, end: real, ghost within: seq<Line>)
      requires Valid() && LastTime(journal.lines) <= clock.last - started && Unfinished(journal.lines)
      modifies clock, journal
      ensures Valid() && clock.Left() <= old(clock.Left()) && clock.last >= end >= begin >= old(clock.last)
      ensures ok ==> Noted(old(journal.lines), within, MaintenanceStart(Some(phase), number), begin - started)
      ensures ok ==> Noted(within, journal.lines, MaintenanceEnd(Some(phase), number, end - begin, world.maintain(phase, number).1),
                           clock.last - started)
      ensures !ok ==> Unfinished(journal.lines)
    {
      ok, begin := Note(MaintenanceStart(Some(phase), number));
      within, end := journal.lines, begin;
      if !ok {
        return;
      }
      var outcome := world.maintain(phase, number);
      ok, end := clock.Read();
      if !ok {
        return;
      }
      var t;
      ok, t := Note(MaintenanceEnd(Some(phase), number, end - begin, outcome.1));
    }

    method RunBracket(phase: Phase) returns (ok: bool, passed: bool, elapsed: real)
      requires Running() && cycles > 0
      requires clock.last - started >= ((counts.At(phase) + 1) * cfg.Period(phase)) as real
      requires Unfinished(journal.lines)
      modifies this, clock, journal
      ensures Valid() && clock.Left() <= old(clock.Left())
      ensures ok ==> Recorded() && cycles == old(cycles) && started == old(started)
      ensures ok && elapsed <= MAX_MAINTENANCE ==> Running()
      ensures ok ==> counts == old(counts).Bump(phase) && lastProgress == old(lastProgress)
      ensures !ok ==> Unfinished(journal.lines)
    {
      var number := counts.At(phase) + 1;
      ghost var before := journal.lines;
      var begin, end;
      ghost var within;
      ok, begin, end, within := Bracket(phase, number);
      passed, elapsed := false, end - begin;
      if !ok {
        return;
      }
      var outcome := world.maintain(phase, number);
      BracketNoted(cfg, start, blocks, before, within, journal.lines, cycles, counts, phase,
                   begin - started, clock.last - started, end - begin, outcome.1);
      JudgedSnoc(blocks, MaintenanceBlock(Last(within), Last(journal.lines)));
      blocks := blocks + [MaintenanceBlock(Last(within), Last(journal.lines))];
      counts := counts.Bump(phase);
      passed, elapsed := outcome.0, end - begin;
    }

    method RunPhases() returns (ok: bool)
      requires Running() && cycles > 0
      modifies this, clock, journal
      ensures Valid() && clock.Left() <= old(clock.Left())
      ensures ok ==> Running()
      ensures !ok ==> Unfinished(journal.lines)
    {
      for i := 0 to |PHASES|
        invariant Running() && cycles > 0 && clock.Left() <= old(clock.Left())
      {
        ok := RunPhase(PHASES[i]);
        if !ok {
          return;
        }
      }
      ok := true;
    }

    /** Compare the time since the last progress with the registered gap. */
    method CheckGap() returns (ok: bool, now: real)
      requires Running()
      modifies this`maximumGap, clock
      ensures Running() && clock.Left() <= old(clock.Left()) && (ok ==> clock.Left() < old(clock.Left()))
      ensures ok ==> now - lastProgress <= MAX_GAP
    {
      ok, now := clock.Read();
      if !ok {
        return;
      }
      maximumGap := Max(maximumGap, now - lastProgress);
      ok := now - lastProgress <= MAX_GAP;
    }

    /** One turn of the schedule: a cycle, then every phase that is due. */
    method RunTurn() returns (ok: bool, over: bool)
      requires Running()
      modifies this, clock, journal
      ensures Valid() && clock.Left() <= old(clock.Left()) && (ok ==> clock.Left() < old(clock.Left()))
      ensures ok ==> Running()
      ensures !ok ==> Unfinished(journal.lines)
    {
      GoingIsUnfinished(cfg, journal.lines, start, blocks);
      over := false;
      var now;
      ok, now := CheckGap();
      if !ok {
        return;
      }
      if now - started >= cfg.seconds as real {
        over := true;
        return;
      }
      ok := RunCycle();
      if !ok {
        return;
      }
      GoingIsUnfinished(cfg, journal.lines, start, blocks);
      ok, now := CheckGap();
      if !ok {
        return;
      }
      ok, lastProgress := clock.Read();
      if !ok {
        return;
      }
      ok := RunPhases();
    }

    /** The turns until the registered duration has passed. */
    method RunTurns() returns (ok: bool)
      requires Running()
      modifies this, clock, journal
      ensures Valid()
      ensures ok ==> Running()
      ensures !ok ==> Unfinished(journal.lines)
    {
      GoingIsUnfinished(cfg, journal.lines, start, blocks);
      var now;
      ok, now := clock.Read();
      while ok && now - started < cfg.seconds as real
        invariant Valid() && (ok ==> Running())
        invariant !ok ==> Unfinished(journal.lines)
        decreases clock.Left(), ok
      {
        var over;
        ok, over := RunTurn();
        if !ok || over {
          return;
        }
        GoingIsUnfinished(cfg, journal.lines, start, blocks);
        ok, now := clock.Read();
      }
    }

    /** Completion, the required number of runs, and the final verification. */
    method Finish() returns (r: Option<Measurements>, ghost log: Log)
      requires Running() && Registered(cfg)
      modifies clock, journal
      ensures Valid()
      ensures r.Some? ==> Wrote(cfg, journal.lines, log, r.value)
      ensures r.None? ==> Unfinished(journal.lines)
    {
      GoingIsUnfinished(cfg, journal.lines, start, blocks);
      ghost var before := journal.lines;
      log := Log(start, blocks, start, start);
      var ok, t := clock.Read();
      if !ok || t - started < cfg.seconds as real {
        return None, log;
      }
      ok := NoteAt(t, DurationComplete);
      if !ok {
        return None, log;
      }
      var enough := RanEnough(cfg, counts);
      if !enough || !world.verify.0 {
        return None, log;
      }
      ok, log := Verify(t, before);
      if ok {
        r := Some(Measurements(t - started, cycles, counts, maximumGap));
      } else {
        r := None;
      }
    }

    /** The record that closes a log. */
    method Verify(done: real, ghost before: seq<Line>) returns (ok: bool, ghost log: Log)
      requires Valid() && Registered(cfg) && EnoughRuns(cfg, counts) && AllJudged(blocks)
      requires Tracks(cfg, before, start, blocks, cycles, counts) && done - started >= cfg.seconds as real
      requires Noted(before, journal.lines, DurationComplete, done - started) && clock.last >= done
      modifies clock, journal
      ensures Valid()
      ensures ok ==> journal.lines == LogLines(log) && Framed(journal.lines) && LogStructured(cfg, log)
      ensures ok ==> log.blocks == blocks && Time(log.done) == done - started
      ensures !ok ==> Unfinished(journal.lines)
    {
      ghost var within := journal.lines;
      log := Log(start, blocks, Last(within), Last(within));
      var end;
      ok, end := Note(FinalVerification(world.verify.1));
      if ok {
        log := Log(start, blocks, Last(within), Last(journal.lines));
        FinishNoted(cfg, log, before, within, journal.lines, cycles, counts, done - started, end - started, world.verify.1);
      }
    }

    /** The whole run: it returns only with a structured log, and otherwise leaves an unfinished one. */
    method Run() returns (r: Option<Measurements>, ghost log: Log)
      requires Valid() && journal.lines == [] && Registered(cfg)
      modifies this, clock, journal
      ensures Valid()
      ensures r.Some? ==> Wrote(cfg, journal.lines, log, r.value)
      ensures r.None? ==> Unfinished(journal.lines)
    {
      log := Log(start, [], start, start);
      var ok := Begin();
      if !ok {
        return None, log;
      }
      ok := RunTurns();
      if !ok {
        return None, log;
      }
      r, log := Finish();
    }

    /**
      The command around the run: a failed run or a changed input is recorded and ends the
      log; otherwise the retained log is replayed and only the replay decides.
      */
    method Execute(inputsSame: bool, cleaned: bool) returns (status: Status)
      requires Valid() && journal.lines == [] && Registered(cfg)
      modifies this, clock, journal
      ensures status.Passed? ==> Complete(cfg, journal.lines) && Verdict(cfg, journal.lines) == Some(status.report)
      ensures !status.Escaped? && cleaned ==> (status.Passed? <==> Verdict(cfg, journal.lines).Some?)
      ensures status.Passed? ==> inputsSame && cleaned
    {
      var r;
      ghost var log;
      r, log := Run();
      var failed := r.None? || !inputsSame;
      if failed {
        var ok := journal.Append(None, Other);
        if !ok {
          return Escaped;
        }
        UnfinishedIsRejected(cfg, journal.lines);
      }
      if failed || !cleaned {
        return Incomplete;
      }
      var report := Replay(cfg, journal.lines);
      if report.None? {
        return Incomplete;
      }
      AcceptedIffComplete(cfg, journal.lines);
      return Passed(report.value);
    }
  }

  /** `Escaped` is a failure whose own record could not be written. */
  datatype Status = Passed(report: Report) | Incomplete | Escaped

  // ---------------------------------------------------------------- the run against its replay

  /** A log has one reading: the lines determine the blocks. */
  lemma {:induction false} BlocksAreUnique(cfg: Config, a: seq<Block>, b: seq<Block>)
    requires Structured(cfg, a) && Structured(cfg, b) && Concat(a) == Concat(b)
    ensures a == b
    decreases |a|
  {
    if a == [] || b == [] {
    } else {
      var a0, x := a[..|a| - 1], a[|a| - 1];
      var b0, y := b[..|b| - 1], b[|b| - 1];
      LastBlockIsUnique(cfg, a0, x, b0, y);
      BlocksAreUnique(cfg, a0, b0);
    }
  }

  lemma {:induction false} LastBlockIsUnique(cfg: Config, a: seq<Block>, x: Block, b: seq<Block>, y: Block)
    requires BlockStructured(cfg, a, x) && BlockStructured(cfg, b, y)
    requires Concat(a) + BlockLines(x) == Concat(b) + BlockLines(y)
    ensures x == y && Concat(a) == Concat(b)
  {
    var lines := Concat(a) + BlockLines(x);
    assert lines[|lines| - 1] == End(x) == End(y);
    if x.MaintenanceBlock? {
      assert lines[|lines| - 2] == x.start == y.start;
    }
    assert lines[..|Concat(a)|] == Concat(a);
    assert lines[..|Concat(b)|] == Concat(b);
  }

  lemma {:induction false} LogIsUnique(cfg: Config, a: Log, b: Log)
    requires LogStructured(cfg, a) && LogStructured(cfg, b) && LogLines(a) == LogLines(b)
    ensures a == b
  {
    var lines := LogLines(a);
    var n := |lines|;
    assert lines[0] == a.start == b.start;
    assert lines[n - 2] == a.done == b.done;
    assert lines[n - 1] == a.last == b.last;
    assert lines[1..n - 2] == Concat(a.blocks);
    assert lines[1..n - 2] == Concat(b.blocks);
    BlocksAreUnique(cfg, a.blocks, b.blocks);
  }

  /** What replay checks of a block and the driver did not: gaps, shapes, outer durations and recorded checks. */
  predicate BlockRemains(earlier: seq<Block>, b: Block) {
    && Time(Begin(b)) - EndTime(earlier) <= MAX_GAP
    && match b
       case CycleBlock(line) =>
         line.body.Cycle? && |line.body.observations| == 12 && |line.body.rss| == 14 && forall i :: 0 <= i < 14 ==> line.body.rss[i] > 0
       case MaintenanceBlock(start, end) =>
         && end.body.MaintenanceEnd? && ChecksPass(end.body.checks)
         && Time(end) - Time(start) <= MAX_MAINTENANCE && Time(end) - Time(start) <= end.body.duration + 0.01
  }

  predicate AllRemain(blocks: seq<Block>) {
    blocks == [] || (AllRemain(blocks[..|blocks| - 1]) && BlockRemains(blocks[..|blocks| - 1], blocks[|blocks| - 1]))
  }

  predicate LogRemains(log: Log) {
    StartMeasured(log.start) && AllRemain(log.blocks) && FinishMeasured(log.blocks, log.done, log.last)
  }

  lemma {:induction false} JudgedBlock(earlier: seq<Block>, b: Block)
    requires Judged(b)
    ensures BlockMeasured(earlier, b) <==> BlockRemains(earlier, b)
  {
  }

  lemma {:induction false} JudgedBlocks(blocks: seq<Block>)
    requires AllJudged(blocks)
    ensures Measured(blocks) <==> AllRemain(blocks)
  {
    if blocks != [] {
      JudgedBlocks(blocks[..|blocks| - 1]);
      JudgedBlock(blocks[..|blocks| - 1], blocks[|blocks| - 1]);
    }
  }

  /**
    Replaying what a returned run wrote: it is accepted if and only if what the driver did not judge
    itself meets its bounds, and then it reports what the run reported.
    */
  lemma {:induction false} RunAgainstReplay(cfg: Config, lines: seq<Line>, log: Log, m: Measurements)
    requires Wrote(cfg, lines, log, m)
    ensures Verdict(cfg, lines).Some? <==> LogRemains(log)
    ensures Verdict(cfg, lines).Some? ==>
            var report := Verdict(cfg, lines).value;
            report.elapsed == m.elapsed && report.cycles == m.cycles && report.counts == m.counts
  {
    JudgedBlocks(log.blocks);
    if Verdict(cfg, lines).Some? {
      var parsed := AcceptedIsComplete(cfg, lines);
      LogIsUnique(cfg, log, parsed);
    }
    if LogRemains(log) {
      CompleteIsAccepted(cfg, log);
    }
  }

  /** For any clock, a returned run kept the schedule: numbered runs, none early and none missing. */
  lemma {:induction false} ReturnedRunIsScheduled(cfg: Config, lines: seq<Line>, log: Log, m: Measurements, phase: Phase)
    requires Wrote(cfg, lines, log, m)
    ensures SoakCoverage.Numbers(log.blocks, phase) == SoakCoverage.UpTo(m.counts.At(phase))
    ensures (cfg.seconds - 30) / cfg.Period(phase) <= m.counts.At(phase)
    ensures (m.counts.At(phase) * cfg.Period(phase)) as real <= m.elapsed
  {
    SoakCoverage.NumbersAreConsecutive(cfg, log.blocks, phase);
    SoakCoverage.LogRunsAreBounded(cfg, log, phase);
  }
}
