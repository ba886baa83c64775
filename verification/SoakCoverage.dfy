/** What an accepted soak log shows of the wall clock and of the maintenance schedule. */
module SoakCoverage {
  import opened Wrappers
  import opened SoakLog
  import opened SoakReplay
  import opened SoakCompleteness

  /** How long a log may stay silent after a record. */
  function Allowed(body: Body): (r: real) {
    if body.MaintenanceStart? || body.DurationComplete? then MAX_MAINTENANCE else MAX_GAP
  }

  lemma {:induction false} PrefixAccepted(cfg: Config, lines: seq<Line>, n: nat)
    requires AfterLines(cfg, lines).Some? && n <= |lines|
    ensures AfterLines(cfg, lines[..n]).Some?
  {
    if AfterLines(cfg, lines[..n]).None? {
      Refused(cfg, lines, n);
    }
  }

  lemma {:induction false} StepAllowed(cfg: Config, start: Line, blocks: seq<Block>, pos: Position, line: Line)
    requires Reached(cfg, start, blocks, pos) && Next(cfg, blocks, pos, line).Some?
    ensures var lines := Prefix(start, blocks, pos);
            Time(line) - LastTime(lines) <= Allowed(lines[|lines| - 1].body)
  {
  }

  /** Consecutive records are never further apart than the first of them allows. */
  lemma {:induction false} NoSilence(cfg: Config, lines: seq<Line>, i: nat)
    requires AfterLines(cfg, lines).Some? && i + 1 < |lines|
    ensures 0.0 <= Time(lines[i + 1]) - Time(lines[i]) <= Allowed(lines[i].body)
  {
    var earlier, line := lines[..i + 1], lines[i + 1];
    PrefixAccepted(cfg, lines, i + 1);
    PrefixAccepted(cfg, lines, i + 2);
    Extend(cfg, lines, i + 1, AfterLines(cfg, earlier).value);
    var blocks, pos := AcceptedIsParsed(cfg, earlier);
    StepFollowsParse(cfg, lines[0], blocks, pos, line);
    StepAllowed(cfg, lines[0], blocks, pos, line);
    assert LastTime(earlier) == Time(lines[i]);
  }

  /** Every instant of an accepted log lies within the silence its latest record allows. */
  lemma {:induction false} EveryInstantCovered(cfg: Config, lines: seq<Line>, t: real) returns (i: nat)
    requires AfterLines(cfg, lines).Some? && lines != [] && 0.0 <= t <= LastTime(lines)
    ensures i < |lines| && Time(lines[i]) <= t <= Time(lines[i]) + Allowed(lines[i].body)
    ensures i + 1 < |lines| ==> t <= Time(lines[i + 1])
  {
    i := 0;
    PrefixAccepted(cfg, lines, 1);
    assert lines[..1] == [lines[0]];
    FirstLine(cfg, lines[0]);
    while i + 1 < |lines| && Time(lines[i + 1]) <= t
      invariant i < |lines| && Time(lines[i]) <= t
    {
      i := i + 1;
    }
    if i + 1 < |lines| {
      NoSilence(cfg, lines, i);
    }
  }

  // ---------------------------------------------------------------- how long a log can take

  lemma {:induction false} BlocksCounted(cfg: Config, blocks: seq<Block>)
    requires Structured(cfg, blocks)
    ensures |blocks| == Cycles(blocks) + Started(blocks).Total()
  {
    if blocks != [] {
      BlocksCounted(cfg, blocks[..|blocks| - 1]);
    }
  }

  /** Each block adds at most its gap, and a bracket its own thirty seconds. */
  lemma {:induction false} EndTimeBound(cfg: Config, blocks: seq<Block>)
    requires Structured(cfg, blocks) && Measured(blocks)
    ensures EndTime(blocks) <= 5.0 * |blocks| as real + 30.0 * Started(blocks).Total() as real
  {
    if blocks != [] {
      var before, b := blocks[..|blocks| - 1], blocks[|blocks| - 1];
      EndTimeBound(cfg, before);
      BlockTakes(cfg, before, b);
      TotalGrows(before, b);
      assert blocks == before + [b];
    }
  }

  lemma {:induction false} TotalGrows(blocks: seq<Block>, b: Block)
    ensures Started(blocks + [b]).Total() == Started(blocks).Total() + (if PhaseOf(b).Some? then 1 else 0)
  {
    assert (blocks + [b])[..|blocks|] == blocks;
  }

  lemma {:induction false} BlockTakes(cfg: Config, before: seq<Block>, b: Block)
    requires BlockStructured(cfg, before, b) && BlockMeasured(before, b)
    ensures Time(End(b)) <= EndTime(before) + 5.0 + (if PhaseOf(b).Some? then 30.0 else 0.0)
  {
  }

  /** The registered duration was really observed, record by record. */
  lemma {:induction false} DurationObserved(cfg: Config, lines: seq<Line>)
    requires Verdict(cfg, lines).Some?
    ensures var report := Verdict(cfg, lines).value;
            && cfg.seconds as real <= report.elapsed
            && report.elapsed <= 5.0 * (report.cycles + report.counts.Total() + 1) as real + 30.0 * report.counts.Total() as real
            && 0.0 <= report.longestGap <= MAX_GAP
  {
    var log := AcceptedIsComplete(cfg, lines);
    BlocksCounted(cfg, log.blocks);
    EndTimeBound(cfg, log.blocks);
    GapBound(cfg, log.blocks);
  }

  lemma {:induction false} GapBound(cfg: Config, blocks: seq<Block>)
    requires Measured(blocks)
    ensures 0.0 <= LongestGap(blocks) <= MAX_GAP
  {
    if blocks != [] {
      GapBound(cfg, blocks[..|blocks| - 1]);
    }
  }

  // ---------------------------------------------------------------- the maintenance schedule

  /** The run numbers a log records for a phase, in order. */
  function Numbers(blocks: seq<Block>, phase: Phase): (r: seq<int>) {
    if blocks == [] then [] else
      var b := blocks[|blocks| - 1];
      Numbers(blocks[..|blocks| - 1], phase) + if PhaseOf(b) == Some(phase) then [b.start.body.number] else []
  }

  function UpTo(n: nat): (r: seq<int>) {
    if n == 0 then [] else UpTo(n - 1) + [n]
  }

  /** Runs of a phase are numbered one, two, three, with none skipped or repeated. */
  lemma {:induction false} NumbersAreConsecutive(cfg: Config, blocks: seq<Block>, phase: Phase)
    requires Structured(cfg, blocks)
    ensures Numbers(blocks, phase) == UpTo(Started(blocks).At(phase))
  {
    if blocks != [] {
      NumbersAreConsecutive(cfg, blocks[..|blocks| - 1], phase);
    }
  }

  /** Started and framed and structured, whatever was measured. */
  predicate Laid(cfg: Config, start: Line, blocks: seq<Block>) {
    start.elapsed == Some(0.0) && Structured(cfg, blocks) && Framed(Prefix(start, blocks, Between))
  }

  lemma {:induction false} LastTimeOfBlocks(start: Line, blocks: seq<Block>)
    requires start.elapsed == Some(0.0)
    ensures LastTime(Prefix(start, blocks, Between)) == EndTime(blocks)
  {
  }

  /** No run comes before its schedule, so no phase has run more often than the elapsed time allows. */
  lemma {:induction false} RunsAreScheduled(cfg: Config, start: Line, blocks: seq<Block>, phase: Phase)
    requires Laid(cfg, start, blocks)
    ensures (Started(blocks).At(phase) * cfg.Period(phase)) as real <= EndTime(blocks)
    decreases |blocks|
  {
    if blocks != [] {
      var before, b := blocks[..|blocks| - 1], blocks[|blocks| - 1];
      assert blocks == before + [b];
      BlocksBefore(cfg, start, before, b);
      RunsAreScheduled(cfg, start, before, phase);
      RunIsScheduled(cfg, before, b, phase);
    }
  }

  lemma {:induction false} RunIsScheduled(cfg: Config, before: seq<Block>, b: Block, phase: Phase)
    requires BlockStructured(cfg, before, b) && EndTime(before) <= Time(Begin(b)) <= Time(End(b))
    requires (Started(before).At(phase) * cfg.Period(phase)) as real <= EndTime(before)
    ensures (Started(before + [b]).At(phase) * cfg.Period(phase)) as real <= EndTime(before + [b])
  {
  }

  lemma {:induction false} BlocksBefore(cfg: Config, start: Line, before: seq<Block>, b: Block)
    requires Laid(cfg, start, before + [b])
    ensures Laid(cfg, start, before)
    ensures BlockStructured(cfg, before, b) && EndTime(before) <= Time(Begin(b)) <= Time(End(b))
  {
    AppendBlock(cfg, before, b);
    var lines := Prefix(start, before, Between);
    if b.CycleBlock? {
      CloseBlock(cfg, start, before, Between, b, b.line);
      AppendLine(lines, b.line);
    } else {
      MoveOn(start, before, Between, Inside(b.start), b.start);
      CloseBlock(cfg, start, before, Inside(b.start), b, b.end);
      AppendLine(lines + [b.start], b.end);
      AppendLine(lines, b.start);
    }
    LastTimeOfBlocks(start, before);
  }

  /** Both bounds on the number of runs of a phase, from structure and framing alone. */
  lemma {:induction false} LogRunsAreBounded(cfg: Config, log: Log, phase: Phase)
    requires LogStructured(cfg, log) && Framed(LogLines(log))
    ensures var runs := Started(log.blocks).At(phase);
            && (cfg.seconds - 30) / cfg.Period(phase) <= runs
            && (runs * cfg.Period(phase)) as real <= Time(log.done)
  {
    var body := Prefix(log.start, log.blocks, Between);
    assert LogLines(log) == body + [log.done] + [log.last];
    AppendLine(body + [log.done], log.last);
    AppendLine(body, log.done);
    LastTimeOfBlocks(log.start, log.blocks);
    RunsAreScheduled(cfg, log.start, log.blocks, phase);
  }

  lemma {:induction false} RunsAreBounded(cfg: Config, lines: seq<Line>, phase: Phase)
    requires Verdict(cfg, lines).Some?
    ensures var report := Verdict(cfg, lines).value;
            var runs := report.counts.At(phase);
            && (cfg.seconds - 30) / cfg.Period(phase) <= runs
            && (runs * cfg.Period(phase)) as real <= report.elapsed
  {
    var log := AcceptedIsComplete(cfg, lines);
    LogRunsAreBounded(cfg, log, phase);
  }
}
