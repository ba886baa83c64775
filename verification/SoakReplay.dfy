/**
  `replay` of benchmarks/broker_soak.py: an automaton that recomputes completion
  from the raw records. It accepts exactly the complete logs.
  */
module SoakReplay {
  import opened Wrappers
  import opened SoakLog

  /** What the records have shown of the run so far. */
  datatype Progress = Progress(
    since: real, longest: real, maintenance: Option<(Phase, real)>, completed: Option<real>, final: bool,
    cycles: nat, counts: Counts)

  /** The framing totals beside it: records and bytes read, and the last time seen. */
  datatype State = State(index: nat, size: nat, previous: real, run: Progress)

  const INITIAL: State := State(0, 0, 0.0, Progress(0.0, 0.0, None, None, false, 0, ZERO))

  datatype Report = Report(elapsed: real, cycles: nat, counts: Counts, longestGap: real, records: nat, bytes: nat)

  // ---------------------------------------------------------------- one record

  predicate FrameAccepted(st: State, line: Line) {
    && line.size <= MAX_LINE && line.newline && line.clean
    && st.size + line.size <= MAX_LOG
    && line.sequence == st.index
    && line.elapsed.Some? && line.elapsed.value >= st.previous
  }

  function AfterFirst(run: Progress, line: Line): (r: Option<Progress>) {
    if StartMeasured(line) && Time(line) == 0.0 then Some(run) else None
  }

  function AfterBody(cfg: Config, run: Progress, line: Line): (r: Option<Progress>) {
    var t := Time(line);
    match line.body
    case MaintenanceEnd(phase, number, duration, checks) =>
      if run.maintenance.Some? && phase == Some(run.maintenance.value.0) && number == run.counts.At(run.maintenance.value.0)
         && 0.0 <= t - run.maintenance.value.1 <= MAX_MAINTENANCE
         && Abs(t - run.maintenance.value.1 - duration) <= 0.01 && ChecksPass(checks)
      then Some(run.(maintenance := None, since := t)) else None
    case FinalVerification(checks) =>
      if run.completed.Some? && !run.final && t - run.completed.value <= MAX_MAINTENANCE && ChecksPass(checks)
      then Some(run.(final := true)) else None
    case _ =>
      if run.maintenance.Some? || run.final || run.completed.Some? || t - run.since > MAX_GAP then None
      else AfterProgress(cfg, run.(longest := Max(run.longest, t - run.since), since := t), line)
  }

  function AfterProgress(cfg: Config, run: Progress, line: Line): (r: Option<Progress>) {
    var t := Time(line);
    match line.body
    case Cycle(_, _) => if CycleMeasured(line) then Some(run.(cycles := run.cycles + 1)) else None
    case MaintenanceStart(Some(phase), number) =>
      if number == run.counts.At(phase) + 1 && t >= ((run.counts.At(phase) + 1) * cfg.Period(phase)) as real
      then Some(run.(counts := run.counts.Bump(phase), maintenance := Some((phase, t)))) else None
    case DurationComplete => if t >= cfg.seconds as real then Some(run.(completed := Some(t))) else None
    case _ => None
  }

  function AfterLine(cfg: Config, st: State, line: Line): (r: Option<State>) {
    if !FrameAccepted(st, line) then None else
      match if st.index == 0 then AfterFirst(st.run, line) else AfterBody(cfg, st.run, line)
      case None => None
      case Some(run) => Some(State(st.index + 1, st.size + line.size, Time(line), run))
  }

  /** The automaton's state after a log, `None` once a record has been refused. */
  function AfterLines(cfg: Config, lines: seq<Line>): (r: Option<State>) {
    if lines == [] then Some(INITIAL) else
      match AfterLines(cfg, lines[..|lines| - 1])
      case None => None
      case Some(st) => AfterLine(cfg, st, lines[|lines| - 1])
  }

  predicate Finished(cfg: Config, run: Progress) {
    run.final && run.maintenance.None? && run.completed.Some? && run.cycles > 0 && EnoughRuns(cfg, run.counts)
  }

  function Verdict(cfg: Config, lines: seq<Line>): (r: Option<Report>) {
    match AfterLines(cfg, lines)
    case None => None
    case Some(st) =>
      if Finished(cfg, st.run)
      then Some(Report(st.run.completed.value, st.run.cycles, st.run.counts, st.run.longest, st.index, st.size))
      else None
  }

  // ---------------------------------------------------------------- the loop

  /** The body of the loop: check one record and advance the running totals. */
  method Row(cfg: Config, st: State, line: Line) returns (r: Option<State>)
    ensures r == AfterLine(cfg, st, line)
  {
    var size := st.size + line.size;
    if line.size > MAX_LINE || !line.newline || size > MAX_LOG || !line.clean || line.sequence != st.index
       || line.elapsed.None? || line.elapsed.value < st.previous {
      return None;
    }
    var elapsed := line.elapsed.value;
    var run := st.run;
    if st.index == 0 {
      if !StartMeasured(line) || elapsed != 0.0 {
        return None;
      }
    } else if line.body.MaintenanceEnd? {
      if run.maintenance.None? || line.body.phase != Some(run.maintenance.value.0)
         || line.body.number != run.counts.At(run.maintenance.value.0) {
        return None;
      }
      var duration := elapsed - run.maintenance.value.1;
      if !(0.0 <= duration <= MAX_MAINTENANCE) || Abs(duration - line.body.duration) > 0.01 || !ChecksPass(line.body.checks) {
        return None;
      }
      run := run.(maintenance := None, since := elapsed);
    } else if line.body.FinalVerification? {
      if run.completed.None? || run.final || elapsed - run.completed.value > MAX_MAINTENANCE || !ChecksPass(line.body.checks) {
        return None;
      }
      run := run.(final := true);
    } else {
      if run.maintenance.Some? || run.final || run.completed.Some? {
        return None;
      }
      var gap := elapsed - run.since;
      if gap > MAX_GAP {
        return None;
      }
      var progressed := ProgressRow(cfg, run.(longest := Max(run.longest, gap), since := elapsed), line);
      if progressed.None? {
        return None;
      }
      run := progressed.value;
    }
    r := Some(State(st.index + 1, size, elapsed, run));
  }

  /** The records that count as progress. */
  method ProgressRow(cfg: Config, run: Progress, line: Line) returns (r: Option<Progress>)
    ensures r == AfterProgress(cfg, run, line)
  {
    if line.body.Cycle? {
      if !CycleMeasured(line) {
        return None;
      }
      return Some(run.(cycles := run.cycles + 1));
    } else if line.body.MaintenanceStart? {
      if line.body.phase.None? || line.body.number != run.counts.At(line.body.phase.value) + 1 {
        return None;
      }
      var phase := line.body.phase.value;
      var counts := run.counts.Bump(phase);
      if Time(line) < (counts.At(phase) * cfg.Period(phase)) as real {
        return None;
      }
      return Some(run.(counts := counts, maintenance := Some((phase, Time(line)))));
    } else if line.body.DurationComplete? {
      if Time(line) < cfg.seconds as real {
        return None;
      }
      return Some(run.(completed := Some(Time(line))));
    }
    return None;
  }

  /** Records are read one at a time and nothing is decided from a success flag. */
  method Replay(cfg: Config, lines: seq<Line>) returns (r: Option<Report>)
    ensures r == Verdict(cfg, lines)
  {
    var st := INITIAL;
    for index := 0 to |lines|
      invariant AfterLines(cfg, lines[..index]) == Some(st)
    {
      Extend(cfg, lines, index, st);
      var next := Row(cfg, st, lines[index]);
      if next.None? {
        return None;
      }
      st := next.value;
    }
    assert lines[..|lines|] == lines;
    var run := st.run;
    var enough := RanEnough(cfg, run.counts);
    if !run.final || run.maintenance.Some? || run.completed.None? || run.cycles == 0 || !enough {
      return None;
    }
    r := Some(Report(run.completed.value, run.cycles, run.counts, run.longest, st.index, st.size));
  }

  method RanEnough(cfg: Config, counts: Counts) returns (ok: bool)
    ensures ok == EnoughRuns(cfg, counts)
  {
    for i := 0 to |PHASES|
      invariant forall j :: 0 <= j < i ==> counts.At(PHASES[j]) >= (cfg.seconds - 30) / cfg.Period(PHASES[j])
    {
      if counts.At(PHASES[i]) < (cfg.seconds - 30) / cfg.Period(PHASES[i]) {
        return false;
      }
    }
    forall phase: Phase ensures counts.At(phase) >= (cfg.seconds - 30) / cfg.Period(phase) {
      assert phase == PHASES[0] || phase == PHASES[1] || phase == PHASES[2] || phase == PHASES[3] || phase == PHASES[4];
    }
    ok := true;
  }

  /** A refused record refuses every log that starts with it. */
  lemma {:induction false} Extend(cfg: Config, lines: seq<Line>, index: nat, st: State)
    requires index < |lines| && AfterLines(cfg, lines[..index]) == Some(st)
    ensures AfterLines(cfg, lines[..index + 1]) == AfterLine(cfg, st, lines[index])
    ensures AfterLine(cfg, st, lines[index]).None? ==> AfterLines(cfg, lines).None?
  {
    var longer := lines[..index + 1];
    assert longer[..|longer| - 1] == lines[..index];
    if AfterLine(cfg, st, lines[index]).None? {
      Refused(cfg, lines, index + 1);
    }
  }

  lemma {:induction false} Refused(cfg: Config, lines: seq<Line>, n: nat)
    requires n <= |lines| && AfterLines(cfg, lines[..n]).None?
    ensures AfterLines(cfg, lines).None?
    decreases |lines|
  {
    if n == |lines| {
      assert lines[..n] == lines;
    } else {
      var shorter := lines[..|lines| - 1];
      assert shorter[..n] == lines[..n];
      Refused(cfg, shorter, n);
    }
  }
}
