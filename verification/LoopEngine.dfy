/** The supervised loop of `desktop/loop_engine.go`. One object is one run. The engine is a
    sequential method; wherever another goroutine can get between its steps it calls
    `Interfere`, which executes an arbitrary part of an arbitrary number of LoopStop calls;
    these moments are numbered, and a schedule says what happens at each. What sensor,
    agent and verifier do in each round is a parameter. */
module LoopEngine {
  import opened GoStrings

  datatype Verify = Pass | FailRolledBack | Skipped

  datatype Record = Record(round: int, verify: Verify, changed: seq<string>)

  datatype RunState = Running | Stopping | Done | Aborted

  predicate Terminal(s: RunState) { s.Done? || s.Aborted? }

  datatype Config = Config(
    sensorCommand: string, verifyCommand: string, exploratory: bool, autonomy: string,
    maxRounds: int, maxTokens: int, intervalSeconds: int)
  {
    predicate Senses() { exploratory && TrimSpace(sensorCommand) != "" }
    predicate Verifies() { autonomy != "L1" && TrimSpace(verifyCommand) != "" }
  }

  /** What round `r` meets: the sensor's output or an error, the number of polls until the
      turn ends, the verdict, the files changed, the tokens used, and whether the time
      window has closed or the cooldown timer beats the stop signal. */
  datatype World = World(
    sensor: int -> Option<string>, polls: int -> nat, verified: int -> bool, changed: int -> seq<string>,
    usage: int -> int, timeUp: int -> bool, timerFirst: int -> bool)

  /** LoopStop first closes the stop channel, if nobody has, then marks a running run. */
  datatype StopPart = CloseChannel | MarkStopping(reason: string)

  type Schedule = nat -> seq<StopPart>

  /** The reason given by the first of these parts that marks the run. */
  ghost function Marks(parts: seq<StopPart>): (r: Option<string>)
    ensures r.None? <==> forall i :: 0 <= i < |parts| ==> parts[i].CloseChannel?
    ensures r.Some? ==> exists i :: 0 <= i < |parts| && parts[i] == MarkStopping(r.value) && OnlyCloses(parts[..i])
  {
    if parts == [] then None
    else if Marks(parts[..|parts| - 1]).Some? then
      var r := Marks(parts[..|parts| - 1]);
      var i :| 0 <= i < |parts| - 1 && parts[..|parts| - 1][i] == MarkStopping(r.value) &&
               OnlyCloses(parts[..|parts| - 1][..i]);
      assert parts[..|parts| - 1][..i] == parts[..i];
      r
    else if parts[|parts| - 1].MarkStopping? then
      assert OnlyCloses(parts[..|parts| - 1]) && parts[|parts| - 1] == MarkStopping(parts[|parts| - 1].reason);
      Some(parts[|parts| - 1].reason)
    else None
  }

  predicate OnlyCloses(parts: seq<StopPart>) { forall i :: 0 <= i < |parts| ==> parts[i].CloseChannel? }

  lemma NoMarks(parts: seq<StopPart>)
    ensures Marks(parts[..0]).None?
  {
  }

  lemma MarksNext(parts: seq<StopPart>, i: nat)
    requires i < |parts|
    ensures Marks(parts[..i + 1]) ==
            if Marks(parts[..i]).Some? then Marks(parts[..i])
            else if parts[i].MarkStopping? then Some(parts[i].reason) else None
  {
    assert parts[..i + 1][..i] == parts[..i];
  }

  /** Some LoopStop has closed the channel before moment `k`. */
  predicate Closed(sched: Schedule, k: nat) { exists i: nat :: i < k && CloseChannel in sched(i) }

  datatype Control = Control(state: RunState, stopNote: string, stopClosed: bool)

  datatype Progress = Progress(timeline: seq<Record>, noProgress: nat, cleanScans: nat, tokensUsed: int)

  /** All states so far, how often the channel was closed, and after how many records. */
  datatype History = History(states: seq<RunState>, closes: nat, closedAt: nat)

  datatype Ending = Stopped | WindowClosed | BudgetSpent | QueueEmpty | Broken | GoalMet | RoundsSpent

  const BREAKER_LIMIT := 3
  const CLEAN_SCAN_LIMIT := 2

  // ---- the control state ----

  predicate Legal(a: RunState, b: RunState) {
    a == b || a.Running? || (a.Stopping? && Terminal(b))
  }

  ghost predicate ControlInv(c: Control, h: History, records: nat) {
    && h.states != [] && h.states[|h.states| - 1] == c.state
    && (forall i :: 0 <= i < |h.states| - 1 ==> Legal(h.states[i], h.states[i + 1]))
    && h.closes == (if c.stopClosed then 1 else 0)
    && (c.stopClosed ==> h.closedAt <= records <= h.closedAt + 1)
  }

  /** What other goroutines may do between two steps of the engine, `records` being the
      length of the timeline. */
  ghost predicate Interference(c: Control, h: History, c': Control, h': History, records: nat) {
    && (ControlInv(c, h, records) ==> ControlInv(c', h', records))
    && (c.stopClosed ==> c'.stopClosed && h'.closedAt == h.closedAt)
    && (!c.stopClosed && c'.stopClosed ==> h'.closedAt == records)
    && (Terminal(c.state) ==> c'.state == c.state)
    && !(Terminal(c'.state) && !Terminal(c.state))
  }

  // ---- what a timeline says ----

  /** The tokens used by rounds 1 to `k`. */
  function Usage(w: World, k: nat): int {
    if k == 0 then 0 else Usage(w, k - 1) + if w.usage(k) > 0 then w.usage(k) else 0
  }

  function TrailingFails(t: seq<Record>): (n: nat)
    ensures n <= |t|
  {
    if t == [] || !t[|t| - 1].verify.FailRolledBack? then 0 else TrailingFails(t[..|t| - 1]) + 1
  }

  /** The sensor ran and printed nothing but white space. */
  predicate CleanScan(w: World, k: int) { w.sensor(k).Some? && Blank(w.sensor(k).value) }

  /** Clean scans in rounds 1 to `k` since the last scan that found something; a scan that
      failed neither counts nor interrupts. */
  function CleanStreak(w: World, k: nat): nat {
    if k == 0 then 0
    else if w.sensor(k).None? then CleanStreak(w, k - 1)
    else if CleanScan(w, k) then CleanStreak(w, k - 1) + 1
    else 0
  }

  /** A verdict is the one the verifier gave in that round, with the files changed in it. */
  predicate Faithful(cfg: Config, w: World, rec: Record) {
    if rec.verify.Skipped? then rec.changed == []
    else
      cfg.Verifies() && rec.changed == w.changed(rec.round) && (rec.verify.Pass? <==> w.verified(rec.round))
  }

  /** The round after `k` complete ones may begin: there is time, budget and work left. */
  ghost predicate MayBegin(cfg: Config, w: World, k: nat) {
    && k < cfg.maxRounds && !w.timeUp(k + 1)
    && (cfg.maxTokens > 0 ==> Usage(w, k) < cfg.maxTokens)
    && (cfg.Senses() ==> CleanStreak(w, k) < CLEAN_SCAN_LIMIT)
  }

  /** Rounds are numbered 1, 2, ..., each was allowed to begin, and each record is faithful. */
  ghost predicate Bounded(cfg: Config, w: World, t: seq<Record>) {
    && (forall i :: 0 <= i < |t| ==> t[i].round == i + 1 && Faithful(cfg, w, t[i]))
    && (forall i :: 0 <= i < |t| ==> MayBegin(cfg, w, i))
  }

  // ---- when the engine looks at the stop channel ----

  /** The moment at which it looks before round `r`. */
  function BeginTick(cfg: Config, w: World, r: nat): nat {
    if r <= 1 then 1
    else BeginTick(cfg, w, r - 1) + 6 + w.polls(r - 1) + if cfg.intervalSeconds > 0 then 1 else 0
  }

  /** The moment at which it looks for the last time before the turn of round `r` ends. */
  function TurnTick(cfg: Config, w: World, r: nat): nat { BeginTick(cfg, w, r) + 3 + w.polls(r) }

  /** The stop signal came before the turn of round `r` had ended. */
  predicate RoundCut(cfg: Config, w: World, sched: Schedule, r: nat) { Closed(sched, TurnTick(cfg, w, r)) }

  /** All rounds so far began and ended their turns before the stop signal, and were verified
      if there is verification. */
  ghost predicate Uncut(cfg: Config, w: World, sched: Schedule, t: seq<Record>) {
    && (forall r: nat :: 1 <= r <= |t| ==> !Closed(sched, BeginTick(cfg, w, r)) && !RoundCut(cfg, w, sched, r))
    && (cfg.Verifies() ==> forall i :: 0 <= i < |t| ==> !t[i].verify.Skipped?)
  }

  /** How the finished timeline depends on the moment of the stop signal: with verification
      the last round is skipped if and only if the queue was empty or the signal came before
      the end of its turn. */
  ghost predicate Timed(cfg: Config, w: World, sched: Schedule, t: seq<Record>, end: Ending) {
    var n := |t|;
    && (forall r: nat :: 1 <= r <= n ==> !Closed(sched, BeginTick(cfg, w, r)))
    && (forall r: nat :: 1 <= r < n ==> !RoundCut(cfg, w, sched, r))
    && (n > 0 && cfg.Verifies() ==> (t[n - 1].verify.Skipped? <==> end.QueueEmpty? || RoundCut(cfg, w, sched, n)))
    && (n > 0 && RoundCut(cfg, w, sched, n) ==> end.Stopped? || end.QueueEmpty?)
    && (end.Stopped? ==> Closed(sched, BeginTick(cfg, w, n + 1)))
  }

  /** The reason given for the end is one, and an empty queue always ends the run. */
  ghost predicate Justified(cfg: Config, w: World, t: seq<Record>, end: Ending, stopClosed: bool) {
    && (end.Stopped? ==> stopClosed)
    && (end.WindowClosed? ==> w.timeUp(|t| + 1))
    && (end.BudgetSpent? ==> cfg.maxTokens > 0 && Usage(w, |t|) >= cfg.maxTokens)
    && (end.QueueEmpty? <==> cfg.Senses() && CleanStreak(w, |t|) >= CLEAN_SCAN_LIMIT)
  }

  /** In the first `k` rounds: with verification every round passed or failed, without none
      did either, a goal-driven run has not passed, and no three failed in a row. */
  ghost predicate Ongoing(cfg: Config, t: seq<Record>, k: nat) {
    && k <= |t|
    && (forall i :: 0 <= i < k ==> (t[i].verify.Skipped? <==> !cfg.Verifies()))
    && (forall i :: 0 <= i < k ==> !cfg.exploratory ==> !t[i].verify.Pass?)
    && (forall i :: 0 <= i && i + 3 <= k ==> !ThreeFails(t, i))
  }

  predicate ThreeFails(t: seq<Record>, i: nat) {
    i + 3 <= |t| && t[i].verify.FailRolledBack? && t[i + 1].verify.FailRolledBack? && t[i + 2].verify.FailRolledBack?
  }

  /** The finished timeline: but for its last record it is that of a run that goes on. Only
      the breaker ends with three failures in a row, only the goal with a pass. */
  ghost predicate Finished(cfg: Config, t: seq<Record>, end: Ending) {
    && Ongoing(cfg, t, if t == [] then 0 else |t| - 1)
    && (end.Broken? <==> |t| >= 3 && ThreeFails(t, |t| - 3))
    && (end.GoalMet? <==> !cfg.exploratory && exists i :: 0 <= i < |t| && t[i].verify.Pass?)
    && (end.RoundsSpent? ==> |t| == if cfg.maxRounds > 0 then cfg.maxRounds else 0)
    && (!cfg.Verifies() ==> forall i :: 0 <= i < |t| ==> t[i].verify.Skipped?)
  }

  /** What holds between two rounds. */
  ghost predicate RoundInv(cfg: Config, w: World, p: Progress) {
    && Bounded(cfg, w, p.timeline) && Ongoing(cfg, p.timeline, |p.timeline|)
    && p.noProgress == TrailingFails(p.timeline) < BREAKER_LIMIT
    && p.tokensUsed == Usage(w, |p.timeline|)
    && (cfg.Senses() ==> p.cleanScans == CleanStreak(w, |p.timeline|) < CLEAN_SCAN_LIMIT)
  }

  class LoopRun {
    const cfg: Config
    const w: World
    const sched: Schedule
    var tick: nat
    var c: Control
    var p: Progress
    ghost var h: History

    constructor (cfg: Config, w: World, sched: Schedule)
      ensures this.cfg == cfg && this.w == w && this.sched == sched
      ensures c == Control(Running, "", false) && p == Progress([], 0, 0, 0)
      ensures h == History([Running], 0, 0) && tick == 0 && Synced()
    {
      this.cfg, this.w, this.sched := cfg, w, sched;
      tick, c, p := 0, Control(Running, "", false), Progress([], 0, 0, 0);
      h := History([Running], 0, 0);
    }

    ghost predicate Synced()
      reads this
    {
      c.stopClosed <==> Closed(sched, tick)
    }

    method CloseStop()
      modifies this`c, this`h
      ensures Interference(old(c), old(h), c, h, |p.timeline|)
      ensures c == old(c).(stopClosed := true)
    {
      if !c.stopClosed {
        c := c.(stopClosed := true);
        h := h.(closes := h.closes + 1, closedAt := |p.timeline|);
      }
    }

    method MarkStopping(reason: string)
      modifies this`c, this`h
      ensures Interference(old(c), old(h), c, h, |p.timeline|)
      ensures c == if old(c).state.Running? then Control(Stopping, reason, old(c).stopClosed) else old(c)
    {
      if c.state.Running? {
        c := c.(state := Stopping, stopNote := reason);
        h := h.(states := h.states + [Stopping]);
      }
    }

    method Interfere()
      requires Synced()
      modifies this`c, this`h, this`tick
      ensures Interference(old(c), old(h), c, h, |p.timeline|)
      ensures Synced() && tick == old(tick) + 1
      ensures if old(c).state.Running? && Marks(sched(old(tick))).Some?
              then c.state == Stopping && c.stopNote == Marks(sched(old(tick))).value
              else c.state == old(c).state && c.stopNote == old(c).stopNote
    {
      hide Interference, Marks;
      var parts := sched(tick);
      NoMarks(parts);
      tick := tick + 1;
      ClosedNext(sched, old(tick));
      NoInterference(c, h, |p.timeline|);
      for i := 0 to |parts|
        invariant Interference(old(c), old(h), c, h, |p.timeline|)
        invariant tick == old(tick) + 1 && (c.stopClosed <==> old(c).stopClosed || CloseChannel in parts[..i])
        invariant if old(c).state.Running? && Marks(parts[..i]).Some?
                  then c.state == Stopping && c.stopNote == Marks(parts[..i]).value
                  else c.state == old(c).state && c.stopNote == old(c).stopNote
      {
        ghost var c1, h1 := c, h;
        MarksNext(parts, i);
        assert parts[..i + 1] == parts[..i] + [parts[i]];
        match parts[i] {
          case CloseChannel => CloseStop();
          case MarkStopping(reason) => MarkStopping(reason);
        }
        InterferenceChain(old(c), old(h), c1, h1, c, h, |p.timeline|);
      }
      assert parts[..|parts|] == parts;
    }

    method ShouldStop() returns (stop: bool)
      requires Synced()
      modifies this`c, this`h, this`tick
      ensures Interference(old(c), old(h), c, h, |p.timeline|)
      ensures (stop ==> c.stopClosed) && (!stop ==> !old(c).stopClosed)
      ensures Synced() && tick == old(tick) + 1 && (stop <==> Closed(sched, old(tick)))
    {
      stop := c.stopClosed;
      Interfere();
    }

    method Append(rec: Record)
      requires Synced() && (c.stopClosed ==> h.closedAt == |p.timeline|)
      modifies this`c, this`h, this`tick, this`p
      ensures Synced() && tick == old(tick) + 1
      ensures p == old(p).(timeline := old(p).timeline + [rec])
      ensures ControlInv(old(c), old(h), |old(p).timeline|) ==> ControlInv(c, h, |p.timeline|)
      ensures Terminal(c.state) == Terminal(old(c).state) && (old(c).stopClosed ==> c.stopClosed)
    {
      p := p.(timeline := p.timeline + [rec]);
      Interfere();
    }

    method Finish(state: RunState)
      requires Synced() && Terminal(state) && !Terminal(c.state)
      modifies this`c, this`h, this`tick
      ensures Synced()
      ensures ControlInv(old(c), old(h), |p.timeline|) ==> ControlInv(c, h, |p.timeline|)
      ensures c.state == state && (old(c).stopClosed ==> c.stopClosed)
    {
      c := c.(state := state);
      h := h.(states := h.states + [state]);
      Interfere();
    }
  
    /** Polls until the turn ends; false means the stop signal came first. */
    method WaitTurn(round: int) returns (ended: bool)
      requires Synced() && (c.stopClosed ==> h.closedAt == |p.timeline|)
      modifies this`c, this`h, this`tick
      ensures Interference(old(c), old(h), c, h, |p.timeline|)
      ensures (c.stopClosed ==> h.closedAt == |p.timeline|) && (!ended ==> c.stopClosed)
      ensures ended <==> !Closed(sched, old(tick) + w.polls(round))
      ensures Synced() && (ended ==> tick == old(tick) + w.polls(round) + 1)
    {
      hide Interference;
      NoInterference(c, h, |p.timeline|);
      var polled := 0;
      while true
        invariant polled <= w.polls(round) && Synced() && tick == old(tick) + polled
        invariant Interference(old(c), old(h), c, h, |p.timeline|)
        invariant c.stopClosed ==> h.closedAt == |p.timeline|
        decreases w.polls(round) - polled
      {
        ghost var c1, h1 := c, h;
        var stop := ShouldStop();
        InterferenceChain(old(c), old(h), c1, h1, c, h, |p.timeline|);
        if stop {
          return false;
        }
        if polled == w.polls(round) {
          return true;
        }
        polled := polled + 1;
      }
    }

    /** Runs the sensor; true means the problem queue has been found empty often enough. */
    method Sense(round: nat) returns (empty: bool)
      requires round >= 1 && RoundInv(cfg, w, p) && round == |p.timeline| + 1
      modifies this`p
      ensures p == old(p).(cleanScans := p.cleanScans)
      ensures cfg.Senses() ==> p.cleanScans == CleanStreak(w, round)
      ensures empty <==> cfg.Senses() && p.cleanScans >= CLEAN_SCAN_LIMIT
    {
      hide Bounded, Ongoing, TrailingFails, Usage, Config.Senses, TrimSpace;
      empty := false;
      if cfg.Senses() {
        var out := w.sensor(round);
        if out.Some? {
          TrimSpaceBlankIff(out.value);
          if TrimSpace(out.value) == "" {
            p := p.(cleanScans := p.cleanScans + 1);
            empty := p.cleanScans >= CLEAN_SCAN_LIMIT;
          } else {
            p := p.(cleanScans := 0);
          }
        }
      }
    }

    /** The verdict on the round; true means the breaker trips. */
    method Judge(round: int) returns (rec: Record, broken: bool)
      modifies this`p
      ensures p == old(p).(noProgress := p.noProgress)
      ensures rec.round == round && (rec.verify.Skipped? <==> !cfg.Verifies()) && Faithful(cfg, w, rec)
      ensures p.noProgress == (if rec.verify.Pass? then 0 else if rec.verify.FailRolledBack? then old(p).noProgress + 1
                               else old(p).noProgress)
      ensures broken <==> rec.verify.FailRolledBack? && p.noProgress >= BREAKER_LIMIT
    {
      broken := false;
      if !cfg.Verifies() {
        return Record(round, Skipped, []), false;
      }
      if w.verified(round) {
        p := p.(noProgress := 0);
        return Record(round, Pass, w.changed(round)), false;
      }
      p := p.(noProgress := p.noProgress + 1);
      return Record(round, FailRolledBack, w.changed(round)), p.noProgress >= BREAKER_LIMIT;
    }

    method RunRound(round: nat) returns (end: Option<Ending>)
      requires round == |p.timeline| + 1 && round <= cfg.maxRounds && RoundInv(cfg, w, p)
      requires MayBegin(cfg, w, |p.timeline|)
      requires ControlInv(c, h, |p.timeline|) && !Terminal(c.state)
      requires c.stopClosed ==> h.closedAt == |p.timeline|
      requires Synced() && tick == BeginTick(cfg, w, round) + 1
      requires Uncut(cfg, w, sched, p.timeline) && !Closed(sched, BeginTick(cfg, w, round))
      modifies this`c, this`h, this`tick, this`p
      ensures ControlInv(c, h, |p.timeline|) && |p.timeline| == round && Synced()
      ensures end.None? ==> RoundInv(cfg, w, p) && !Terminal(c.state)
      ensures end.None? ==> Uncut(cfg, w, sched, p.timeline) && tick == BeginTick(cfg, w, round + 1)
      ensures end.Some? ==>
                && Finished(cfg, p.timeline, end.value) && Bounded(cfg, w, p.timeline)
                && (c.state.Aborted? <==> end.value.Broken?) && !end.value.RoundsSpent?
                && Justified(cfg, w, p.timeline, end.value, c.stopClosed)
                && Timed(cfg, w, sched, p.timeline, end.value)
    {
      hide Finished, Bounded, Ongoing, RoundInv, CleanStreak, MayBegin, Config.Verifies, Timed, Uncut, Closed, Marks;
      ghost var p0 := p;
      var idle := Record(round, Skipped, []);
      var empty := Sense(round);
      if empty {
        IdleEnds(cfg, w, p0, idle, QueueEmpty);
        CutEnds(cfg, w, sched, p0.timeline, idle, QueueEmpty);
        Append(idle);
        Finish(Done);
        return Some(QueueEmpty);
      }
      Interfere();
      var stop := ShouldStop();
      if stop {
        IdleEnds(cfg, w, p0, idle, Stopped);
        ClosedStays(sched, BeginTick(cfg, w, round) + 2, TurnTick(cfg, w, round));
        CutEnds(cfg, w, sched, p0.timeline, idle, Stopped);
        Append(idle);
        return Some(Stopped);
      }
      var ended := WaitTurn(round);
      if !ended {
        IdleEnds(cfg, w, p0, idle, Stopped);
        CutEnds(cfg, w, sched, p0.timeline, idle, Stopped);
        Append(idle);
        return Some(Stopped);
      }
      end := FinishRound(round, p0);
    }

    /** From the end of the turn on: verdict, breaker, budget, goal and cooldown. */
    method FinishRound(round: nat, ghost p0: Progress) returns (end: Option<Ending>)
      requires RoundInv(cfg, w, p0) && p == p0.(cleanScans := p.cleanScans)
      requires cfg.Senses() ==> p.cleanScans == CleanStreak(w, round) < CLEAN_SCAN_LIMIT
      requires round == |p.timeline| + 1 <= cfg.maxRounds && MayBegin(cfg, w, |p.timeline|)
      requires ControlInv(c, h, |p.timeline|) && !Terminal(c.state)
      requires c.stopClosed ==> h.closedAt == |p.timeline|
      requires Synced() && tick == TurnTick(cfg, w, round) + 1 && Uncut(cfg, w, sched, p.timeline)
      requires !Closed(sched, BeginTick(cfg, w, round)) && !RoundCut(cfg, w, sched, round)
      modifies this`c, this`h, this`tick, this`p
      ensures ControlInv(c, h, |p.timeline|) && |p.timeline| == round && Synced()
      ensures end.None? ==> RoundInv(cfg, w, p) && !Terminal(c.state)
      ensures end.None? ==> Uncut(cfg, w, sched, p.timeline) && tick == BeginTick(cfg, w, round + 1)
      ensures end.Some? ==>
                && Finished(cfg, p.timeline, end.value) && Bounded(cfg, w, p.timeline)
                && (c.state.Aborted? <==> end.value.Broken?) && !end.value.RoundsSpent?
                && Justified(cfg, w, p.timeline, end.value, c.stopClosed)
                && Timed(cfg, w, sched, p.timeline, end.value)
    {
      hide Finished, Bounded, Ongoing, RoundInv, CleanStreak, MayBegin, Config.Verifies, Timed, Uncut, Closed, RoundCut,
        ControlInv, BeginTick, Usage, TrailingFails, Config.Senses, Marks, OnlyCloses;
      NextTick(cfg, w, round);
      Interfere();
      var rec, broken := Judge(round);
      UncutNext(cfg, w, sched, p0.timeline, rec);
      if broken {
        UncutEnds(cfg, w, sched, p0.timeline + [rec], Broken);
        BreakerEnds(cfg, w, p0, rec);
        Append(rec);
        Finish(Aborted);
        return Some(Broken);
      }
      if w.usage(round) > 0 {
        p := p.(tokensUsed := p.tokensUsed + w.usage(round));
      }
      RoundContinues(cfg, w, p0, rec, p);
      Append(rec);
      if !cfg.exploratory && rec.verify.Pass? {
        UncutEnds(cfg, w, sched, p.timeline, GoalMet);
        Finish(Done);
        return Some(GoalMet);
      }
      if cfg.intervalSeconds > 0 {
        Interfere();
        if c.stopClosed && !w.timerFirst(round) {
          OngoingStops(cfg, w, p, Stopped);
          UncutEnds(cfg, w, sched, p.timeline, Stopped);
          return Some(Stopped);
        }
      }
      return None;
    }

    method Rounds() returns (end: Ending)
      requires p == Progress([], 0, 0, 0) && Synced() && tick == 1
      requires ControlInv(c, h, 0) && !Terminal(c.state)
      modifies this`c, this`h, this`tick, this`p
      ensures ControlInv(c, h, |p.timeline|) && Synced() && Timed(cfg, w, sched, p.timeline, end)
      ensures Finished(cfg, p.timeline, end) && Bounded(cfg, w, p.timeline)
      ensures c.state.Aborted? <==> end.Broken?
      ensures Justified(cfg, w, p.timeline, end, c.stopClosed)
    {
      hide Finished, Bounded, Ongoing, CleanStreak, TrailingFails, Usage, Config.Senses, ControlInv, Timed, Closed,
        Uncut;
      RoundInvStart(cfg, w);
      UncutStart(cfg, w, sched);
      var round := 1;
      while round <= cfg.maxRounds
        invariant round == |p.timeline| + 1 && (round == 1 || round <= cfg.maxRounds + 1)
        invariant RoundInv(cfg, w, p) && ControlInv(c, h, |p.timeline|) && !Terminal(c.state)
        invariant Uncut(cfg, w, sched, p.timeline) && Synced() && tick == BeginTick(cfg, w, round)
      {
        OngoingStops(cfg, w, p, Stopped);
        var stop := ShouldStop();
        if stop {
          UncutEnds(cfg, w, sched, p.timeline, Stopped);
          return Stopped;
        }
        if w.timeUp(round) {
          OngoingStops(cfg, w, p, WindowClosed);
          UncutEnds(cfg, w, sched, p.timeline, WindowClosed);
          Finish(Done);
          return WindowClosed;
        }
        if cfg.maxTokens > 0 && p.tokensUsed >= cfg.maxTokens {
          OngoingStops(cfg, w, p, BudgetSpent);
          UncutEnds(cfg, w, sched, p.timeline, BudgetSpent);
          Finish(Done);
          return BudgetSpent;
        }
        var over := RunRound(round);
        if over.Some? {
          return over.value;
        }
        round := round + 1;
      }
      OngoingStops(cfg, w, p, RoundsSpent);
      UncutEnds(cfg, w, sched, p.timeline, RoundsSpent);
      Finish(Done);
      return RoundsSpent;
    }

    /** A whole run, whatever LoopStop calls come in between. Its timeline is finished in
        the sense above; its state only ever moved forward and is terminal; the stop channel
        was closed at most once, and at most one record was added after that. */
    method LoopExecute() returns (end: Ending)
      requires p == Progress([], 0, 0, 0) && Synced() && tick == 0
      requires ControlInv(c, h, 0) && !Terminal(c.state)
      modifies this`c, this`h, this`tick, this`p
      ensures Finished(cfg, p.timeline, end) && Bounded(cfg, w, p.timeline)
      ensures Terminal(c.state) && (c.state.Aborted? <==> end.Broken?)
      ensures h.closes <= 1 && (c.stopClosed ==> |p.timeline| <= h.closedAt + 1)
      ensures forall i :: 0 <= i < |h.states| - 1 ==> Legal(h.states[i], h.states[i + 1])
      ensures Justified(cfg, w, p.timeline, end, c.stopClosed)
      ensures Timed(cfg, w, sched, p.timeline, end)
      ensures end.QueueEmpty? <==>
              cfg.exploratory && !Blank(cfg.sensorCommand) && exists i, j :: CleanPair(w, i, j, |p.timeline|)
      ensures VerdictsGiven(cfg, w, sched, p.timeline, end)
      ensures |p.timeline| <= if cfg.maxRounds > 0 then cfg.maxRounds else 0
      ensures forall r :: 1 <= r <= |p.timeline| ==> !w.timeUp(r)
      ensures forall k: nat :: k < |p.timeline| && cfg.maxTokens > 0 ==> Usage(w, k) < cfg.maxTokens
      ensures end.WindowClosed? ==> w.timeUp(|p.timeline| + 1)
      ensures end.BudgetSpent? ==> 0 < cfg.maxTokens <= Usage(w, |p.timeline|)
      ensures end.RoundsSpent? ==> |p.timeline| == if cfg.maxRounds > 0 then cfg.maxRounds else 0
      ensures end.Stopped? ==> c.stopClosed
    {
      hide Finished, Bounded, Usage, CleanStreak, Config.Senses, Timed, Closed, VerdictsGiven, Justified, Blank;
      Interfere();
      end := Rounds();
      EmptyQueueEnds(cfg, w, p.timeline, end, c.stopClosed);
      VerdictsAre(cfg, w, sched, p.timeline, end);
      LimitsKept(cfg, w, p.timeline, end, c.stopClosed);
      ghost var before := c.stopClosed;
      if c.state.Running? || c.state.Stopping? {
        Finish(Done);
      }
      StillJustified(cfg, w, p.timeline, end, before, c.stopClosed);
    }
  }

  lemma StillJustified(cfg: Config, w: World, t: seq<Record>, end: Ending, before: bool, after: bool)
    requires Justified(cfg, w, t, end, before) && (before ==> after)
    ensures Justified(cfg, w, t, end, after)
  {
    hide Usage, CleanStreak;
  }

  lemma NoInterference(c: Control, h: History, records: nat)
    ensures Interference(c, h, c, h, records)
  {
  }

  lemma InterferenceChain(c: Control, h: History, c1: Control, h1: History, c2: Control, h2: History, records: nat)
    requires Interference(c, h, c1, h1, records) && Interference(c1, h1, c2, h2, records)
    ensures Interference(c, h, c2, h2, records)
  {
    hide ControlInv;
  }

  lemma ClosedNext(sched: Schedule, k: nat)
    ensures Closed(sched, k + 1) <==> Closed(sched, k) || CloseChannel in sched(k)
  {
  }

  lemma ClosedStays(sched: Schedule, k: nat, m: nat)
    requires k <= m && Closed(sched, k)
    ensures Closed(sched, m)
  {
  }

  lemma NextTick(cfg: Config, w: World, r: nat)
    requires r >= 1
    ensures BeginTick(cfg, w, r + 1) == TurnTick(cfg, w, r) + 3 + if cfg.intervalSeconds > 0 then 1 else 0
  {
  }

  lemma UncutStart(cfg: Config, w: World, sched: Schedule)
    ensures Uncut(cfg, w, sched, []) && BeginTick(cfg, w, 1) == 1
  {
  }

  lemma UncutNext(cfg: Config, w: World, sched: Schedule, t: seq<Record>, rec: Record)
    requires Uncut(cfg, w, sched, t) && (rec.verify.Skipped? ==> !cfg.Verifies())
    requires !Closed(sched, BeginTick(cfg, w, |t| + 1)) && !RoundCut(cfg, w, sched, |t| + 1)
    ensures Uncut(cfg, w, sched, t + [rec])
  {
    hide Closed, BeginTick, Config.Verifies;
  }

  /** A run that ends with all its rounds complete. */
  lemma UncutEnds(cfg: Config, w: World, sched: Schedule, t: seq<Record>, end: Ending)
    requires Uncut(cfg, w, sched, t) && !end.QueueEmpty?
    requires end.Stopped? ==> Closed(sched, BeginTick(cfg, w, |t| + 1))
    ensures Timed(cfg, w, sched, t, end)
  {
    hide Closed, BeginTick, Config.Verifies;
  }

  /** A run that ends with its last round cut short. */
  lemma CutEnds(cfg: Config, w: World, sched: Schedule, t: seq<Record>, rec: Record, end: Ending)
    requires Uncut(cfg, w, sched, t) && rec.verify.Skipped? && !Closed(sched, BeginTick(cfg, w, |t| + 1))
    requires end.QueueEmpty? || (end.Stopped? && RoundCut(cfg, w, sched, |t| + 1))
    ensures Timed(cfg, w, sched, t + [rec], end)
  {
    hide Config.Verifies;
    if end.Stopped? {
      CutEndsRun(cfg, w, sched, |t| + 1);
    }
    hide Closed, BeginTick;
  }

  /** A signal before the end of a turn is seen at the latest before the next round. */
  lemma CutEndsRun(cfg: Config, w: World, sched: Schedule, r: nat)
    requires r >= 1 && RoundCut(cfg, w, sched, r)
    ensures Closed(sched, BeginTick(cfg, w, r + 1))
  {
    ClosedStays(sched, TurnTick(cfg, w, r), BeginTick(cfg, w, r + 1));
  }

  lemma {:induction false} TrailingThree(t: seq<Record>)
    ensures TrailingFails(t) >= 3 <==> |t| >= 3 && ThreeFails(t, |t| - 3)
  {
    if |t| >= 3 {
      assert t[..|t| - 1][..|t| - 2] == t[..|t| - 2];
      assert t[..|t| - 2][..|t| - 3] == t[..|t| - 3];
      assert TrailingFails(t[..|t| - 2]) >= 1 <==> t[|t| - 3].verify.FailRolledBack?;
    }
  }

  /** A round cut short adds a skipped record and ends the run. */
  lemma IdleEnds(cfg: Config, w: World, p: Progress, rec: Record, end: Ending)
    requires RoundInv(cfg, w, p) && rec.round == |p.timeline| + 1 <= cfg.maxRounds && rec.verify.Skipped?
    requires MayBegin(cfg, w, |p.timeline|) && Faithful(cfg, w, rec)
    requires end.Stopped? || end.QueueEmpty?
    ensures Finished(cfg, p.timeline + [rec], end) && Bounded(cfg, w, p.timeline + [rec])
  {
    hide TrailingFails, CleanStreak, MayBegin;
    OngoingPrefix(cfg, p.timeline, rec);
    BoundedAppend(cfg, w, p, rec);
  }

  /** A further record does not change what the earlier ones say. */
  lemma OngoingPrefix(cfg: Config, t: seq<Record>, rec: Record)
    requires Ongoing(cfg, t, |t|)
    ensures Ongoing(cfg, t + [rec], |t|)
  {
    assert forall i :: 0 <= i && i + 3 <= |t| ==> ThreeFails(t + [rec], i) == ThreeFails(t, i);
  }

  /** The third failure in a row ends the run. */
  lemma BreakerEnds(cfg: Config, w: World, p: Progress, rec: Record)
    requires RoundInv(cfg, w, p) && rec.round == |p.timeline| + 1 <= cfg.maxRounds
    requires MayBegin(cfg, w, |p.timeline|) && Faithful(cfg, w, rec)
    requires rec.verify.FailRolledBack? && cfg.Verifies() && p.noProgress + 1 >= BREAKER_LIMIT
    ensures Finished(cfg, p.timeline + [rec], Broken) && Bounded(cfg, w, p.timeline + [rec])
  {
    hide TrailingFails, CleanStreak, Ongoing, Bounded, ThreeFails, Usage, MayBegin, Config.Senses;
    OngoingPrefix(cfg, p.timeline, rec);
    BoundedAppend(cfg, w, p, rec);
    TrailingAppend(cfg, p.timeline, rec);
    TrailingThree(p.timeline + [rec]);
    NoPassYet(cfg, p.timeline, rec);
  }

  lemma NoPassYet(cfg: Config, t: seq<Record>, rec: Record)
    requires Ongoing(cfg, t, |t|) && !rec.verify.Pass?
    ensures !cfg.exploratory ==> forall i :: 0 <= i < |t + [rec]| ==> !(t + [rec])[i].verify.Pass?
  {
    hide ThreeFails, Config.Verifies;
  }

  lemma NoThreeFails(t: seq<Record>, rec: Record)
    requires forall i :: 0 <= i && i + 3 <= |t| ==> !ThreeFails(t, i)
    requires TrailingFails(t + [rec]) < BREAKER_LIMIT
    ensures forall i :: 0 <= i && i + 3 <= |t| + 1 ==> !ThreeFails(t + [rec], i)
  {
    hide TrailingFails;
    TrailingThree(t + [rec]);
    assert forall i :: 0 <= i && i + 3 <= |t| ==> ThreeFails(t + [rec], i) == ThreeFails(t, i);
  }

  lemma TrailingAppend(cfg: Config, t: seq<Record>, rec: Record)
    requires Ongoing(cfg, t, |t|) && (rec.verify.Skipped? <==> !cfg.Verifies())
    ensures TrailingFails(t + [rec]) == (if rec.verify.Pass? then 0
                                         else if rec.verify.FailRolledBack? then TrailingFails(t) + 1
                                         else TrailingFails(t))
  {
    assert (t + [rec])[..|t|] == t;
    if rec.verify.Skipped? {
      assert |t| > 0 ==> t[|t| - 1].verify.Skipped?;
    }
  }

  lemma BoundedAppend(cfg: Config, w: World, p: Progress, rec: Record)
    requires RoundInv(cfg, w, p) && rec.round == |p.timeline| + 1 <= cfg.maxRounds
    requires MayBegin(cfg, w, |p.timeline|) && Faithful(cfg, w, rec)
    ensures Bounded(cfg, w, p.timeline + [rec])
  {
    hide MayBegin, Faithful;
  }

  lemma RoundInvStart(cfg: Config, w: World)
    ensures RoundInv(cfg, w, Progress([], 0, 0, 0))
  {
  }

  lemma GoalEnds(cfg: Config, w: World, p: Progress, rec: Record)
    requires RoundInv(cfg, w, p) && !cfg.exploratory && rec.verify.Pass?
    requires rec.verify.Skipped? <==> !cfg.Verifies()
    ensures Finished(cfg, p.timeline + [rec], GoalMet)
  {
    OngoingPrefix(cfg, p.timeline, rec);
    TrailingAppend(cfg, p.timeline, rec);
    NoThreeFails(p.timeline, rec);
    hide TrailingFails, CleanStreak, Usage;
    assert (p.timeline + [rec])[|p.timeline|] == rec;
  }

  lemma OngoingAppend(cfg: Config, p: Progress, rec: Record)
    requires Ongoing(cfg, p.timeline, |p.timeline|) && (rec.verify.Skipped? <==> !cfg.Verifies())
    requires cfg.exploratory || !rec.verify.Pass?
    requires TrailingFails(p.timeline + [rec]) < BREAKER_LIMIT
    ensures Ongoing(cfg, p.timeline + [rec], |p.timeline| + 1)
  {
    NoThreeFails(p.timeline, rec);
    hide TrailingFails, ThreeFails;
  }

  /** A full round either meets the goal and ends the run, or leaves it ongoing. */
  lemma RoundContinues(cfg: Config, w: World, p: Progress, rec: Record, p1: Progress)
    requires RoundInv(cfg, w, p) && rec.round == |p.timeline| + 1 <= cfg.maxRounds
    requires MayBegin(cfg, w, |p.timeline|) && Faithful(cfg, w, rec)
    requires rec.verify.Skipped? <==> !cfg.Verifies()
    requires p1.timeline == p.timeline
    requires p1.noProgress == (if rec.verify.Pass? then 0 else if rec.verify.FailRolledBack? then p.noProgress + 1
                               else p.noProgress)
    requires rec.verify.FailRolledBack? ==> p1.noProgress < BREAKER_LIMIT
    requires p1.tokensUsed == p.tokensUsed + if w.usage(rec.round) > 0 then w.usage(rec.round) else 0
    requires cfg.Senses() ==> p1.cleanScans == CleanStreak(w, rec.round) < CLEAN_SCAN_LIMIT
    ensures Bounded(cfg, w, p.timeline + [rec])
    ensures if !cfg.exploratory && rec.verify.Pass? then Finished(cfg, p.timeline + [rec], GoalMet)
            else RoundInv(cfg, w, p1.(timeline := p.timeline + [rec]))
  {
    hide Ongoing, Bounded, TrailingFails, CleanStreak, Finished, MayBegin, Config.Senses, Config.Verifies;
    BoundedAppend(cfg, w, p, rec);
    TrailingAppend(cfg, p.timeline, rec);
    if !cfg.exploratory && rec.verify.Pass? {
      GoalEnds(cfg, w, p, rec);
    } else {
      OngoingAppend(cfg, p, rec);
      UsageNext(w, |p.timeline|);
    }
  }

  lemma UsageNext(w: World, k: nat)
    ensures Usage(w, k + 1) == Usage(w, k) + if w.usage(k + 1) > 0 then w.usage(k + 1) else 0
  {
  }

  /** A run that ends between rounds has a finished timeline. */
  lemma OngoingStops(cfg: Config, w: World, p: Progress, end: Ending)
    requires RoundInv(cfg, w, p) && !end.Broken? && !end.GoalMet?
    requires end.RoundsSpent? ==> |p.timeline| == if cfg.maxRounds > 0 then cfg.maxRounds else 0
    ensures Finished(cfg, p.timeline, end) && Bounded(cfg, w, p.timeline)
  {
    hide CleanStreak, Usage, TrailingFails;
    TrailingThree(p.timeline);
  }

  // ---- reading a finished timeline ----

  /** Three failures in a row occur only as the last three records, and exactly when the
      breaker ended the run; a goal-driven run passes only in its last record, and exactly
      when that ended it. */
  lemma FinishedMeans(cfg: Config, t: seq<Record>, end: Ending)
    requires Finished(cfg, t, end)
    ensures forall i :: 0 <= i && i + 3 <= |t| && ThreeFails(t, i) ==> i + 3 == |t|
    ensures end.Broken? <==> exists i :: 0 <= i && i + 3 <= |t| && ThreeFails(t, i)
    ensures !cfg.exploratory ==> forall i :: 0 <= i < |t| && t[i].verify.Pass? ==> i == |t| - 1 && end.GoalMet?
    ensures cfg.Verifies() ==> forall i :: 0 <= i < |t| && t[i].verify.Skipped? ==> i == |t| - 1
  {
    if |t| >= 3 {
      assert ThreeFails(t, |t| - 3) ==> exists i :: 0 <= i && i + 3 <= |t| && ThreeFails(t, i);
    }
  }

  /** The stop signal in round `r`: the round is the last one, and with verification it is
      skipped if and only if the scans have found the queue empty or the signal came before
      the end of its turn; a signal after that finds it verified, as LoopStop promises. */
  lemma StopInRound(cfg: Config, w: World, sched: Schedule, t: seq<Record>, end: Ending, stopClosed: bool, r: nat)
    requires Finished(cfg, t, end) && Timed(cfg, w, sched, t, end) && Justified(cfg, w, t, end, stopClosed)
    requires cfg.Verifies() && 1 <= r <= |t| && Closed(sched, BeginTick(cfg, w, r + 1))
    ensures r == |t|
    ensures forall i :: 0 <= i < r - 1 ==> !t[i].verify.Skipped?
    ensures t[r - 1].verify.Skipped? <==>
            (cfg.Senses() && CleanStreak(w, r) >= CLEAN_SCAN_LIMIT) || RoundCut(cfg, w, sched, r)
  {
    hide Closed, BeginTick, Config.Verifies, Config.Senses, RoundCut, CleanStreak, Usage;
  }

  /** A signal during the first turn ends the run with that round unverified, whatever the
      verifier would have said. */
  lemma StopCutsFirstRound(cfg: Config, w: World, sched: Schedule, t: seq<Record>, end: Ending, stopClosed: bool)
    requires Finished(cfg, t, end) && Timed(cfg, w, sched, t, end) && Bounded(cfg, w, t)
    requires Justified(cfg, w, t, end, stopClosed)
    requires cfg.Verifies() && cfg.maxRounds >= 1 && !w.timeUp(1)
    requires !Closed(sched, BeginTick(cfg, w, 1)) && RoundCut(cfg, w, sched, 1)
    ensures t == [Record(1, Skipped, [])] && end == Stopped
  {
    CutEndsRun(cfg, w, sched, 1);
    assert CleanStreak(w, 0) == 0 && CleanStreak(w, 1) <= 1;
    assert Usage(w, 0) == 0;
    hide Closed, BeginTick, RoundCut, Config.Verifies, Config.Senses, TrimSpace, CleanStreak, Usage;
    if |t| >= 1 {
      StopInRound(cfg, w, sched, t, end, stopClosed, 1);
      assert t[0].round == 1 && Faithful(cfg, w, t[0]);
      assert t == [t[0]];
    }
  }

  /** Such a run: LoopStop is called once, while the engine waits for the first turn. */
  method StoppedRoundIsSkipped() returns (cfg: Config, t: seq<Record>, end: Ending)
    ensures cfg.Verifies() && t == [Record(1, Skipped, [])] && end == Stopped
  {
    cfg := Config("", "test", false, "L2", 5, 0, 0);
    VerifyCommandGiven(cfg);
    var w := World(_ => None, _ => 0, _ => true, _ => [], _ => 0, _ => false, _ => true);
    var sched := (k: nat) => if k == 1 then [CloseChannel, MarkStopping("enough")] else [];
    hide Config.Verifies;
    assert !Closed(sched, BeginTick(cfg, w, 1));
    assert RoundCut(cfg, w, sched, 1) by { assert CloseChannel in sched(1); }
    var run := new LoopRun(cfg, w, sched);
    assert ControlInv(run.c, run.h, 0);
    hide Closed, ControlInv;
    end := run.LoopExecute();
    t := run.p.timeline;
    StopCutsFirstRound(cfg, w, sched, t, end, run.c.stopClosed);
  }

  lemma VerifyCommandGiven(cfg: Config)
    requires cfg.verifyCommand == "test" && cfg.autonomy == "L2"
    ensures cfg.Verifies()
  {
    NothingToTrim(cfg.verifyCommand);
  }

  // ---- the configuration decides ----

  /** A run ends for an empty queue if and only if it is exploratory, its sensor command is
      not blank, and the last two scans that ran at all were clean. */
  lemma EmptyQueueEnds(cfg: Config, w: World, t: seq<Record>, end: Ending, stopClosed: bool)
    requires Justified(cfg, w, t, end, stopClosed)
    ensures end.QueueEmpty? <==>
            cfg.exploratory && !Blank(cfg.sensorCommand) && exists i, j :: CleanPair(w, i, j, |t|)
  {
    hide CleanStreak, CleanPair, Usage, TrimSpace, Blank;
    EmptyQueueIff(w, |t|);
    TrimSpaceBlankIff(cfg.sensorCommand);
  }

  /** Which rounds are judged, and how. At autonomy "L1" or with a blank verify command none
      is; otherwise each but the last, and that one too unless the queue was empty or the
      stop signal came before the end of its turn. A judged round has the verdict and the
      files of that round. */
  ghost predicate VerdictsGiven(cfg: Config, w: World, sched: Schedule, t: seq<Record>, end: Ending) {
    && (forall i :: 0 <= i < |t| ==>
          && t[i].round == i + 1
          && (t[i].verify == Skipped ==> t[i].changed == [])
          && (t[i].verify == Pass ==> w.verified(i + 1) && t[i].changed == w.changed(i + 1))
          && (t[i].verify == FailRolledBack ==> !w.verified(i + 1) && t[i].changed == w.changed(i + 1)))
    && (cfg.autonomy == "L1" || Blank(cfg.verifyCommand) ==> forall i :: 0 <= i < |t| ==> t[i].verify == Skipped)
    && (cfg.autonomy != "L1" && !Blank(cfg.verifyCommand) ==>
          && (forall i :: 0 <= i < |t| - 1 ==> t[i].verify != Skipped)
          && (|t| > 0 ==> (t[|t| - 1].verify == Skipped <==> end.QueueEmpty? || RoundCut(cfg, w, sched, |t|))))
  }

  lemma LimitsKept(cfg: Config, w: World, t: seq<Record>, end: Ending, stopClosed: bool)
    requires Finished(cfg, t, end) && Bounded(cfg, w, t) && Justified(cfg, w, t, end, stopClosed)
    ensures |t| <= if cfg.maxRounds > 0 then cfg.maxRounds else 0
    ensures forall r :: 1 <= r <= |t| ==> !w.timeUp(r)
    ensures forall k: nat :: k < |t| && cfg.maxTokens > 0 ==> Usage(w, k) < cfg.maxTokens
    ensures end.WindowClosed? ==> w.timeUp(|t| + 1)
    ensures end.BudgetSpent? ==> 0 < cfg.maxTokens <= Usage(w, |t|)
    ensures end.RoundsSpent? ==> |t| == if cfg.maxRounds > 0 then cfg.maxRounds else 0
    ensures end.Stopped? ==> stopClosed
  {
    hide Usage, CleanStreak, Ongoing, ThreeFails, Faithful;
    assert |t| > 0 ==> MayBegin(cfg, w, |t| - 1);
    forall r | 1 <= r <= |t| ensures !w.timeUp(r) {
      assert MayBegin(cfg, w, r - 1);
    }
    forall k: nat | k < |t| && cfg.maxTokens > 0 ensures Usage(w, k) < cfg.maxTokens {
      assert MayBegin(cfg, w, k);
    }
  }

  /** The program tests the trimmed output. */
  lemma CleanScanIff(w: World, k: int)
    ensures CleanScan(w, k) <==> exists out :: w.sensor(k) == Some(out) && TrimSpace(out) == ""
  {
    hide TrimSpace, Blank;
    if w.sensor(k).Some? {
      TrimSpaceBlankIff(w.sensor(k).value);
    }
  }

  lemma VerdictsAre(cfg: Config, w: World, sched: Schedule, t: seq<Record>, end: Ending)
    requires Finished(cfg, t, end) && Bounded(cfg, w, t) && Timed(cfg, w, sched, t, end)
    ensures VerdictsGiven(cfg, w, sched, t, end)
  {
    hide MayBegin, ThreeFails, RoundCut, Closed, TrimSpace, Blank, BeginTick;
    TrimSpaceBlankIff(cfg.verifyCommand);
    forall i | 0 <= i < |t| ensures t[i].round == i + 1 && Faithful(cfg, w, t[i]) {
    }
  }

  predicate FailedScans(w: World, from: int, to: int) { forall k :: from < k < to ==> w.sensor(k).None? }

  lemma {:induction false} LastCleanScan(w: World, k: nat) returns (j: nat)
    requires CleanStreak(w, k) >= 1
    ensures 1 <= j <= k && CleanScan(w, j) && FailedScans(w, j, k + 1)
    ensures CleanStreak(w, j - 1) == CleanStreak(w, k) - 1
  {
    hide TrimSpace;
    if CleanScan(w, k) {
      j := k;
    } else {
      j := LastCleanScan(w, k - 1);
    }
  }

  /** Rounds `i` and `j` had clean scans, and no scan that ran since `i` found anything. */
  predicate CleanPair(w: World, i: int, j: int, k: int) {
    && 1 <= i < j <= k && CleanScan(w, i) && CleanScan(w, j)
    && FailedScans(w, i, j) && FailedScans(w, j, k + 1)
  }

  /** The queue counts as empty if and only if the last two scans that ran at all were
      clean. */
  lemma EmptyQueueIff(w: World, k: nat)
    ensures CleanStreak(w, k) >= CLEAN_SCAN_LIMIT <==> exists i, j :: CleanPair(w, i, j, k)
  {
    hide TrimSpace, CleanStreak;
    if CleanStreak(w, k) >= CLEAN_SCAN_LIMIT {
      var j := LastCleanScan(w, k);
      var i := LastCleanScan(w, j - 1);
      assert CleanPair(w, i, j, k);
    }
    if i, j :| CleanPair(w, i, j, k) {
      StreakAfter(w, j, k);
      StreakAfter(w, i, j - 1);
      StreakAt(w, j);
      StreakAt(w, i);
    }
  }

  lemma StreakAt(w: World, j: nat)
    requires j >= 1 && CleanScan(w, j)
    ensures CleanStreak(w, j) == CleanStreak(w, j - 1) + 1
  {
    hide TrimSpace;
  }

  lemma {:induction false} StreakAfter(w: World, j: nat, k: nat)
    requires j <= k && FailedScans(w, j, k + 1)
    ensures CleanStreak(w, k) == CleanStreak(w, j)
  {
    hide TrimSpace;
    if j < k {
      StreakAfter(w, j, k - 1);
    }
  }

  /** The round that ends a run for an empty queue has a clean scan itself, and the two are
      consecutive rounds, as the note on its record says, if and only if the sensor of the
      round before it did not fail. */
  lemma ConsecutiveIff(w: World, k: nat)
    requires k >= 1 && CleanStreak(w, k - 1) < CLEAN_SCAN_LIMIT <= CleanStreak(w, k)
    ensures k >= 2 && CleanScan(w, k)
    ensures CleanScan(w, k - 1) <==> w.sensor(k - 1).Some?
  {
    hide TrimSpace;
  }

  /** They need not be consecutive rounds, as the note on the record says: a scan that fails
      in between is passed over. */
  lemma FailedScanBetween(w: World, k: nat)
    requires k >= 1 && CleanScan(w, k) && w.sensor(k + 1).None? && CleanScan(w, k + 2)
    ensures CleanStreak(w, k + 2) >= CLEAN_SCAN_LIMIT
  {
    hide TrimSpace;
    assert CleanStreak(w, k + 1) == CleanStreak(w, k);
    assert CleanStreak(w, k) == CleanStreak(w, k - 1) + 1;
  }

  // ---- the report ----

  datatype Report = Report(
    roundsRun: nat, passed: nat, rolledBack: nat, skipped: nat, changedFiles: nat, lastVerify: Option<Verify>)

  function Times(t: seq<Record>, v: Verify): nat {
    if t == [] then 0 else Times(t[..|t| - 1], v) + if t[|t| - 1].verify == v then 1 else 0
  }

  function Files(t: seq<Record>): set<string> { set i, f | 0 <= i < |t| && f in t[i].changed :: f }

  predicate IsLastJudged(t: seq<Record>, v: Option<Verify>) {
    match v
    case None => forall i :: 0 <= i < |t| ==> t[i].verify.Skipped?
    case Some(verdict) =>
      !verdict.Skipped? && exists i :: 0 <= i < |t| && t[i].verify == verdict && AllSkipped(t, i + 1)
  }

  predicate AllSkipped(t: seq<Record>, from: nat) { forall k :: from <= k < |t| ==> t[k].verify.Skipped? }

  method BuildLoopReport(t: seq<Record>) returns (r: Report)
    ensures r.roundsRun == |t| == r.passed + r.rolledBack + r.skipped
    ensures r.passed == Times(t, Pass) && r.rolledBack == Times(t, FailRolledBack)
    ensures r.changedFiles == |Files(t)|
    ensures IsLastJudged(t, r.lastVerify)
  {
    r := Report(|t|, 0, 0, 0, 0, None);
    var changed: set<string> := {};
    for i := 0 to |t|
      invariant r.roundsRun == |t| && i == r.passed + r.rolledBack + r.skipped
      invariant r.passed == Times(t[..i], Pass) && r.rolledBack == Times(t[..i], FailRolledBack)
      invariant changed == Files(t[..i])
      invariant IsLastJudged(t[..i], r.lastVerify)
    {
      assert t[..i + 1][..i] == t[..i];
      LastJudgedNext(t, i, r.lastVerify);
      match t[i].verify {
        case Pass => r := r.(passed := r.passed + 1, lastVerify := Some(Pass));
        case FailRolledBack => r := r.(rolledBack := r.rolledBack + 1, lastVerify := Some(FailRolledBack));
        case Skipped => r := r.(skipped := r.skipped + 1);
      }
      for j := 0 to |t[i].changed|
        invariant changed == Files(t[..i]) + set f | f in t[i].changed[..j]
      {
        changed := changed + {t[i].changed[j]};
      }
      FilesNext(t, i);
      assert t[i].changed[..|t[i].changed|] == t[i].changed;
    }
    assert t[..|t|] == t;
    r := r.(changedFiles := |changed|);
  }

  lemma FilesNext(t: seq<Record>, i: nat)
    requires i < |t|
    ensures Files(t[..i + 1]) == Files(t[..i]) + set f | f in t[i].changed
  {
    forall f ensures f in Files(t[..i + 1]) <==> f in Files(t[..i]) || f in t[i].changed {
      if f in Files(t[..i]) {
        var k :| 0 <= k < i && f in t[..i][k].changed;
        assert f in t[..i + 1][k].changed;
      }
      if f in t[i].changed {
        assert f in t[..i + 1][i].changed;
      }
    }
  }

  lemma LastJudgedNext(t: seq<Record>, i: nat, v: Option<Verify>)
    requires i < |t| && IsLastJudged(t[..i], v)
    ensures IsLastJudged(t[..i + 1], if t[i].verify.Skipped? then v else Some(t[i].verify))
  {
    if t[i].verify.Skipped? {
      if v.Some? {
        var k :| 0 <= k < i && t[..i][k].verify == v.value && AllSkipped(t[..i], k + 1);
        assert t[..i + 1][k].verify == v.value && AllSkipped(t[..i + 1], k + 1);
      }
    } else {
      assert t[..i + 1][i].verify == t[i].verify && AllSkipped(t[..i + 1], i + 1);
    }
  }

  lemma {:induction false} TimesAppend(t: seq<Record>, k: nat, v: Verify)
    requires k <= |t|
    ensures Times(t[..k], v) <= Times(t, v)
    ensures (forall i :: k <= i < |t| ==> t[i].verify != v) ==> Times(t, v) == Times(t[..k], v)
    ensures (forall i :: k <= i < |t| ==> t[i].verify == v) ==> Times(t, v) == Times(t[..k], v) + |t| - k
  {
    if k < |t| {
      TimesAppend(t[..|t| - 1], k, v);
      assert t[..|t| - 1][..k] == t[..k];
    } else {
      assert t[..k] == t;
    }
  }

  /** What the counts of a finished run reveal: at most one pass in a goal-driven run, and
      then the goal was met; at most one unverified round where there is verification, and
      none counted otherwise; a tripped breaker shows at least three roll-backs. */
  lemma ReportRevealsEnding(cfg: Config, t: seq<Record>, end: Ending)
    requires Finished(cfg, t, end)
    ensures !cfg.exploratory ==> Times(t, Pass) == if end.GoalMet? then 1 else 0
    ensures cfg.Verifies() ==> Times(t, Skipped) <= 1
    ensures !cfg.Verifies() ==> Times(t, Pass) == 0 && Times(t, FailRolledBack) == 0
    ensures end.Broken? ==> Times(t, FailRolledBack) >= 3
  {
    hide Finished, Times, Config.Verifies;
    PassesCounted(cfg, t, end);
    SkipsCounted(cfg, t, end);
    if end.Broken? {
      assert |t| >= 3 && ThreeFails(t, |t| - 3) by { FinishedPrefix(cfg, t, end); }
      TimesAppend(t, |t| - 3, FailRolledBack);
    }
  }

  lemma PassesCounted(cfg: Config, t: seq<Record>, end: Ending)
    requires Finished(cfg, t, end)
    ensures !cfg.exploratory ==> Times(t, Pass) == if end.GoalMet? then 1 else 0
  {
    FinishedPrefix(cfg, t, end);
    hide Finished, Times, Config.Verifies;
    CountFrom(t, if t == [] then 0 else |t| - 1, Pass);
  }

  lemma SkipsCounted(cfg: Config, t: seq<Record>, end: Ending)
    requires Finished(cfg, t, end)
    ensures cfg.Verifies() ==> Times(t, Skipped) <= 1
    ensures !cfg.Verifies() ==> Times(t, Pass) == 0 && Times(t, FailRolledBack) == 0
  {
    FinishedPrefix(cfg, t, end);
    hide Finished, Times, Config.Verifies;
    CountFrom(t, if t == [] then 0 else |t| - 1, Skipped);
    CountFrom(t, 0, Pass);
    CountFrom(t, 0, FailRolledBack);
  }

  /** Where all but the records from `k` on differ from `v`, those count. */
  lemma CountFrom(t: seq<Record>, k: nat, v: Verify)
    requires k <= |t|
    ensures (forall i :: 0 <= i < k ==> t[i].verify != v) ==> Times(t, v) <= |t| - k
    ensures (forall i :: 0 <= i < k ==> t[i].verify != v) && (forall i :: k <= i < |t| ==> t[i].verify == v) ==>
              Times(t, v) == |t| - k
    ensures (forall i :: 0 <= i < |t| ==> t[i].verify != v) ==> Times(t, v) == 0
  {
    TimesAppend(t[..k], 0, v);
    TimesAppend(t, k, v);
    TimesAppend(t, 0, v);
    assert t[..k][..0] == [] && t[..0] == [];
    TimesAtMost(t, k, v);
  }

  lemma {:induction false} TimesAtMost(t: seq<Record>, k: nat, v: Verify)
    requires k <= |t|
    ensures Times(t, v) <= Times(t[..k], v) + |t| - k
  {
    if k < |t| {
      TimesAtMost(t[..|t| - 1], k, v);
      assert t[..|t| - 1][..k] == t[..k];
    } else {
      assert t[..k] == t;
    }
  }

  lemma FinishedPrefix(cfg: Config, t: seq<Record>, end: Ending)
    requires Finished(cfg, t, end)
    ensures !cfg.exploratory ==> forall i :: 0 <= i < |t| - 1 ==> !t[i].verify.Pass?
    ensures !cfg.exploratory && end.GoalMet? ==> t != [] && t[|t| - 1].verify.Pass?
    ensures !cfg.exploratory && !end.GoalMet? ==> forall i :: 0 <= i < |t| ==> !t[i].verify.Pass?
    ensures !cfg.Verifies() ==> forall i :: 0 <= i < |t| ==> t[i].verify.Skipped?
    ensures cfg.Verifies() ==> forall i :: 0 <= i < |t| - 1 ==> !t[i].verify.Skipped?
    ensures end.Broken? ==> |t| >= 3 && ThreeFails(t, |t| - 3)
  {
    hide Config.Verifies, ThreeFails;
  }
}
