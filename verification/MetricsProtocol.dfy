/** The same counters under concurrency: any number of goroutines persist while a flush is
    under way. Reading the pending file and writing it back are two steps, and no lock
    covers them. Nothing here crashes and no file operation fails. */
module MetricsProtocol {
  import opened GoStrings
  import opened Metrics

  /** A goroutine in persist, and the flush. */
  datatype Pc = Idle | Took(delta: Counters) | HasRead(delta: Counters, snap: Counters)

  datatype Flush = Resting | Renamed | Failed | FoldRead(snap: Counters) | Removing

  datatype State = State(
    mem: Counters, pcs: seq<Pc>, flush: Flush, pending: Option<Counters>, sending: Option<Counters>,
    observed: Counters, delivered: Counters)

  datatype Action =
    | Observe(signal: string, bucket: string)
    | Take(i: nat) | ReadPending(i: nat) | WritePending(i: nat)
    | Rename | Post(payload: seq<Counter>, accepted: bool) | ReadForFold | WriteFold | Remove

  ghost predicate Init(s: State) {
    && s.mem == map[] && s.flush.Resting? && s.sending.None? && s.delivered == map[]
    && s.observed == Read(s.pending) && NonNegative(s.observed)
    && forall i :: 0 <= i < |s.pcs| ==> s.pcs[i].Idle?
  }

  ghost predicate NonNegative(c: Counters) { forall s, b :: At(c, s, b) >= 0 }

  ghost predicate Enabled(s: State, a: Action) {
    match a
    case Observe(_, _) => true
    case Take(i) => i < |s.pcs| && s.pcs[i].Idle? && s.mem != map[]
    case ReadPending(i) => i < |s.pcs| && s.pcs[i].Took?
    case WritePending(i) => i < |s.pcs| && s.pcs[i].HasRead?
    case Rename => s.flush.Resting? && s.pending.Some?
    case Post(payload, _) => s.flush.Renamed? && Listing(payload, Read(s.sending))
    case ReadForFold => s.flush.Failed?
    case WriteFold => s.flush.FoldRead?
    case Remove => s.flush.Removing?
  }

  function Next(s: State, a: Action): State {
    match a
    case Observe(sig, b) => s.(mem := Added(s.mem, sig, b, 1), observed := Added(s.observed, sig, b, 1))
    case Take(i) => if i < |s.pcs| then s.(mem := map[], pcs := s.pcs[i := Took(s.mem)]) else s
    case ReadPending(i) =>
      if i < |s.pcs| && s.pcs[i].Took? then s.(pcs := s.pcs[i := HasRead(s.pcs[i].delta, Read(s.pending))]) else s
    case WritePending(i) =>
      if i < |s.pcs| && s.pcs[i].HasRead? then
        s.(pcs := s.pcs[i := Idle], pending := Some(Merged(s.pcs[i].snap, s.pcs[i].delta)))
      else s
    case Rename => s.(sending := s.pending, pending := None, flush := Renamed)
    case Post(payload, accepted) =>
      if payload == [] || accepted then s.(flush := Removing, delivered := Credit(s.delivered, payload))
      else s.(flush := Failed)
    case ReadForFold => s.(flush := FoldRead(Read(s.pending)))
    case WriteFold =>
      if s.flush.FoldRead? then s.(flush := Removing, pending := Some(Merged(s.flush.snap, Read(s.sending)))) else s
    case Remove => s.(flush := Resting, sending := None)
  }

  ghost predicate Step(s: State, a: Action, s': State) { Enabled(s, a) && s' == Next(s, a) }

  ghost predicate Execution(run: seq<State>, acts: seq<Action>) {
    && |run| == |acts| + 1 && Init(run[0])
    && forall i :: 0 <= i < |acts| ==> Step(run[i], acts[i], run[i + 1])
  }

  // ---- where counts are ----

  function Taken(pc: Pc): Counters { if pc.Idle? then map[] else pc.delta }

  function TakenAt(pcs: seq<Pc>, sig: string, b: string): int {
    if pcs == [] then 0 else TakenAt(pcs[..|pcs| - 1], sig, b) + At(Taken(pcs[|pcs| - 1]), sig, b)
  }

  /** The sending file matters until it is delivered or folded back. */
  function Outgoing(s: State): Counters {
    if s.flush.Renamed? || s.flush.Failed? || s.flush.FoldRead? then Read(s.sending) else map[]
  }

  function Held(s: State, sig: string, b: string): int {
    At(s.mem, sig, b) + TakenAt(s.pcs, sig, b) + At(Read(s.pending), sig, b) + At(Outgoing(s), sig, b)
    + At(s.delivered, sig, b)
  }

  /** Counts held somewhere in excess of those observed; negative when some are lost. */
  function Drift(s: State, sig: string, b: string): int { Held(s, sig, b) - At(s.observed, sig, b) }

  lemma {:induction false} TakenUpdate(pcs: seq<Pc>, i: nat, pc: Pc, sig: string, b: string)
    requires i < |pcs|
    ensures TakenAt(pcs[i := pc], sig, b) == TakenAt(pcs, sig, b) - At(Taken(pcs[i]), sig, b) + At(Taken(pc), sig, b)
  {
    hide At;
    var n := |pcs| - 1;
    if i == n {
      assert pcs[i := pc][..n] == pcs[..n];
    } else {
      TakenUpdate(pcs[..n], i, pc, sig, b);
      assert pcs[i := pc][..n] == pcs[..n][i := pc];
    }
  }

  ghost predicate SendingSound(s: State) { NonNegative(Outgoing(s)) && NonNegative(Read(s.pending)) }

  ghost predicate PcSound(pc: Pc) { NonNegative(Taken(pc)) && (pc.HasRead? ==> NonNegative(pc.snap)) }

  ghost predicate Sound(s: State) {
    && NonNegative(s.mem) && SendingSound(s)
    && (forall i :: 0 <= i < |s.pcs| ==> PcSound(s.pcs[i]))
    && (s.flush.FoldRead? ==> NonNegative(s.flush.snap))
  }

  lemma MergedNonNegative(c: Counters, d: Counters)
    requires NonNegative(c) && NonNegative(d)
    ensures NonNegative(Merged(c, d))
  {
    hide At;
    forall s, b ensures At(Merged(c, d), s, b) >= 0 {
      MergedAt(c, d, s, b);
    }
  }

  lemma AddedNonNegative(c: Counters, sig: string, bucket: string)
    requires NonNegative(c)
    ensures NonNegative(Added(c, sig, bucket, 1))
  {
    hide At, Added;
    forall s, b ensures At(Added(c, sig, bucket, 1), s, b) >= 0 {
      AddedAt(c, sig, bucket, 1, s, b);
    }
  }

  lemma NothingNonNegative()
    ensures NonNegative(map[])
  {
  }

  lemma SoundStep(s: State, a: Action, s': State)
    requires Sound(s) && Step(s, a, s')
    ensures Sound(s')
  {
    hide NonNegative, Merged, Added, Listing;
    NothingNonNegative();
    match a {
      case Observe(sig, b) => AddedNonNegative(s.mem, sig, b);
      case WritePending(i) =>
        assert PcSound(s.pcs[i]);
        MergedNonNegative(s.pcs[i].snap, s.pcs[i].delta);
      case ReadPending(i) =>
        assert PcSound(s.pcs[i]);
      case WriteFold => MergedNonNegative(s.flush.snap, Read(s.sending));
      case _ =>
    }
  }

  /** By how much the write of a file that was read earlier goes wrong: it brings back the
      counts read then and wipes out those there now. */
  function Error(s: State, a: Action, sig: string, b: string): int {
    var here := At(Read(s.pending), sig, b);
    if a.WritePending? && a.i < |s.pcs| && s.pcs[a.i].HasRead? then At(s.pcs[a.i].snap, sig, b) - here
    else if a.WriteFold? && s.flush.FoldRead? then At(s.flush.snap, sig, b) - here
    else 0
  }

  /** Every step but such a write conserves the counts, and such a write misses by exactly
      the error. A refused post and an accepted one are no different. */
  lemma DriftStep(s: State, a: Action, s': State, sig: string, b: string)
    requires Sound(s) && Step(s, a, s')
    ensures Drift(s', sig, b) == Drift(s, sig, b) + Error(s, a, sig, b)
  {
    hide At, Added, Merged, Credit, Listing, Lists, TakenAt;
    assert At(map[], sig, b) == 0 by { NothingAt(sig, b); }
    match a {
      case Observe(o, k) =>
        AddedAt(s.mem, o, k, 1, sig, b);
        AddedAt(s.observed, o, k, 1, sig, b);
      case Take(i) => TakenUpdate(s.pcs, i, Took(s.mem), sig, b);
      case ReadPending(i) => TakenUpdate(s.pcs, i, HasRead(s.pcs[i].delta, Read(s.pending)), sig, b);
      case WritePending(i) =>
        TakenUpdate(s.pcs, i, Idle, sig, b);
        MergedAt(s.pcs[i].snap, s.pcs[i].delta, sig, b);
      case Post(payload, accepted) => Paid(s, payload, sig, b);
      case WriteFold => MergedAt(s.flush.snap, Read(s.sending), sig, b);
      case _ =>
    }
  }

  lemma NothingAt(sig: string, b: string)
    ensures At(map[], sig, b) == 0
  {
  }

  /** The server is credited with just what the sending file holds. */
  lemma Paid(s: State, payload: seq<Counter>, sig: string, b: string)
    requires Sound(s) && s.flush.Renamed? && Listing(payload, Read(s.sending))
    ensures At(Credit(s.delivered, payload), sig, b) == At(s.delivered, sig, b) + At(Outgoing(s), sig, b)
  {
    hide At, Credit, Lists;
    CreditAt(s.delivered, payload, Read(s.sending), sig, b);
    assert At(Outgoing(s), sig, b) >= 0;
  }

  lemma {:induction false} SoundHolds(run: seq<State>, acts: seq<Action>, i: nat)
    requires Execution(run, acts) && i < |run|
    ensures Sound(run[i])
  {
    hide Enabled, Next, At;
    if i > 0 {
      SoundHolds(run, acts, i - 1);
      SoundStep(run[i - 1], acts[i - 1], run[i]);
    } else {
      SoundAtFirst(run[0]);
    }
  }

  lemma SoundAtFirst(s: State)
    requires Init(s)
    ensures Sound(s)
    ensures forall sig, b :: Drift(s, sig, b) == 0
  {
    forall sig, b ensures Drift(s, sig, b) == 0 {
      NothingTaken(s.pcs, sig, b);
    }
  }

  lemma {:induction false} NothingTaken(pcs: seq<Pc>, sig: string, b: string)
    requires forall i :: 0 <= i < |pcs| ==> pcs[i].Idle?
    ensures TakenAt(pcs, sig, b) == 0
  {
    if pcs != [] {
      NothingTaken(pcs[..|pcs| - 1], sig, b);
    }
  }

  /** The errors of the writes among the first `n` steps. */
  function Errors(run: seq<State>, acts: seq<Action>, n: nat, sig: string, b: string): int
    requires n <= |acts| <= |run|
  {
    if n == 0 then 0 else Errors(run, acts, n - 1, sig, b) + Error(run[n - 1], acts[n - 1], sig, b)
  }

  /** In every interleaving the counts held in memory, in the two files, in goroutines and
      by the server differ from those observed by exactly the errors of the writes so far. */
  lemma {:induction false} DriftIsErrors(run: seq<State>, acts: seq<Action>, n: nat, sig: string, b: string)
    requires Execution(run, acts) && n < |run|
    ensures Drift(run[n], sig, b) == Errors(run, acts, n, sig, b)
  {
    hide Enabled, Next, At, Drift, Error;
    if n > 0 {
      DriftIsErrors(run, acts, n - 1, sig, b);
      SoundHolds(run, acts, n - 1);
      DriftStep(run[n - 1], acts[n - 1], run[n], sig, b);
    } else {
      SoundAtFirst(run[0]);
    }
  }

  /** The file still has the counts that were read. */
  predicate Undisturbed(s: State, a: Action, sig: string, b: string) {
    && (a.WritePending? && a.i < |s.pcs| && s.pcs[a.i].HasRead? ==>
          At(s.pcs[a.i].snap, sig, b) == At(Read(s.pending), sig, b))
    && (a.WriteFold? && s.flush.FoldRead? ==> At(s.flush.snap, sig, b) == At(Read(s.pending), sig, b))
  }

  ghost predicate ConservedUpTo(run: seq<State>, n: nat, sig: string, b: string)
    requires n <= |run|
  {
    forall i :: 0 <= i < n ==> Held(run[i], sig, b) == At(run[i].observed, sig, b)
  }

  ghost predicate UndisturbedUpTo(run: seq<State>, acts: seq<Action>, n: nat, sig: string, b: string)
    requires n <= |acts| <= |run|
  {
    forall i :: 0 <= i < n ==> Undisturbed(run[i], acts[i], sig, b)
  }

  /** Counts are conserved throughout a run if and only if every write finds the file with
      the counts it read: failed posts, folding back and persists in between do no harm. */
  lemma {:induction false} ConservedIff(run: seq<State>, acts: seq<Action>, n: nat, sig: string, b: string)
    requires Execution(run, acts) && n < |run|
    ensures ConservedUpTo(run, n + 1, sig, b) <==> UndisturbedUpTo(run, acts, n, sig, b)
  {
    hide Enabled, Next, At, Held;
    if n > 0 {
      ConservedIff(run, acts, n - 1, sig, b);
      SoundHolds(run, acts, n - 1);
      DriftStep(run[n - 1], acts[n - 1], run[n], sig, b);
      assert Drift(run[n], sig, b) == Held(run[n], sig, b) - At(run[n].observed, sig, b);
    } else {
      SoundAtFirst(run[0]);
      assert Drift(run[0], sig, b) == 0;
    }
  }

  /** Each persist and each folding back reads and writes the file as one step. */
  ghost predicate AtomicFiles(acts: seq<Action>) {
    forall k :: 0 <= k < |acts| - 1 ==> Continues(acts[k], acts[k + 1])
  }

  predicate Continues(a: Action, next: Action) {
    (a.ReadPending? ==> next == WritePending(a.i)) && (a.ReadForFold? ==> next.WriteFold?)
  }

  /** Whoever has read the file has done so in the step just taken, and it has not changed. */
  ghost predicate JustRead(s: State, last: Option<Action>) {
    && (forall i :: 0 <= i < |s.pcs| && s.pcs[i].HasRead? ==>
          last == Some(ReadPending(i)) && s.pcs[i].snap == Read(s.pending))
    && (s.flush.FoldRead? ==> last == Some(ReadForFold) && s.flush.snap == Read(s.pending))
  }

  lemma JustReadStep(s: State, last: Option<Action>, a: Action, s': State)
    requires JustRead(s, last) && Step(s, a, s') && (last.Some? ==> Continues(last.value, a))
    ensures JustRead(s', Some(a))
  {
    hide Merged, Added, Credit, Listing;
  }

  lemma {:induction false} JustReadHolds(run: seq<State>, acts: seq<Action>, n: nat)
    requires Execution(run, acts) && AtomicFiles(acts) && n < |run|
    ensures JustRead(run[n], if n == 0 then None else Some(acts[n - 1]))
  {
    hide Enabled, Next, Continues;
    if n > 0 {
      JustReadHolds(run, acts, n - 1);
      if n > 1 {
        assert Continues(acts[n - 2], acts[n - 2 + 1]);
      }
      JustReadStep(run[n - 1], if n == 1 then None else Some(acts[n - 2]), acts[n - 1], run[n]);
    }
  }

  /** With each persist and each folding back as one step, no counter is ever lost or
      counted twice: in every state of every interleaving what was observed is what is in
      memory, with a goroutine, in the two files and with the server. */
  lemma AtomicFilesConserve(run: seq<State>, acts: seq<Action>, n: nat, sig: string, b: string)
    requires Execution(run, acts) && AtomicFiles(acts) && n < |run|
    ensures Held(run[n], sig, b) == At(run[n].observed, sig, b)
  {
    assert |run| == |acts| + 1;
    hide Held, At, Execution, AtomicFiles, JustRead;
    forall k | 0 <= k < n ensures Undisturbed(run[k], acts[k], sig, b) {
      AtomicIsUndisturbed(run, acts, k, sig, b);
    }
    ConservedIff(run, acts, n, sig, b);
  }

  lemma AtomicIsUndisturbed(run: seq<State>, acts: seq<Action>, k: nat, sig: string, b: string)
    requires Execution(run, acts) && AtomicFiles(acts) && k < |acts|
    ensures Undisturbed(run[k], acts[k], sig, b)
  {
    hide At, Enabled, Next, Continues;
    JustReadHolds(run, acts, k);
  }

  function After(s: State, acts: seq<Action>): State
    decreases |acts|
  {
    if acts == [] then s else After(Next(s, acts[0]), acts[1..])
  }

  /** Two goroutines that both read before either writes: the first one's counts are lost. */
  lemma LostUpdate(s: State, i: nat, j: nat, sig: string, b: string)
    requires Sound(s) && i < |s.pcs| && j < |s.pcs| && i != j && s.pcs[i].Took? && s.pcs[j].Took?
    ensures var s' := After(s, [ReadPending(i), ReadPending(j), WritePending(i), WritePending(j)]);
            Drift(s', sig, b) == Drift(s, sig, b) - At(s.pcs[i].delta, sig, b)
  {
    hide At, Merged, Added, Drift;
    var s1 := Next(s, ReadPending(i));
    var s2 := Next(s1, ReadPending(j));
    var s3 := Next(s2, WritePending(i));
    var s4 := Next(s3, WritePending(j));
    AfterFour(s, ReadPending(i), ReadPending(j), WritePending(i), WritePending(j));
    SoundStep(s, ReadPending(i), s1);
    SoundStep(s1, ReadPending(j), s2);
    SoundStep(s2, WritePending(i), s3);
    DriftStep(s, ReadPending(i), s1, sig, b);
    DriftStep(s1, ReadPending(j), s2, sig, b);
    DriftStep(s2, WritePending(i), s3, sig, b);
    DriftStep(s3, WritePending(j), s4, sig, b);
    MergedAt(Read(s.pending), s.pcs[i].delta, sig, b);
  }

  /** A flush that takes the file between a read and its write: what was pending is counted
      twice, in the file sent and in the file written. */
  lemma CountedTwice(s: State, i: nat, sig: string, b: string)
    requires Sound(s) && i < |s.pcs| && s.pcs[i].Took? && s.flush.Resting? && s.pending.Some?
    ensures var s' := After(s, [ReadPending(i), Rename, WritePending(i)]);
            Drift(s', sig, b) == Drift(s, sig, b) + At(Read(s.pending), sig, b)
  {
    hide At, Merged, Added, Drift;
    var s1 := Next(s, ReadPending(i));
    var s2 := Next(s1, Rename);
    var s3 := Next(s2, WritePending(i));
    AfterThree(s, ReadPending(i), Rename, WritePending(i));
    SoundStep(s, ReadPending(i), s1);
    SoundStep(s1, Rename, s2);
    DriftStep(s, ReadPending(i), s1, sig, b);
    DriftStep(s1, Rename, s2, sig, b);
    DriftStep(s2, WritePending(i), s3, sig, b);
    NothingAt(sig, b);
  }

  function States(s: State, acts: seq<Action>): (run: seq<State>)
    ensures |run| == |acts| + 1 && run[0] == s
    decreases |acts|
  {
    if acts == [] then [s] else [s] + States(Next(s, acts[0]), acts[1..])
  }

  /** The actions can be taken one after the other. */
  ghost predicate Possible(s: State, acts: seq<Action>)
    decreases |acts|
  {
    acts == [] || (Enabled(s, acts[0]) && Possible(Next(s, acts[0]), acts[1..]))
  }

  lemma {:induction false} PossibleRuns(s: State, acts: seq<Action>)
    requires Possible(s, acts)
    ensures var run := States(s, acts);
            run[|acts|] == After(s, acts) && forall i :: 0 <= i < |acts| ==> Step(run[i], acts[i], run[i + 1])
    decreases |acts|
  {
    hide Enabled, Next;
    if acts != [] {
      var rest := States(Next(s, acts[0]), acts[1..]);
      PossibleRuns(Next(s, acts[0]), acts[1..]);
      forall i | 0 <= i < |acts|
        ensures Step(States(s, acts)[i], acts[i], States(s, acts)[i + 1])
      {
        assert i > 0 ==> acts[i] == acts[1..][i - 1] && States(s, acts)[i] == rest[i - 1];
      }
    }
  }

  lemma {:induction false} AfterConcat(s: State, acts: seq<Action>, more: seq<Action>)
    ensures After(s, acts + more) == After(After(s, acts), more)
    ensures Possible(s, acts + more) <==> Possible(s, acts) && Possible(After(s, acts), more)
    decreases |acts|
  {
    hide Enabled, Next;
    if acts == [] {
      assert acts + more == more;
    } else {
      assert (acts + more)[1..] == acts[1..] + more;
      AfterConcat(Next(s, acts[0]), acts[1..], more);
    }
  }

  /** At the start: nothing observed, no file, and two goroutines. */
  function Start(): State { State(map[], [Idle, Idle], Resting, None, None, map[], map[]) }

  function One(sig: string, b: string): Counters { map[sig := map[b := 1]] }

  lemma OneCount(sig: string, b: string)
    ensures Added(map[], sig, b, 1) == One(sig, b) && At(One(sig, b), sig, b) == 1 && One(sig, b) != map[]
  {
    assert sig in One(sig, b);
  }

  /** Both goroutines hold one count of the same counter. */
  lemma BothTook(sig: string, b: string)
    ensures var acts := [Observe(sig, b), Take(0), Observe(sig, b), Take(1)]; var s := After(Start(), acts);
            && Possible(Start(), acts)
            && s == State(map[], [Took(One(sig, b)), Took(One(sig, b))], Resting, None, None,
                          Added(One(sig, b), sig, b, 1), map[])
  {
    hide Added, One;
    OneCount(sig, b);
    var one := One(sig, b);
    var acts := [Observe(sig, b), Take(0), Observe(sig, b), Take(1)];
    var s1 := State(one, [Idle, Idle], Resting, None, None, one, map[]);
    var s2 := State(map[], [Took(one), Idle], Resting, None, None, one, map[]);
    var s3 := State(one, [Took(one), Idle], Resting, None, None, Added(one, sig, b, 1), map[]);
    assert Next(Start(), acts[0]) == s1 && Next(s1, acts[1]) == s2 && Next(s2, acts[2]) == s3;
    AfterFour(Start(), acts[0], acts[1], acts[2], acts[3]);
    PossibleFour(Start(), acts[0], acts[1], acts[2], acts[3]);
  }

  /** One goroutine has persisted a count and holds another one. */
  lemma TookAgain(sig: string, b: string)
    ensures var first := [Observe(sig, b), Take(0), ReadPending(0), WritePending(0)];
            var acts := first + [Observe(sig, b), Take(0)]; var s := After(Start(), acts);
            && Possible(Start(), acts)
            && s == State(map[], [Took(One(sig, b)), Idle], Resting, Some(Merged(map[], One(sig, b))), None,
                          Added(One(sig, b), sig, b, 1), map[])
  {
    hide Added, One, Merged;
    OneCount(sig, b);
    var one := One(sig, b);
    var first, more := [Observe(sig, b), Take(0), ReadPending(0), WritePending(0)], [Observe(sig, b), Take(0)];
    var s1 := State(one, [Idle, Idle], Resting, None, None, one, map[]);
    var s2 := State(map[], [Took(one), Idle], Resting, None, None, one, map[]);
    var s3 := State(map[], [HasRead(one, map[]), Idle], Resting, None, None, one, map[]);
    var s4 := State(map[], [Idle, Idle], Resting, Some(Merged(map[], one)), None, one, map[]);
    var s5 := State(one, [Idle, Idle], Resting, Some(Merged(map[], one)), None, Added(one, sig, b, 1), map[]);
    assert Next(Start(), first[0]) == s1 && Next(s1, first[1]) == s2 && Next(s2, first[2]) == s3;
    AfterFour(Start(), first[0], first[1], first[2], first[3]);
    PossibleFour(Start(), first[0], first[1], first[2], first[3]);
    assert Next(s3, first[3]) == s4 && Next(s4, more[0]) == s5;
    AfterTwo(s4, more[0], more[1]);
    AfterConcat(Start(), first, more);
  }

  lemma AfterTwo(s: State, a: Action, b: Action)
    ensures After(s, [a, b]) == Next(Next(s, a), b)
    ensures Possible(s, [a, b]) <==> Enabled(s, a) && Enabled(Next(s, a), b)
  {
    hide Enabled, Next;
    assert [a, b][1..] == [b] && [b][1..] == [];
    assert After(Next(s, a), [b]) == Next(Next(s, a), b);
    assert Possible(Next(s, a), [b]) <==> Enabled(Next(s, a), b);
  }

  lemma PossibleFour(s: State, a: Action, b: Action, c: Action, d: Action)
    requires Enabled(s, a) && Enabled(Next(s, a), b) && Enabled(Next(Next(s, a), b), c)
    requires Enabled(Next(Next(Next(s, a), b), c), d)
    ensures Possible(s, [a, b, c, d])
  {
    hide Enabled, Next;
    assert [a, b, c, d][1..] == [b, c, d] && [b, c, d][1..] == [c, d] && [c, d][1..] == [d] && [d][1..] == [];
    assert Possible(Next(Next(Next(s, a), b), c), [d]);
    assert Possible(Next(Next(s, a), b), [c, d]);
    assert Possible(Next(s, a), [b, c, d]);
  }

  lemma RunExists(first: seq<Action>, more: seq<Action>)
    requires Possible(Start(), first) && Possible(After(Start(), first), more)
    ensures var acts := first + more; var run := States(Start(), acts);
            Execution(run, acts) && run[|acts|] == After(After(Start(), first), more)
  {
    hide Enabled, Next;
    AfterConcat(Start(), first, more);
    PossibleRuns(Start(), first + more);
    StartIsInit();
  }

  lemma StartIsInit()
    ensures Init(Start())
  {
  }

  lemma ReachedSound(acts: seq<Action>)
    requires Possible(Start(), acts)
    ensures Sound(After(Start(), acts))
  {
    hide Enabled, Next, Sound;
    PossibleRuns(Start(), acts);
    StartIsInit();
    SoundHolds(States(Start(), acts), acts, |acts|);
  }

  lemma PossibleThree(s: State, a: Action, b: Action, c: Action)
    requires Enabled(s, a) && Enabled(Next(s, a), b) && Enabled(Next(Next(s, a), b), c)
    ensures Possible(s, [a, b, c])
  {
    hide Enabled, Next;
    assert [a, b, c][1..] == [b, c] && [b, c][1..] == [c] && [c][1..] == [];
    assert Possible(Next(Next(s, a), b), [c]);
    assert Possible(Next(s, a), [b, c]);
  }

  lemma TwoTaken(pc: Pc, pc': Pc, sig: string, b: string)
    ensures TakenAt([pc, pc'], sig, b) == At(Taken(pc), sig, b) + At(Taken(pc'), sig, b)
  {
    hide At;
    assert [pc, pc'][..1] == [pc] && [pc][..0] == [];
    assert TakenAt([pc], sig, b) == At(Taken(pc), sig, b);
  }

  /** A run from the start that loses a count: two are observed, one is left. */
  lemma CountsGetLost(sig: string, b: string) returns (run: seq<State>, acts: seq<Action>)
    ensures Execution(run, acts) && acts == [Observe(sig, b), Take(0), Observe(sig, b), Take(1)] +
                                            [ReadPending(0), ReadPending(1), WritePending(0), WritePending(1)]
    ensures At(run[|acts|].observed, sig, b) == 2 && Held(run[|acts|], sig, b) == 1
  {
    var first := [Observe(sig, b), Take(0), Observe(sig, b), Take(1)];
    var more := [ReadPending(0), ReadPending(1), WritePending(0), WritePending(1)];
    var s := After(Start(), first);
    acts, run := first + more, States(Start(), first + more);
    BothTook(sig, b);
    ReachedSound(first);
    TwoTaken(s.pcs[0], s.pcs[1], sig, b);
    OneCount(sig, b);
    AddedAt(One(sig, b), sig, b, 1, sig, b);
    NothingAt(sig, b);
    hide Added, One, Merged, At, TakenAt;
    LostUpdate(s, 0, 1, sig, b);
    PossibleFour(s, more[0], more[1], more[2], more[3]);
    AfterFour(s, more[0], more[1], more[2], more[3]);
    RunExists(first, more);
  }

  /** A run from the start that counts twice: two are observed, three are held, of which the
      server will get one twice. */
  lemma CountsGetDoubled(sig: string, b: string) returns (run: seq<State>, acts: seq<Action>)
    ensures Execution(run, acts) && acts == [Observe(sig, b), Take(0), ReadPending(0), WritePending(0)] +
                                            [Observe(sig, b), Take(0)] + [ReadPending(0), Rename, WritePending(0)]
    ensures At(run[|acts|].observed, sig, b) == 2 && Held(run[|acts|], sig, b) == 3
  {
    var first := [Observe(sig, b), Take(0), ReadPending(0), WritePending(0)] + [Observe(sig, b), Take(0)];
    var more := [ReadPending(0), Rename, WritePending(0)];
    var s := After(Start(), first);
    acts, run := first + more, States(Start(), first + more);
    TookAgain(sig, b);
    ReachedSound(first);
    TwoTaken(s.pcs[0], s.pcs[1], sig, b);
    OneCount(sig, b);
    AddedAt(One(sig, b), sig, b, 1, sig, b);
    MergedAt(map[], One(sig, b), sig, b);
    NothingAt(sig, b);
    hide Added, One, Merged, At, TakenAt;
    CountedTwice(s, 0, sig, b);
    PossibleThree(s, more[0], more[1], more[2]);
    AfterThree(s, more[0], more[1], more[2]);
    RunExists(first, more);
  }

  lemma AfterThree(s: State, a: Action, b: Action, c: Action)
    ensures After(s, [a, b, c]) == Next(Next(Next(s, a), b), c)
  {
    hide Next;
    assert [a, b, c][1..] == [b, c] && [b, c][1..] == [c] && [c][1..] == [];
    assert After(Next(Next(s, a), b), [c]) == Next(Next(Next(s, a), b), c);
  }

  lemma AfterFour(s: State, a: Action, b: Action, c: Action, d: Action)
    ensures After(s, [a, b, c, d]) == Next(Next(Next(Next(s, a), b), c), d)
  {
    hide Next;
    assert [a, b, c, d][1..] == [b, c, d];
    AfterThree(Next(s, a), b, c, d);
  }
}
