/** The gate that admits one trial run at a time and carries the user's signals to a parked
    step (`desktop/browser_console_app.go`). First the gate and its channels as objects,
    then their protocol with any number of runs and signals interleaved. */
module TrialGate {
  import opened GoStrings

  /** A Go channel of capacity one, used only without blocking. */
  class Chan {
    var buf: seq<string>

    constructor ()
      ensures buf == []
    {
      buf := [];
    }

    ghost predicate Valid()
      reads this
    {
      |buf| <= 1
    }

    /** A full channel drops the token. */
    method Offer(v: string)
      requires Valid()
      modifies this
      ensures Valid() && buf == if old(buf) == [] then [v] else old(buf)
    {
      if buf == [] {
        buf := [v];
      }
    }

    method Drain()
      modifies this
      ensures buf == []
    {
      while buf != [] {
        buf := buf[1..];
      }
    }
  }

  class ConsoleTrialGate {
    var active: bool
    var resume: Chan?
    var abort: Chan?

    constructor ()
      ensures Valid() && !active
    {
      active, resume, abort := false, null, null;
    }

    ghost predicate Valid()
      reads this, resume, abort
    {
      && (active <==> resume != null) && (active <==> abort != null)
      && (active ==> resume != abort && resume.Valid() && abort.Valid())
    }

    /** Claims the slot with two fresh, empty channels, or leaves the gate as it is. */
    method Enter() returns (r: Chan?, a: Chan?, ok: bool)
      requires Valid()
      modifies this
      ensures Valid() && active && ok == !old(active)
      ensures ok ==> resume == r && abort == a && fresh(r) && fresh(a) && r.buf == [] && a.buf == []
      ensures !ok ==> r == null && a == null && resume == old(resume) && abort == old(abort)
    {
      if active {
        return null, null, false;
      }
      active := true;
      resume := new Chan();
      abort := new Chan();
      return resume, abort, true;
    }

    method Leave()
      modifies this
      ensures Valid() && !active
    {
      active, resume, abort := false, null, null;
    }

    method SignalResume(reply: string) returns (ok: bool)
      requires Valid()
      modifies resume
      ensures Valid() && ok == active
      ensures ok ==> resume.buf == (if old(resume.buf) == [] then [reply] else old(resume.buf))
      ensures ok ==> abort.buf == old(abort.buf)
    {
      if !active || resume == null {
        return false;
      }
      resume.Offer(reply);
      return true;
    }

    method SignalAbort() returns (ok: bool)
      requires Valid()
      modifies abort
      ensures Valid() && ok == active
      ensures ok ==> abort.buf == (if old(abort.buf) == [] then [""] else old(abort.buf))
      ensures ok ==> resume.buf == old(resume.buf)
    {
      if !active || abort == null {
        return false;
      }
      abort.Offer("");
      return true;
    }
  }
}

module TrialGateProtocol {
  import opened GoStrings

  type Tid = nat
  type RunId = nat

  /** A signal with the run whose channel it entered and the moment it did. */
  datatype Token = Token(sentTo: RunId, at: nat, reply: string)

  datatype Chans = Chans(resume: Option<Token>, abort: Option<Token>)

  /** `began` is when the step started to drain, `seen` and `seenAbort` when it found the
      resume and the abort channel empty. */
  datatype Pc =
    | Idle
    | WantEnter
    | Stepping(run: RunId, step: nat)
    | DrainResume(run: RunId, step: nat, began: nat)
    | DrainAbort(run: RunId, step: nat, began: nat, seen: nat)
    | Parked(run: RunId, step: nat, began: nat, seen: nat, seenAbort: nat)

  predicate Inside(pc: Pc) { !pc.Idle? && !pc.WantEnter? }

  datatype Consumed = Consumed(run: RunId, step: nat, began: nat, emptyAt: nat, token: Token)

  datatype State = State(
    active: Option<RunId>, chans: map<RunId, Chans>, pcs: map<Tid, Pc>,
    clock: nat, nextRun: RunId, consumed: seq<Consumed>)
  {
    function Pc(t: Tid): Pc { if t in pcs then pcs[t] else Idle }
    function Of(run: RunId): Chans { if run in chans then chans[run] else Chans(None, None) }
  }

  /** Signals may come at any time and from anyone. `Release` is a parked step that goes on
      or gives up without a token: condition met, or timed out. */
  datatype Action =
    | Begin(t: Tid)
    | Enter(t: Tid)
    | PlainStep(t: Tid)
    | Park(t: Tid)
    | Drain(t: Tid)
    | TakeReply(t: Tid)
    | TakeAbort(t: Tid)
    | Release(t: Tid, goOn: bool)
    | Leave(t: Tid)
    | SignalResume(reply: string)
    | SignalAbort

  predicate Enabled(s: State, a: Action) {
    match a
    case Begin(t) => s.Pc(t).Idle?
    case Enter(t) => s.Pc(t).WantEnter?
    case PlainStep(t) => s.Pc(t).Stepping?
    case Park(t) => s.Pc(t).Stepping?
    case Drain(t) => s.Pc(t).DrainResume? || s.Pc(t).DrainAbort?
    case TakeReply(t) => s.Pc(t).Parked? && s.Of(s.Pc(t).run).resume.Some?
    case TakeAbort(t) => s.Pc(t).Parked? && s.Of(s.Pc(t).run).abort.Some?
    case Release(t, _) => s.Pc(t).Parked?
    case Leave(t) => s.Pc(t).Stepping?
    case SignalResume(_) => true
    case SignalAbort => true
  }

  function Mover(a: Action): Option<Tid> {
    if a.SignalResume? || a.SignalAbort? then None else Some(a.t)
  }

  /** A failed or aborted step goes straight on to `Leave`, which `Stepping` allows. */
  function PcAfter(s: State, a: Action): Pc
    requires Mover(a).Some? && Enabled(s, a)
  {
    var pc := s.Pc(a.t);
    match a
    case Begin(_) => WantEnter
    case Enter(_) => if s.active.None? then Stepping(s.nextRun, 0) else Idle
    case PlainStep(_) => Stepping(pc.run, pc.step + 1)
    case Park(_) => DrainResume(pc.run, pc.step, s.clock)
    case Drain(_) =>
      if pc.DrainResume? then
        if s.Of(pc.run).resume.Some? then pc else DrainAbort(pc.run, pc.step, pc.began, s.clock)
      else
        if s.Of(pc.run).abort.Some? then pc else Parked(pc.run, pc.step, pc.began, pc.seen, s.clock)
    case TakeReply(_) => Stepping(pc.run, pc.step + 1)
    case TakeAbort(_) => Stepping(pc.run, pc.step + 1)
    case Release(_, _) => Stepping(pc.run, pc.step + 1)
    case Leave(_) => Idle
  }

  function ChansAfter(s: State, a: Action): map<RunId, Chans>
    requires Enabled(s, a)
  {
    match a
    case Enter(_) => if s.active.None? then s.chans[s.nextRun := Chans(None, None)] else s.chans
    case Drain(t) =>
      var pc := s.Pc(t);
      if pc.DrainResume? then s.chans[pc.run := s.Of(pc.run).(resume := None)]
      else s.chans[pc.run := s.Of(pc.run).(abort := None)]
    case TakeReply(t) => s.chans[s.Pc(t).run := s.Of(s.Pc(t).run).(resume := None)]
    case TakeAbort(t) => s.chans[s.Pc(t).run := s.Of(s.Pc(t).run).(abort := None)]
    case SignalResume(reply) =>
      if s.active.None? || s.Of(s.active.value).resume.Some? then s.chans else
      s.chans[s.active.value := s.Of(s.active.value).(resume := Some(Token(s.active.value, s.clock, reply)))]
    case SignalAbort =>
      if s.active.None? || s.Of(s.active.value).abort.Some? then s.chans else
      s.chans[s.active.value := s.Of(s.active.value).(abort := Some(Token(s.active.value, s.clock, "")))]
    case _ => s.chans
  }

  function ConsumedAfter(s: State, a: Action): seq<Consumed>
    requires Enabled(s, a)
  {
    if a.TakeReply? then
      var pc := s.Pc(a.t);
      s.consumed + [Consumed(pc.run, pc.step, pc.began, pc.seen, s.Of(pc.run).resume.value)]
    else if a.TakeAbort? then
      var pc := s.Pc(a.t);
      s.consumed + [Consumed(pc.run, pc.step, pc.began, pc.seenAbort, s.Of(pc.run).abort.value)]
    else s.consumed
  }

  function Next(s: State, a: Action): State
    requires Enabled(s, a)
  {
    State(
      if a.Enter? && s.active.None? then Some(s.nextRun) else if a.Leave? then None else s.active,
      ChansAfter(s, a),
      if Mover(a).Some? then s.pcs[a.t := PcAfter(s, a)] else s.pcs,
      s.clock + 1,
      if a.Enter? && s.active.None? then s.nextRun + 1 else s.nextRun,
      ConsumedAfter(s, a))
  }

  ghost predicate Step(s: State, a: Action, s': State) { Enabled(s, a) && s' == Next(s, a) }

  ghost predicate Init(s: State) { s == State(None, map[], map[], 0, 0, []) }

  ghost predicate Execution(run: seq<State>, acts: seq<Action>) {
    && |run| == |acts| + 1 && Init(run[0])
    && forall i :: 0 <= i < |acts| ==> Step(run[i], acts[i], run[i + 1])
  }

  // ---- one run at a time ----

  ghost predicate OneInside(s: State) {
    && (forall t: Tid :: Inside(s.Pc(t)) ==> s.active == Some(s.Pc(t).run))
    && (forall t: Tid, u: Tid :: Inside(s.Pc(t)) && Inside(s.Pc(u)) ==> t == u)
    && (s.active.Some? ==> s.active.value < s.nextRun && exists t: Tid :: Inside(s.Pc(t)))
  }

  lemma OneInsideStep(s: State, a: Action, s': State)
    requires OneInside(s) && Step(s, a, s')
    ensures OneInside(s')
  {
    if Mover(a).Some? {
      assert forall u: Tid :: u != a.t ==> s'.Pc(u) == s.Pc(u);
      assert s'.Pc(a.t) == PcAfter(s, a);
    } else {
      assert forall u: Tid :: s'.Pc(u) == s.Pc(u);
    }
  }

  // ---- no stale token ----

  /** A token left in a channel the step has seen empty came after that moment. */
  ghost predicate FreshFor(s: State, pc: Pc) {
    && (pc.DrainResume? ==> pc.began <= s.clock)
    && (pc.DrainAbort? || pc.Parked? ==>
          && pc.began <= pc.seen <= s.clock
          && (s.Of(pc.run).resume.Some? ==> pc.seen <= s.Of(pc.run).resume.value.at))
    && (pc.Parked? ==>
          && pc.began <= pc.seenAbort <= s.clock
          && (s.Of(pc.run).abort.Some? ==> pc.seenAbort <= s.Of(pc.run).abort.value.at))
  }

  ghost predicate OwnTokensOf(s: State, r: RunId) {
    && (s.Of(r).resume.Some? ==> s.Of(r).resume.value.sentTo == r && s.Of(r).resume.value.at < s.clock)
    && (s.Of(r).abort.Some? ==> s.Of(r).abort.value.sentTo == r && s.Of(r).abort.value.at < s.clock)
  }

  ghost predicate OwnTokens(s: State) { forall r: RunId :: OwnTokensOf(s, r) }

  ghost predicate Proper(c: Consumed) {
    c.token.sentTo == c.run && c.began <= c.emptyAt <= c.token.at
  }

  ghost predicate TokenInv(s: State) {
    && OwnTokens(s)
    && (forall t: Tid :: FreshFor(s, s.Pc(t)))
    && (forall k :: 0 <= k < |s.consumed| ==> Proper(s.consumed[k]) && s.consumed[k].token.at < s.clock)
  }

  lemma FreshStep(s: State, a: Action, s': State, u: Tid)
    requires OneInside(s) && TokenInv(s) && Step(s, a, s')
    ensures FreshFor(s', s'.Pc(u))
  {
    assert FreshFor(s, s.Pc(u));
    if Mover(a) == Some(u) {
      assert s'.Pc(u) == PcAfter(s, a);
    } else {
      assert s'.Pc(u) == s.Pc(u);
    }
  }

  lemma OwnTokensStep(s: State, a: Action, s': State)
    requires TokenInv(s) && Step(s, a, s')
    ensures OwnTokens(s')
  {
    forall r: RunId ensures OwnTokensOf(s', r) {
      assert OwnTokensOf(s, r);
    }
  }

  lemma {:induction false} InvHolds(run: seq<State>, acts: seq<Action>, i: nat)
    requires Execution(run, acts) && i < |run|
    ensures OneInside(run[i]) && TokenInv(run[i])
  {
    if i > 0 {
      var s, a, s' := run[i - 1], acts[i - 1], run[i];
      InvHolds(run, acts, i - 1);
      assert Step(s, a, s');
      OneInsideStep(s, a, s');
      OwnTokensStep(s, a, s');
      forall u: Tid ensures FreshFor(s', s'.Pc(u)) { FreshStep(s, a, s', u); }
      if Mover(a).Some? { assert FreshFor(s, s.Pc(a.t)) && (Inside(s.Pc(a.t)) ==> OwnTokensOf(s, s.Pc(a.t).run)); }
    }
  }

  /** At most one trial run holds the gate, and the gate is held only while one does. */
  lemma OneRunAtATime(run: seq<State>, acts: seq<Action>, i: nat, t: Tid, u: Tid)
    requires Execution(run, acts) && i < |run|
    requires Inside(run[i].Pc(t)) && Inside(run[i].Pc(u))
    ensures t == u && run[i].active == Some(run[i].Pc(t).run)
  {
    InvHolds(run, acts, i);
  }

  lemma GateFreeWhenNobodyInside(run: seq<State>, acts: seq<Action>, i: nat)
    requires Execution(run, acts) && i < |run| && forall t: Tid :: !Inside(run[i].Pc(t))
    ensures run[i].active.None?
  {
    InvHolds(run, acts, i);
  }

  /** Every reply or abort a parked step ever acts on was sent to the same run, after that
      very step had seen the channel empty: none is left over from an earlier step or run. */
  lemma NoStaleSignal(run: seq<State>, acts: seq<Action>, i: nat, k: nat)
    requires Execution(run, acts) && i < |run| && k < |run[i].consumed|
    ensures var c := run[i].consumed[k];
            c.token.sentTo == c.run && c.began <= c.emptyAt <= c.token.at
  {
    InvHolds(run, acts, i);
    assert Proper(run[i].consumed[k]);
  }

  /** A token in a channel of `r` is what the action at its moment sent, while that run had
      the gate. */
  ghost predicate SentTo(run: seq<State>, acts: seq<Action>, i: nat, r: RunId, tok: Token, a: Action) {
    tok.at < i <= |acts| < |run| && acts[tok.at] == a && run[tok.at].active == Some(r)
  }

  ghost predicate ChansSent(run: seq<State>, acts: seq<Action>, i: nat, r: RunId) {
    && i < |run|
    && var c := run[i].Of(r);
    && run[i].clock == i
    && (c.resume.Some? ==> SentTo(run, acts, i, r, c.resume.value, SignalResume(c.resume.value.reply)))
    && (c.abort.Some? ==> SentTo(run, acts, i, r, c.abort.value, SignalAbort))
  }

  lemma {:induction false} ChansSentHold(run: seq<State>, acts: seq<Action>, i: nat, r: RunId)
    requires Execution(run, acts) && i < |run|
    ensures ChansSent(run, acts, i, r)
  {
    if i > 0 {
      ChansSentHold(run, acts, i - 1, r);
      assert Step(run[i - 1], acts[i - 1], run[i]);
    }
  }

  /** What a parked step takes for a reply is a reply that somebody sent while this run had
      the gate, in the same words; and what it takes for an abort is one. */
  lemma TakenWasSent(run: seq<State>, acts: seq<Action>, i: nat)
    requires Execution(run, acts) && i < |acts| && (acts[i].TakeReply? || acts[i].TakeAbort?)
    ensures var cs := run[i + 1].consumed; var c := cs[|cs| - 1];
            && |cs| == |run[i].consumed| + 1 && c.token.at < i
            && c.run == run[i].Pc(acts[i].t).run && run[c.token.at].active == Some(c.run)
            && (acts[i].TakeReply? ==> acts[c.token.at] == SignalResume(c.token.reply))
            && (acts[i].TakeAbort? ==> acts[c.token.at] == SignalAbort)
  {
    assert Step(run[i], acts[i], run[i + 1]);
    ChansSentHold(run, acts, i, run[i].Pc(acts[i].t).run);
  }

  // ---- each signal is acted on once ----

  ghost predicate Unused(cs: seq<Consumed>, tok: Option<Token>) {
    tok.Some? ==> forall k :: 0 <= k < |cs| ==> cs[k].token.at != tok.value.at
  }

  ghost predicate UnusedIn(s: State, r: RunId) {
    Unused(s.consumed, s.Of(r).resume) && Unused(s.consumed, s.Of(r).abort)
  }

  ghost predicate DistinctTokens(cs: seq<Consumed>) {
    forall j, k :: 0 <= j < k < |cs| ==> cs[j].token.at != cs[k].token.at
  }

  /** Tokens in different channels were sent by different signals. */
  lemma ChannelsApart(run: seq<State>, acts: seq<Action>, i: nat, r: RunId, q: RunId)
    requires ChansSent(run, acts, i, r) && ChansSent(run, acts, i, q)
    ensures var c, d := run[i].Of(r), run[i].Of(q);
            && (r != q && c.resume.Some? && d.resume.Some? ==> c.resume.value.at != d.resume.value.at)
            && (r != q && c.abort.Some? && d.abort.Some? ==> c.abort.value.at != d.abort.value.at)
            && (c.resume.Some? && d.abort.Some? ==> c.resume.value.at != d.abort.value.at)
            && (c.abort.Some? && d.resume.Some? ==> c.abort.value.at != d.resume.value.at)
  {
  }

  lemma UnusedStep(run: seq<State>, acts: seq<Action>, i: nat, r: RunId)
    requires Execution(run, acts) && i < |acts| && forall q: RunId :: UnusedIn(run[i], q)
    requires TokenInv(run[i])
    ensures UnusedIn(run[i + 1], r)
  {
    var s, a, s' := run[i], acts[i], run[i + 1];
    assert Step(s, a, s');
    assert UnusedIn(s, r);
    ChansSentHold(run, acts, i, r);
    if a.TakeReply? || a.TakeAbort? {
      var q := s.Pc(a.t).run;
      ChansSentHold(run, acts, i, q);
      ChannelsApart(run, acts, i, q, r);
      hide ChansSent, TokenInv, Execution;
    }
    hide FreshFor, OwnTokens, SentTo;
  }

  /** No signal is acted on twice, by whatever steps and runs. */
  lemma {:induction false} EachSignalOnce(run: seq<State>, acts: seq<Action>, i: nat)
    requires Execution(run, acts) && i < |run|
    ensures DistinctTokens(run[i].consumed) && forall r: RunId :: UnusedIn(run[i], r)
  {
    if i > 0 {
      var s, a := run[i - 1], acts[i - 1];
      EachSignalOnce(run, acts, i - 1);
      InvHolds(run, acts, i - 1);
      forall r: RunId ensures UnusedIn(run[i], r) {
        UnusedStep(run, acts, i - 1, r);
      }
      assert Step(s, a, run[i]);
      if a.TakeReply? || a.TakeAbort? {
        assert UnusedIn(s, s.Pc(a.t).run);
      }
    }
  }
}
