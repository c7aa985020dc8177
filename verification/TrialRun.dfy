/** One trial run of the browser console (`desktop/browser_console_app.go`): each step is
    substituted from the run's parameters right before it is executed, an ask step adds
    the user's reply to them, and the run reports its progress as events. What a step
    does to the browser is a parameter. A string length counts bytes. */
module TrialRun {
  import opened GoStrings
  import opened TrialGate

  type Params = map<string, string>

  datatype Step = Step(
    kind: string, target: string, url: string, text: string, value: string,
    expression: string, condition: string, files: seq<string>)

  // ---- references {{name}} ----

  /** Where the reference that starts at the front of `s` ends, or 0: two braces, at least
      one character other than a closing brace, two closing braces. */
  function RefLength(s: string): (n: nat)
    ensures n <= |s| && (n > 0 ==> n >= 5)
  {
    if |s| < 2 || s[0] != '{' || s[1] != '{' then 0
    else
      var j := 2 + IndexOf(s[2..], '}');
      if j > 2 && j + 1 < |s| && s[j + 1] == '}' then j + 2 else 0
  }

  datatype Segment = Lit(c: char) | Ref(raw: string)

  function RefName(raw: string): string
    requires |raw| >= 4
  {
    TrimSpace(raw[2..|raw| - 2])
  }

  function Parse(s: string): (r: seq<Segment>)
    ensures forall k :: 0 <= k < |r| && r[k].Ref? ==> |r[k].raw| >= 5
    decreases |s|
  {
    if s == [] then []
    else if RefLength(s) > 0 then [Ref(s[..RefLength(s)])] + Parse(s[RefLength(s)..])
    else [Lit(s[0])] + Parse(s[1..])
  }

  function Expand(g: Segment, params: Params): string {
    if g.Lit? then [g.c]
    else if |g.raw| >= 4 && RefName(g.raw) in params then params[RefName(g.raw)]
    else g.raw
  }

  function Render(gs: seq<Segment>, params: Params): string {
    if gs == [] then [] else Expand(gs[0], params) + Render(gs[1..], params)
  }

  function Subst(s: string, params: Params): string { Render(Parse(s), params) }

  /** The reference or the character at the front of `s`. */
  function Head(s: string): Segment
    requires s != []
  {
    if RefLength(s) > 0 then Ref(s[..RefLength(s)]) else Lit(s[0])
  }

  function HeadLength(s: string): (n: nat)
    requires s != []
    ensures 1 <= n <= |s|
  {
    if RefLength(s) > 0 then RefLength(s) else 1
  }

  lemma SubstHead(s: string, params: Params)
    requires s != []
    ensures Subst(s, params) == Expand(Head(s), params) + Subst(s[HeadLength(s)..], params)
  {
    assert Parse(s) == [Head(s)] + Parse(s[HeadLength(s)..]);
    RenderCons(Head(s), Parse(s[HeadLength(s)..]), params);
  }

  function ParseFrom(s: string, i: nat): seq<Segment>
    requires i <= |s|
    decreases |s| - i
  {
    if i == |s| then [] else [Head(s[i..])] + ParseFrom(s, i + HeadLength(s[i..]))
  }

  lemma {:induction false} ParseFromIsParse(s: string, i: nat)
    requires i <= |s|
    ensures ParseFrom(s, i) == Parse(s[i..])
    decreases |s| - i
  {
    if i < |s| {
      var n := HeadLength(s[i..]);
      ParseFromIsParse(s, i + n);
      assert s[i..][n..] == s[i + n..];
    }
  }

  lemma {:induction false} RenderSnoc(gs: seq<Segment>, g: Segment, params: Params)
    ensures Render(gs + [g], params) == Render(gs, params) + Expand(g, params)
  {
    if gs == [] {
      assert [g][1..] == [];
    } else {
      RenderSnoc(gs[1..], g, params);
      assert (gs + [g])[1..] == gs[1..] + [g];
      ConcatAssoc(Expand(gs[0], params), Render(gs[1..], params), Expand(g, params));
    }
  }

  lemma ConcatAssoc(a: string, b: string, c: string)
    ensures (a + b) + c == a + (b + c)
  {
  }

  lemma ParseAdvance(done: seq<Segment>, s: string, i: nat)
    requires i < |s|
    ensures (done + [Head(s[i..])]) + ParseFrom(s, i + HeadLength(s[i..])) == done + ParseFrom(s, i)
  {
    var g, rest := Head(s[i..]), ParseFrom(s, i + HeadLength(s[i..]));
    assert ParseFrom(s, i) == [g] + rest;
    assert (done + [g]) + rest == done + ([g] + rest);
  }

  lemma ParseWhole(s: string, params: Params)
    ensures ParseFrom(s, 0) == Parse(s) && ParseFrom(s, |s|) == [] && Render([], params) == ""
  {
    ParseFromIsParse(s, 0);
    assert s[0..] == s;
  }

  /** The left-to-right replacement of the regular-expression engine: what it inserts it
      does not look at again. */
  method Substitute(s: string, params: Params) returns (out: string)
    ensures out == Subst(s, params)
  {
    ParseWhole(s, params);
    hide ParseFrom, Render, Expand, Head;
    out := "";
    ghost var done: seq<Segment>, all := [], ParseFrom(s, 0);
    var i := 0;
    while i < |s|
      invariant 0 <= i <= |s|
      invariant out == Render(done, params)
      invariant done + ParseFrom(s, i) == all
    {
      var g := Head(s[i..]);
      RenderSnoc(done, g, params);
      ParseAdvance(done, s, i);
      out := out + Expand(g, params);
      done := done + [g];
      i := i + HeadLength(s[i..]);
    }
    assert done == all;
  }

  lemma RenderCons(g: Segment, gs: seq<Segment>, params: Params)
    ensures Render([g] + gs, params) == Expand(g, params) + Render(gs, params)
  {
    assert ([g] + gs)[1..] == gs;
  }

  predicate Mentions(s: string, name: string) {
    exists k :: 0 <= k < |Parse(s)| && Parse(s)[k].Ref? && RefName(Parse(s)[k].raw) == name
  }

  lemma HeadIsLossless(s: string)
    requires s != []
    ensures Expand(Head(s), map[]) + s[HeadLength(s)..] == s
  {
    hide RefName;
  }

  /** Reading a string into segments loses nothing: with no binding at all it comes back. */
  lemma {:induction false} ParseIsLossless(s: string)
    ensures Subst(s, map[]) == s
    decreases |s|
  {
    if s != [] {
      hide Expand, Head, HeadLength, RefLength, Subst;
      ParseIsLossless(s[HeadLength(s)..]);
      SubstHead(s, map[]);
      HeadIsLossless(s);
    } else {
      assert Parse(s) == [];
    }
  }

  lemma {:induction false} RenderAgrees(gs: seq<Segment>, p: Params, q: Params)
    requires forall k :: 0 <= k < |gs| ==> Expand(gs[k], p) == Expand(gs[k], q)
    ensures Render(gs, p) == Render(gs, q)
  {
    if gs != [] {
      assert forall k :: 0 <= k < |gs| - 1 ==> gs[1..][k] == gs[k + 1];
      RenderAgrees(gs[1..], p, q);
    }
  }

  ghost predicate AgreeOn(s: string, p: Params, q: Params) {
    forall name :: Mentions(s, name) ==> (name in p <==> name in q) && (name in p ==> p[name] == q[name])
  }

  /** Only the names a string mentions matter. */
  lemma SubstUsesMentioned(s: string, p: Params, q: Params)
    requires AgreeOn(s, p, q)
    ensures Subst(s, p) == Subst(s, q)
  {
    var gs := Parse(s);
    forall k | 0 <= k < |gs| ensures Expand(gs[k], p) == Expand(gs[k], q) {
      if gs[k].Ref? { assert Mentions(s, RefName(gs[k].raw)); }
    }
    RenderAgrees(gs, p, q);
  }

  /** Unbound references stay literal. */
  lemma UnboundStaysLiteral(s: string, p: Params)
    requires forall name :: Mentions(s, name) ==> name !in p
    ensures Subst(s, p) == s
  {
    hide Subst, Mentions;
    SubstUsesMentioned(s, p, map[]);
    ParseIsLossless(s);
  }

  /** A bound reference yields its value as it is, even a value that looks like a reference. */
  lemma ValueIsNotRescanned(name: string, rest: string, params: Params)
    requires name != [] && (forall c :: c in name ==> c != '}') && TrimSpace(name) in params
    ensures Subst("{{" + name + "}}" + rest, params) == params[TrimSpace(name)] + Subst(rest, params)
  {
    var s := "{{" + name + "}}" + rest;
    var n := |name| + 4;
    assert s[2..] == name + ("}}" + rest);
    assert forall k :: 0 <= k < |name| ==> s[2..][k] == name[k];
    assert s[2..][|name|] == '}';
    var j := IndexOf(s[2..], '}');
    assert forall k :: 0 <= k < |name| ==> s[2..][k] != '}' by {
      forall k | 0 <= k < |name| ensures s[2..][k] != '}' { assert name[k] in name; }
    }
    assert j == |name| && RefLength(s) == n;
    assert s[n..] == rest && s[..n][2..n - 2] == name;
    SubstHead(s, params);
  }

  /** What stands at the front of a string is a reference if and only if it is a name with
      no closing brace in it between double braces. */
  lemma RefLengthIff(s: string, n: nat)
    ensures RefLength(s) == n > 0 <==>
            exists name: string :: name != "" && '}' !in name && "{{" + name + "}}" <= s && n == |name| + 4
  {
    if RefLength(s) == n > 0 {
      var name := s[2..n - 2];
      assert forall k :: 0 <= k < |name| ==> name[k] == s[2..][k];
      assert "{{" + name + "}}" == s[..n];
    }
    forall name: string | name != "" && '}' !in name && "{{" + name + "}}" <= s && n == |name| + 4
      ensures RefLength(s) == n
    {
      NameEnds(s, name);
    }
  }

  lemma NameEnds(s: string, name: string)
    requires name != "" && '}' !in name && "{{" + name + "}}" <= s
    ensures RefLength(s) == |name| + 4
  {
    var r := "{{" + name + "}}";
    assert forall k :: 0 <= k < |r| ==> s[k] == r[k];
    assert forall k :: 0 <= k < |name| ==> s[2..][k] == r[k + 2] == name[k] && name[k] in name;
    assert s[2..][|name|] == '}';
    assert IndexOf(s[2..], '}') == |name|;
  }

  /** Where no reference begins, a character is itself. With the two lemmas above this says
      what substitution makes of every string. */
  lemma OrdinaryCharacter(s: string, params: Params)
    requires s != ""
    requires !exists name: string :: name != "" && '}' !in name && "{{" + name + "}}" <= s
    ensures Subst(s, params) == [s[0]] + Subst(s[1..], params)
  {
    if RefLength(s) > 0 {
      RefLengthIff(s, RefLength(s));
    }
    SubstHead(s, params);
  }

  lemma UnboundReference(name: string, rest: string, params: Params)
    requires name != "" && '}' !in name && TrimSpace(name) !in params
    ensures Subst("{{" + name + "}}" + rest, params) == "{{" + name + "}}" + Subst(rest, params)
  {
    var ref := "{{" + name + "}}";
    var s := ref + rest;
    hide TrimSpace, Subst, Parse;
    NameEnds(s, name);
    assert s[..|ref|] == ref && s[|ref|..] == rest && ref[2..|ref| - 2] == name;
    SubstHead(s, params);
  }

  // ---- running the steps ----

  function SubstStep(s: Step, p: Params): Step {
    Step(s.kind, Subst(s.target, p), Subst(s.url, p), Subst(s.text, p), Subst(s.value, p),
         Subst(s.expression, p), Subst(s.condition, p),
         seq(|s.files|, i requires 0 <= i < |s.files| => Subst(s.files[i], p)))
  }

  /** What came of a step: the output of an action or human step, the reply to an ask step,
      or an error (also for a step of unknown kind). */
  datatype Outcome = Done(text: string) | Failed(err: string)

  type World = (nat, Step) -> Outcome

  datatype Status = Running | Waiting | StepDone | StepFailed

  /** Index -1 is the end of the run. */
  datatype Event = Event(index: int, status: Status, text: string, awaitReply: bool, bind: string)

  const HUMAN_PROMPT := "请在浏览器中完成需要人工操作的步骤"
  const ASK_PROMPT := "请输入内容后继续"
  const NO_REPLY := "（用户未输入，继续）"
  const GOT_REPLY := "收到回复："

  function Prompt(text: string, standard: string): string {
    if TrimSpace(text) == "" then standard else TrimSpace(text)
  }

  /** Human and ask steps announce that they wait, with their text as the prompt. */
  function StartEvent(i: nat, s: Step): Event {
    if s.kind == "human" then
      var hint := if TrimSpace(s.condition) == "" then "" else "（自动检测: " + TrimSpace(s.condition) + "）";
      Event(i, Waiting, Prompt(s.text, HUMAN_PROMPT) + hint, false, "")
    else if s.kind == "ask" then Event(i, Waiting, Prompt(s.text, ASK_PROMPT), true, TrimSpace(s.target))
    else Event(i, Running, "", false, "")
  }

  /** An ask step shows the reply it got, any other its output. */
  function DoneText(s: Step, text: string): string {
    if s.kind != "ask" then text else if text == "" then NO_REPLY else GOT_REPLY + text
  }

  function Bound(p: Params, s: Step, text: string): Params {
    if s.kind == "ask" && TrimSpace(s.target) != "" then p[TrimSpace(s.target) := text] else p
  }

  function Events(i: nat, s: Step, r: Outcome): seq<Event> {
    match r
    case Failed(err) => [StartEvent(i, s), Event(i, StepFailed, err, false, ""), Event(-1, StepFailed, err, false, "")]
    case Done(text) => [StartEvent(i, s), Event(i, StepDone, DoneText(s, text), false, "")]
  }

  /** Announces a step, executes it and reports the outcome. */
  method RunStep(i: nat, s: Step, world: World) returns (r: Outcome, events: seq<Event>)
    ensures r == world(i, s) && events == Events(i, s, r)
  {
    events := [StartEvent(i, s)];
    r := world(i, s);
    match r {
      case Failed(err) =>
        events := events + [Event(i, StepFailed, err, false, "")];
        events := events + [Event(-1, StepFailed, err, false, "")];
      case Done(text) =>
        events := events + [Event(i, StepDone, DoneText(s, text), false, "")];
    }
  }

  /** The loop over the steps. `seen` records the steps as they were executed. */
  method RunSteps(steps: seq<Step>, defaults: Params, world: World)
    returns (events: seq<Event>, ghost seen: seq<Step>)
    ensures events == Trace(steps, defaults, world, 0)
    ensures seen == Seen(steps, defaults, world, 0)
  {
    hide SubstStep, Events, Bound, Trace, Seen;
    events, seen := [], [];
    var params := defaults;
    for i := 0 to |steps|
      invariant events + Trace(steps, params, world, i) == Trace(steps, defaults, world, 0)
      invariant seen + Seen(steps, params, world, i) == Seen(steps, defaults, world, 0)
    {
      Unfold(steps, params, world, i);
      var s := SubstStep(steps[i], params);
      var r, news := RunStep(i, s, world);
      events, seen := events + news, seen + [s];
      if r.Failed? {
        return;
      }
      params := Bound(params, s, r.text);
    }
    UnfoldEnd(steps, params, world);
    events := events + [Event(-1, StepDone, "", false, "")];
  }

  datatype Refusal = NoSteps | GateBusy | NoBrowser

  /** A run that does not start shows nothing and leaves a busy gate to its owner; one that
      does holds the gate to its end and then frees it. A step that fails is a result, not
      a refusal. */
  method BrowserConsoleTrialRun(gate: ConsoleTrialGate, steps: seq<Step>, defaults: Params, world: World,
                                browserOpens: bool)
    returns (refused: Option<Refusal>, events: seq<Event>, ghost seen: seq<Step>)
    requires gate.Valid()
    modifies gate
    ensures gate.Valid() && gate.active == (old(gate.active) && refused.Some?)
    ensures old(gate.active) ==> gate.resume == old(gate.resume) && gate.abort == old(gate.abort)
    ensures refused == if steps == [] then Some(NoSteps) else if old(gate.active) then Some(GateBusy)
                       else if !browserOpens then Some(NoBrowser) else None
    ensures events == if refused.Some? then [] else Trace(steps, defaults, world, 0)
    ensures seen == if refused.Some? then [] else Seen(steps, defaults, world, 0)
  {
    hide Trace, Seen;
    events, seen := [], [];
    if |steps| == 0 {
      return Some(NoSteps), [], [];
    }
    var resume, abort, ok := gate.Enter();
    if !ok {
      return Some(GateBusy), [], [];
    }
    if !browserOpens {
      gate.Leave();
      return Some(NoBrowser), [], [];
    }
    events, seen := RunSteps(steps, defaults, world);
    gate.Leave();
    refused := None;
  }

  function Trace(steps: seq<Step>, p: Params, world: World, i: nat): seq<Event>
    requires i <= |steps|
    decreases |steps| - i
  {
    if i == |steps| then [Event(-1, StepDone, "", false, "")]
    else
      var s := SubstStep(steps[i], p);
      var r := world(i, s);
      Events(i, s, r) + if r.Failed? then [] else Trace(steps, Bound(p, s, r.text), world, i + 1)
  }

  function Seen(steps: seq<Step>, p: Params, world: World, i: nat): seq<Step>
    requires i <= |steps|
    decreases |steps| - i
  {
    if i == |steps| then []
    else
      var s := SubstStep(steps[i], p);
      [s] + if world(i, s).Failed? then [] else Seen(steps, Bound(p, s, world(i, s).text), world, i + 1)
  }

  lemma Unfold(steps: seq<Step>, p: Params, world: World, i: nat)
    requires i < |steps|
    ensures var s := SubstStep(steps[i], p); var r := world(i, s);
            && Trace(steps, p, world, i) ==
                 Events(i, s, r) + (if r.Failed? then [] else Trace(steps, Bound(p, s, r.text), world, i + 1))
            && Seen(steps, p, world, i) ==
                 [s] + (if r.Failed? then [] else Seen(steps, Bound(p, s, r.text), world, i + 1))
  {
    hide SubstStep, Events, Bound;
  }

  lemma UnfoldEnd(steps: seq<Step>, p: Params, world: World)
    ensures Trace(steps, p, world, |steps|) == [Event(-1, StepDone, "", false, "")]
    ensures Seen(steps, p, world, |steps|) == []
  {
  }

  // ---- what a run shows and what its steps see ----

  /** The parameters when step `n` is about to be executed. */
  function ParamsAt(steps: seq<Step>, defaults: Params, world: World, n: nat): Params
    requires n <= |steps|
  {
    if n == 0 then defaults
    else
      var p := ParamsAt(steps, defaults, world, n - 1);
      var s := SubstStep(steps[n - 1], p);
      if world(n - 1, s).Done? then Bound(p, s, world(n - 1, s).text) else p
  }

  function ExecutedAt(steps: seq<Step>, defaults: Params, world: World, n: nat): Step
    requires n < |steps|
  {
    SubstStep(steps[n], ParamsAt(steps, defaults, world, n))
  }

  function OutcomeAt(steps: seq<Step>, defaults: Params, world: World, n: nat): Outcome
    requires n < |steps|
  {
    world(n, ExecutedAt(steps, defaults, world, n))
  }

  /** The number of steps that succeed before the first failure. */
  ghost predicate Completed(steps: seq<Step>, defaults: Params, world: World, k: nat) {
    && k <= |steps|
    && (forall n :: 0 <= n < k ==> OutcomeAt(steps, defaults, world, n).Done?)
    && (k < |steps| ==> OutcomeAt(steps, defaults, world, k).Failed?)
  }

  /** A start event names its step and says whether it runs or waits, what for, and where a
      reply goes. */
  predicate Starts(e: Event, i: nat, s: Step) {
    && e.index == i && (e.status == Running || e.status == Waiting)
    && (e.status == Waiting <==> s.kind in {"human", "ask"})
    && (e.awaitReply <==> s.kind == "ask") && e.bind == (if s.kind == "ask" then TrimSpace(s.target) else "")
    && (e.status == Running ==> e.text == "") && (e.status == Waiting ==> Asks(e.text, s))
  }

  /** The prompt begins with the text of the step, or with a standard one if that is blank;
      a human step adds what it detects by itself, if anything. */
  predicate Asks(prompt: string, s: Step) {
    var said := TrimSpace(s.text);
    && (said != "" && (s.kind == "ask" || TrimSpace(s.condition) == "") ==> prompt == said)
    && (said == "" && s.kind == "ask" ==> prompt == ASK_PROMPT)
    && (s.kind == "human" ==> (if said == "" then HUMAN_PROMPT else said) <= prompt)
    && (s.kind == "human" && TrimSpace(s.condition) == "" ==> |prompt| == |if said == "" then HUMAN_PROMPT else said|)
    && (s.kind == "human" && TrimSpace(s.condition) != "" ==>
          HasSuffix(prompt, "（自动检测: " + TrimSpace(s.condition) + "）"))
  }

  /** The event that reports success: a reply is marked as one, an output shown as it is. */
  predicate Succeeds(e: Event, i: nat, s: Step, text: string) {
    && e.index == i && e.status == StepDone && !e.awaitReply && e.bind == ""
    && (s.kind != "ask" ==> e.text == text)
    && (s.kind == "ask" && text != "" ==> e.text == GOT_REPLY + text)
    && (s.kind == "ask" && text == "" ==> e.text == NO_REPLY)
  }

  lemma StartEventStarts(i: nat, s: Step)
    ensures Starts(StartEvent(i, s), i, s)
  {
    hide TrimSpace;
    var said, hint := Prompt(s.text, HUMAN_PROMPT), "（自动检测: " + TrimSpace(s.condition) + "）";
    assert said + "" == said;
    assert (said + hint)[|said + hint| - |hint|..] == hint;
  }

  /** After the events of the first `n` steps comes what the run shows from step `n` on. */
  lemma {:induction false} TraceAfter(steps: seq<Step>, defaults: Params, world: World, k: nat, n: nat)
    requires Completed(steps, defaults, world, k) && n <= k
    ensures var t := Trace(steps, defaults, world, 0);
            2 * n <= |t| && t[2 * n..] == Trace(steps, ParamsAt(steps, defaults, world, n), world, n)
  {
    hide Completed, Trace, ParamsAt;
    var t := Trace(steps, defaults, world, 0);
    if n > 0 {
      TraceAfter(steps, defaults, world, k, n - 1);
      TraceNext(steps, defaults, world, k, n - 1);
      assert t[2 * (n - 1)..][2..] == t[2 * n..];
    } else {
      assert t[0..] == t;
      assert ParamsAt(steps, defaults, world, 0) == defaults by { ParamsAtStart(steps, defaults, world); }
    }
  }

  lemma ParamsAtStart(steps: seq<Step>, defaults: Params, world: World)
    ensures ParamsAt(steps, defaults, world, 0) == defaults
  {
  }

  /** A step that succeeds shows two events, and the run goes on with its parameters. */
  lemma TraceNext(steps: seq<Step>, defaults: Params, world: World, k: nat, n: nat)
    requires Completed(steps, defaults, world, k) && n < k
    ensures var t := Trace(steps, ParamsAt(steps, defaults, world, n), world, n);
            |t| >= 2 && t[2..] == Trace(steps, ParamsAt(steps, defaults, world, n + 1), world, n + 1)
  {
    hide SubstStep, StartEvent, Bound, Trace;
    assert OutcomeAt(steps, defaults, world, n).Done?;
    Unfold(steps, ParamsAt(steps, defaults, world, n), world, n);
  }

  /** The pair of events of a step that succeeds. */
  lemma TracePair(steps: seq<Step>, defaults: Params, world: World, k: nat, m: nat)
    requires Completed(steps, defaults, world, k) && m < k
    ensures var t := Trace(steps, defaults, world, 0);
            && 2 * m + 1 < |t|
            && Starts(t[2 * m], m, ExecutedAt(steps, defaults, world, m))
            && OutcomeAt(steps, defaults, world, m).Done?
            && Succeeds(t[2 * m + 1], m, ExecutedAt(steps, defaults, world, m),
                        OutcomeAt(steps, defaults, world, m).text)
  {
    hide SubstStep, StartEvent, Starts, Bound;
    TraceAfter(steps, defaults, world, k, m);
    StartEventStarts(m, ExecutedAt(steps, defaults, world, m));
    var t := Trace(steps, defaults, world, 0);
    assert OutcomeAt(steps, defaults, world, m).Done?;
    assert t[2 * m] == t[2 * m..][0] && t[2 * m + 1] == t[2 * m..][1];
  }

  /** What the run shows last. */
  lemma TraceEnd(steps: seq<Step>, defaults: Params, world: World, k: nat)
    requires Completed(steps, defaults, world, k)
    ensures var t := Trace(steps, defaults, world, 0);
            && |t| == 2 * k + (if k < |steps| then 3 else 1)
            && (k < |steps| ==>
                  && Starts(t[2 * k], k, ExecutedAt(steps, defaults, world, k))
                  && OutcomeAt(steps, defaults, world, k).Failed?
                  && t[2 * k + 1] == Event(k, StepFailed, OutcomeAt(steps, defaults, world, k).err, false, "")
                  && t[2 * k + 2] == Event(-1, StepFailed, OutcomeAt(steps, defaults, world, k).err, false, ""))
            && (k == |steps| ==> t[2 * k] == Event(-1, StepDone, "", false, ""))
  {
    hide SubstStep, StartEvent, Starts, Bound;
    TraceAfter(steps, defaults, world, k, k);
    var t := Trace(steps, defaults, world, 0);
    var rest := t[2 * k..];
    if k < |steps| {
      StartEventStarts(k, ExecutedAt(steps, defaults, world, k));
      assert t[2 * k] == rest[0] && t[2 * k + 1] == rest[1] && t[2 * k + 2] == rest[2];
    } else {
      assert t[2 * k] == rest[0];
    }
  }

  /** The events of a run are pairs "start, done" for the steps 0, 1, 2, ... up to the first
      failure, then the start and failure of the failing step if there is one, and last
      exactly one terminal event. */
  lemma TraceShape(steps: seq<Step>, defaults: Params, world: World, k: nat)
    requires Completed(steps, defaults, world, k)
    ensures var t := Trace(steps, defaults, world, 0);
            && |t| == 2 * k + (if k < |steps| then 3 else 1)
            && (forall m :: 0 <= m < k ==>
                  && Starts(t[2 * m], m, ExecutedAt(steps, defaults, world, m))
                  && OutcomeAt(steps, defaults, world, m).Done?
                  && Succeeds(t[2 * m + 1], m, ExecutedAt(steps, defaults, world, m),
                              OutcomeAt(steps, defaults, world, m).text))
            && (k < |steps| ==>
                  && Starts(t[2 * k], k, ExecutedAt(steps, defaults, world, k))
                  && OutcomeAt(steps, defaults, world, k).Failed?
                  && t[2 * k + 1] == Event(k, StepFailed, OutcomeAt(steps, defaults, world, k).err, false, "")
                  && t[2 * k + 2] == Event(-1, StepFailed, OutcomeAt(steps, defaults, world, k).err, false, ""))
            && (k == |steps| ==> t[2 * k] == Event(-1, StepDone, "", false, ""))
  {
    hide Trace, ExecutedAt, OutcomeAt, Starts;
    TraceEnd(steps, defaults, world, k);
    forall m | 0 <= m < k
      ensures var t := Trace(steps, defaults, world, 0);
              && 2 * m + 1 < |t|
              && Starts(t[2 * m], m, ExecutedAt(steps, defaults, world, m))
              && OutcomeAt(steps, defaults, world, m).Done?
              && Succeeds(t[2 * m + 1], m, ExecutedAt(steps, defaults, world, m),
                          OutcomeAt(steps, defaults, world, m).text)
    {
      TracePair(steps, defaults, world, k, m);
    }
  }

  /** Every run has such a first failure, or none. */
  lemma {:induction false} SomeCompleted(steps: seq<Step>, defaults: Params, world: World, n: nat) returns (k: nat)
    requires n <= |steps| && forall m :: 0 <= m < n ==> OutcomeAt(steps, defaults, world, m).Done?
    ensures Completed(steps, defaults, world, k)
    decreases |steps| - n
  {
    hide OutcomeAt;
    if n == |steps| || OutcomeAt(steps, defaults, world, n).Failed? {
      k := n;
    } else {
      k := SomeCompleted(steps, defaults, world, n + 1);
    }
  }

  lemma {:induction false} SeenFrom(steps: seq<Step>, defaults: Params, world: World, k: nat, n: nat)
    requires Completed(steps, defaults, world, k) && n <= k
    ensures var e := Seen(steps, ParamsAt(steps, defaults, world, n), world, n);
            && |e| == k - n + (if k < |steps| then 1 else 0)
            && forall m :: 0 <= m < |e| ==> e[m] == ExecutedAt(steps, defaults, world, n + m)
    decreases k - n
  {
    hide SubstStep, Bound;
    if n < k {
      SeenFrom(steps, defaults, world, k, n + 1);
      assert OutcomeAt(steps, defaults, world, n).Done?;
      var e := Seen(steps, ParamsAt(steps, defaults, world, n), world, n);
      var rest := Seen(steps, ParamsAt(steps, defaults, world, n + 1), world, n + 1);
      assert e == [ExecutedAt(steps, defaults, world, n)] + rest;
      hide Seen, ParamsAt, ExecutedAt, OutcomeAt;
      forall m | 0 <= m < |e| ensures e[m] == ExecutedAt(steps, defaults, world, n + m) {
        assert m > 0 ==> e[m] == rest[m - 1] && rest[m - 1] == ExecutedAt(steps, defaults, world, n + 1 + (m - 1));
      }
    }
  }

  /** Step `m` as it was executed: every field, and every file, of the step with the
      parameters of that moment put in, and the kind as it was. */
  lemma ExecutedFields(steps: seq<Step>, defaults: Params, world: World, k: nat, m: nat)
    requires Completed(steps, defaults, world, k)
    requires m < |Seen(steps, defaults, world, 0)|
    ensures m < |steps|
    ensures var s, e := steps[m], Seen(steps, defaults, world, 0)[m];
            var p := ParamsAt(steps, defaults, world, m);
            && e.kind == s.kind && e.target == Subst(s.target, p) && e.url == Subst(s.url, p)
            && e.text == Subst(s.text, p) && e.value == Subst(s.value, p)
            && e.expression == Subst(s.expression, p) && e.condition == Subst(s.condition, p)
            && |e.files| == |s.files| && forall f :: 0 <= f < |e.files| ==> e.files[f] == Subst(s.files[f], p)
  {
    SeenFrom(steps, defaults, world, k, 0);
    ParamsAtStart(steps, defaults, world);
    hide Subst, Seen, ParamsAt;
  }

  ghost predicate MentionsNone(s: string, p: Params) { forall name :: Mentions(s, name) ==> name !in p }

  /** A step that mentions no bound name is executed as written. */
  lemma ExecutedAsWritten(steps: seq<Step>, defaults: Params, world: World, k: nat, m: nat)
    requires Completed(steps, defaults, world, k)
    requires m < |Seen(steps, defaults, world, 0)| && m < |steps|
    requires var s := steps[m]; var p := ParamsAt(steps, defaults, world, m);
             && MentionsNone(s.target, p) && MentionsNone(s.url, p) && MentionsNone(s.text, p)
             && MentionsNone(s.value, p) && MentionsNone(s.expression, p) && MentionsNone(s.condition, p)
             && forall f :: 0 <= f < |s.files| ==> MentionsNone(s.files[f], p)
    ensures Seen(steps, defaults, world, 0)[m] == steps[m]
  {
    var s, p := steps[m], ParamsAt(steps, defaults, world, m);
    hide Subst, Seen, ParamsAt, MentionsNone, Completed;
    ExecutedFields(steps, defaults, world, k, m);
    StaysLiteral(s.target, p);
    StaysLiteral(s.url, p);
    StaysLiteral(s.text, p);
    StaysLiteral(s.value, p);
    StaysLiteral(s.expression, p);
    StaysLiteral(s.condition, p);
    forall f | 0 <= f < |s.files| ensures Subst(s.files[f], p) == s.files[f] {
      StaysLiteral(s.files[f], p);
    }
    assert Seen(steps, defaults, world, 0)[m].files == s.files;
  }

  lemma StaysLiteral(s: string, p: Params)
    requires MentionsNone(s, p)
    ensures Subst(s, p) == s
  {
    hide Subst, Mentions;
    UnboundStaysLiteral(s, p);
  }

  /** Without parameters and ask steps nothing is ever put in. */
  lemma NothingBound(steps: seq<Step>, world: World, k: nat, m: nat)
    requires Completed(steps, map[], world, k) && m < |Seen(steps, map[], world, 0)|
    requires forall n :: 0 <= n < |steps| ==> steps[n].kind != "ask"
    ensures m < |steps| && Seen(steps, map[], world, 0)[m] == steps[m]
  {
    SeenFrom(steps, map[], world, k, 0);
    NoParams(steps, world, m);
    hide Subst, Seen, ParamsAt, Mentions;
    ParamsAtStart(steps, map[], world);
    ExecutedAsWritten(steps, map[], world, k, m);
  }

  lemma {:induction false} NoParams(steps: seq<Step>, world: World, n: nat)
    requires n <= |steps| && forall i :: 0 <= i < |steps| ==> steps[i].kind != "ask"
    ensures ParamsAt(steps, map[], world, n) == map[]
  {
    hide Subst;
    if n > 0 {
      NoParams(steps, world, n - 1);
    }
  }

  /** Step `j` is an ask step that binds its reply to `name`. */
  ghost predicate Binds(steps: seq<Step>, defaults: Params, world: World, j: nat, name: string)
    requires j < |steps|
  {
    var s := ExecutedAt(steps, defaults, world, j);
    s.kind == "ask" && TrimSpace(s.target) == name && name != "" && OutcomeAt(steps, defaults, world, j).Done?
  }

  /** At step `n` a name has the reply of the latest ask step that bound it, and its
      default if none did. */
  lemma {:induction false} LatestReplyWins(steps: seq<Step>, defaults: Params, world: World, n: nat, name: string)
    requires n <= |steps|
    ensures var p := ParamsAt(steps, defaults, world, n);
            || (exists j :: && 0 <= j < n && Binds(steps, defaults, world, j, name)
                            && (forall i :: j < i < n ==> !Binds(steps, defaults, world, i, name))
                            && name in p && p[name] == OutcomeAt(steps, defaults, world, j).text)
            || ((forall i :: 0 <= i < n ==> !Binds(steps, defaults, world, i, name))
                && (name in p <==> name in defaults) && (name in p ==> p[name] == defaults[name]))
  {
    hide SubstStep, TrimSpace;
    if n > 0 {
      LatestReplyWins(steps, defaults, world, n - 1, name);
      if Binds(steps, defaults, world, n - 1, name) {
        var p := ParamsAt(steps, defaults, world, n);
        assert name in p && p[name] == OutcomeAt(steps, defaults, world, n - 1).text;
      }
    }
  }
}
