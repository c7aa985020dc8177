/** Hook settings (`desktop/hooks_settings_app.go`): saving groups a flat list by event,
    loading flattens the groups in the order of the event table (`internal/hook/hook.go`).
    The JSON file is modelled by the groups it holds. */
module HooksSettings {
  import opened GoStrings
  import opened StableSort

  datatype HookView = HookView(
    event: string, matching: string, command: string, description: string, timeout: int, cwd: string)

  datatype HookConfig = HookConfig(
    matching: string, command: string, description: string, timeout: int, cwd: string)

  type Groups = map<string, seq<HookConfig>>

  datatype SaveResult = Saved | UnknownEvent(event: string)

  /** The event table in its stable order. */
  const EVENTS: seq<string> := [
    "PreToolUse", "PostToolUse", "PermissionRequest", "UserPromptSubmit", "Stop", "PostLLMCall",
    "SessionStart", "SessionEnd", "SubagentStop", "Notification", "PreCompact", "Startup"]

  function Position(events: seq<string>, e: string): (i: nat)
    ensures i <= |events|
    ensures i < |events| ==> events[i] == e
    ensures i == |events| ==> e !in events
  {
    if events == [] || events[0] == e then 0 else Position(events[1..], e) + 1
  }

  function Rank(events: seq<string>): HookView -> int { (v: HookView) => Position(events, v.event) }

  function Trimmed(v: HookView): HookView {
    HookView(TrimSpace(v.event), TrimSpace(v.matching), TrimSpace(v.command), TrimSpace(v.description), v.timeout,
             TrimSpace(v.cwd))
  }

  /** Fields trimmed, hooks without a command dropped. */
  function Clean(hooks: seq<HookView>): seq<HookView> {
    if hooks == [] then []
    else
      var rest := Clean(hooks[..|hooks| - 1]);
      var v := Trimmed(hooks[|hooks| - 1]);
      if v.command == "" then rest else rest + [v]
  }

  predicate Known(events: seq<string>, v: HookView) { TrimSpace(v.event) in events }

  predicate AllKnown(events: seq<string>, hooks: seq<HookView>) {
    forall i :: 0 <= i < |hooks| ==> Known(events, hooks[i])
  }

  function ConfigOf(v: HookView): HookConfig { HookConfig(v.matching, v.command, v.description, v.timeout, v.cwd) }

  function ViewOf(e: string, c: HookConfig): HookView {
    HookView(e, c.matching, c.command, c.description, c.timeout, c.cwd)
  }

  /** The configurations for one event, in order. */
  function ConfigsFor(hooks: seq<HookView>, e: string): seq<HookConfig> {
    if hooks == [] then []
    else
      var v := hooks[|hooks| - 1];
      var before := ConfigsFor(hooks[..|hooks| - 1], e);
      if v.event == e then before + [ConfigOf(v)] else before
  }

  function Group(hooks: seq<HookView>): Groups {
    map e | e in (set v | v in hooks :: v.event) :: ConfigsFor(hooks, e)
  }

  function Section(groups: Groups, e: string): seq<HookConfig> { if e in groups then groups[e] else [] }

  /** What a group shows: its hooks that have a command. */
  function Views(e: string, configs: seq<HookConfig>): seq<HookView> {
    if configs == [] then []
    else
      var c := configs[|configs| - 1];
      Views(e, configs[..|configs| - 1]) + if TrimSpace(c.command) == "" then [] else [ViewOf(e, c)]
  }

  function Flatten(groups: Groups, events: seq<string>): seq<HookView> {
    if events == [] then []
    else
      var e := events[|events| - 1];
      Flatten(groups, events[..|events| - 1]) + Views(e, Section(groups, e))
  }

  class SettingsFile {
    const events: seq<string>
    var hooks: Option<Groups>

    constructor (events: seq<string>, hooks: Option<Groups>)
      ensures this.events == events && this.hooks == hooks
    {
      this.events, this.hooks := events, hooks;
    }

    /** The first unknown event stops the save before anything is written, even where the
        hook itself would be dropped for its blank command. */
    method SaveHooksSettings(list: seq<HookView>) returns (r: SaveResult)
      modifies this`hooks
      ensures AllKnown(events, list) ==> r.Saved? && hooks == Some(Group(Clean(list)))
      ensures !AllKnown(events, list) ==>
                && hooks == old(hooks)
                && exists i :: 0 <= i < |list| && AllKnown(events, list[..i]) && !Known(events, list[i])
                               && r == UnknownEvent(list[i].event)
    {
      hide TrimSpace, Clean;
      var groups: Groups := map[];
      CleanNothing();
      for i := 0 to |list|
        invariant hooks == old(hooks) && AllKnown(events, list[..i])
        invariant groups == Group(Clean(list[..i]))
      {
        var e := TrimSpace(list[i].event);
        if e !in events {
          assert !Known(events, list[i]);
          return UnknownEvent(list[i].event);
        }
        CleanNext(list, i);
        var command := TrimSpace(list[i].command);
        if command == "" {
          continue;
        }
        GroupNext(Clean(list[..i]), Trimmed(list[i]));
        groups := groups[e := Section(groups, e) + [
          HookConfig(TrimSpace(list[i].matching), command, TrimSpace(list[i].description), list[i].timeout,
                     TrimSpace(list[i].cwd))]];
      }
      assert list[..|list|] == list;
      hooks := Some(groups);
      return Saved;
    }

    method HooksSettings() returns (view: seq<HookView>)
      ensures view == if hooks.None? then [] else Flatten(hooks.value, events)
    {
      hide TrimSpace;
      view := [];
      if hooks.None? {
        return;
      }
      for i := 0 to |events|
        invariant view == Flatten(hooks.value, events[..i])
      {
        var configs := Section(hooks.value, events[i]);
        ghost var before := view;
        for j := 0 to |configs|
          invariant view == before + Views(events[i], configs[..j])
        {
          ViewsNext(events[i], configs, j, before);
          if TrimSpace(configs[j].command) == "" {
            continue;
          }
          view := view + [ViewOf(events[i], configs[j])];
        }
        assert configs[..|configs|] == configs;
        assert events[..i + 1][..i] == events[..i];
      }
      assert events[..|events|] == events;
    }
  }

  lemma CleanNothing()
    ensures Group(Clean([])) == map[]
  {
  }

  lemma CleanNext(list: seq<HookView>, i: nat)
    requires i < |list|
    ensures var v := Trimmed(list[i]);
            Clean(list[..i + 1]) == if v.command == "" then Clean(list[..i]) else Clean(list[..i]) + [v]
  {
    hide TrimSpace;
    assert list[..i + 1][..i] == list[..i];
  }

  lemma ConfigsNext(hooks: seq<HookView>, v: HookView, e: string)
    ensures ConfigsFor(hooks + [v], e) ==
            if v.event == e then ConfigsFor(hooks, e) + [ConfigOf(v)] else ConfigsFor(hooks, e)
  {
    assert (hooks + [v])[..|hooks|] == hooks;
  }

  lemma GroupNext(hooks: seq<HookView>, v: HookView)
    ensures Group(hooks + [v]) == Group(hooks)[v.event := Section(Group(hooks), v.event) + [ConfigOf(v)]]
  {
    hide ConfigsFor;
    var next := Group(hooks + [v]);
    var expected := Group(hooks)[v.event := Section(Group(hooks), v.event) + [ConfigOf(v)]];
    NoneFor(hooks, v.event);
    forall e ensures (e in next <==> e in expected) && (e in next ==> next[e] == expected[e]) {
      EventsNext(hooks, v, e);
      ConfigsNext(hooks, v, e);
    }
  }

  lemma EventsNext(hooks: seq<HookView>, v: HookView, e: string)
    ensures e in Group(hooks + [v]) <==> e in Group(hooks) || e == v.event
  {
    hide ConfigsFor;
    if e in Group(hooks) {
      var u :| u in hooks && u.event == e;
      assert u in hooks + [v];
    }
    assert v in hooks + [v];
  }

  lemma {:induction false} NoneFor(hooks: seq<HookView>, e: string)
    ensures e !in Group(hooks) ==> ConfigsFor(hooks, e) == []
  {
    if hooks != [] {
      var n := |hooks| - 1;
      NoneFor(hooks[..n], e);
      EventsNext(hooks[..n], hooks[n], e);
      assert hooks == hooks[..n] + [hooks[n]];
    }
  }

  lemma ViewsNext(e: string, configs: seq<HookConfig>, j: nat, before: seq<HookView>)
    requires j < |configs|
    ensures before + Views(e, configs[..j + 1]) ==
            before + Views(e, configs[..j]) +
              if TrimSpace(configs[j].command) == "" then [] else [ViewOf(e, configs[j])]
  {
    hide TrimSpace;
    assert configs[..j + 1][..j] == configs[..j];
  }

  // ---- field by field ----

  /** The configuration has the fields of the hook without white space around them, and its
      timeout. */
  predicate WrittenFrom(c: HookConfig, h: HookView) {
    && c.matching == TrimSpace(h.matching) && c.command == TrimSpace(h.command)
    && c.description == TrimSpace(h.description) && c.timeout == h.timeout && c.cwd == TrimSpace(h.cwd)
  }

  /** The view has the fields of the configuration as they are. */
  predicate ShownFrom(v: HookView, e: string, c: HookConfig) {
    && v.event == e && v.matching == c.matching && v.command == c.command
    && v.description == c.description && v.timeout == c.timeout && v.cwd == c.cwd
  }

  /** Every configuration written comes from a hook with a command, under its event. */
  lemma {:induction false} WrittenConfig(hooks: seq<HookView>, e: string, k: nat) returns (i: nat)
    ensures k < |Section(Group(Clean(hooks)), e)| ==>
              && i < |hooks| && WrittenFrom(Section(Group(Clean(hooks)), e)[k], hooks[i])
              && TrimSpace(hooks[i].event) == e && !Blank(hooks[i].command)
  {
    hide TrimSpace, Blank, Group;
    SectionOfGroup(Clean(hooks), e);
    NoConfigs(e);
    i := 0;
    if hooks != [] {
      var n := |hooks| - 1;
      var v, kept := Trimmed(hooks[n]), Clean(hooks[..n]);
      SectionOfGroup(kept, e);
      ConfigsNext(kept, v, e);
      TrimSpaceBlankIff(hooks[n].command);
      if k < |ConfigsFor(kept, e)| {
        i := WrittenConfig(hooks[..n], e, k);
      } else {
        i := n;
      }
    }
  }

  lemma NoConfigs(e: string)
    ensures ConfigsFor(Clean([]), e) == []
  {
  }

  /** And every hook with a command is written under its event. */
  lemma {:induction false} HookWritten(hooks: seq<HookView>, i: nat) returns (k: nat)
    requires i < |hooks| && !Blank(hooks[i].command)
    ensures var e := TrimSpace(hooks[i].event);
            && e in Group(Clean(hooks)) && k < |Group(Clean(hooks))[e]|
            && WrittenFrom(Group(Clean(hooks))[e][k], hooks[i])
  {
    hide TrimSpace, Blank, Group;
    var n := |hooks| - 1;
    var v, kept, e := Trimmed(hooks[n]), Clean(hooks[..n]), TrimSpace(hooks[i].event);
    TrimSpaceBlankIff(hooks[n].command);
    TrimSpaceBlankIff(hooks[i].command);
    ConfigsNext(kept, v, e);
    if i < n {
      k := HookWritten(hooks[..n], i);
      SectionOfGroup(kept, e);
    } else {
      k := |ConfigsFor(kept, e)|;
    }
    SectionOfGroup(Clean(hooks), e);
    InGroup(Clean(hooks), e);
  }

  lemma InGroup(hooks: seq<HookView>, e: string)
    ensures Section(Group(hooks), e) != [] ==> e in Group(hooks)
  {
  }

  /** Every view shown is a configuration of its event that has a command. */
  lemma {:induction false} ShownView(groups: Groups, events: seq<string>, k: nat) returns (m: nat, j: nat)
    requires k < |Flatten(groups, events)|
    ensures m < |events| && events[m] in groups && j < |groups[events[m]]|
    ensures ShownFrom(Flatten(groups, events)[k], events[m], groups[events[m]][j])
    ensures !Blank(groups[events[m]][j].command)
  {
    hide Views, Blank;
    var n := |events| - 1;
    var earlier := Flatten(groups, events[..n]);
    if k < |earlier| {
      m, j := ShownView(groups, events[..n], k);
    } else {
      m := n;
      j := ViewFrom(events[n], Section(groups, events[n]), k - |earlier|);
    }
  }

  lemma {:induction false} ViewFrom(e: string, configs: seq<HookConfig>, k: nat) returns (j: nat)
    requires k < |Views(e, configs)|
    ensures j < |configs| && ShownFrom(Views(e, configs)[k], e, configs[j]) && !Blank(configs[j].command)
  {
    hide TrimSpace, Blank;
    var n := |configs| - 1;
    TrimSpaceBlankIff(configs[n].command);
    if k < |Views(e, configs[..n])| {
      j := ViewFrom(e, configs[..n], k);
    } else {
      j := n;
    }
  }

  /** And every configuration with a command of an event in the table is shown. */
  lemma {:induction false} ConfigShown(groups: Groups, events: seq<string>, m: nat, j: nat) returns (k: nat)
    requires m < |events| && events[m] in groups && j < |groups[events[m]]| && !Blank(groups[events[m]][j].command)
    ensures k < |Flatten(groups, events)|
    ensures ShownFrom(Flatten(groups, events)[k], events[m], groups[events[m]][j])
  {
    hide Views, Blank;
    var n := |events| - 1;
    if m < n {
      k := ConfigShown(groups, events[..n], m, j);
    } else {
      k := ConfigInViews(events[n], groups[events[n]], j);
      k := k + |Flatten(groups, events[..n])|;
    }
  }

  lemma {:induction false} ConfigInViews(e: string, configs: seq<HookConfig>, j: nat) returns (k: nat)
    requires j < |configs| && !Blank(configs[j].command)
    ensures k < |Views(e, configs)| && ShownFrom(Views(e, configs)[k], e, configs[j])
  {
    hide TrimSpace, Blank;
    var n := |configs| - 1;
    TrimSpaceBlankIff(configs[n].command);
    if j < n {
      k := ConfigInViews(e, configs[..n], j);
    } else {
      k := |Views(e, configs[..n])|;
    }
  }

  // ---- loading what was saved ----

  ghost predicate NoDup(events: seq<string>) { forall i, j :: 0 <= i < j < |events| ==> events[i] != events[j] }

  ghost predicate Tidy(v: HookView) { v == Trimmed(v) && v.command != "" }

  ghost predicate AllTidy(events: seq<string>, hooks: seq<HookView>) {
    forall i :: 0 <= i < |hooks| ==> Tidy(hooks[i]) && hooks[i].event in events
  }

  lemma TrimmedTwice(v: HookView)
    ensures Trimmed(Trimmed(v)) == Trimmed(v)
  {
    hide TrimSpace;
    TrimSpaceIdempotent(v.event);
    TrimSpaceIdempotent(v.matching);
    TrimSpaceIdempotent(v.command);
    TrimSpaceIdempotent(v.description);
    TrimSpaceIdempotent(v.cwd);
  }

  lemma {:induction false} CleanIsTidy(events: seq<string>, hooks: seq<HookView>)
    requires AllKnown(events, hooks)
    ensures AllTidy(events, Clean(hooks))
  {
    hide TrimSpace, Trimmed;
    if hooks != [] {
      var n := |hooks| - 1;
      CleanIsTidy(events, hooks[..n]);
      TrimmedTwice(hooks[n]);
      assert Known(events, hooks[n]);
      EventTrimmed(hooks[n]);
    }
  }

  lemma EventTrimmed(v: HookView)
    ensures Trimmed(v).event == TrimSpace(v.event)
  {
  }

  /** Cleaning leaves a tidy list alone. */
  lemma {:induction false} CleanTidy(events: seq<string>, hooks: seq<HookView>)
    requires AllTidy(events, hooks)
    ensures Clean(hooks) == hooks && AllKnown(events, hooks)
  {
    hide TrimSpace;
    if hooks != [] {
      var n := |hooks| - 1;
      CleanTidy(events, hooks[..n]);
      assert Tidy(hooks[n]) && hooks[n].event in events;
      assert hooks == hooks[..n] + [hooks[n]];
      assert Known(events, hooks[n]);
    }
  }

  lemma {:induction false} PositionIs(events: seq<string>, k: nat)
    requires NoDup(events) && k < |events|
    ensures Position(events, events[k]) == k
  {
    if k > 0 {
      assert events[0] != events[k];
      PositionIs(events[1..], k - 1);
    }
  }

  /** A group's views come back as the bucket of its event's rank. */
  lemma {:induction false} ViewsAreBucket(events: seq<string>, hooks: seq<HookView>, k: nat)
    requires NoDup(events) && AllTidy(events, hooks) && k < |events|
    ensures Views(events[k], ConfigsFor(hooks, events[k])) == Bucket(hooks, Rank(events), k)
  {
    hide Bucket, Views, ConfigsFor, Position, Tidy;
    if hooks == [] {
      ViewsOfNothing(events[k], Rank(events), k);
    } else {
      var n := |hooks| - 1;
      var v, e := hooks[n], events[k];
      ViewsAreBucket(events, hooks[..n], k);
      BucketConcat(hooks[..n], [v], Rank(events), k);
      assert hooks == hooks[..n] + [v];
      ConfigsNext(hooks[..n], v, e);
      assert Tidy(v) && v.event in events;
      PositionIs(events, k);
      BucketOne(v, Rank(events), k);
      ViewsOfNext(ConfigsFor(hooks[..n], e), v, e);
    }
  }

  lemma ViewsOfNothing(e: string, rank: HookView -> int, k: int)
    ensures Views(e, ConfigsFor([], e)) == [] && Bucket([], rank, k) == []
  {
  }

  lemma BucketOne(v: HookView, rank: HookView -> int, r: int)
    ensures Bucket([v], rank, r) == if rank(v) == r then [v] else []
  {
    assert [v][1..] == [];
  }

  lemma ViewsOfNext(configs: seq<HookConfig>, v: HookView, e: string)
    requires Tidy(v)
    ensures v.event == e ==> Views(e, configs + [ConfigOf(v)]) == Views(e, configs) + [v]
  {
    hide TrimSpace;
    assert (configs + [ConfigOf(v)])[..|configs|] == configs;
  }

  lemma {:induction false} ViewsEvent(e: string, configs: seq<HookConfig>)
    ensures forall i :: 0 <= i < |Views(e, configs)| ==> Views(e, configs)[i].event == e
  {
    hide TrimSpace;
    if configs != [] {
      ViewsEvent(e, configs[..|configs| - 1]);
    }
  }

  lemma {:induction false} BucketAll(s: seq<HookView>, rank: HookView -> int, k: int, r: int)
    requires forall i :: 0 <= i < |s| ==> rank(s[i]) == k
    ensures Bucket(s, rank, r) == if r == k then s else []
  {
    if s != [] {
      BucketAll(s[1..], rank, k, r);
      assert s == [s[0]] + s[1..];
    }
  }

  /** Flattening lists the groups in ascending rank, each as it is. */
  lemma {:induction false} FlattenSorts(groups: Groups, events: seq<string>, n: nat)
    requires NoDup(events) && n <= |events|
    ensures var t := Flatten(groups, events[..n]);
            && Sorted(t, Rank(events))
            && (forall i :: 0 <= i < |t| ==> Rank(events)(t[i]) < n)
            && forall r :: Bucket(t, Rank(events), r) ==
                           if 0 <= r < n then Views(events[r], Section(groups, events[r])) else []
  {
    hide Position, Views, Section, Sorted, Bucket;
    var rank := Rank(events);
    if n > 0 {
      var k := n - 1;
      FlattenSorts(groups, events, k);
      assert events[..n][..k] == events[..k];
      var t, views := Flatten(groups, events[..k]), Views(events[k], Section(groups, events[k]));
      ViewsEvent(events[k], Section(groups, events[k]));
      PositionIs(events, k);
      SortedConcat(t, views, rank, k);
      forall r ensures Bucket(t + views, rank, r) ==
                       if 0 <= r < n then Views(events[r], Section(groups, events[r])) else [] {
        BucketConcat(t, views, rank, r);
        BucketAll(views, rank, k, r);
        assert Bucket(t, rank, r) == if 0 <= r < k then Views(events[r], Section(groups, events[r])) else [];
      }
    } else {
      assert events[..0] == [];
      NothingSorted(rank);
    }
  }

  lemma NothingSorted(rank: HookView -> int)
    ensures Sorted([], rank) && forall r :: Bucket([], rank, r) == []
  {
  }

  lemma SortedConcat(s: seq<HookView>, t: seq<HookView>, rank: HookView -> int, k: int)
    requires Sorted(s, rank) && forall i :: 0 <= i < |s| ==> rank(s[i]) < k
    requires forall i :: 0 <= i < |t| ==> rank(t[i]) == k
    ensures Sorted(s + t, rank)
    ensures forall i :: 0 <= i < |s + t| ==> rank((s + t)[i]) < k + 1
  {
  }

  lemma {:induction false} UnknownBucket(events: seq<string>, hooks: seq<HookView>, r: int)
    requires AllTidy(events, hooks) && !(0 <= r < |events|)
    ensures Bucket(hooks, Rank(events), r) == []
  {
    if hooks != [] {
      UnknownBucket(events, hooks[1..], r);
      assert hooks[0].event in events;
    }
  }

  lemma SectionOfGroup(hooks: seq<HookView>, e: string)
    ensures Section(Group(hooks), e) == ConfigsFor(hooks, e)
  {
    NoneFor(hooks, e);
  }

  /** Grouping and flattening a tidy list sorts it stably by event. */
  lemma FlattenGroup(events: seq<string>, hooks: seq<HookView>)
    requires NoDup(events) && AllTidy(events, hooks)
    ensures Flatten(Group(hooks), events) == Sort(hooks, Rank(events))
  {
    hide Views, ConfigsFor, Group, Position, Flatten, Bucket, Sort, Sorted, Tidy;
    var t := Flatten(Group(hooks), events);
    FlattenSorts(Group(hooks), events, |events|);
    assert events[..|events|] == events;
    forall r ensures Bucket(t, Rank(events), r) == Bucket(hooks, Rank(events), r) {
      if 0 <= r < |events| {
        ViewsAreBucket(events, hooks, r);
        SectionOfGroup(hooks, events[r]);
      } else {
        UnknownBucket(events, hooks, r);
      }
    }
    StableSortUnique(hooks, t, Rank(events));
  }

  /** Loading after saving a list of known events gives that list with its fields trimmed
      and blank commands dropped, in the order of the event table, and within an event in
      the order given. */
  lemma LoadAfterSave(events: seq<string>, list: seq<HookView>)
    requires NoDup(events) && AllKnown(events, list)
    ensures Flatten(Group(Clean(list)), events) == Sort(Clean(list), Rank(events))
  {
    CleanIsTidy(events, list);
    FlattenGroup(events, Clean(list));
  }

  lemma {:induction false} ConfigsFromBucket(events: seq<string>, hooks: seq<HookView>, e: string)
    requires AllTidy(events, hooks)
    ensures ConfigsFor(hooks, e) == ConfigsFor(Bucket(hooks, Rank(events), Position(events, e)), e)
  {
    hide Bucket, ConfigsFor, Position, Tidy;
    var r := Position(events, e);
    if hooks == [] {
      ViewsOfNothing(e, Rank(events), r);
    } else {
      var n := |hooks| - 1;
      var v := hooks[n];
      var b := Bucket(hooks[..n], Rank(events), r);
      ConfigsFromBucket(events, hooks[..n], e);
      BucketConcat(hooks[..n], [v], Rank(events), r);
      BucketOne(v, Rank(events), r);
      assert hooks == hooks[..n] + [v] && b + [] == b;
      ConfigsNext(hooks[..n], v, e);
      ConfigsNext(b, v, e);
    }
  }

  lemma GroupsSame(a: seq<HookView>, b: seq<HookView>)
    requires multiset(a) == multiset(b) && forall e :: ConfigsFor(a, e) == ConfigsFor(b, e)
    ensures Group(a) == Group(b)
  {
    hide ConfigsFor;
    forall v ensures v in a <==> v in b {
      assert v in a <==> v in multiset(a);
      assert v in b <==> v in multiset(b);
    }
  }

  /** What sorting by event does to a list, the groups do not see. */
  lemma GroupSorted(events: seq<string>, hooks: seq<HookView>)
    requires AllTidy(events, hooks)
    ensures AllTidy(events, Sort(hooks, Rank(events)))
    ensures Group(Sort(hooks, Rank(events))) == Group(hooks)
  {
    hide Sort, Bucket, Group, ConfigsFor, Position, Tidy;
    var sorted := Sort(hooks, Rank(events));
    SortSpec(hooks, Rank(events));
    forall i | 0 <= i < |sorted| ensures Tidy(sorted[i]) && sorted[i].event in events {
      assert sorted[i] in multiset(hooks);
    }
    forall e ensures ConfigsFor(sorted, e) == ConfigsFor(hooks, e) {
      ConfigsFromBucket(events, hooks, e);
      ConfigsFromBucket(events, sorted, e);
    }
    GroupsSame(sorted, hooks);
  }

  /** Saving what was loaded writes the same groups again. */
  lemma SaveIsFixedPoint(events: seq<string>, list: seq<HookView>)
    requires NoDup(events) && AllKnown(events, list)
    ensures var loaded := Flatten(Group(Clean(list)), events);
            AllKnown(events, loaded) && Group(Clean(loaded)) == Group(Clean(list))
  {
    hide *;
    CleanIsTidy(events, list);
    LoadAfterSave(events, list);
    GroupSorted(events, Clean(list));
    CleanTidy(events, Sort(Clean(list), Rank(events)));
  }

  lemma {:induction false} FlattenKnown(groups: Groups, events: seq<string>, n: nat)
    requires n <= |events|
    ensures forall i :: 0 <= i < |Flatten(groups, events[..n])| ==> Flatten(groups, events[..n])[i].event in events
  {
    hide Views;
    if n > 0 {
      FlattenKnown(groups, events, n - 1);
      assert events[..n][..n - 1] == events[..n - 1];
      ViewsEvent(events[n - 1], Section(groups, events[n - 1]));
      assert events[n - 1] in events;
    } else {
      assert events[..0] == [];
    }
  }

  ghost predicate NamesTrimmed(events: seq<string>) {
    forall i :: 0 <= i < |events| ==> TrimSpace(events[i]) == events[i]
  }

  lemma {:induction false} CleanKeepsOrder(events: seq<string>, hooks: seq<HookView>, top: int)
    requires Sorted(hooks, Rank(events))
    requires forall i :: 0 <= i < |hooks| ==>
               TrimSpace(hooks[i].event) == hooks[i].event && Rank(events)(hooks[i]) <= top
    ensures Sorted(Clean(hooks), Rank(events))
    ensures forall i :: 0 <= i < |Clean(hooks)| ==> Rank(events)(Clean(hooks)[i]) <= top
  {
    hide TrimSpace, Position;
    if hooks != [] {
      var n := |hooks| - 1;
      CleanKeepsOrder(events, hooks[..n], Rank(events)(hooks[n]));
      EventTrimmed(hooks[n]);
    }
  }

  /** Whatever groups a hand-edited file holds, one save of what was loaded settles it: the
      next load shows the same hooks, tidied. */
  lemma LoadedOnceSettles(events: seq<string>, groups: Groups)
    requires NoDup(events) && NamesTrimmed(events)
    ensures var loaded := Flatten(groups, events);
            AllKnown(events, loaded) && Flatten(Group(Clean(loaded)), events) == Clean(loaded)
  {
    hide TrimSpace, Flatten, Clean, Group, Sort, Sorted, Position, Views, Bucket, Tidy;
    var loaded := Flatten(groups, events);
    assert events[..|events|] == events;
    FlattenSorts(groups, events, |events|);
    FlattenKnown(groups, events, |events|);
    forall i | 0 <= i < |loaded| ensures TrimSpace(loaded[i].event) == loaded[i].event {
      var k :| 0 <= k < |events| && events[k] == loaded[i].event;
    }
    CleanKeepsOrder(events, loaded, |events|);
    LoadAfterSave(events, loaded);
    StableSortUnique(Clean(loaded), Clean(loaded), Rank(events));
  }

  lemma TableIsNoDup()
    ensures NoDup(EVENTS)
  {
    var key := (e: string) => if |e| > 4 then (|e|, e[1], e[3], e[4]) else (|e|, ' ', ' ', ' ');
    assert key(EVENTS[0]) == (10, 'r', 'T', 'o') && key(EVENTS[1]) == (11, 'o', 't', 'T');
    assert key(EVENTS[2]) == (17, 'e', 'm', 'i') && key(EVENTS[3]) == (16, 's', 'r', 'P');
    assert key(EVENTS[4]) == (4, ' ', ' ', ' ') && key(EVENTS[5]) == (11, 'o', 't', 'L');
    assert key(EVENTS[6]) == (12, 'e', 's', 'i') && key(EVENTS[7]) == (10, 'e', 's', 'i');
    assert key(EVENTS[8]) == (12, 'u', 'a', 'g') && key(EVENTS[9]) == (12, 'o', 'i', 'f');
    assert key(EVENTS[10]) == (10, 'r', 'C', 'o') && key(EVENTS[11]) == (7, 't', 'r', 't');
  }

  /** The table of the program meets what the theorems ask of a table. */
  lemma TableLoadAfterSave(list: seq<HookView>)
    requires AllKnown(EVENTS, list)
    ensures var loaded := Flatten(Group(Clean(list)), EVENTS);
            loaded == Sort(Clean(list), Rank(EVENTS)) && Group(Clean(loaded)) == Group(Clean(list))
  {
    hide *;
    TableIsNoDup();
    LoadAfterSave(EVENTS, list);
    SaveIsFixedPoint(EVENTS, list);
  }

  lemma TableSettles(groups: Groups)
    ensures var loaded := Flatten(groups, EVENTS);
            AllKnown(EVENTS, loaded) && Flatten(Group(Clean(loaded)), EVENTS) == Clean(loaded)
  {
    hide *;
    TableIsNoDup();
    TableIsTrimmed();
    LoadedOnceSettles(EVENTS, groups);
  }

  predicate WordEnds(e: string) { |e| > 0 && 'A' <= e[0] <= 'z' && 'A' <= e[|e| - 1] <= 'z' }

  lemma TableIsTrimmed()
    ensures NamesTrimmed(EVENTS)
  {
    hide TrimSpace;
    forall i | 0 <= i < |EVENTS| ensures TrimSpace(EVENTS[i]) == EVENTS[i] {
      TableOfWords(i);
      NothingToTrim(EVENTS[i]);
    }
  }

  lemma TableOfWords(i: nat)
    requires i < |EVENTS|
    ensures WordEnds(EVENTS[i])
  {
  }
}
