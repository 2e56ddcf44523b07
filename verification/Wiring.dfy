/** How the daemon is put together from an accepted configuration: commands, lanes, triggers and health entries. */
module Wiring {
  import opened Basics
  import opened Options
  import opened Config
  import opened RuntimeStates

  datatype Spec = Spec(name: string, lane: string)

  function SpecNames(specs: seq<Spec>): (names: seq<string>)
    ensures |names| == |specs|
  {
    seq(|specs|, k requires 0 <= k < |specs| => specs[k].name)
  }

  function SpecLanes(specs: seq<Spec>): (lanes: seq<string>)
    ensures |lanes| == |specs|
  {
    seq(|specs|, k requires 0 <= k < |specs| => specs[k].lane)
  }

  lemma SpecAppend(specs: seq<Spec>, spec: Spec)
    ensures SpecNames(specs + [spec]) == SpecNames(specs) + [spec.name]
    ensures SpecLanes(specs + [spec]) == SpecLanes(specs) + [spec.lane]
  {
  }

  /** The names of all commands that run, legacy mailbox commands first. */
  function RuntimeNames(config: Config): seq<string> {
    LegacyNames(config.accounts) + CommandNames(config.commands)
  }

  /** The lanes of all commands that run, in the order of `RuntimeNames`. */
  function RuntimeLanes(config: Config): (lanes: seq<string>)
    ensures |lanes| == |RuntimeNames(config)|
  {
    LegacyNames(config.accounts) + LaneNames(config.commands)
  }

  /** However account and mailbox names are put together, no two runtime commands of an accepted configuration share a
      name. */
  lemma RuntimeNamesDistinct(config: Config)
    requires Accepts(config)
    ensures NoDup(RuntimeNames(config))
  {
    var legacy, names := LegacyNames(config.accounts), CommandNames(config.commands);
    assert legacy == AllSourceNames(config)[..|legacy|];
    DistinctPrefix(AllSourceNames(config), |legacy|);
    forall i, j | 0 <= i < |legacy| && 0 <= j < |names| ensures legacy[i] != names[j] {
      assert legacy[i] in Elements(legacy) && names[j] in Elements(names);
    }
  }

  /** `runtime_command_specs`. */
  method RuntimeCommandSpecs(config: Config) returns (specs: seq<Spec>)
    ensures SpecNames(specs) == RuntimeNames(config)
    ensures SpecLanes(specs) == RuntimeLanes(config)
  {
    specs := [];
    for a := 0 to |config.accounts|
      invariant SpecNames(specs) == SpecLanes(specs) == LegacyNames(config.accounts[..a])
    {
      var account := config.accounts[a];
      ghost var before := LegacyNames(config.accounts[..a]);
      assert before + MailboxNames(account)[..0] == before;
      for m := 0 to |account.mailboxes|
        invariant SpecNames(specs) == SpecLanes(specs) == before + MailboxNames(account)[..m]
      {
        var name := LegacyName(account.name, account.mailboxes[m]);
        SpecAppend(specs, Spec(name, name));
        specs := specs + [Spec(name, name)];
        assert before + MailboxNames(account)[..m + 1] == (before + MailboxNames(account)[..m]) + [name];
      }
      NextAccount(config.accounts, a);
    }
    assert config.accounts[..|config.accounts|] == config.accounts;
    ghost var legacy := LegacyNames(config.accounts);
    assert legacy + CommandNames(config.commands)[..0] == legacy == legacy + LaneNames(config.commands)[..0];
    for c := 0 to |config.commands|
      invariant SpecNames(specs) == legacy + CommandNames(config.commands)[..c]
      invariant SpecLanes(specs) == legacy + LaneNames(config.commands)[..c]
    {
      var spec := Spec(config.commands[c].name, LaneName(config.commands[c]));
      SpecAppend(specs, spec);
      specs := specs + [spec];
      assert legacy + CommandNames(config.commands)[..c + 1] == (legacy + CommandNames(config.commands)[..c]) + [spec.name];
      assert legacy + LaneNames(config.commands)[..c + 1] == (legacy + LaneNames(config.commands)[..c]) + [spec.lane];
    }
    assert CommandNames(config.commands)[..|config.commands|] == CommandNames(config.commands);
    assert LaneNames(config.commands)[..|config.commands|] == LaneNames(config.commands);
  }

  // ---------- Lanes ----------

  /** So far the state has been told of registrations only. */
  ghost predicate Registering(state: RuntimeState)
    reads state
  {
    state.Valid() && OnlyRegistrations(state.told)
  }

  /** The specs of a lane, in their order. */
  function InLane(specs: seq<Spec>, lane: string): seq<Spec> {
    if specs == [] then []
    else
      var last := specs[|specs| - 1];
      InLane(specs[..|specs| - 1], lane) + if last.lane == lane then [last] else []
  }

  lemma {:induction false} InLaneMembers(specs: seq<Spec>, lane: string, spec: Spec)
    ensures spec in InLane(specs, lane) <==> spec in specs && spec.lane == lane
  {
    if specs != [] {
      var rest, last := specs[..|specs| - 1], specs[|specs| - 1];
      InLaneMembers(rest, lane, spec);
      assert specs == rest + [last];
    }
  }

  ghost predicate Sends(specs: seq<Spec>, name: string, lane: string) {
    exists k :: 0 <= k < |specs| && specs[k] == Spec(name, lane)
  }

  lemma NamesInLane(specs: seq<Spec>, lane: string, name: string)
    ensures name in SpecNames(InLane(specs, lane)) <==> Sends(specs, name, lane)
  {
    var members := InLane(specs, lane);
    if name in SpecNames(members) {
      var c :| 0 <= c < |members| && SpecNames(members)[c] == name;
      InLaneMembers(specs, lane, members[c]);
    }
    if Sends(specs, name, lane) {
      InLaneMembers(specs, lane, Spec(name, lane));
      var c :| 0 <= c < |members| && members[c] == Spec(name, lane);
      assert SpecNames(members)[c] == name;
    }
  }

  lemma SendsOnce(specs: seq<Spec>, k: nat, lane: string)
    requires NoDup(SpecNames(specs)) && k < |specs|
    ensures Sends(specs, specs[k].name, lane) <==> lane == specs[k].lane
  {
    if Sends(specs, specs[k].name, lane) {
      var i :| 0 <= i < |specs| && specs[i] == Spec(specs[k].name, lane);
      assert SpecNames(specs)[i] == SpecNames(specs)[k];
    }
  }

  lemma {:induction false} InLaneDistinct(specs: seq<Spec>, lane: string)
    requires NoDup(SpecNames(specs))
    ensures NoDup(SpecNames(InLane(specs, lane)))
  {
    if specs != [] {
      var rest, last := specs[..|specs| - 1], specs[|specs| - 1];
      assert specs == rest + [last];
      SpecAppend(rest, last);
      DistinctAppend(SpecNames(rest), last.name);
      InLaneDistinct(rest, lane);
      NamesInLane(rest, lane, last.name);
      if last.lane == lane {
        SpecAppend(InLane(rest, lane), last);
        DistinctAppend(SpecNames(InLane(rest, lane)), last.name);
        forall i | 0 <= i < |rest| ensures rest[i].name != last.name {
          assert SpecNames(rest)[i] == rest[i].name;
        }
      } else {
        assert InLane(specs, lane) == InLane(rest, lane);
      }
    }
  }

  /** Every command is in its own lane, there once, and in no other. */
  lemma ExactlyOneLane(specs: seq<Spec>, k: nat, lane: string)
    requires NoDup(SpecNames(specs)) && k < |specs|
    ensures specs[k].name in SpecNames(InLane(specs, lane)) <==> lane == specs[k].lane
    ensures NoDup(SpecNames(InLane(specs, lane)))
  {
    InLaneDistinct(specs, lane);
    NamesInLane(specs, lane, specs[k].name);
    SendsOnce(specs, k, lane);
  }

  function Entry(byLane: map<string, seq<Spec>>, lane: string): seq<Spec> {
    if lane in byLane then byLane[lane] else []
  }

  ghost predicate Grouped(specs: seq<Spec>, byLane: map<string, seq<Spec>>) {
    && byLane.Keys == Elements(SpecLanes(specs))
    && forall lane :: Entry(byLane, lane) == InLane(specs, lane)
  }

  lemma GroupedNext(specs: seq<Spec>, spec: Spec, byLane: map<string, seq<Spec>>)
    requires Grouped(specs, byLane)
    ensures Grouped(specs + [spec], byLane[spec.lane := Entry(byLane, spec.lane) + [spec]])
  {
    var after := byLane[spec.lane := Entry(byLane, spec.lane) + [spec]];
    var more := specs + [spec];
    SpecAppend(specs, spec);
    ElementsOfAppend(SpecLanes(specs), [spec.lane]);
    assert more[..|more| - 1] == specs;
    forall lane ensures Entry(after, lane) == InLane(more, lane) {
      assert Entry(byLane, lane) == InLane(specs, lane);
    }
  }

  /** `commands_by_lane`. */
  method CommandsByLane(specs: seq<Spec>) returns (byLane: map<string, seq<Spec>>)
    ensures Grouped(specs, byLane)
  {
    byLane := map[];
    for k := 0 to |specs|
      invariant Grouped(specs[..k], byLane)
    {
      GroupedNext(specs[..k], specs[k], byLane);
      assert specs[..k + 1] == specs[..k] + [specs[k]];
      byLane := byLane[specs[k].lane := Entry(byLane, specs[k].lane) + [specs[k]]];
    }
    assert specs[..|specs|] == specs;
  }

  /** The senders hold exactly the commands, each with its own lane's channel. */
  ghost predicate Routes(specs: seq<Spec>, senders: map<string, string>) {
    && senders.Keys == Elements(SpecNames(specs))
    && (forall k :: 0 <= k < |specs| ==> specs[k].name in senders && senders[specs[k].name] == specs[k].lane)
  }

  lemma RoutesFromSends(specs: seq<Spec>, senders: map<string, string>)
    requires NoDup(SpecNames(specs))
    requires forall k :: 0 <= k < |specs| ==> specs[k].name in senders
    requires forall name :: name in senders ==> Sends(specs, name, senders[name])
    ensures Routes(specs, senders)
  {
    forall k | 0 <= k < |specs| ensures senders[specs[k].name] == specs[k].lane {
      SendsOnce(specs, k, senders[specs[k].name]);
    }
    forall name | name in senders ensures name in SpecNames(specs) {
      var i :| 0 <= i < |specs| && specs[i] == Spec(name, senders[name]);
      assert SpecNames(specs)[i] == name;
    }
    forall name | name in SpecNames(specs) ensures name in senders {
      var i :| 0 <= i < |specs| && SpecNames(specs)[i] == name;
      assert specs[i].name == name;
    }
  }

  /** The commands of one lane get its channel. */
  method AddSenders(senders: map<string, string>, lane: string, commands: seq<Spec>) returns (more: map<string, string>)
    ensures more.Keys == senders.Keys + Elements(SpecNames(commands))
    ensures forall name :: name in more ==>
              more[name] == if name in SpecNames(commands) then lane else senders[name]
  {
    more := senders;
    for c := 0 to |commands|
      invariant more.Keys == senders.Keys + Elements(SpecNames(commands)[..c])
      invariant forall name :: name in more ==>
                  more[name] == if name in SpecNames(commands)[..c] then lane else senders[name]
    {
      NextName(SpecNames(commands), c);
      more := more[commands[c].name := lane];
    }
    assert SpecNames(commands)[..|commands|] == SpecNames(commands);
  }

  /** The lane loop of `run_daemon`, over the lanes in any order. */
  method SpawnLanes(ghost specs: seq<Spec>, byLane: map<string, seq<Spec>>, state: RuntimeState, now: nat)
    returns (senders: map<string, string>)
    requires NoDup(SpecNames(specs))
    requires Grouped(specs, byLane)
    requires state.runners == map[] && Registering(state)
    modifies state
    ensures Registering(state)
    ensures Routes(specs, senders)
    ensures state.runners.Keys == byLane.Keys && state.watchers == old(state.watchers)
    ensures forall lane :: lane in state.runners ==> state.runners[lane] == RunnerStatus(RunnerStarting, now, None)
  {
    senders := map[];
    var todo := byLane.Keys;
    forall k | 0 <= k < |specs| ensures specs[k].lane in todo {
      assert SpecLanes(specs)[k] == specs[k].lane;
    }
    while todo != {}
      invariant todo <= byLane.Keys
      invariant Registering(state)
      invariant state.runners.Keys == byLane.Keys - todo && state.watchers == old(state.watchers)
      invariant forall lane :: lane in state.runners ==> state.runners[lane] == RunnerStatus(RunnerStarting, now, None)
      invariant forall k :: 0 <= k < |specs| && specs[k].lane !in todo ==> specs[k].name in senders
      invariant forall name :: name in senders ==> Sends(specs, name, senders[name])
      decreases |todo|
    {
      var lane :| lane in todo;
      ghost var before := senders;
      senders := AddSenders(senders, lane, byLane[lane]);
      assert byLane[lane] == Entry(byLane, lane) == InLane(specs, lane);
      LaneIsRouted(specs, lane, before, senders);
      state.RegisterCommandRunner(lane, now);
      todo := todo - {lane};
    }
    RoutesFromSends(specs, senders);
  }

  lemma LaneIsRouted(specs: seq<Spec>, lane: string, before: map<string, string>, senders: map<string, string>)
    requires senders.Keys == before.Keys + Elements(SpecNames(InLane(specs, lane)))
    requires forall name :: name in senders ==>
               senders[name] == if name in SpecNames(InLane(specs, lane)) then lane else before[name]
    requires forall name :: name in before ==> Sends(specs, name, before[name])
    ensures forall name :: name in senders ==> Sends(specs, name, senders[name])
    ensures forall k :: 0 <= k < |specs| && specs[k].lane == lane ==> specs[k].name in senders
  {
    forall name | name in senders ensures Sends(specs, name, senders[name]) {
      NamesInLane(specs, lane, name);
    }
    forall k | 0 <= k < |specs| && specs[k].lane == lane ensures specs[k].name in senders {
      assert specs[k] == Spec(specs[k].name, lane);
      NamesInLane(specs, lane, specs[k].name);
    }
  }

  // ---------- Sources ----------

  /** What is missing when a source cannot be set up. */
  datatype Missing = NoLane(command: string) | NoAccount(account: string)

  /** A source's event queue leads to this lane. */
  datatype Trigger = Trigger(source: string, command: string, lane: string)

  /** `command_trigger`. */
  method CommandTrigger(senders: map<string, string>, command: string, source: string) returns (trigger: Option<Trigger>)
    ensures trigger.Some? <==> command in senders
    ensures trigger.Some? ==>
              trigger.value.source == source && trigger.value.command == command && trigger.value.lane == senders[command]
  {
    if command !in senders {
      return None;
    }
    trigger := Some(Trigger(source, command, senders[command]));
  }

  /** Each legacy mailbox triggers the command of its own name. */
  ghost predicate LegacyTriggers(names: seq<string>, senders: map<string, string>, triggers: seq<Trigger>) {
    && |triggers| == |names|
    && forall k :: 0 <= k < |names| ==>
         names[k] in senders && triggers[k] == Trigger(names[k], names[k], senders[names[k]])
  }

  lemma LegacyTriggersAppend(names: seq<string>, senders: map<string, string>, triggers: seq<Trigger>, name: string)
    requires LegacyTriggers(names, senders, triggers) && name in senders
    ensures LegacyTriggers(names + [name], senders, triggers + [Trigger(name, name, senders[name])])
  {
  }

  /** The mailboxes of one account. */
  method RegisterAccount(account: Account, senders: map<string, string>, state: RuntimeState, now: nat,
                         ghost before: seq<string>, triggers: seq<Trigger>)
    returns (missing: Option<Missing>, more: seq<Trigger>)
    requires LegacyTriggers(before, senders, triggers)
    requires Registering(state)
    modifies state
    ensures Registering(state) && state.runners == old(state.runners)
    ensures missing.None? <==> Elements(MailboxNames(account)) <= senders.Keys
    ensures missing.None? ==>
              && state.watchers.Keys == old(state.watchers).Keys + Elements(MailboxNames(account))
              && LegacyTriggers(before + MailboxNames(account), senders, more)
  {
    ghost var names := MailboxNames(account);
    more := triggers;
    assert before + names[..0] == before;
    for m := 0 to |account.mailboxes|
      invariant Registering(state) && state.runners == old(state.runners)
      invariant state.watchers.Keys == old(state.watchers).Keys + Elements(names[..m])
      invariant Elements(names[..m]) <= senders.Keys
      invariant LegacyTriggers(before + names[..m], senders, more)
    {
      var id := LegacyName(account.name, account.mailboxes[m]);
      NextName(names, m);
      state.RegisterWatcher(id, now);
      var trigger := CommandTrigger(senders, id, id);
      if trigger.None? {
        assert names[m] in Elements(names);
        return Some(NoLane(id)), more;
      }
      LegacyTriggersAppend(before + names[..m], senders, more, id);
      assert before + names[..m + 1] == (before + names[..m]) + [id];
      more := more + [trigger.value];
    }
    assert names[..|account.mailboxes|] == names;
    missing := None;
  }

  lemma MissingIsMissing(accounts: seq<Account>, a: nat, senders: map<string, string>)
    requires a < |accounts| && !(Elements(MailboxNames(accounts[a])) <= senders.Keys)
    ensures !(Elements(LegacyNames(accounts)) <= senders.Keys)
  {
    NextAccount(accounts, a);
    LegacyPrefix(accounts, a + 1);
    var name :| name in Elements(MailboxNames(accounts[a])) && name !in senders.Keys;
    assert name in LegacyNames(accounts[..a + 1]);
  }

  /** The accounts' part of the source loop. */
  method RegisterMailboxes(accounts: seq<Account>, senders: map<string, string>, state: RuntimeState, now: nat)
    returns (missing: Option<Missing>, triggers: seq<Trigger>)
    requires Registering(state)
    modifies state
    ensures Registering(state) && state.runners == old(state.runners)
    ensures missing.None? <==> Elements(LegacyNames(accounts)) <= senders.Keys
    ensures missing.None? ==>
              && state.watchers.Keys == old(state.watchers).Keys + Elements(LegacyNames(accounts))
              && LegacyTriggers(LegacyNames(accounts), senders, triggers)
  {
    missing, triggers := None, [];
    for a := 0 to |accounts|
      invariant missing.None? && Registering(state) && state.runners == old(state.runners)
      invariant state.watchers.Keys == old(state.watchers).Keys + Elements(LegacyNames(accounts[..a]))
      invariant Elements(LegacyNames(accounts[..a])) <= senders.Keys
      invariant LegacyTriggers(LegacyNames(accounts[..a]), senders, triggers)
    {
      NextAccount(accounts, a);
      missing, triggers := RegisterAccount(accounts[a], senders, state, now, LegacyNames(accounts[..a]), triggers);
      if missing.Some? {
        MissingIsMissing(accounts, a, senders);
        return;
      }
    }
    assert accounts[..|accounts|] == accounts;
  }

  ghost predicate Resolves(config: Config, senders: map<string, string>, source: Source) {
    source.command in senders && (source.ImapIdle? ==> source.account in AccountNames(config.accounts))
  }

  /** The account that an `imap_idle` source names, the first of that name. */
  method FindAccount(accounts: seq<Account>, name: string) returns (found: Option<Account>)
    ensures found.Some? <==> name in AccountNames(accounts)
    ensures found.Some? ==> found.value.name == name && found.value in accounts
  {
    for a := 0 to |accounts|
      invariant name !in AccountNames(accounts)[..a]
    {
      NextName(AccountNames(accounts), a);
      if accounts[a].name == name {
        assert AccountNames(accounts)[a] == name;
        return Some(accounts[a]);
      }
    }
    assert AccountNames(accounts)[..|accounts|] == AccountNames(accounts);
    found := None;
  }

  /** The sources so far are registered, and their events lead to the lanes of their commands. */
  ghost predicate SourceTriggers(config: Config, senders: map<string, string>, n: nat, triggers: seq<Trigger>)
    requires n <= |config.sources|
  {
    && |triggers| == n
    && forall k :: 0 <= k < n ==> Resolves(config, senders, config.sources[k])
                                  && triggers[k] == SourceTrigger(senders, config.sources[k])
  }

  ghost predicate AllResolve(config: Config, senders: map<string, string>) {
    forall k :: 0 <= k < |config.sources| ==> Resolves(config, senders, config.sources[k])
  }

  lemma SourceTriggersNext(config: Config, senders: map<string, string>, n: nat, triggers: seq<Trigger>)
    requires n < |config.sources| && SourceTriggers(config, senders, n, triggers)
    requires Resolves(config, senders, config.sources[n])
    ensures SourceTriggers(config, senders, n + 1, triggers + [SourceTrigger(senders, config.sources[n])])
  {
  }

  ghost function SourceTrigger(senders: map<string, string>, source: Source): Trigger
    requires source.command in senders
  {
    Trigger(source.name, source.command, senders[source.command])
  }

  /** One of the other sources. */
  method RegisterSource(config: Config, source: Source, senders: map<string, string>, state: RuntimeState, now: nat)
    returns (missing: Option<Missing>, trigger: Option<Trigger>)
    requires Registering(state)
    modifies state
    ensures Registering(state) && state.runners == old(state.runners)
    ensures missing.None? <==> Resolves(config, senders, source)
    ensures missing.None? ==> trigger == Some(SourceTrigger(senders, source))
    ensures missing.None? ==> state.watchers.Keys == old(state.watchers).Keys + {source.name}
  {
    missing, trigger := None, None;
    if source.ImapIdle? {
      var account := FindAccount(config.accounts, source.account);
      if account.None? {
        missing := Some(NoAccount(source.account));
        return;
      }
    }
    state.RegisterWatcher(source.name, now);
    trigger := CommandTrigger(senders, source.command, source.name);
    if trigger.None? {
      missing := Some(NoLane(source.command));
    }
  }

  /** The source loop of `run_daemon`. */
  method RegisterSources(config: Config, senders: map<string, string>, state: RuntimeState, now: nat)
    returns (missing: Option<Missing>, triggers: seq<Trigger>)
    requires Registering(state)
    modifies state
    ensures Registering(state) && state.runners == old(state.runners)
    ensures missing.None? <==> AllResolve(config, senders)
    ensures missing.None? ==>
              && state.watchers.Keys == old(state.watchers).Keys + Elements(SourceNames(config.sources))
              && SourceTriggers(config, senders, |config.sources|, triggers)
  {
    missing, triggers := None, [];
    for k := 0 to |config.sources|
      invariant missing.None? && Registering(state) && state.runners == old(state.runners)
      invariant state.watchers.Keys == old(state.watchers).Keys + Elements(SourceNames(config.sources)[..k])
      invariant SourceTriggers(config, senders, k, triggers)
    {
      NextName(SourceNames(config.sources), k);
      var trigger;
      missing, trigger := RegisterSource(config, config.sources[k], senders, state, now);
      if missing.Some? {
        return;
      }
      SourceTriggersNext(config, senders, k, triggers);
      triggers := triggers + [trigger.value];
    }
    assert SourceNames(config.sources)[..|config.sources|] == SourceNames(config.sources);
  }

  // ---------- The daemon ----------

  /** An accepted configuration's senders resolve every source. */
  lemma AcceptedResolves(config: Config, senders: map<string, string>)
    requires Accepts(config) && senders.Keys == Elements(RuntimeNames(config))
    ensures Elements(LegacyNames(config.accounts)) <= senders.Keys
    ensures AllResolve(config, senders)
  {
    ElementsOfAppend(LegacyNames(config.accounts), CommandNames(config.commands));
    forall k | 0 <= k < |config.sources| ensures Resolves(config, senders, config.sources[k]) {
      assert References(config, config.sources[k]);
    }
  }

  /** There are as many watchers as the configuration counts sources. */
  lemma WatchersCounted(config: Config)
    requires Accepts(config)
    ensures |Elements(LegacyNames(config.accounts)) + Elements(SourceNames(config.sources))| == SourceCount(config)
  {
    ElementsOfAppend(LegacyNames(config.accounts), SourceNames(config.sources));
    DistinctCount(AllSourceNames(config));
  }

  /** The registrations that the state was told of are those that the configuration calls for. */
  ghost predicate AllRegisteredAs(config: Config, state: RuntimeState)
    reads state
  {
    WatchersRegistered(state.told) == Elements(AllSourceNames(config)) && RunnersRegistered(state.told) == Lanes(config)
  }

  /** Everything is registered: a watcher for every source, a runner for every lane, and as many of each as the health
      check expects. */
  ghost predicate Counted(config: Config, state: RuntimeState)
    reads state
  {
    && state.watchers.Keys == Elements(AllSourceNames(config)) && |state.watchers| == state.totalSources
    && state.runners.Keys == Lanes(config) && |state.runners| == state.totalLanes
    && state.Valid() && AllRegisteredAs(config, state) && OnlyRegisteredReport(state.told)
  }

  /** The command that source `k` wakes. */
  function CommandOf(config: Config, k: nat): string
    requires k < |AllSourceNames(config)|
  {
    var legacy := LegacyNames(config.accounts);
    if k < |legacy| then legacy[k] else config.sources[k - |legacy|].command
  }

  ghost predicate RunsIn(config: Config, name: string, lane: string) {
    exists i :: 0 <= i < |RuntimeNames(config)| && RuntimeNames(config)[i] == name && RuntimeLanes(config)[i] == lane
  }

  /** A configured command runs in the lane it names, or in one of its own name, and nowhere else; so two commands run
      together exactly when these agree. */
  lemma CommandsKeepTheirLane(config: Config, c: nat, lane: string)
    requires Accepts(config) && c < |config.commands|
    ensures var command := config.commands[c];
            RunsIn(config, command.name, lane) <==> lane == if command.lane.Some? then command.lane.value else command.name
  {
    var names, lanes, k := RuntimeNames(config), RuntimeLanes(config), |LegacyNames(config.accounts)| + c;
    RuntimeNamesDistinct(config);
    assert names[k] == config.commands[c].name && lanes[k] == LaneName(config.commands[c]);
    if RunsIn(config, names[k], lane) {
      var i :| 0 <= i < |names| && names[i] == names[k] && lanes[i] == lane;
      assert i == k;
    }
  }

  /** The command of a legacy mailbox runs in a lane of its own name, and nowhere else. */
  lemma MailboxesKeepTheirLane(config: Config, name: string, lane: string)
    requires Accepts(config) && name in LegacyNames(config.accounts)
    ensures RunsIn(config, name, lane) <==> lane == name
  {
    var names, lanes := RuntimeNames(config), RuntimeLanes(config);
    RuntimeNamesDistinct(config);
    var k :| 0 <= k < |LegacyNames(config.accounts)| && LegacyNames(config.accounts)[k] == name;
    assert names[k] == name && lanes[k] == name;
    if RunsIn(config, name, lane) {
      var i :| 0 <= i < |names| && names[i] == name && lanes[i] == lane;
      assert i == k;
    }
  }

  /** Each source, legacy mailboxes first, leads to its command in that command's lane. */
  ghost predicate Connected(config: Config, triggers: seq<Trigger>) {
    && |triggers| == |AllSourceNames(config)|
    && forall k :: 0 <= k < |triggers| ==>
         && triggers[k].source == AllSourceNames(config)[k] && triggers[k].command == CommandOf(config, k)
         && RunsIn(config, triggers[k].command, triggers[k].lane)
  }

  lemma ConnectedFromParts(config: Config, specs: seq<Spec>, senders: map<string, string>, legacy: seq<Trigger>,
                           others: seq<Trigger>)
    requires Routes(specs, senders) && SpecNames(specs) == RuntimeNames(config) && SpecLanes(specs) == RuntimeLanes(config)
    requires LegacyTriggers(LegacyNames(config.accounts), senders, legacy)
    requires SourceTriggers(config, senders, |config.sources|, others)
    ensures Connected(config, legacy + others)
  {
    forall name | name in senders ensures RunsIn(config, name, senders[name]) {
      var i :| 0 <= i < |specs| && SpecNames(specs)[i] == name;
      assert specs[i].name == name && SpecLanes(specs)[i] == specs[i].lane;
    }
  }

  /** `run_daemon` from the command list to the last registration. */
  method Wire(config: Config, state: RuntimeState, now: nat) returns (missing: Option<Missing>, triggers: seq<Trigger>)
    requires Accepts(config)
    requires Registering(state) && state.View() == Inner(map[], map[])
    modifies state
    ensures Registering(state)
    ensures missing.None?
    ensures state.watchers.Keys == Elements(AllSourceNames(config)) && state.runners.Keys == Lanes(config)
    ensures Connected(config, triggers)
  {
    var specs := RuntimeCommandSpecs(config);
    RuntimeNamesDistinct(config);
    var byLane := CommandsByLane(specs);
    var senders := SpawnLanes(specs, byLane, state, now);
    ElementsOfAppend(LegacyNames(config.accounts), LaneNames(config.commands));
    AcceptedResolves(config, senders);
    missing, triggers := RegisterMailboxes(config.accounts, senders, state, now);
    var more;
    missing, more := RegisterSources(config, senders, state, now);
    ElementsOfAppend(LegacyNames(config.accounts), SourceNames(config.sources));
    ConnectedFromParts(config, specs, senders, triggers, more);
    triggers := triggers + more;
  }

  /** The daemon's start: it fails exactly on the configurations that `Validate` rejects, and otherwise every lookup
      succeeds and both counts of the health check are right. */
  method SetUp(config: Config, watcherStale: nat, commandTimeout: nat, now: nat)
    returns (rejected: Option<ConfigError>, missing: Option<Missing>, state: RuntimeState, triggers: seq<Trigger>)
    ensures fresh(state)
    ensures rejected.None? <==> Accepts(config)
    ensures missing.None?
    ensures rejected.None? ==> Counted(config, state) && Connected(config, triggers)
  {
    missing, triggers := None, [];
    rejected := Validate(config);
    if rejected.Some? {
      state := new RuntimeState(0, 0, watcherStale, commandTimeout);
      return;
    }
    var lanes := CommandLaneCount(config);
    state := new RuntimeState(SourceCount(config), lanes, watcherStale, commandTimeout);
    missing, triggers := Wire(config, state, now);
    WatchersCounted(config);
    ElementsOfAppend(LegacyNames(config.accounts), SourceNames(config.sources));
    EntriesAreRegistrations(state.told);
    assert |state.watchers| == |state.watchers.Keys| && |state.runners| == |state.runners.Keys|;
  }

  /** While tasks are spawned those spawned already report, and afterwards all do. As long as the state was told of the
      daemon's registrations, which `SetUp` makes, and of reports of tasks registered before, in whatever order, no health
      problem is one of the two counts. */
  method NoCountProblem(config: Config, state: RuntimeState, now: nat) returns (problem: Option<HealthProblem>)
    requires state.Valid() && AllRegisteredAs(config, state) && OnlyRegisteredReport(state.told)
    requires state.totalSources == |Elements(AllSourceNames(config))| && state.totalLanes == |Lanes(config)|
    ensures problem.Some? ==> !problem.value.WatcherCount? && !problem.value.RunnerCount?
  {
    EntriesAreRegistrations(state.told);
    assert |state.watchers| == |state.watchers.Keys| && |state.runners| == |state.runners.Keys|;
    problem := state.FindHealthProblem(now);
  }
}
