/** The configuration's names and references, and the checks that reject a configuration for them. */
module Config {
  import opened Basics
  import opened Options

  datatype Account = Account(name: string, mailboxes: seq<string>)

  datatype Command = Command(name: string, lane: Option<string>)

  datatype Source =
    | ImapIdle(name: string, account: string, command: string)
    | GmailApiPoll(name: string, command: string)
    | FsState(name: string, command: string)
    | SystemResume(name: string, command: string)

  datatype Config = Config(accounts: seq<Account>, commands: seq<Command>, sources: seq<Source>)

  datatype ConfigError =
    | NoSource
    | DuplicateCommand(name: string)
    | DuplicateAccount(name: string)
    | CommandCollision(name: string)
    | DuplicateSource(name: string)
    | DuplicateMailbox(account: string, mailbox: string)
    | UnknownAccount(source: string, account: string)
    | UnknownCommand(name: string)

  // ---------- Names ----------

  /** `legacy_source_name`. */
  function LegacyName(account: string, mailbox: string): string {
    account + "/" + mailbox
  }

  /** Two different mailboxes of differently named accounts can have the same source name. */
  lemma LegacyNamesCollide()
    ensures LegacyName("a", "b/c") == LegacyName("a/b", "c")
  {
    assert LegacyName("a", "b/c") == "a/b/c" == LegacyName("a/b", "c");
  }

  /** The source names of an account's mailboxes. */
  function MailboxNames(account: Account): (names: seq<string>)
    ensures |names| == |account.mailboxes|
  {
    seq(|account.mailboxes|, k requires 0 <= k < |account.mailboxes| => LegacyName(account.name, account.mailboxes[k]))
  }

  /** The source names of all mailboxes, which are also the names of their commands and lanes. */
  function LegacyNames(accounts: seq<Account>): seq<string> {
    if accounts == [] then []
    else LegacyNames(accounts[..|accounts| - 1]) + MailboxNames(accounts[|accounts| - 1])
  }

  /** They are the names of all mailboxes of all accounts. */
  lemma {:induction false} LegacyNamesAreAll(accounts: seq<Account>, name: string)
    ensures name in LegacyNames(accounts) <==>
              exists a, m :: 0 <= a < |accounts| && 0 <= m < |accounts[a].mailboxes|
                             && name == accounts[a].name + "/" + accounts[a].mailboxes[m]
  {
    if accounts != [] {
      var rest, last := accounts[..|accounts| - 1], accounts[|accounts| - 1];
      LegacyNamesAreAll(rest, name);
      if name in LegacyNames(rest) {
        var a, m :| 0 <= a < |rest| && 0 <= m < |rest[a].mailboxes| && name == rest[a].name + "/" + rest[a].mailboxes[m];
        assert accounts[a] == rest[a];
      } else if name in MailboxNames(last) {
        var m :| 0 <= m < |last.mailboxes| && MailboxNames(last)[m] == name;
        assert accounts[|accounts| - 1].mailboxes[m] == last.mailboxes[m];
      }
      if a, m :| 0 <= a < |accounts| && 0 <= m < |accounts[a].mailboxes|
                 && name == accounts[a].name + "/" + accounts[a].mailboxes[m] {
        if a < |rest| {
          assert rest[a] == accounts[a];
        } else {
          assert MailboxNames(last)[m] == name;
        }
      }
    }
  }

  function AccountNames(accounts: seq<Account>): (names: seq<string>)
    ensures |names| == |accounts|
  {
    seq(|accounts|, k requires 0 <= k < |accounts| => accounts[k].name)
  }

  function CommandNames(commands: seq<Command>): (names: seq<string>)
    ensures |names| == |commands|
  {
    seq(|commands|, k requires 0 <= k < |commands| => commands[k].name)
  }

  function SourceNames(sources: seq<Source>): (names: seq<string>)
    ensures |names| == |sources|
  {
    seq(|sources|, k requires 0 <= k < |sources| => sources[k].name)
  }

  function AllSourceNames(config: Config): seq<string> {
    LegacyNames(config.accounts) + SourceNames(config.sources)
  }

  ghost predicate Twice(names: seq<string>, name: string) {
    exists i, j :: 0 <= i < j < |names| && names[i] == names[j] == name
  }

  lemma TwiceInPrefix(names: seq<string>, n: nat, name: string)
    requires n < |names| && names[n] == name && name in names[..n]
    ensures Twice(names, name) && !NoDup(names)
  {
    var i :| 0 <= i < n && names[..n][i] == name;
    assert names[i] == names[n] == name;
  }

  function Elements(names: seq<string>): (elements: set<string>)
    ensures forall name :: name in elements <==> name in names
  {
    set name | name in names
  }

  lemma ElementsOfAppend(names: seq<string>, more: seq<string>)
    ensures Elements(names + more) == Elements(names) + Elements(more)
  {
  }

  lemma DistinctAppend(names: seq<string>, name: string)
    ensures NoDup(names + [name]) <==> NoDup(names) && name !in names
  {
    var more := names + [name];
    if NoDup(more) {
      forall i, j | 0 <= i < j <= |names| ensures more[i] != more[j] {
      }
      assert names == more[..|names|] && more[|names|] == name;
    }
  }

  lemma DistinctPrefix(names: seq<string>, n: nat)
    requires n <= |names|
    ensures NoDup(names) ==> NoDup(names[..n])
  {
  }

  /** As many different names as places. */
  lemma {:induction false} DistinctCount(names: seq<string>)
    requires NoDup(names)
    ensures |Elements(names)| == |names|
  {
    if names == [] {
      assert Elements(names) == {};
    } else {
      var rest := names[..|names| - 1];
      DistinctCount(rest);
      assert names == rest + [names[|names| - 1]];
      assert Elements(names) == Elements(rest) + {names[|names| - 1]};
    }
  }

  // ---------- What a configuration must be ----------

  ghost predicate References(config: Config, source: Source) {
    && source.command in CommandNames(config.commands)
    && (source.ImapIdle? ==> source.account in AccountNames(config.accounts))
  }

  ghost predicate AllReference(config: Config, n: nat)
    requires n <= |config.sources|
  {
    forall k :: 0 <= k < n ==> References(config, config.sources[k])
  }

  /** The configurations whose names and references are in order. */
  ghost predicate Accepts(config: Config) {
    && AllSourceNames(config) != []
    && NoDup(CommandNames(config.commands))
    && NoDup(AccountNames(config.accounts))
    && NoDup(AllSourceNames(config))
    && Elements(LegacyNames(config.accounts)) !! Elements(CommandNames(config.commands))
    && AllReference(config, |config.sources|)
  }

  /** What the error says is true of the configuration. */
  ghost predicate Explained(config: Config, error: ConfigError) {
    match error
    case NoSource => AllSourceNames(config) == []
    case DuplicateCommand(name) => Twice(CommandNames(config.commands), name)
    case DuplicateAccount(name) => Twice(AccountNames(config.accounts), name)
    case CommandCollision(name) => name in LegacyNames(config.accounts) && name in CommandNames(config.commands)
    case DuplicateSource(name) => Twice(AllSourceNames(config), name)
    case DuplicateMailbox(_, _) => false
    case UnknownAccount(name, account) =>
      account !in AccountNames(config.accounts)
      && exists k :: 0 <= k < |config.sources| && Asks(config.sources[k], name, account)
    case UnknownCommand(name) =>
      name !in CommandNames(config.commands)
      && exists k :: 0 <= k < |config.sources| && config.sources[k].command == name
  }

  ghost predicate Asks(source: Source, name: string, account: string) {
    source.ImapIdle? && source.name == name && source.account == account
  }

  // ---------- Counts ----------

  function MailboxCount(accounts: seq<Account>): (count: nat)
    ensures count == |LegacyNames(accounts)|
  {
    if accounts == [] then 0
    else MailboxCount(accounts[..|accounts| - 1]) + |accounts[|accounts| - 1].mailboxes|
  }

  function SourceCount(config: Config): nat {
    MailboxCount(config.accounts) + |config.sources|
  }

  function LaneName(command: Command): string {
    if command.lane.Some? then command.lane.value else command.name
  }

  function LaneNames(commands: seq<Command>): (names: seq<string>)
    ensures |names| == |commands|
  {
    seq(|commands|, k requires 0 <= k < |commands| => LaneName(commands[k]))
  }

  /** The lanes that a configuration calls for. */
  ghost function Lanes(config: Config): set<string> {
    Elements(LegacyNames(config.accounts)) + Elements(LaneNames(config.commands))
  }

  /** `command_lane_count`. */
  method CommandLaneCount(config: Config) returns (count: nat)
    ensures count == |Lanes(config)|
  {
    var lanes: set<string> := {};
    for a := 0 to |config.accounts|
      invariant lanes == Elements(LegacyNames(config.accounts[..a]))
    {
      var account := config.accounts[a];
      for m := 0 to |account.mailboxes|
        invariant lanes == Elements(LegacyNames(config.accounts[..a])) + Elements(MailboxNames(account)[..m])
      {
        NextName(MailboxNames(account), m);
        lanes := lanes + {LegacyName(account.name, account.mailboxes[m])};
      }
      NextAccount(config.accounts, a);
    }
    assert config.accounts[..|config.accounts|] == config.accounts;
    for c := 0 to |config.commands|
      invariant lanes == Elements(LegacyNames(config.accounts)) + Elements(LaneNames(config.commands)[..c])
    {
      NextName(LaneNames(config.commands), c);
      lanes := lanes + {LaneName(config.commands[c])};
    }
    assert LaneNames(config.commands)[..|config.commands|] == LaneNames(config.commands);
    count := |lanes|;
  }

  lemma NextName(names: seq<string>, n: nat)
    requires n < |names|
    ensures names[..n + 1] == names[..n] + [names[n]]
    ensures Elements(names[..n + 1]) == Elements(names[..n]) + {names[n]}
  {
    ElementsOfAppend(names[..n], [names[n]]);
    assert Elements([names[n]]) == {names[n]};
  }

  lemma NextAccount(accounts: seq<Account>, a: nat)
    requires a < |accounts|
    ensures LegacyNames(accounts[..a + 1]) == LegacyNames(accounts[..a]) + MailboxNames(accounts[a])
    ensures MailboxNames(accounts[a])[..|accounts[a].mailboxes|] == MailboxNames(accounts[a])
    ensures Elements(LegacyNames(accounts[..a + 1])) ==
              Elements(LegacyNames(accounts[..a])) + Elements(MailboxNames(accounts[a]))
  {
    assert accounts[..a + 1][..a] == accounts[..a];
    ElementsOfAppend(LegacyNames(accounts[..a]), MailboxNames(accounts[a]));
  }

  // ---------- Validation ----------

  /** `validate_commands`. */
  method ValidateCommands(commands: seq<Command>) returns (problem: Option<ConfigError>, names: set<string>)
    ensures problem.None? <==> NoDup(CommandNames(commands))
    ensures problem.None? ==> names == Elements(CommandNames(commands))
    ensures problem.Some? ==> problem.value.DuplicateCommand? && Twice(CommandNames(commands), problem.value.name)
  {
    names := {};
    for c := 0 to |commands|
      invariant names == Elements(CommandNames(commands)[..c])
      invariant NoDup(CommandNames(commands)[..c])
    {
      NextName(CommandNames(commands), c);
      DistinctAppend(CommandNames(commands)[..c], commands[c].name);
      if commands[c].name in names {
        problem := Some(DuplicateCommand(commands[c].name));
        TwiceInPrefix(CommandNames(commands), c, commands[c].name);
        return;
      }
      names := names + {commands[c].name};
    }
    assert CommandNames(commands)[..|commands|] == CommandNames(commands);
    problem := None;
  }

  /** The names an account's mailboxes add are new and no command's. */
  ghost predicate Admits(before: seq<string>, commandNames: set<string>, names: seq<string>) {
    NoDup(before + names) && Elements(names) !! commandNames
  }

  lemma AdmitsPrefix(before: seq<string>, commandNames: set<string>, names: seq<string>, n: nat)
    requires n <= |names|
    ensures Admits(before, commandNames, names) ==> Admits(before, commandNames, names[..n])
  {
    assert before + names[..n] == (before + names)[..|before| + n];
    DistinctPrefix(before + names, |before| + n);
  }

  lemma AdmitsNext(before: seq<string>, commandNames: set<string>, names: seq<string>, n: nat)
    requires n < |names|
    ensures Admits(before, commandNames, names[..n + 1]) <==>
              Admits(before, commandNames, names[..n]) && names[n] !in before && names[n] !in names[..n]
              && names[n] !in commandNames
  {
    NextName(names, n);
    assert before + names[..n + 1] == (before + names[..n]) + [names[n]];
    DistinctAppend(before + names[..n], names[n]);
  }

  /** The mailbox loop of `validate`. Its check for a mailbox name that the account has already never fires: the check of
      the source name before it has then failed. */
  method ValidateMailboxes(account: Account, commandNames: set<string>, ghost before: seq<string>, sourceNames: set<string>)
    returns (problem: Option<ConfigError>, names: set<string>)
    requires sourceNames == Elements(before) && NoDup(before)
    ensures problem.None? <==> Admits(before, commandNames, MailboxNames(account))
    ensures problem.None? ==> names == Elements(before + MailboxNames(account))
    ensures problem.Some? ==>
              || (problem.value.CommandCollision? && problem.value.name in Elements(MailboxNames(account)) * commandNames)
              || (problem.value.DuplicateSource? && Twice(before + MailboxNames(account), problem.value.name))
  {
    ghost var legacy := MailboxNames(account);
    var mailboxNames: set<string> := {};
    names := sourceNames;
    assert before + legacy[..0] == before;
    for m := 0 to |account.mailboxes|
      invariant Admits(before, commandNames, legacy[..m])
      invariant names == Elements(before + legacy[..m])
      invariant forall mailbox :: mailbox in mailboxNames ==> LegacyName(account.name, mailbox) in legacy[..m]
    {
      var name := LegacyName(account.name, account.mailboxes[m]);
      AdmitsNext(before, commandNames, legacy, m);
      NextName(legacy, m);
      ElementsOfAppend(before, legacy[..m]);
      ElementsOfAppend(before, legacy[..m + 1]);
      if name in commandNames || name in names {
        problem := Some(if name in commandNames then CommandCollision(name) else DuplicateSource(name));
        assert legacy[m] == name;
        if name !in commandNames {
          assert before + legacy[..m] == (before + legacy)[..|before| + m];
          TwiceInPrefix(before + legacy, |before| + m, name);
        }
        AdmitsPrefix(before, commandNames, legacy, m + 1);
        return;
      }
      names := names + {name};
      if account.mailboxes[m] in mailboxNames {
        assert false;
      }
      mailboxNames := mailboxNames + {account.mailboxes[m]};
    }
    assert legacy[..|account.mailboxes|] == legacy;
    problem := None;
  }

  /** The accounts so far pass: their names differ, and so do their mailboxes' source names, none of them a command's. */
  ghost predicate AccountsPass(accounts: seq<Account>, commandNames: set<string>) {
    && NoDup(AccountNames(accounts))
    && NoDup(LegacyNames(accounts))
    && Elements(LegacyNames(accounts)) !! commandNames
  }

  lemma AccountsPassNext(accounts: seq<Account>, commandNames: set<string>, a: nat)
    requires a < |accounts|
    ensures AccountsPass(accounts[..a + 1], commandNames) <==>
              AccountsPass(accounts[..a], commandNames)
              && accounts[a].name !in AccountNames(accounts[..a])
              && Admits(LegacyNames(accounts[..a]), commandNames, MailboxNames(accounts[a]))
  {
    NextAccount(accounts, a);
    assert AccountNames(accounts[..a + 1]) == AccountNames(accounts[..a]) + [accounts[a].name];
    DistinctAppend(AccountNames(accounts[..a]), accounts[a].name);
    var before, names := LegacyNames(accounts[..a]), MailboxNames(accounts[a]);
    assert before == (before + names)[..|before|];
    DistinctPrefix(before + names, |before|);
  }

  lemma {:induction false} AccountsPassPrefix(accounts: seq<Account>, commandNames: set<string>, a: nat)
    requires a <= |accounts|
    ensures AccountsPass(accounts, commandNames) ==> AccountsPass(accounts[..a], commandNames)
    decreases |accounts| - a
  {
    if a < |accounts| {
      AccountsPassPrefix(accounts, commandNames, a + 1);
      AccountsPassNext(accounts, commandNames, a);
    } else {
      assert accounts[..a] == accounts;
    }
  }

  lemma {:induction false} LegacyPrefix(accounts: seq<Account>, a: nat)
    requires a <= |accounts|
    ensures LegacyNames(accounts[..a]) <= LegacyNames(accounts)
    decreases |accounts| - a
  {
    if a < |accounts| {
      NextAccount(accounts, a);
      LegacyPrefix(accounts, a + 1);
    } else {
      assert accounts[..a] == accounts;
    }
  }

  /** What is wrong with the accounts. */
  ghost predicate AccountProblem(accounts: seq<Account>, commandNames: set<string>, error: ConfigError) {
    || (error.DuplicateAccount? && Twice(AccountNames(accounts), error.name))
    || (error.CommandCollision? && error.name in Elements(LegacyNames(accounts)) * commandNames)
    || (error.DuplicateSource? && Twice(LegacyNames(accounts), error.name))
  }

  /** One account, after those before it have passed. */
  method ValidateAccount(accounts: seq<Account>, a: nat, commandNames: set<string>, accountNames: set<string>,
                         sourceNames: set<string>)
    returns (problem: Option<ConfigError>, accountsNow: set<string>, sourcesNow: set<string>)
    requires a < |accounts| && AccountsPass(accounts[..a], commandNames)
    requires accountNames == Elements(AccountNames(accounts[..a]))
    requires sourceNames == Elements(LegacyNames(accounts[..a]))
    ensures problem.None? <==> AccountsPass(accounts[..a + 1], commandNames)
    ensures problem.None? ==>
              && accountsNow == Elements(AccountNames(accounts[..a + 1]))
              && sourcesNow == Elements(LegacyNames(accounts[..a + 1]))
    ensures problem.Some? ==> AccountProblem(accounts[..a + 1], commandNames, problem.value)
  {
    ghost var name := accounts[a].name;
    AccountsPassNext(accounts, commandNames, a);
    NextAccount(accounts, a);
    assert AccountNames(accounts[..a + 1]) == AccountNames(accounts[..a]) + [name];
    ElementsOfAppend(AccountNames(accounts[..a]), [name]);
    accountsNow, sourcesNow := accountNames, sourceNames;
    if accounts[a].name in accountNames {
      problem := Some(DuplicateAccount(accounts[a].name));
      TwiceInPrefix(AccountNames(accounts[..a + 1]), a, name);
      return;
    }
    accountsNow := accountsNow + {accounts[a].name};
    problem, sourcesNow := ValidateMailboxes(accounts[a], commandNames, LegacyNames(accounts[..a]), sourceNames);
  }

  lemma {:induction false} AccountProblemStays(accounts: seq<Account>, a: nat, commandNames: set<string>, error: ConfigError)
    requires a <= |accounts| && AccountProblem(accounts[..a], commandNames, error)
    ensures AccountProblem(accounts, commandNames, error)
  {
    LegacyPrefix(accounts, a);
    assert AccountNames(accounts[..a]) <= AccountNames(accounts);
  }

  /** The account loop of `validate`. */
  method ValidateAccounts(accounts: seq<Account>, commandNames: set<string>)
    returns (problem: Option<ConfigError>, accountNames: set<string>, sourceNames: set<string>)
    ensures problem.None? <==> AccountsPass(accounts, commandNames)
    ensures problem.None? ==>
              accountNames == Elements(AccountNames(accounts)) && sourceNames == Elements(LegacyNames(accounts))
    ensures problem.Some? ==> AccountProblem(accounts, commandNames, problem.value)
  {
    accountNames, sourceNames := {}, {};
    for a := 0 to |accounts|
      invariant AccountsPass(accounts[..a], commandNames)
      invariant accountNames == Elements(AccountNames(accounts[..a]))
      invariant sourceNames == Elements(LegacyNames(accounts[..a]))
    {
      problem, accountNames, sourceNames := ValidateAccount(accounts, a, commandNames, accountNames, sourceNames);
      if problem.Some? {
        AccountsPassPrefix(accounts, commandNames, a + 1);
        AccountProblemStays(accounts, a + 1, commandNames, problem.value);
        return;
      }
    }
    assert accounts[..|accounts|] == accounts;
    problem := None;
  }

  /** `SourceConfig::validate`. */
  method ValidateSource(source: Source, accountNames: set<string>, commandNames: set<string>, sourceNames: set<string>)
    returns (problem: Option<ConfigError>, names: set<string>)
    ensures problem.None? <==>
              && source.name !in sourceNames && source.command in commandNames
              && (source.ImapIdle? ==> source.account in accountNames)
    ensures problem.None? ==> names == sourceNames + {source.name}
    ensures problem.Some? ==>
              || (problem == Some(DuplicateSource(source.name)) && source.name in sourceNames)
              || (problem == Some(UnknownCommand(source.command)) && source.command !in commandNames)
              || (source.ImapIdle? && problem == Some(UnknownAccount(source.name, source.account))
                  && source.account !in accountNames)
  {
    names, problem := sourceNames, None;
    if source.name in sourceNames {
      return Some(DuplicateSource(source.name)), names;
    }
    names := names + {source.name};
    if source.ImapIdle? && source.account !in accountNames {
      return Some(UnknownAccount(source.name, source.account)), names;
    }
    if source.command !in commandNames {
      return Some(UnknownCommand(source.command)), names;
    }
  }

  /** A source's error is one the configuration has. */
  lemma SourceErrorExplained(config: Config, k: nat, error: ConfigError)
    requires k < |config.sources|
    requires var source := config.sources[k];
             || (error == DuplicateSource(source.name)
                 && source.name in LegacyNames(config.accounts) + SourceNames(config.sources)[..k])
             || (error == UnknownCommand(source.command) && source.command !in CommandNames(config.commands))
             || (source.ImapIdle? && error == UnknownAccount(source.name, source.account)
                 && source.account !in AccountNames(config.accounts))
    ensures Explained(config, error)
    ensures !(NoDup(AllSourceNames(config)) && AllReference(config, |config.sources|))
  {
    var n := |LegacyNames(config.accounts)| + k;
    if error.DuplicateSource? {
      assert AllSourceNames(config)[..n] == LegacyNames(config.accounts) + SourceNames(config.sources)[..k];
      TwiceInPrefix(AllSourceNames(config), n, error.name);
    } else {
      assert !References(config, config.sources[k]);
      assert error.UnknownAccount? ==> Asks(config.sources[k], error.source, error.account);
    }
  }

  /** The source loop of `validate`. */
  method ValidateSources(config: Config, accountNames: set<string>, commandNames: set<string>, legacyNames: set<string>)
    returns (problem: Option<ConfigError>)
    requires accountNames == Elements(AccountNames(config.accounts))
    requires commandNames == Elements(CommandNames(config.commands))
    requires legacyNames == Elements(LegacyNames(config.accounts)) && NoDup(LegacyNames(config.accounts))
    ensures problem.None? <==> NoDup(AllSourceNames(config)) && AllReference(config, |config.sources|)
    ensures problem.Some? ==> Explained(config, problem.value)
  {
    ghost var legacy, names := LegacyNames(config.accounts), SourceNames(config.sources);
    var sourceNames := legacyNames;
    assert legacy + names[..0] == legacy;
    for k := 0 to |config.sources|
      invariant NoDup(legacy + names[..k]) && sourceNames == Elements(legacy + names[..k])
      invariant AllReference(config, k)
    {
      assert legacy + names[..k + 1] == (legacy + names[..k]) + [names[k]];
      DistinctAppend(legacy + names[..k], names[k]);
      ElementsOfAppend(legacy + names[..k], [names[k]]);
      problem, sourceNames := ValidateSource(config.sources[k], accountNames, commandNames, sourceNames);
      if problem.Some? {
        SourceErrorExplained(config, k, problem.value);
        return;
      }
    }
    assert legacy + names[..|config.sources|] == AllSourceNames(config);
    problem := None;
  }

  /** `Config::validate`: exactly the configurations in order are accepted, and an error is one the configuration has. */
  method Validate(config: Config) returns (problem: Option<ConfigError>)
    ensures problem.None? <==> Accepts(config)
    ensures problem.Some? ==> Explained(config, problem.value)
  {
    if SourceCount(config) == 0 {
      return Some(NoSource);
    }
    var commandNames: set<string>;
    problem, commandNames := ValidateCommands(config.commands);
    if problem.Some? {
      return;
    }
    var accountNames, sourceNames;
    problem, accountNames, sourceNames := ValidateAccounts(config.accounts, commandNames);
    if problem.Some? {
      DistinctPrefix(AllSourceNames(config), |LegacyNames(config.accounts)|);
      assert LegacyNames(config.accounts) == AllSourceNames(config)[..|LegacyNames(config.accounts)|];
      return;
    }
    problem := ValidateSources(config, accountNames, commandNames, sourceNames);
  }
}
