/**
 * `Commands` (pks/commands.py): the bot's commands. Each is guarded by the
 * `permissions_required` decorator, which runs the command only when the
 * current user is allowed the permissions it names and otherwise answers
 * with a fixed refusal.
 */
module CommandHandlers {
  import opened Wrappers
  import opened OrderedDict
  import opened PyStrings
  import opened Configuration
  import opened Environment
  import opened Storage
  import opened PermissionEngine
  import opened ChannelRegistry
  import opened Utils
  import opened Core

  /** What the decorator returns instead of running the command. */
  const Forbidden := "Action forbidden ; insufficient rights."

  /** How a command ends: it returns a message or `None`, or it raises. */
  datatype Reply = Returned(message: Option<string>) | RaisedSystemExit | RaisedKeyError(key: string)

  function InvalidGroupMessage(group: string): string
  {
    "Group " + group + " is invalid !"
  }

  function AddedMessage(user: string, group: string): string
  {
    "User " + user + " successfully added to group " + group + " !"
  }

  function RemovedMessage(user: string, group: string): string
  {
    "User " + user + " successfully removed from group " + group + " !"
  }

  // ---------------------------------------------------------------------------
  // `/generate`'s answer.

  const SequencePrefix := "New sequence: "
  const StoppedWarning := "\nWARNING: the bot is stopped. Start it with /start."

  /** The answer to `/generate`: the sequence as text, and a warning when the bot is stopped. */
  function GenerateMessage(ports: seq<int>, running: bool): string
  {
    SequencePrefix + RenderPorts(ports) + (if running then "" else StoppedWarning)
  }

  /** The answer ends with the warning exactly when the bot is stopped. */
  lemma GenerateWarnsIffStopped(ports: seq<int>, running: bool)
    ensures EndsWith(GenerateMessage(ports, running), StoppedWarning) <==> !running
  {
    var m := GenerateMessage(ports, running);
    var rendered := RenderPorts(ports);
    if running {
      assert m == SequencePrefix + rendered;
      if rendered == [] {
        assert m[|m| - 1] == ' ';
      } else {
        RenderPortsChars(ports);
        assert m[|m| - 1] == rendered[|rendered| - 1];
      }
      assert StoppedWarning[|StoppedWarning| - 1] == '.';
      assert |StoppedWarning| <= |m| ==> m[|m| - |StoppedWarning|..][|StoppedWarning| - 1] == m[|m| - 1];
    } else {
      assert m[|m| - |StoppedWarning|..] == StoppedWarning;
    }
  }

  /** The sequence stands between the prefix and the warning, and reads back. */
  lemma GenerateMessageReadsBack(ports: seq<int>, running: bool)
    ensures StartsWith(GenerateMessage(ports, running), SequencePrefix)
    ensures var m := GenerateMessage(ports, running);
      var end := if running then |m| else |m| - |StoppedWarning|;
      |SequencePrefix| <= end <= |m| && ReadPorts(m[|SequencePrefix|..end]) == Some(ports)
  {
    var m := GenerateMessage(ports, running);
    var end := if running then |m| else |m| - |StoppedWarning|;
    assert m[|SequencePrefix|..end] == RenderPorts(ports);
    ReadRenderPorts(ports);
  }

  /** Different sequences, or the same sequence with the bot running and stopped, give different answers. */
  lemma GenerateMessageInjective(a: seq<int>, ra: bool, b: seq<int>, rb: bool)
    requires GenerateMessage(a, ra) == GenerateMessage(b, rb)
    ensures a == b && ra == rb
  {
    GenerateWarnsIffStopped(a, ra);
    GenerateWarnsIffStopped(b, rb);
    GenerateMessageReadsBack(a, ra);
    GenerateMessageReadsBack(b, rb);
  }

  /**
   * The sequence `/generate` applies: the configured open sequence, or a new
   * one of `sequences_length` ports drawn from `randint`, starting at draw
   * `start`, and filtered.
   */
  function FreshSequence(cfg: Config, randint: RandomSource, start: nat): (r: seq<int>)
    requires !cfg.useOpenSequence ==> HasExit(cfg)
    ensures cfg.useOpenSequence ==> r == cfg.openSequence
    ensures !cfg.useOpenSequence ==>
      |r| == cfg.sequencesLength && forall i :: 0 <= i < |r| ==> Acceptable(cfg, r[i])
  {
    if cfg.useOpenSequence then cfg.openSequence
    else
      var candidates := RandomCandidates(randint, start, cfg.sequencesLength, cfg.firstPort, cfg.lastPort);
      FilterPortsAcceptable(cfg, candidates);
      FilterPorts(cfg, candidates)
  }

  // ---------------------------------------------------------------------------
  // `/list_groups_members`'s answer.

  /** One group with its members, as `list_groups_members` writes it. */
  function ReportText(t: Table, group: string): string
    requires t.Valid()
  {
    group + ": " + Join(Members(t, group), ", ")
  }

  /** The answer for `groups`: one line per group. */
  function Report(t: Table, groups: seq<string>): string
    requires t.Valid()
  {
    if groups == [] then "" else ReportText(t, groups[0]) + "\n" + Report(t, groups[1..])
  }

  /** Appending a group appends its line: the report of the loop so far. */
  lemma {:induction false} ReportSnoc(t: Table, groups: seq<string>, g: string)
    requires t.Valid()
    ensures Report(t, groups + [g]) == Report(t, groups) + ReportText(t, g) + "\n"
  {
    if groups == [] {
      assert ([] + [g])[1..] == [];
    } else {
      assert (groups + [g])[0] == groups[0];
      assert (groups + [g])[1..] == groups[1..] + [g];
      ReportSnoc(t, groups[1..], g);
    }
  }

  /** A user table none of whose user ids holds a line break. */
  ghost predicate OneLineIds(t: Table)
  {
    forall u :: u in t.values ==> '\n' !in u
  }

  /** The report split at its line breaks gives back each group's line, then the empty rest. */
  lemma {:induction false} ReportSplit(t: Table, groups: seq<string>)
    requires t.Valid() && OneLineIds(t)
    requires forall i :: 0 <= i < |groups| ==> '\n' !in groups[i]
    ensures Split(Report(t, groups), '\n') ==
      seq(|groups|, i requires 0 <= i < |groups| => ReportText(t, groups[i])) + [""]
  {
    if groups == [] {
    } else {
      var members := Members(t, groups[0]);
      JoinAvoids(members, ", ", '\n');
      var x := ReportText(t, groups[0]);
      assert '\n' !in x;
      ReportSplit(t, groups[1..]);
      SplitAtSeparator(x, '\n', Report(t, groups[1..]));
      assert Report(t, groups) == x + ['\n'] + Report(t, groups[1..]);
    }
  }

  /** `/list_groups_members` answers with exactly four lines, one per group of the table, in order. */
  lemma MembersReportLines(t: Table)
    requires t.Valid() && OneLineIds(t)
    ensures Split(Report(t, ValidGroups()), '\n') ==
      [ReportText(t, "guest"), ReportText(t, "member"), ReportText(t, "manager"), ReportText(t, "admin"), ""]
  {
    FourLines(t, ValidGroups());
  }

  /** A report of four one-line groups splits into their four lines and the empty rest. */
  lemma FourLines(t: Table, groups: seq<string>)
    requires t.Valid() && OneLineIds(t)
    requires |groups| == 4 && forall i :: 0 <= i < 4 ==> '\n' !in groups[i]
    ensures Split(Report(t, groups), '\n') ==
      [ReportText(t, groups[0]), ReportText(t, groups[1]), ReportText(t, groups[2]), ReportText(t, groups[3]), ""]
  {
    ReportSplit(t, groups);
    var lines := seq(|groups|, i requires 0 <= i < |groups| => ReportText(t, groups[i]));
    assert lines == [ReportText(t, groups[0]), ReportText(t, groups[1]), ReportText(t, groups[2]), ReportText(t, groups[3])];
  }

  // ---------------------------------------------------------------------------
  // `/help`'s answer.

  /** `inspect.getmembers(Commands, predicate=inspect.isfunction)`: the functions of the class, by name. */
  const CommandMembers: seq<string> := [
    "__del__", "__init__", "add_perm", "forget", "generate", "help", "invalid", "list_groups_members",
    "print_broadcast_list", "print_config", "remove_perm", "shutdown", "start", "status", "stop", "target_port"
  ]

  const HelpHeader := "Commands available: \n\n"

  function HelpLine(doc: string -> string, name: string): string
  {
    "/" + name + ": " + doc(name) + "\n"
  }

  /** The names `help` documents: those among `names` whose command is whitelisted, in order. */
  function Listed(names: seq<string>, whitelisted: seq<string>): (r: seq<string>)
    ensures forall x :: x in r <==> x in names && "/" + x in whitelisted
  {
    if names == [] then []
    else
      var name := names[|names| - 1];
      var front := names[..|names| - 1];
      assert forall x :: x in names <==> x in front || x == name;
      Listed(front, whitelisted) + (if "/" + name in whitelisted then [name] else [])
  }

  /** The text of `help`'s lines: one per documented name. */
  function HelpLines(doc: string -> string, listed: seq<string>): string
  {
    if listed == [] then "" else HelpLines(doc, listed[..|listed| - 1]) + HelpLine(doc, listed[|listed| - 1])
  }

  /** One more name for `help` to consider adds its line exactly when its command is whitelisted. */
  lemma HelpLinesSnoc(doc: string -> string, names: seq<string>, whitelisted: seq<string>, i: nat)
    requires i < |names|
    ensures HelpLines(doc, Listed(names[..i + 1], whitelisted)) ==
      HelpLines(doc, Listed(names[..i], whitelisted))
      + (if "/" + names[i] in whitelisted then HelpLine(doc, names[i]) else "")
  {
    var front := names[..i + 1];
    assert front[..|front| - 1] == names[..i] && front[|front| - 1] == names[i];
    var listed := Listed(names[..i], whitelisted);
    if "/" + names[i] in whitelisted {
      assert Listed(front, whitelisted) == listed + [names[i]];
      assert (listed + [names[i]])[..|listed|] == listed;
    } else {
      assert Listed(front, whitelisted) == listed;
    }
  }

  /**
   * `help`'s loop over the class's functions: a line for each whitelisted
   * one, in order (the header it starts from is added by `Help`).
   */
  method HelpText(doc: string -> string, names: seq<string>, whitelisted: seq<string>) returns (lines: string)
    ensures lines == HelpLines(doc, Listed(names, whitelisted))
  {
    lines := "";
    for i := 0 to |names|
      invariant lines == HelpLines(doc, Listed(names[..i], whitelisted))
    {
      HelpLinesSnoc(doc, names, whitelisted, i);
      var name := names[i];
      if "/" + name in whitelisted {
        lines := lines + HelpLine(doc, name);
      } else {
        assert lines + "" == lines;
      }
    }
    assert names[..|names|] == names;
  }

  class Commands {
    const cfg: Config
    const host: Host
    const permissions: Permissions
    const channels: Channels
    /** `inspect.getdoc` of each command, which `help` prints. */
    const doc: string -> string
    /** Whether the bot considers the knock daemon started. */
    var running: bool
    /** The id of the user whose command is being run, as `str` gives it. */
    var userId: string

    ghost predicate Valid()
      reads permissions, permissions.pdb, permissions.pdb.db, channels, channels.cdb, channels.cdb.db
    {
      permissions.Valid() && channels.Valid() && permissions.cfg == cfg
    }

    function Table(): Table
      reads permissions, permissions.pdb, permissions.pdb.db, channels, channels.cdb, channels.cdb.db
      requires Valid()
    {
      permissions.Table()
    }

    /** The decorator's test: `is_user_allowed(str(user_id), perms)`. */
    predicate Permitted(needed: seq<string>)
      reads this`userId, permissions, permissions.pdb, permissions.pdb.db, channels, channels.cdb, channels.cdb.db
      requires Valid()
    {
      Allowed(cfg, userId, GroupsOf(Table(), userId), needed)
    }

    /**
     * `Commands()`: stopped, acting as the system account "1", makes the
     * configured admins admins, then runs `start` as "1".
     */
    constructor (cfg: Config, host: Host, channels: Channels, doc: string -> string, persisted: Shelf<string, seq<string>>)
      requires PermissionEngine.PersistedOk(persisted) && channels.Valid()
      modifies host`calls
      ensures Valid() && fresh(permissions) && fresh(permissions.pdb) && fresh(permissions.pdb.db)
      ensures this.cfg == cfg && this.host == host && this.channels == channels && this.doc == doc
      ensures userId == "1"
      ensures Table() == AddAdmins(
        if PermissionsColumn in persisted then persisted[PermissionsColumn].entries else Empty(), BootstrapAdmins(cfg))
      ensures host.calls == old(host.calls) + (if Admitted(cfg, "1") then [SystemctlStart("knockd")] else [])
      ensures running <==> Admitted(cfg, "1") && host.exitCode(|old(host.calls)|) == 0
    {
      this.cfg := cfg;
      this.host := host;
      this.channels := channels;
      this.doc := doc;
      running := false;
      permissions := new Permissions(cfg, persisted);
      userId := "1";
      new;
      Bootstrap();
    }

    /** The constructor's second half: admins first, then `start` as "1". */
    method Bootstrap()
      requires Valid() && userId == "1" && !running
      modifies permissions.pdb.db, this`running, host`calls
      ensures Valid() && Table() == AddAdmins(old(Table()), BootstrapAdmins(cfg))
      ensures permissions.pdb.db.columns == old(permissions.pdb.db.columns)
      ensures host.calls == old(host.calls) + (if Admitted(cfg, "1") then [SystemctlStart("knockd")] else [])
      ensures running <==> Admitted(cfg, "1") && host.exitCode(|old(host.calls)|) == 0
    {
      ghost var t0 := Table();
      permissions.SetTelegramAdmins();
      AddAdminsEstablishes(t0, BootstrapAdmins(cfg));
      assert "1" in BootstrapAdmins(cfg);
      if Admitted(cfg, "1") {
        AdminIsAllowed(cfg, "1", GroupsOf(Table(), "1"), [ModifyBotBehaviour]);
      }
      var _ := Start();
    }

    /** The decorator's check, through `is_user_allowed`. */
    method Guard(needed: seq<string>) returns (ok: bool)
      requires Valid()
      ensures ok <==> Permitted(needed)
    {
      ok := permissions.IsUserAllowed(userId, needed);
    }

    /** `invalid`: answers nothing, or the refusal to a user shut out by the lists. */
    method Invalid() returns (r: Option<string>)
      requires Valid()
      ensures r.None? <==> Admitted(cfg, userId)
      ensures r.Some? ==> r.value == Forbidden
    {
      NoneNeedsOnlyAdmission(cfg, userId, GroupsOf(Table(), userId));
      var ok := Guard([NoPermission]);
      if !ok {
        return Some(Forbidden);
      }
      return None;
    }

    /** `help`: the documented commands among `whitelisted`, in name order; nothing while stopped. */
    method Help(whitelisted: seq<string>) returns (r: Option<string>)
      requires Valid()
      ensures !Admitted(cfg, userId) ==> r == Some(Forbidden)
      ensures Admitted(cfg, userId) && !running ==> r.None?
      ensures Admitted(cfg, userId) && running ==>
        r == Some(HelpHeader + HelpLines(doc, Listed(CommandMembers, whitelisted)))
    {
      NoneNeedsOnlyAdmission(cfg, userId, GroupsOf(Table(), userId));
      var ok := Guard([NoPermission]);
      if !ok {
        return Some(Forbidden);
      }
      if !running {
        return None;
      }
      var lines := HelpText(doc, CommandMembers, whitelisted);
      return Some(HelpHeader + lines);
    }

    /** `target_port`: the protected port as decimal text. */
    method TargetPort() returns (r: string)
      requires Valid()
      ensures !Permitted([ManageSequences]) ==> r == Forbidden
      ensures Permitted([ManageSequences]) ==> IsIntText(r) && ParseInt(r) == cfg.targetPort
    {
      var ok := Guard([ManageSequences]);
      if !ok {
        return Forbidden;
      }
      r := IntToString(cfg.targetPort);
      ParseIntToString(cfg.targetPort);
    }

    /** `status` */
    method Status() returns (r: string)
      requires Valid()
      ensures !Permitted([AdminAccess]) ==> r == Forbidden
      ensures Permitted([AdminAccess]) ==> (r == "Running" <==> running) && (r == "Stopped" <==> !running)
    {
      var ok := Guard([AdminAccess]);
      if !ok {
        return Forbidden;
      }
      r := if running then "Running" else "Stopped";
    }

    /** `start`: a stopped bot starts the knock daemon and is running only if that succeeded. */
    method Start() returns (r: string)
      requires Valid()
      modifies this`running, host`calls
      ensures Valid() && userId == old(userId)
      ensures !Permitted([ModifyBotBehaviour]) ==>
        r == Forbidden && running == old(running) && host.calls == old(host.calls)
      ensures Permitted([ModifyBotBehaviour]) && old(running) ==>
        r == "Knockd already running." && running && host.calls == old(host.calls)
      ensures Permitted([ModifyBotBehaviour]) && !old(running) ==>
        && host.calls == old(host.calls) + [SystemctlStart("knockd")]
        && (running <==> host.exitCode(|old(host.calls)|) == 0)
        && r == if running then "Started knockd." else "Could not start knockd ; unknown error."
    {
      var ok := Guard([ModifyBotBehaviour]);
      if !ok {
        return Forbidden;
      }
      if !running {
        var started := StartService(host, "knockd");
        if !started {
          return "Could not start knockd ; unknown error.";
        }
        running := true;
        return "Started knockd.";
      } else {
        return "Knockd already running.";
      }
    }

    /** `stop`: a running bot stops the knock daemon and is stopped only if that succeeded. */
    method Stop() returns (r: string)
      requires Valid()
      modifies this`running, host`calls
      ensures Valid() && userId == old(userId)
      ensures !Permitted([ModifyBotBehaviour]) ==>
        r == Forbidden && running == old(running) && host.calls == old(host.calls)
      ensures Permitted([ModifyBotBehaviour]) && !old(running) ==>
        r == "Knockd already stopped." && !running && host.calls == old(host.calls)
      ensures Permitted([ModifyBotBehaviour]) && old(running) ==>
        && host.calls == old(host.calls) + [SystemctlStop("knockd")]
        && (!running <==> host.exitCode(|old(host.calls)|) == 0)
        && r == if running then "Could not stop knockd ; unknown error." else "Stopped knockd."
    {
      var ok := Guard([ModifyBotBehaviour]);
      if !ok {
        return Forbidden;
      }
      if running {
        var stopped := StopService(host, "knockd");
        if !stopped {
          return "Could not stop knockd ; unknown error.";
        }
        running := false;
        return "Stopped knockd.";
      } else {
        return "Knockd already stopped.";
      }
    }

    /** `shutdown`: `stop` (whose answer is dropped), then `SystemExit`. */
    method Shutdown() returns (r: Reply)
      requires Valid()
      modifies this`running, host`calls
      ensures Valid() && userId == old(userId)
      ensures !Permitted([ModifyBotBehaviour, AdminAccess]) ==>
        r == Returned(Some(Forbidden)) && running == old(running) && host.calls == old(host.calls)
      ensures Permitted([ModifyBotBehaviour, AdminAccess]) ==> r == RaisedSystemExit
      ensures Permitted([ModifyBotBehaviour, AdminAccess]) && !old(running) ==>
        !running && host.calls == old(host.calls)
      ensures Permitted([ModifyBotBehaviour, AdminAccess]) && old(running) ==>
        && host.calls == old(host.calls) + [SystemctlStop("knockd")]
        && (!running <==> host.exitCode(|old(host.calls)|) == 0)
    {
      var ok := Guard([ModifyBotBehaviour, AdminAccess]);
      if !ok {
        return Returned(Some(Forbidden));
      }
      AllowedFewer(cfg, userId, GroupsOf(Table(), userId), [ModifyBotBehaviour, AdminAccess], [ModifyBotBehaviour]);
      var _ := Stop();
      return RaisedSystemExit;
    }

    /** `add_perm`: an invalid group is reported; otherwise the user joins the group. */
    method AddPerm(user: string, group: string) returns (r: string)
      requires Valid()
      modifies permissions.pdb.db
      ensures Valid() && permissions.pdb.Column() == old(permissions.pdb.Column())
      ensures permissions.pdb.db.columns == old(permissions.pdb.db.columns)
      ensures !old(Permitted([ModifyBotBehaviour, AdminAccess])) ==>
        r == Forbidden && permissions.pdb.db.shelf == old(permissions.pdb.db.shelf)
      ensures old(Permitted([ModifyBotBehaviour, AdminAccess])) && !IsGroupValid(group) ==>
        r == InvalidGroupMessage(group) && permissions.pdb.db.shelf == old(permissions.pdb.db.shelf)
      ensures old(Permitted([ModifyBotBehaviour, AdminAccess])) && IsGroupValid(group) ==>
        && r == AddedMessage(user, group)
        && permissions.pdb.db.shelf ==
          old(permissions.pdb.db.shelf)[permissions.pdb.Column() := DictColumn(AddUser(old(Table()), user, group))]
    {
      var ok := Guard([ModifyBotBehaviour, AdminAccess]);
      if !ok {
        return Forbidden;
      }
      if !IsGroupValid(group) {
        return InvalidGroupMessage(group);
      }
      permissions.AddUserToGroup(user, group);
      return AddedMessage(user, group);
    }

    /** `remove_perm`: an invalid group is reported; a group the user lacks raises `KeyError`. */
    method RemovePerm(user: string, group: string) returns (r: Reply)
      requires Valid()
      modifies permissions.pdb.db
      ensures Valid() && permissions.pdb.Column() == old(permissions.pdb.Column())
      ensures permissions.pdb.db.columns == old(permissions.pdb.db.columns)
      ensures !old(Permitted([ModifyBotBehaviour, AdminAccess])) ==>
        r == Returned(Some(Forbidden)) && permissions.pdb.db.shelf == old(permissions.pdb.db.shelf)
      ensures old(Permitted([ModifyBotBehaviour, AdminAccess])) && !IsGroupValid(group) ==>
        r == Returned(Some(InvalidGroupMessage(group))) && permissions.pdb.db.shelf == old(permissions.pdb.db.shelf)
      ensures old(Permitted([ModifyBotBehaviour, AdminAccess])) && IsGroupValid(group) ==>
        match RemoveUser(old(Table()), user, group)
        case None =>
          r == RaisedKeyError(group) && permissions.pdb.db.shelf == old(permissions.pdb.db.shelf)
        case Some(t) =>
          && r == Returned(Some(RemovedMessage(user, group)))
          && permissions.pdb.db.shelf == old(permissions.pdb.db.shelf)[permissions.pdb.Column() := DictColumn(t)]
    {
      var ok := Guard([ModifyBotBehaviour, AdminAccess]);
      if !ok {
        return Returned(Some(Forbidden));
      }
      if !IsGroupValid(group) {
        return Returned(Some(InvalidGroupMessage(group)));
      }
      var outcome := permissions.RemoveUserFromGroup(user, group);
      if outcome.KeyError? {
        return RaisedKeyError(outcome.key);
      }
      return Returned(Some(RemovedMessage(user, group)));
    }

    /**
     * `generate`: the open sequence, or a freshly drawn one, is written into
     * the knock daemon's configuration and the daemon is restarted.
     */
    method Generate() returns (r: string)
      requires Valid()
      requires Permitted([ManageSequences]) && !cfg.useOpenSequence ==> HasExit(cfg)
      modifies host`draws, host`files, host`calls
      ensures Valid() && userId == old(userId) && running == old(running)
      ensures !Permitted([ManageSequences]) ==>
        && r == Forbidden
        && host.draws == old(host.draws) && host.files == old(host.files) && host.calls == old(host.calls)
      ensures Permitted([ManageSequences]) ==>
        var ports := FreshSequence(cfg, host.randint, old(host.draws));
        && r == GenerateMessage(ports, running)
        && host.files == old(host.files)[cfg.knockdConfigFile := KnockdConf(cfg, ports)]
        && host.calls == old(host.calls) + RestartCalls(host.exitCode, |old(host.calls)|, "knockd")
        && host.draws == old(host.draws) + (if cfg.useOpenSequence then 0 else cfg.sequencesLength)
    {
      var ok := Guard([ManageSequences]);
      if !ok {
        return Forbidden;
      }
      var ports: seq<int>;
      if cfg.useOpenSequence {
        ports := cfg.openSequence;
      } else {
        ports := GenerateNewSequence(cfg, host, cfg.sequencesLength, None);
      }
      SetOpenSequence(cfg, host, ports);
      var message := SequencePrefix + RenderPorts(ports);
      if !running {
        message := message + StoppedWarning;
      }
      return message;
    }

    /** `forget`: the chat stops receiving broadcasts. */
    method Forget(chat: int) returns (r: Option<string>)
      requires Valid()
      modifies channels.cdb.db
      ensures Valid() && channels.cdb.Column() == old(channels.cdb.Column())
      ensures channels.cdb.db.columns == old(channels.cdb.db.columns)
      ensures !Permitted([ModifyBotBehaviour]) ==>
        r == Some(Forbidden) && channels.cdb.db.shelf == old(channels.cdb.db.shelf)
      ensures Permitted([ModifyBotBehaviour]) ==>
        && r.None?
        && channels.cdb.db.shelf ==
          old(channels.cdb.db.shelf)[channels.cdb.Column() := DictColumn(DisableChannel(old(channels.Table()), chat))]
    {
      var ok := Guard([ModifyBotBehaviour]);
      if !ok {
        return Some(Forbidden);
      }
      channels.Disable(chat);
      return None;
    }

    /** `list_groups_members`: each group of the table with its members. */
    method ListGroupsMembers() returns (r: string)
      requires Valid()
      ensures !Permitted([ModifyBotBehaviour]) ==> r == Forbidden
      ensures Permitted([ModifyBotBehaviour]) ==> r == Report(Table(), ValidGroups())
    {
      var ok := Guard([ModifyBotBehaviour]);
      if !ok {
        return Forbidden;
      }
      r := GroupsReport(ValidGroups());
    }

    /** The loop of `list_groups_members`: one line per group, each with its members. */
    method GroupsReport(groups: seq<string>) returns (message: string)
      requires Valid()
      ensures message == Report(Table(), groups)
    {
      message := "";
      var i := 0;
      while i < |groups|
        invariant 0 <= i <= |groups|
        invariant message == Report(Table(), groups[..i])
      {
        var members := permissions.GetGroupMembers(groups[i]);
        var line := groups[i] + ": " + Join(members, ", ");
        assert line == ReportText(Table(), groups[i]);
        assert groups[..i + 1] == groups[..i] + [groups[i]];
        ReportSnoc(Table(), groups[..i], groups[i]);
        message := message + line + "\n";
        i := i + 1;
      }
      assert groups[..i] == groups;
      return message;
    }
  }
}
