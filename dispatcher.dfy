/**
 * `PKS` (pks/__init__.py): the message loop. Every update whose text starts
 * with "/" and is recent enough is parsed into a command word and its
 * arguments, looked up in the command table, checked for the number of
 * arguments, run, and its answer, if any, is sent back as a reply.
 */
module Dispatcher {
  import opened Wrappers
  import opened OrderedDict
  import opened PyStrings
  import opened Configuration
  import opened Environment
  import opened Storage
  import opened PermissionEngine
  import opened ChannelRegistry
  import opened Utils
  import opened Core
  import opened CommandHandlers

  /** The part of a Telegram update the server reads; `text` is absent for messages without one. */
  datatype Message = Message(messageId: int, chatId: int, userId: int, text: Option<string>, date: int)

  /** A Telegram update; `message` is absent for other kinds of updates. */
  datatype Update = Update(updateId: int, message: Option<Message>)

  datatype Handler =
    | GenerateCmd | StartCmd | StopCmd | ForgetCmd | ShutdownCmd
    | ListGroupsMembersCmd | AddPermCmd | RemovePermCmd | HelpCmd | InvalidCmd

  // ---------------------------------------------------------------------------
  // The command table.

  /** `commands_l`: each command word with its handler and the number of arguments it expects. */
  const CommandTable: seq<(string, Handler, nat)> := [
    ("/generate", GenerateCmd, 0),
    ("/start", StartCmd, 0),
    ("/stop", StopCmd, 0),
    ("/forget", ForgetCmd, 0),
    ("/shutdown", ShutdownCmd, 0),
    ("/list_groups_members", ListGroupsMembersCmd, 0),
    ("/add_perm", AddPermCmd, 2),
    ("/remove_perm", RemovePermCmd, 2),
    ("/help", HelpCmd, 0)
  ]

  function KeysOf(table: seq<(string, Handler, nat)>): (r: seq<string>)
    ensures |r| == |table|
    ensures forall i :: 0 <= i < |table| ==> r[i] == table[i].0
  {
    seq(|table|, i requires 0 <= i < |table| => table[i].0)
  }

  /** `list(commands_l.keys())` taken before "/help" is added: what `/help` is given. */
  function DispatchedKeys(): seq<string>
  {
    KeysOf(CommandTable[..8])
  }

  /** `dict.get(command, (invalid, 0, []))` on an association list. */
  function Find(table: seq<(string, Handler, nat)>, command: string): (Handler, nat)
  {
    if table == [] then (InvalidCmd, 0)
    else if table[0].0 == command then (table[0].1, table[0].2)
    else Find(table[1..], command)
  }

  /** A table with distinct keys finds each key's own entry, and `invalid` with no arguments for any other word. */
  lemma {:induction false} FindEntry(table: seq<(string, Handler, nat)>, command: string)
    requires Distinct(KeysOf(table))
    ensures forall i :: 0 <= i < |table| && table[i].0 == command ==> Find(table, command) == (table[i].1, table[i].2)
    ensures command !in KeysOf(table) ==> Find(table, command) == (InvalidCmd, 0)
  {
    if table != [] {
      assert KeysOf(table[1..]) == KeysOf(table)[1..];
      FindEntry(table[1..], command);
      forall i | 0 <= i < |table| && table[i].0 == command
        ensures Find(table, command) == (table[i].1, table[i].2)
      {
        if i > 0 {
          assert KeysOf(table)[0] != KeysOf(table)[i];
          assert table[1..][i - 1] == table[i];
        }
      }
      if command !in KeysOf(table) {
        assert KeysOf(table)[0] == table[0].0;
      }
    }
  }

  function Lookup(command: string): (Handler, nat)
  {
    Find(CommandTable, command)
  }

  /**
   * Each command word of the table runs its own handler with its own number
   * of arguments; every other word, "/status" and "/print_config" included,
   * runs `invalid` and expects none.
   */
  lemma LookupTable(command: string)
    ensures forall i :: 0 <= i < |CommandTable| && CommandTable[i].0 == command ==>
      Lookup(command) == (CommandTable[i].1, CommandTable[i].2)
    ensures command !in KeysOf(CommandTable) ==> Lookup(command) == (InvalidCmd, 0)
  {
    var keys := KeysOf(CommandTable);
    assert keys == ["/generate", "/start", "/stop", "/forget", "/shutdown", "/list_groups_members",
      "/add_perm", "/remove_perm", "/help"];
    FindEntry(CommandTable, command);
  }

  /** Whatever the table finds is one of its rows, or `invalid` with no arguments. */
  lemma {:induction false} FindIsRow(table: seq<(string, Handler, nat)>, command: string)
    ensures Find(table, command) == (InvalidCmd, 0) ||
      exists i :: 0 <= i < |table| && Find(table, command) == (table[i].1, table[i].2)
  {
    if table != [] && table[0].0 != command {
      FindIsRow(table[1..], command);
      if Find(table[1..], command) != (InvalidCmd, 0) {
        var i :| 0 <= i < |table[1..]| && Find(table[1..], command) == (table[1..][i].1, table[1..][i].2);
        assert table[1..][i] == table[i + 1];
      }
    }
  }

  /** `/add_perm` and `/remove_perm` take two arguments; every other command, `invalid` included, none. */
  lemma LookupArity(command: string)
    ensures Lookup(command).1 == (if Lookup(command).0 == AddPermCmd || Lookup(command).0 == RemovePermCmd then 2 else 0)
  {
    FindIsRow(CommandTable, command);
  }

  /** `/help` never documents itself: its own key is taken out of the list it is given. */
  lemma HelpOmitsItself()
    ensures "help" !in Listed(CommandMembers, DispatchedKeys())
  {
    var keys := DispatchedKeys();
    assert keys == ["/generate", "/start", "/stop", "/forget", "/shutdown", "/list_groups_members",
      "/add_perm", "/remove_perm"];
    assert "/" + "help" == "/help";
  }

  // ---------------------------------------------------------------------------
  // Parsing a message.

  /** The words of the text: `text.split(" ")`. */
  function Words(text: string): (r: seq<string>)
    ensures |r| >= 1
  {
    Split(text, ' ')
  }

  /** The command word: the first word with any `@botname` suffix cut off. */
  function CommandOf(text: string): string
  {
    Split(Words(text)[0], '@')[0]
  }

  /** The arguments: every word after the first. */
  function ArgumentsOf(text: string): seq<string>
  {
    Words(text)[1..]
  }

  /** A command word and blank-free arguments, joined by blanks, parse back into themselves. */
  lemma ParseCommandLine(command: string, args: seq<string>)
    requires ' ' !in command && '@' !in command
    requires forall i :: 0 <= i < |args| ==> ' ' !in args[i]
    ensures CommandOf(Join([command] + args, " ")) == command
    ensures ArgumentsOf(Join([command] + args, " ")) == args
  {
    var words := [command] + args;
    assert forall i :: 0 <= i < |words| ==> ' ' !in words[i] by {
      forall i | 0 <= i < |words| ensures ' ' !in words[i] {
        if i > 0 {
          assert words[i] == args[i - 1];
        }
      }
    }
    SplitJoin(words, ' ');
    SplitNoSeparator(command, '@');
    assert words[1..] == args;
  }

  /** Two blanks in a row give an empty argument, which is counted like any other. */
  lemma DoubledBlankCounts(command: string, arg: string)
    requires ' ' !in command && '@' !in command && ' ' !in arg
    ensures CommandOf(command + "  " + arg) == command
    ensures ArgumentsOf(command + "  " + arg) == ["", arg]
  {
    ParseCommandLine(command, ["", arg]);
    var words := [command] + ["", arg];
    assert words[1..][1..] == [arg];
    assert Join(words[1..], " ") == "" + " " + arg;
    assert Join(words, " ") == command + " " + ("" + " " + arg);
    assert command + " " + ("" + " " + arg) == command + "  " + arg;
  }

  /** A command addressed to a bot, `/cmd@botname`, is the command `/cmd`. */
  lemma AddressedCommand(command: string, botName: string)
    requires ' ' !in command && '@' !in command && ' ' !in botName
    ensures CommandOf(command + "@" + botName) == command
  {
    SplitNoSeparator(command + "@" + botName, ' ');
    assert command + "@" + botName == command + ['@'] + botName;
    SplitAtSeparator(command, '@', botName);
  }

  /** `are_args_valid`: `None` when the count matches, else the message saying which way it is off. */
  function ArgumentsError(found: nat, expected: nat): (r: Option<string>)
    ensures r.None? <==> found == expected
    ensures found > expected ==> r == Some(
      "Too many arguments: expected " + IntToString(expected) + ", got " + IntToString(found)
      + ". Please refer to \"/help\".")
    ensures found < expected ==> r == Some(
      "Too few arguments: expected " + IntToString(expected) + ", got " + IntToString(found)
      + ". Please refer to \"/help\".")
  {
    if found > expected then
      Some("Too many arguments: expected " + IntToString(expected) + ", got " + IntToString(found)
        + ". Please refer to \"/help\".")
    else if found < expected then
      Some("Too few arguments: expected " + IntToString(expected) + ", got " + IntToString(found)
        + ". Please refer to \"/help\".")
    else None
  }

  /** The sequence filter stops for `/generate` when that needs it to. */
  predicate SafeText(cfg: Config, text: string)
  {
    Lookup(CommandOf(text)).0 == GenerateCmd && !cfg.useOpenSequence ==> HasExit(cfg)
  }

  /** `main`'s filter: a message with text that starts with "/" and is younger than `telegram_timeout`. */
  predicate Eligible(cfg: Config, u: Update, now: int)
  {
    && u.message.Some? && u.message.value.text.Some?
    && StartsWith(u.message.value.text.value, "/")
    && now - u.message.value.date < cfg.telegramTimeout
  }

  /** The offset `main` asks for next: one past the last update it went through. */
  function OffsetAfter(updates: seq<Update>, offset: int): int
  {
    if updates == [] then offset else updates[|updates| - 1].updateId + 1
  }

  /** The offset after the first `n` updates of a batch: one past the `n`-th update's id. */
  lemma OffsetAfterPrefix(updates: seq<Update>, n: nat, offset: int)
    requires n <= |updates|
    ensures OffsetAfter(updates[..n], offset) == if n == 0 then offset else updates[n - 1].updateId + 1
  {
  }

  /**
   * What `process` sends for an answer: a reply to the message, in its chat,
   * when the answer is a non-empty string; nothing for `None`, `""` or an
   * exception.
   */
  function Replies(m: Message, r: Reply): seq<Sent>
  {
    if r.Returned? && r.message.Some? && r.message.value != "" then [Sent(m.chatId, r.message.value, Some(m.messageId))]
    else []
  }

  /**
   * What the commands read and change, as values: both stores with their
   * `db_columns` lists, the acting user, the running flag, and what the
   * host has recorded (service calls, random draws, written files).
   */
  datatype State = State(
    channelsColumns: seq<string>, channels: Shelf<int, bool>,
    permissionsColumns: seq<string>, permissions: Shelf<string, seq<string>>,
    userId: string, running: bool,
    calls: seq<ServiceCall>, draws: nat, files: map<string, string>)

  /** The column a store keeps its content in: the first of its `db_columns`. */
  function FirstColumn(columns: seq<string>): string
  {
    if columns == [] then "" else columns[0]
  }

  /** The broadcast list held in a state. */
  ghost function ChannelsOf(s: State): (t: Registry)
    ensures t.Valid()
  {
    var c := FirstColumn(s.channelsColumns);
    if c in s.channels && s.channels[c].DictColumn? && s.channels[c].entries.Valid() then s.channels[c].entries
    else Empty()
  }

  /** The user table held in a state. */
  ghost function PermissionsOf(s: State): (t: Table)
    ensures t.Valid()
  {
    var c := FirstColumn(s.permissionsColumns);
    if c in s.permissions && s.permissions[c].DictColumn? && s.permissions[c].entries.Valid() then s.permissions[c].entries
    else Empty()
  }

  /** The broadcast list of a state replaced by `t`: reading it back gives `t`, the user table is untouched. */
  ghost function WithChannels(s: State, t: Registry): (r: State)
    ensures t.Valid() ==> ChannelsOf(r) == t
    ensures PermissionsOf(r) == PermissionsOf(s)
  {
    s.(channels := s.channels[FirstColumn(s.channelsColumns) := DictColumn(t)])
  }

  /** The user table of a state replaced by `t`: reading it back gives `t`, the broadcast list is untouched. */
  ghost function WithPermissions(s: State, t: Table): (r: State)
    ensures t.Valid() ==> PermissionsOf(r) == t
    ensures ChannelsOf(r) == ChannelsOf(s)
  {
    s.(permissions := s.permissions[FirstColumn(s.permissionsColumns) := DictColumn(t)])
  }

  /** The start of `process`: the chat is added to the broadcast list and the sender becomes the acting user. */
  ghost function Registered(s: State, chat: int, user: int): (r: State)
    ensures ChannelsOf(r) == AddChannel(ChannelsOf(s), chat) && PermissionsOf(r) == PermissionsOf(s)
    ensures r.userId == IntToString(user)
  {
    WithChannels(s, AddChannel(ChannelsOf(s), chat)).(userId := IntToString(user))
  }

  /** How one pass over a batch of updates ends. */
  datatype BatchEnd = Completed | ExitedBySystemExit | CrashedByKeyError(key: string)

  class PKS {
    const bot: Bot
    const chan: Channels
    const commands: Commands

    ghost predicate Valid()
      reads commands, commands.permissions, commands.permissions.pdb, commands.permissions.pdb.db
      reads commands.channels, commands.channels.cdb, commands.channels.cdb.db
    {
      commands.Valid() && commands.channels == chan && chan.bot == bot
    }

    /** The state the commands act on. */
    ghost function Snapshot(): State
      reads commands, chan, chan.cdb, chan.cdb.db, commands.permissions, commands.permissions.pdb
      reads commands.permissions.pdb.db, commands.host
      requires Valid()
    {
      State(chan.cdb.db.columns, chan.cdb.db.shelf, commands.permissions.pdb.db.columns, commands.permissions.pdb.db.shelf,
        commands.userId, commands.running, commands.host.calls, commands.host.draws, commands.host.files)
    }

    /** The decorator's test `is_user_allowed(str(user_id), perms)`, in state `s`. */
    ghost predicate PermittedIn(s: State, needed: seq<string>)
    {
      Allowed(commands.cfg, s.userId, GroupsOf(PermissionsOf(s), s.userId), needed)
    }

    /**
     * Running `handler` with `args` in chat `chat` took state `s0` to `s1`
     * and answered `r`: each command word runs its own method of `Commands`.
     */
    ghost predicate Ran(handler: Handler, args: seq<string>, chat: int, s0: State, s1: State, r: Reply)
    {
      match handler
      case GenerateCmd => GenerateRan(s0, s1, r)
      case StartCmd => StartRan(s0, s1, r)
      case StopCmd => StopRan(s0, s1, r)
      case ShutdownCmd => ShutdownRan(s0, s1, r)
      case ForgetCmd => ForgetRan(chat, s0, s1, r)
      case ListGroupsMembersCmd => ListGroupsMembersRan(s0, s1, r)
      case AddPermCmd => |args| == 2 && AddPermRan(args[0], args[1], s0, s1, r)
      case RemovePermCmd => |args| == 2 && RemovePermRan(args[0], args[1], s0, s1, r)
      case HelpCmd => HelpRan(s0, s1, r)
      case InvalidCmd => InvalidRan(s0, s1, r)
    }

    /** `generate`: the refusal, or the fresh sequence written to the daemon's file, the daemon restarted, and the sequence answered. */
    ghost predicate GenerateRan(s0: State, s1: State, r: Reply)
    {
      var cfg := commands.cfg;
      if !PermittedIn(s0, [ManageSequences]) then r == Returned(Some(Forbidden)) && s1 == s0
      else
        && (cfg.useOpenSequence || HasExit(cfg))
        && var ports := FreshSequence(cfg, commands.host.randint, s0.draws);
        && r == Returned(Some(GenerateMessage(ports, s0.running)))
        && s1 == s0.(files := s0.files[cfg.knockdConfigFile := KnockdConf(cfg, ports)],
                     calls := s0.calls + RestartCalls(commands.host.exitCode, |s0.calls|, "knockd"),
                     draws := s0.draws + (if cfg.useOpenSequence then 0 else cfg.sequencesLength))
    }

    /** `start`: the refusal, "already running", or one `systemctl start` whose exit code decides the flag. */
    ghost predicate StartRan(s0: State, s1: State, r: Reply)
    {
      if !PermittedIn(s0, [ModifyBotBehaviour]) then r == Returned(Some(Forbidden)) && s1 == s0
      else if s0.running then r == Returned(Some("Knockd already running.")) && s1 == s0
      else
        && s1 == s0.(calls := s0.calls + [SystemctlStart("knockd")],
                     running := commands.host.exitCode(|s0.calls|) == 0)
        && r == Returned(Some(if s1.running then "Started knockd." else "Could not start knockd ; unknown error."))
    }

    /** `stop`: the refusal, "already stopped", or one `systemctl stop` whose exit code decides the flag. */
    ghost predicate StopRan(s0: State, s1: State, r: Reply)
    {
      if !PermittedIn(s0, [ModifyBotBehaviour]) then r == Returned(Some(Forbidden)) && s1 == s0
      else if !s0.running then r == Returned(Some("Knockd already stopped.")) && s1 == s0
      else
        && s1 == s0.(calls := s0.calls + [SystemctlStop("knockd")],
                     running := commands.host.exitCode(|s0.calls|) != 0)
        && r == Returned(Some(if s1.running then "Could not stop knockd ; unknown error." else "Stopped knockd."))
    }

    /** `shutdown`: the refusal, or `stop` followed by `SystemExit`. */
    ghost predicate ShutdownRan(s0: State, s1: State, r: Reply)
    {
      if !PermittedIn(s0, [ModifyBotBehaviour, AdminAccess]) then r == Returned(Some(Forbidden)) && s1 == s0
      else
        && r == RaisedSystemExit
        && s1 == if s0.running then s0.(calls := s0.calls + [SystemctlStop("knockd")],
                                         running := commands.host.exitCode(|s0.calls|) != 0)
                 else s0
    }

    /** `forget(chat_id)`: the refusal, or the chat disabled and no answer. */
    ghost predicate ForgetRan(chat: int, s0: State, s1: State, r: Reply)
    {
      if !PermittedIn(s0, [ModifyBotBehaviour]) then r == Returned(Some(Forbidden)) && s1 == s0
      else r == Returned(None) && s1 == WithChannels(s0, DisableChannel(ChannelsOf(s0), chat))
    }

    /** `list_groups_members`: the refusal, or the report of the four groups; nothing changes. */
    ghost predicate ListGroupsMembersRan(s0: State, s1: State, r: Reply)
    {
      && s1 == s0
      && r == Returned(Some(
        if PermittedIn(s0, [ModifyBotBehaviour]) then Report(PermissionsOf(s0), ValidGroups()) else Forbidden))
    }

    /** `add_perm(user, group)`: the refusal, the invalid-group answer, or the user added to the group. */
    ghost predicate AddPermRan(user: string, group: string, s0: State, s1: State, r: Reply)
    {
      if !PermittedIn(s0, [ModifyBotBehaviour, AdminAccess]) then r == Returned(Some(Forbidden)) && s1 == s0
      else if !IsGroupValid(group) then r == Returned(Some(InvalidGroupMessage(group))) && s1 == s0
      else
        && r == Returned(Some(AddedMessage(user, group)))
        && s1 == WithPermissions(s0, AddUser(PermissionsOf(s0), user, group))
    }

    /** `remove_perm(user, group)`: the refusal, the invalid-group answer, `KeyError`, or the group removed. */
    ghost predicate RemovePermRan(user: string, group: string, s0: State, s1: State, r: Reply)
    {
      if !PermittedIn(s0, [ModifyBotBehaviour, AdminAccess]) then r == Returned(Some(Forbidden)) && s1 == s0
      else if !IsGroupValid(group) then r == Returned(Some(InvalidGroupMessage(group))) && s1 == s0
      else match RemoveUser(PermissionsOf(s0), user, group)
        case None => r == RaisedKeyError(group) && s1 == s0
        case Some(t) => r == Returned(Some(RemovedMessage(user, group))) && s1 == WithPermissions(s0, t)
    }

    /** `help(commands)`: the refusal, nothing while stopped, or the documented commands; nothing changes. */
    ghost predicate HelpRan(s0: State, s1: State, r: Reply)
    {
      && s1 == s0
      && r == Returned(
        if !Admitted(commands.cfg, s0.userId) then Some(Forbidden)
        else if !s0.running then None
        else Some(HelpHeader + HelpLines(commands.doc, Listed(CommandMembers, DispatchedKeys()))))
    }

    /** `invalid`: nothing, or the refusal to a user shut out by the lists; nothing changes. */
    ghost predicate InvalidRan(s0: State, s1: State, r: Reply)
    {
      s1 == s0 && r == Returned(if Admitted(commands.cfg, s0.userId) then None else Some(Forbidden))
    }

    /**
     * The middle of `process` on `text`: a wrong number of arguments is
     * answered and changes nothing; otherwise the command word's handler
     * runs with the arguments.
     */
    ghost predicate Dispatched(text: string, chat: int, s0: State, s1: State, r: Reply)
    {
      var route := Lookup(CommandOf(text));
      match ArgumentsError(|ArgumentsOf(text)|, route.1)
      case Some(e) => r == Returned(Some(e)) && s1 == s0
      case None => Ran(route.0, ArgumentsOf(text), chat, s0, s1, r)
    }

    /**
     * `process(update)` for a message with text: the chat is registered and
     * the sender becomes the acting user, then the text is dispatched.
     */
    ghost predicate Processed(m: Message, s0: State, s1: State, r: Reply)
      requires m.text.Some?
    {
      Dispatched(m.text.value, m.chatId, Registered(s0, m.chatId, m.userId), s1, r)
    }

    /**
     * A wrong number of arguments never runs the command: the chat is
     * registered, the sender becomes the acting user, and the answer is the
     * "Too many"/"Too few" message.
     */
    lemma ProcessedWrongCount(m: Message, s0: State, s1: State, r: Reply)
      requires m.text.Some? && Processed(m, s0, s1, r)
      requires |ArgumentsOf(m.text.value)| != Lookup(CommandOf(m.text.value)).1
      ensures s1 == Registered(s0, m.chatId, m.userId)
      ensures r == Returned(ArgumentsError(|ArgumentsOf(m.text.value)|, Lookup(CommandOf(m.text.value)).1))
      ensures r.Returned? && r.message.Some? && r.message.value != ""
    {
    }

    /**
     * A sender shut out by the white- or blacklist changes nothing beyond
     * the registration every message makes, and is answered with the refusal
     * (or the argument count message, which is checked first).
     */
    lemma ShutOutSenderChangesNothing(m: Message, s0: State, s1: State, r: Reply)
      requires m.text.Some? && Processed(m, s0, s1, r)
      requires !Admitted(commands.cfg, IntToString(m.userId))
      ensures s1 == Registered(s0, m.chatId, m.userId)
      ensures var e := ArgumentsError(|ArgumentsOf(m.text.value)|, Lookup(CommandOf(m.text.value)).1);
        r == Returned(if e.Some? then e else Some(Forbidden))
    {
      var text := m.text.value;
      var s := Registered(s0, m.chatId, m.userId);
      var route := Lookup(CommandOf(text));
      if ArgumentsError(|ArgumentsOf(text)|, route.1).None? {
        forall needed: seq<string> ensures !PermittedIn(s, needed) {
        }
        match route.0
        case GenerateCmd =>
          assert GenerateRan(s, s1, r);
        case StartCmd =>
          assert StartRan(s, s1, r);
        case StopCmd =>
          assert StopRan(s, s1, r);
        case ShutdownCmd =>
          assert ShutdownRan(s, s1, r);
        case ForgetCmd =>
          assert ForgetRan(m.chatId, s, s1, r);
        case ListGroupsMembersCmd =>
          assert ListGroupsMembersRan(s, s1, r);
        case AddPermCmd =>
          assert AddPermRan(ArgumentsOf(text)[0], ArgumentsOf(text)[1], s, s1, r);
        case RemovePermCmd =>
          assert RemovePermRan(ArgumentsOf(text)[0], ArgumentsOf(text)[1], s, s1, r);
        case HelpCmd =>
          assert HelpRan(s, s1, r);
        case InvalidCmd =>
          assert InvalidRan(s, s1, r);
      }
    }

    /**
     * Every message other than `/forget` leaves its chat active on the
     * broadcast list, added at the end when it was unknown, and no other
     * chat changes.
     */
    lemma ProcessedBroadcastList(m: Message, s0: State, s1: State, r: Reply)
      requires m.text.Some? && Processed(m, s0, s1, r)
      requires Lookup(CommandOf(m.text.value)).0 != ForgetCmd
      ensures ChannelsOf(s1) == AddChannel(ChannelsOf(s0), m.chatId)
      ensures m.chatId in ChannelsOf(s1).values && ChannelsOf(s1).values[m.chatId]
      ensures m.chatId !in ChannelsOf(s0).values ==> ChannelsOf(s1).keys == ChannelsOf(s0).keys + [m.chatId]
    {
      var text := m.text.value;
      var s := Registered(s0, m.chatId, m.userId);
      var route := Lookup(CommandOf(text));
      if ArgumentsError(|ArgumentsOf(text)|, route.1).None? {
        RanKeepsChannels(route.0, ArgumentsOf(text), m.chatId, s, s1, r);
      }
    }

    /** Every handler but `forget` leaves the broadcast list's store as it found it. */
    lemma RanKeepsChannels(handler: Handler, args: seq<string>, chat: int, s0: State, s1: State, r: Reply)
      requires handler != ForgetCmd && Ran(handler, args, chat, s0, s1, r)
      ensures s1.channelsColumns == s0.channelsColumns && s1.channels == s0.channels
    {
      match handler
      case GenerateCmd =>
        assert GenerateRan(s0, s1, r);
      case StartCmd =>
        assert StartRan(s0, s1, r);
      case StopCmd =>
        assert StopRan(s0, s1, r);
      case ShutdownCmd =>
        assert ShutdownRan(s0, s1, r);
      case ListGroupsMembersCmd =>
        assert ListGroupsMembersRan(s0, s1, r);
      case AddPermCmd =>
        assert AddPermRan(args[0], args[1], s0, s1, r);
      case RemovePermCmd =>
        assert RemovePermRan(args[0], args[1], s0, s1, r);
      case HelpCmd =>
        assert HelpRan(s0, s1, r);
      case InvalidCmd =>
        assert InvalidRan(s0, s1, r);
    }

    /**
     * `/forget` run by a sender who may leaves its chat on the broadcast
     * list but inactive, answers nothing, and changes no other chat.
     */
    lemma ProcessedForget(m: Message, s0: State, s1: State, r: Reply)
      requires m.text.Some? && Processed(m, s0, s1, r)
      requires Lookup(CommandOf(m.text.value)).0 == ForgetCmd && |ArgumentsOf(m.text.value)| == 0
      requires PermittedIn(Registered(s0, m.chatId, m.userId), [ModifyBotBehaviour])
      ensures r == Returned(None)
      ensures ChannelsOf(s1) == DisableChannel(AddChannel(ChannelsOf(s0), m.chatId), m.chatId)
      ensures m.chatId in ChannelsOf(s1).values && !ChannelsOf(s1).values[m.chatId]
      ensures forall c :: c != m.chatId ==> (c in ChannelsOf(s1).values <==> c in ChannelsOf(s0).values)
      ensures forall c :: c != m.chatId && c in ChannelsOf(s0).values ==> ChannelsOf(s1).values[c] == ChannelsOf(s0).values[c]
    {
      var s := Registered(s0, m.chatId, m.userId);
      LookupArity(CommandOf(m.text.value));
      assert ForgetRan(m.chatId, s, s1, r);
    }

    /** Only `/add_perm` and `/remove_perm` change the user table. */
    lemma ProcessedKeepsUsers(m: Message, s0: State, s1: State, r: Reply)
      requires m.text.Some? && Processed(m, s0, s1, r)
      requires Lookup(CommandOf(m.text.value)).0 != AddPermCmd && Lookup(CommandOf(m.text.value)).0 != RemovePermCmd
      ensures s1.permissionsColumns == s0.permissionsColumns && s1.permissions == s0.permissions
    {
      var text := m.text.value;
      var s := Registered(s0, m.chatId, m.userId);
      var route := Lookup(CommandOf(text));
      if ArgumentsError(|ArgumentsOf(text)|, route.1).None? {
        match route.0
        case GenerateCmd =>
          assert GenerateRan(s, s1, r);
        case StartCmd =>
          assert StartRan(s, s1, r);
        case StopCmd =>
          assert StopRan(s, s1, r);
        case ShutdownCmd =>
          assert ShutdownRan(s, s1, r);
        case ForgetCmd =>
          assert ForgetRan(m.chatId, s, s1, r);
        case ListGroupsMembersCmd =>
          assert ListGroupsMembersRan(s, s1, r);
        case HelpCmd =>
          assert HelpRan(s, s1, r);
        case InvalidCmd =>
          assert InvalidRan(s, s1, r);
      }
    }

    /**
     * `/add_perm user group` run by a sender who may, with a valid group,
     * answers that the user was added, leaves the group in the user's list,
     * and changes no other user's list.
     */
    lemma ProcessedAddPerm(m: Message, s0: State, s1: State, r: Reply)
      requires m.text.Some? && Processed(m, s0, s1, r)
      requires Lookup(CommandOf(m.text.value)).0 == AddPermCmd && |ArgumentsOf(m.text.value)| == 2
      requires PermittedIn(Registered(s0, m.chatId, m.userId), [ModifyBotBehaviour, AdminAccess])
      requires IsGroupValid(ArgumentsOf(m.text.value)[1])
      ensures var user, group := ArgumentsOf(m.text.value)[0], ArgumentsOf(m.text.value)[1];
        && r == Returned(Some(AddedMessage(user, group)))
        && group in GroupsOf(PermissionsOf(s1), user)
        && forall u :: u != user ==> GroupsOf(PermissionsOf(s1), u) == GroupsOf(PermissionsOf(s0), u)
    {
      var text := m.text.value;
      var s := Registered(s0, m.chatId, m.userId);
      LookupArity(CommandOf(text));
      assert AddPermRan(ArgumentsOf(text)[0], ArgumentsOf(text)[1], s, s1, r);
      AddUserEffect(PermissionsOf(s), ArgumentsOf(text)[0], ArgumentsOf(text)[1]);
    }

    /**
     * `/remove_perm user group` run by a sender who may, with a valid group,
     * raises `KeyError` exactly when the user's list lacks the group;
     * otherwise it answers that the user was removed, the group is gone from
     * the user's list, and no other user's list changes.
     */
    lemma ProcessedRemovePerm(m: Message, s0: State, s1: State, r: Reply)
      requires m.text.Some? && Processed(m, s0, s1, r)
      requires Lookup(CommandOf(m.text.value)).0 == RemovePermCmd && |ArgumentsOf(m.text.value)| == 2
      requires PermittedIn(Registered(s0, m.chatId, m.userId), [ModifyBotBehaviour, AdminAccess])
      requires IsGroupValid(ArgumentsOf(m.text.value)[1])
      ensures var user, group := ArgumentsOf(m.text.value)[0], ArgumentsOf(m.text.value)[1];
        && (r.RaisedKeyError? <==> group !in GroupsOf(PermissionsOf(s0), user))
        && (r.RaisedKeyError? ==> r == RaisedKeyError(group) && s1 == Registered(s0, m.chatId, m.userId))
        && (!r.RaisedKeyError? ==>
              && r == Returned(Some(RemovedMessage(user, group)))
              && group !in GroupsOf(PermissionsOf(s1), user)
              && forall u :: u != user ==> GroupsOf(PermissionsOf(s1), u) == GroupsOf(PermissionsOf(s0), u))
    {
      var text := m.text.value;
      var s := Registered(s0, m.chatId, m.userId);
      LookupArity(CommandOf(text));
      assert RemovePermRan(ArgumentsOf(text)[0], ArgumentsOf(text)[1], s, s1, r);
      RemoveUserEffect(PermissionsOf(s), ArgumentsOf(text)[0], ArgumentsOf(text)[1]);
    }

    /** Only the four service commands touch the knock daemon: its calls, its flag, its file and the draws. */
    lemma ProcessedLeavesDaemon(m: Message, s0: State, s1: State, r: Reply)
      requires m.text.Some? && Processed(m, s0, s1, r)
      requires var h := Lookup(CommandOf(m.text.value)).0; h != GenerateCmd && h != StartCmd && h != StopCmd && h != ShutdownCmd
      ensures s1.calls == s0.calls && s1.running == s0.running && s1.files == s0.files && s1.draws == s0.draws
    {
      var text := m.text.value;
      var s := Registered(s0, m.chatId, m.userId);
      var route := Lookup(CommandOf(text));
      if ArgumentsError(|ArgumentsOf(text)|, route.1).None? {
        match route.0
        case ForgetCmd =>
          assert ForgetRan(m.chatId, s, s1, r);
        case ListGroupsMembersCmd =>
          assert ListGroupsMembersRan(s, s1, r);
        case AddPermCmd =>
          assert AddPermRan(ArgumentsOf(text)[0], ArgumentsOf(text)[1], s, s1, r);
        case RemovePermCmd =>
          assert RemovePermRan(ArgumentsOf(text)[0], ArgumentsOf(text)[1], s, s1, r);
        case HelpCmd =>
          assert HelpRan(s, s1, r);
        case InvalidCmd =>
          assert InvalidRan(s, s1, r);
      }
    }

    /** `PKS(bot)`: the broadcast list, then the commands, which start the knock daemon. */
    constructor (bot: Bot, cfg: Config, host: Host, doc: string -> string,
                 permissionsShelf: Shelf<string, seq<string>>, channelsShelf: Shelf<int, bool>)
      requires PermissionEngine.PersistedOk(permissionsShelf) && ChannelRegistry.PersistedOk(channelsShelf)
      modifies host`calls
      ensures Valid() && this.bot == bot && commands.cfg == cfg && commands.host == host
      ensures fresh(chan) && fresh(chan.cdb) && fresh(chan.cdb.db)
      ensures fresh(commands) && fresh(commands.permissions) && fresh(commands.permissions.pdb)
      ensures fresh(commands.permissions.pdb.db)
      ensures chan.Table() ==
        if ChannelsColumn in channelsShelf then channelsShelf[ChannelsColumn].entries else Empty()
      ensures commands.running <==> Admitted(cfg, "1") && host.exitCode(|old(host.calls)|) == 0
    {
      this.bot := bot;
      var c := new Channels(bot, channelsShelf);
      chan := c;
      commands := new Commands(cfg, host, c, doc, permissionsShelf);
    }

    /**
     * `process(update)`: register the chat, act as the sender, parse the
     * text, check the number of arguments, run the command, and reply with
     * its answer when it is a non-empty string.
     */
    method Process(m: Message) returns (r: Reply)
      requires Valid() && m.text.Some? && SafeText(commands.cfg, m.text.value)
      modifies chan.cdb.db, commands`userId, commands`running, commands.permissions.pdb.db
      modifies commands.host`draws, commands.host`files, commands.host`calls, bot
      ensures Valid() && commands.userId == IntToString(m.userId)
      ensures bot.outbox == old(bot.outbox) + Replies(m, r)
      ensures r.RaisedSystemExit? ==> Lookup(CommandOf(m.text.value)).0 == ShutdownCmd
      ensures r.RaisedKeyError? ==> Lookup(CommandOf(m.text.value)).0 == RemovePermCmd
      ensures Processed(m, old(Snapshot()), Snapshot(), r)
    {
      Register(m.chatId, m.userId);
      r := Dispatch(m.text.value, m.chatId);
      Answer(m, r);
    }

    /** The middle of `process`: parse the text, check the number of arguments, and run the command. */
    method Dispatch(text: string, chat: int) returns (r: Reply)
      requires Valid() && SafeText(commands.cfg, text)
      modifies chan.cdb.db, commands`running, commands.permissions.pdb.db
      modifies commands.host`draws, commands.host`files, commands.host`calls
      ensures Valid() && commands.userId == old(commands.userId)
      ensures r.RaisedSystemExit? ==> Lookup(CommandOf(text)).0 == ShutdownCmd
      ensures r.RaisedKeyError? ==> Lookup(CommandOf(text)).0 == RemovePermCmd
      ensures Dispatched(text, chat, old(Snapshot()), Snapshot(), r)
    {
      ghost var s0 := Snapshot();
      var command := CommandOf(text);
      var route := Lookup(command);
      var args := ArgumentsOf(text);
      var check := ArgumentsError(|args|, route.1);
      LookupArity(command);
      if check.Some? {
        r := Returned(check);
      } else if route.0 == GenerateCmd || route.0 == StartCmd || route.0 == StopCmd || route.0 == ShutdownCmd {
        r := RunServiceCommand(route.0);
        assert Ran(route.0, args, chat, s0, Snapshot(), r);
      } else {
        r := RunRecordCommand(route.0, args, chat);
      }
    }

    /** The end of `process`: `if message: send_message(chat_id, message, message_id)`. */
    method Answer(m: Message, r: Reply)
      requires Valid()
      modifies bot
      ensures Valid() && commands.userId == old(commands.userId)
      ensures bot.outbox == old(bot.outbox) + Replies(m, r)
    {
      if r.Returned? && r.message.Some? && r.message.value != "" {
        bot.SendMessage(m.chatId, r.message.value, Some(m.messageId));
      }
    }

    /** The start of `process`: the chat joins the broadcast list and the sender becomes the current user. */
    method Register(chat: int, user: int)
      requires Valid()
      modifies chan.cdb.db, commands`userId
      ensures Valid() && commands.userId == IntToString(user)
      ensures Snapshot() == Registered(old(Snapshot()), chat, user)
    {
      chan.Add(chat);
      commands.userId := IntToString(user);
    }

    /** `(func)()` for the commands that drive the knock daemon. */
    method RunServiceCommand(handler: Handler) returns (r: Reply)
      requires Valid()
      requires handler == GenerateCmd || handler == StartCmd || handler == StopCmd || handler == ShutdownCmd
      requires handler == GenerateCmd && !commands.cfg.useOpenSequence ==> HasExit(commands.cfg)
      modifies commands`running, commands.host`draws, commands.host`files, commands.host`calls
      ensures Valid() && commands.userId == old(commands.userId)
      ensures r.RaisedSystemExit? ==> handler == ShutdownCmd
      ensures !r.RaisedKeyError?
      ensures Ran(handler, [], 0, old(Snapshot()), Snapshot(), r)
    {
      match handler
      case GenerateCmd => r := RunGenerate();
      case StartCmd => r := RunStart();
      case StopCmd => r := RunStop();
      case ShutdownCmd => r := RunShutdown();
    }

    /** `generate()` as the dispatcher runs it. */
    method RunGenerate() returns (r: Reply)
      requires Valid() && (commands.cfg.useOpenSequence || HasExit(commands.cfg))
      modifies commands.host`draws, commands.host`files, commands.host`calls
      ensures Valid() && commands.userId == old(commands.userId)
      ensures r.Returned?
      ensures GenerateRan(old(Snapshot()), Snapshot(), r)
    {
      var s := commands.Generate();
      r := Returned(Some(s));
    }

    /** `start()` as the dispatcher runs it. */
    method RunStart() returns (r: Reply)
      requires Valid()
      modifies commands`running, commands.host`calls
      ensures Valid() && commands.userId == old(commands.userId)
      ensures r.Returned?
      ensures StartRan(old(Snapshot()), Snapshot(), r)
    {
      var s := commands.Start();
      r := Returned(Some(s));
    }

    /** `stop()` as the dispatcher runs it. */
    method RunStop() returns (r: Reply)
      requires Valid()
      modifies commands`running, commands.host`calls
      ensures Valid() && commands.userId == old(commands.userId)
      ensures r.Returned?
      ensures StopRan(old(Snapshot()), Snapshot(), r)
    {
      var s := commands.Stop();
      r := Returned(Some(s));
    }

    /** `shutdown()` as the dispatcher runs it. */
    method RunShutdown() returns (r: Reply)
      requires Valid()
      modifies commands`running, commands.host`calls
      ensures Valid() && commands.userId == old(commands.userId)
      ensures !r.RaisedKeyError?
      ensures ShutdownRan(old(Snapshot()), Snapshot(), r)
    {
      r := commands.Shutdown();
    }

    /**
     * `(func)(*args)` for the commands that read or change the permissions
     * and the broadcast list, with the chat id or the command list bound in
     * front of the arguments.
     */
    method RunRecordCommand(handler: Handler, args: seq<string>, chat: int) returns (r: Reply)
      requires Valid()
      requires handler !in {GenerateCmd, StartCmd, StopCmd, ShutdownCmd}
      requires handler == AddPermCmd || handler == RemovePermCmd ==> |args| == 2
      modifies chan.cdb.db, commands.permissions.pdb.db
      ensures Valid() && commands.userId == old(commands.userId)
      ensures !r.RaisedSystemExit?
      ensures r.RaisedKeyError? ==> handler == RemovePermCmd
      ensures chan.cdb.db.columns == old(chan.cdb.db.columns)
      ensures commands.permissions.pdb.db.columns == old(commands.permissions.pdb.db.columns)
      ensures Ran(handler, args, chat, old(Snapshot()), Snapshot(), r)
    {
      match handler
      case ForgetCmd => r := RunForget(chat);
      case ListGroupsMembersCmd => r := RunListGroupsMembers();
      case AddPermCmd => r := RunAddPerm(args[0], args[1]);
      case RemovePermCmd => r := RunRemovePerm(args[0], args[1]);
      case HelpCmd => r := RunHelp();
      case InvalidCmd => r := RunInvalid();
    }

    /** `forget(chat_id)` as the dispatcher runs it, with the chat id bound. */
    method RunForget(chat: int) returns (r: Reply)
      requires Valid()
      modifies chan.cdb.db
      ensures Valid() && commands.userId == old(commands.userId)
      ensures r.Returned? && chan.cdb.db.columns == old(chan.cdb.db.columns)
      ensures ForgetRan(chat, old(Snapshot()), Snapshot(), r)
    {
      var o := commands.Forget(chat);
      r := Returned(o);
    }

    /** `list_groups_members()` as the dispatcher runs it. */
    method RunListGroupsMembers() returns (r: Reply)
      requires Valid()
      ensures r.Returned?
      ensures ListGroupsMembersRan(Snapshot(), Snapshot(), r)
    {
      var s := commands.ListGroupsMembers();
      r := Returned(Some(s));
    }

    /** `add_perm(user, group)` as the dispatcher runs it. */
    method RunAddPerm(user: string, group: string) returns (r: Reply)
      requires Valid()
      modifies commands.permissions.pdb.db
      ensures Valid() && commands.userId == old(commands.userId)
      ensures r.Returned?
      ensures AddPermRan(user, group, old(Snapshot()), Snapshot(), r)
    {
      var s := commands.AddPerm(user, group);
      r := Returned(Some(s));
    }

    /** `remove_perm(user, group)` as the dispatcher runs it. */
    method RunRemovePerm(user: string, group: string) returns (r: Reply)
      requires Valid()
      modifies commands.permissions.pdb.db
      ensures Valid() && commands.userId == old(commands.userId)
      ensures !r.RaisedSystemExit?
      ensures RemovePermRan(user, group, old(Snapshot()), Snapshot(), r)
    {
      r := commands.RemovePerm(user, group);
    }

    /** `help(commands)` as the dispatcher runs it, with the command list bound. */
    method RunHelp() returns (r: Reply)
      requires Valid()
      ensures r.Returned?
      ensures HelpRan(Snapshot(), Snapshot(), r)
    {
      var o := commands.Help(DispatchedKeys());
      r := Returned(o);
    }

    /** `invalid()` as the dispatcher runs it. */
    method RunInvalid() returns (r: Reply)
      requires Valid()
      ensures r.Returned?
      ensures InvalidRan(Snapshot(), Snapshot(), r)
    {
      var o := commands.Invalid();
      r := Returned(o);
    }

    /** The body of `main`'s inner loop for one update: process it if it is eligible, else skip it. */
    method HandleUpdate(u: Update, now: int) returns (r: Option<Reply>)
      requires Valid()
      requires Eligible(commands.cfg, u, now) ==> SafeText(commands.cfg, u.message.value.text.value)
      modifies chan.cdb.db, commands`userId, commands`running, commands.permissions.pdb.db
      modifies commands.host`draws, commands.host`files, commands.host`calls, bot
      ensures Valid()
      ensures r.Some? <==> Eligible(commands.cfg, u, now)
      ensures r.Some? && r.value.RaisedKeyError? ==>
        Lookup(CommandOf(u.message.value.text.value)).0 == RemovePermCmd
      ensures r.Some? && r.value.RaisedSystemExit? ==>
        Lookup(CommandOf(u.message.value.text.value)).0 == ShutdownCmd
      ensures r.None? ==> Snapshot() == old(Snapshot()) && bot.outbox == old(bot.outbox)
      ensures r.Some? ==> Processed(u.message.value, old(Snapshot()), Snapshot(), r.value)
      ensures r.Some? ==> bot.outbox == old(bot.outbox) + Replies(u.message.value, r.value)
    {
      if Eligible(commands.cfg, u, now) {
        var reply := Process(u.message.value);
        r := Some(reply);
      } else {
        r := None;
      }
    }

    /**
     * One pass of `main` over a batch from `get_updates(offset)`: each eligible
     * update is processed, and the offset moves past every update gone
     * through. `SystemExit` ends the pass; a `KeyError` escapes it.
     * `clock[i]` is what `time.time()` reads when update `i` is examined.
     */
    method HandleUpdates(updates: seq<Update>, offset: int, clock: seq<int>) returns (next: int, handled: nat, end: BatchEnd)
      requires Valid() && |clock| == |updates|
      requires forall i :: 0 <= i < |updates| && Eligible(commands.cfg, updates[i], clock[i]) ==>
        SafeText(commands.cfg, updates[i].message.value.text.value)
      modifies chan.cdb.db, commands`userId, commands`running, commands.permissions.pdb.db
      modifies commands.host`draws, commands.host`files, commands.host`calls, bot
      ensures Valid()
      ensures handled <= |updates| && next == OffsetAfter(updates[..handled], offset)
      ensures end.Completed? <==> handled == |updates|
      ensures !end.Completed? ==> Eligible(commands.cfg, updates[handled], clock[handled])
      ensures end.CrashedByKeyError? ==>
        Lookup(CommandOf(updates[handled].message.value.text.value)).0 == RemovePermCmd
      ensures end.ExitedBySystemExit? ==>
        Lookup(CommandOf(updates[handled].message.value.text.value)).0 == ShutdownCmd
      ensures (forall i :: 0 <= i < |updates| ==> !Eligible(commands.cfg, updates[i], clock[i])) ==> end.Completed?
    {
      next := offset;
      handled := 0;
      end := Completed;
      while handled < |updates|
        invariant handled <= |updates| && Valid()
        invariant handled == 0 ==> next == offset
        invariant handled > 0 ==> next == updates[handled - 1].updateId + 1
      {
        OffsetAfterPrefix(updates, handled, offset);
        var u := updates[handled];
        var r := HandleUpdate(u, clock[handled]);
        if r.Some? && r.value.RaisedSystemExit? {
          return next, handled, ExitedBySystemExit;
        }
        if r.Some? && r.value.RaisedKeyError? {
          return next, handled, CrashedByKeyError(r.value.key);
        }
        next := u.updateId + 1;
        handled := handled + 1;
        assert updates[handled - 1] == u;
      }
      OffsetAfterPrefix(updates, handled, offset);
    }
  }
}
