# Port-knocking server (Telegram bot), modelled in Dafny

This project models the server side of a dynamic port-knocking system. A
Telegram bot lets authorised users run commands. The commands:

- generate a new knock sequence of ports;
- write it into the `knockd` configuration and restart the daemon;
- start and stop the daemon;
- manage who belongs to which permission group;
- manage which chats receive broadcasts.

The model covers the package `Server/pks`:

| Dafny module | source | what it holds |
|---|---|---|
| `Storage` (storage.dfy) | `database.py` | `Database`: a shelf of named columns; every mutation copies a column, changes the copy and writes it back |
| `PermissionEngine` (permissions.dfy) | `permissions.py` | the group table, the allow/deny decision, `Permissions` and `PermissionsDatabase` |
| `ChannelRegistry` (channels.dfy) | `channels.py` | the broadcast list: chat id to active flag; `Channels` and `ChannelsDatabase` |
| `Utils` (utils.dfy) | `utils.py` | `systemctl` wrappers and the port filter `filter_port_list` |
| `Core` (core.dfy) | `core.py` | sequence generation, the `knockd` configuration template, `set_open_sequence` |
| `CommandHandlers` (commands.dfy) | `commands.py` | the permission guard and every handler of `Commands` |
| `Dispatcher` (dispatcher.dfy) | `__init__.py` | `PKS`: the command table, parsing, argument checking, replies and one pass of `main` |

Supporting modules:

- `Wrappers`: `Option`.
- `PyStrings`: `str.split`, `str.join`, `str.startswith` and `str(int)`, each with the operation that undoes it.
- `OrderedDict`: a Python `dict` with its insertion order. The order matters: it decides the order of broadcast sends and of the member lists in replies.
- `Configuration`: the fields of the `Config` class, as constants.
- `Environment`: the outside world. `Host` stands for the `systemctl` exit codes, `randint`, `sha256` and the file system. `Bot` is the Telegram outbox.

Stateful code is modelled with classes whose methods change fields, in the
same places where the source mutates objects. Those methods are proved
against specification functions, such as `AddUser`, `RemoveUser`,
`AddChannel`, `FilterPorts`, `KnockdConf` and `Report`. The properties of the
system are proved as lemmas about those functions.

Four behaviours of the code are easy to miss, and the model keeps each
of them:

- `restart_service` does not start the service when stopping it failed, because the `and` short-circuits.
- `remove_user_from_group` raises `KeyError` when the user is not in the group.
- `/status` is not in the dispatch table, so it answers like any unknown command.
- `Database.update` inserts a key that is missing.

## Model

| member | source | states |
|---|---|---|
| Storage.EmptyColumn | Server/pks/database.py:30-35 | the empty container is a dict, list or tuple exactly as the declared kind says, and holds nothing |
| Storage.OpenedKeepsExisting | Server/pks/database.py:11-13 | opening the store keeps the content of every column that was already persisted |
| Storage.OpenedKeys | Server/pks/database.py:11-13 | after opening, the columns are exactly the persisted ones plus the schema's |
| Storage.OpenedCreatesMissing | Server/pks/database.py:11-13 | a schema column that was missing is created as an empty container of its declared kind |
| Storage.OpenedNoop | Server/pks/database.py:11-14 | opening a store that has every schema column changes nothing |
| Storage.ReopenIsIdentity | Server/pks/database.py:6-14 | reopening the store after a restart finds it exactly as the first opening left it |
| Storage.Database.constructor | Server/pks/database.py:6-14 | `db_columns` is the schema's names, in order; the shelf is the persisted one with the missing columns created, so every name in `db_columns` exists |
| Storage.Database.InsertNewColumn | Server/pks/database.py:28-39 | a non-container type gives `TypeError` with its exact message and no change; a container type adds an empty column, which then exists, and appends its name to `db_columns` |
| Storage.Database.ColumnExists | Server/pks/database.py:41-43 | holds for every dict column, so `key_exists`, `update` and `query`, whose commented checks ask for an existing column, are only used on one; every schema column exists after opening (constructor) and a new column after `insert_new_column` |
| Storage.Database.QueryColumn | Server/pks/database.py:74-76 | the stored column; for a dict column its keys are exactly those `key_exists` accepts, in stored order |
| Storage.Database.Query | Server/pks/database.py:78-82 | `query_column(column)[key]`: the key is in the queried column and the value is the one stored under it |
| Storage.Database.KeyExists | Server/pks/database.py:45-49 | true exactly when the key is one of the dict's keys |
| Storage.Database.InsertDict | Server/pks/database.py:51-57 | the column becomes the merge of the old dict and the pair; no other column changes |
| Storage.Database.InsertList | Server/pks/database.py:59-64 | exactly one value is appended at the end of the list; no other column changes |
| Storage.Database.Update | Server/pks/database.py:66-72 | the key is set, or inserted when missing; no other column changes; a query of the key afterwards gives the value |
| OrderedDict.Put | Server/pks/database.py:70 | `d[k] = v`: `k` maps to `v`, other keys keep their values, and a new key goes at the end of the order |
| OrderedDict.PutPut | Server/pks/database.py:70 | setting a key twice is the same as setting it to the second value |
| OrderedDict.PutSame | Server/pks/database.py:70 | setting a key to the value it already has changes nothing |
| OrderedDict.Merge | Server/pks/database.py:55 | `dict.update`: the pair's keys take its values, the other keys keep theirs, and the old order is a prefix of the new one |
| OrderedDict.MergeSingleton | Server/pks/permissions.py:169 | updating with a one-entry dict is setting that key |
| OrderedDict.Select | Server/pks/channels.py:28 | the comprehension keeps exactly the keys whose value passes the test |
| OrderedDict.SelectDistinct | Server/pks/permissions.py:44-48 | selecting from distinct keys gives distinct keys |
| PyStrings.Split | Server/pks/__init__.py:104 | `split` gives at least one piece, and no piece holds the separator |
| PyStrings.JoinAvoids | Server/pks/commands.py:131 | a join holds a character only if a piece or the separator does |
| PyStrings.SplitNoSeparator | Server/pks/__init__.py:106 | text without the separator splits into itself |
| PyStrings.SplitAtSeparator | Server/pks/__init__.py:106 | text up to the first separator is the first piece |
| PyStrings.SplitJoin | Server/pks/__init__.py:104 | splitting a join of separator-free pieces gives the pieces back |
| PyStrings.JoinSplit | Server/pks/__init__.py:104 | joining the pieces of a split gives the text back |
| PyStrings.NatToString | Server/pks/core.py:69 | `str(n)` is non-empty, all digits, with no leading zero |
| PyStrings.IntToString | Server/pks/commands.py:18 | `str(i)` is non-empty, all digits, after an optional leading minus sign |
| PyStrings.ParseNatToString | Server/pks/core.py:69 | reading the digits of `str(n)` gives `n` back |
| PyStrings.ParseIntToString | Server/pks/commands.py:59 | reading `str(i)` gives `i` back |
| PyStrings.IntToStringInjective | Server/pks/permissions.py:32 | different integer ids give different strings |
| PermissionEngine.ValidGroups | Server/pks/permissions.py:51-53 | the valid groups are exactly guest, member, manager, admin, in this order |
| PermissionEngine.GrantedMembership | Server/pks/permissions.py:86-92 | the grants of the first `n` groups hold `p` exactly when one of those groups is in the user's list and grants `p` |
| PermissionEngine.GroupsPermissionsMembership | Server/pks/permissions.py:81-93 | a user's permissions start with "none" and hold `p` exactly when `p` is "none" or one of the user's groups grants it |
| PermissionEngine.NoGroupsOnlyNone | Server/pks/permissions.py:81-93 | an unknown user, or one in no valid group, has exactly `["none"]` |
| PermissionEngine.AdminHoldsEverything | Server/pks/permissions.py:8-20 | membership of admin grants every permission of `permission_sets` |
| PermissionEngine.AdminIsAllowed | Server/pks/permissions.py:104-121 | an admitted admin is allowed any request built from the three permissions and "none" |
| PermissionEngine.NoGroupsAllowedOnlyNone | Server/pks/permissions.py:104-121 | a user in no group is allowed exactly what needs nothing but "none", and only if admitted by the lists |
| PermissionEngine.NoneNeedsOnlyAdmission | Server/pks/permissions.py:104-121 | a request needing only "none" is decided by the whitelist and the blacklist alone |
| PermissionEngine.AllowedFewer | Server/pks/permissions.py:118 | needing fewer permissions is allowed whenever needing more is |
| PermissionEngine.Dedup | Server/pks/permissions.py:185 | `list(dict.fromkeys(s))` has no duplicates and the same elements as `s`, in first-occurrence order (`DedupKeepsFirstOrder`) |
| PermissionEngine.DedupKeepsFirstOrder | Server/pks/permissions.py:185 | the elements come out in the order of their first occurrences in `s` |
| PermissionEngine.DedupOfDistinct | Server/pks/permissions.py:185 | a list without duplicates comes out unchanged, order included |
| PermissionEngine.WithGroupAppends | Server/pks/permissions.py:181-187 | adding a group to a duplicate-free list keeps the list, and appends the group if it is new |
| PermissionEngine.WithGroupIdempotent | Server/pks/permissions.py:181-187 | adding the same group twice is adding it once |
| PermissionEngine.Without | Server/pks/permissions.py:199-201 | the list without the item holds exactly the other elements |
| PermissionEngine.WithoutAbsent | Server/pks/permissions.py:199-201 | removing an absent item changes nothing |
| PermissionEngine.WithoutCutsOut | Server/pks/permissions.py:199-201 | in a duplicate-free list, removal cuts the item out and keeps the others in order |
| PermissionEngine.WithoutKeepsDistinct | Server/pks/permissions.py:199-201 | removal keeps a list free of duplicates |
| PermissionEngine.WithoutGroup | Server/pks/permissions.py:197-202 | removal fails, as `dict.pop` raises `KeyError`, exactly when the group is missing; otherwise the result has no duplicates and holds every other group |
| PermissionEngine.AddThenRemove | Server/pks/permissions.py:181-202 | removing a group just added to a duplicate-free list without it gives the list back |
| PermissionEngine.AddUserEffect | Server/pks/permissions.py:64-72 | an invalid group changes nothing; otherwise the user exists afterwards with the group in a duplicate-free list that keeps the old groups; no other user changes |
| PermissionEngine.AddUserIdempotent | Server/pks/permissions.py:64-72 | adding a user to a group twice is adding once |
| PermissionEngine.RemoveUserEffect | Server/pks/permissions.py:74-79 | an invalid group changes nothing; for a valid one `KeyError` happens exactly when the user lacks the group; otherwise only that group goes, and no other user changes |
| PermissionEngine.AddThenRemoveUser | Server/pks/permissions.py:64-79 | removing a group just given to a user restores the user's list |
| PermissionEngine.Members | Server/pks/permissions.py:40-49 | the members are exactly the users whose list holds the group; none for an invalid group |
| PermissionEngine.MembersAfterChange | Server/pks/permissions.py:40-79 | an added user is listed among the group's members and a removed one is not; other users' membership is unchanged |
| PermissionEngine.BootstrapAdmins | Server/pks/permissions.py:28-34 | the accounts made admin are "1", then `str(admin)` for each configured admin, in order |
| PermissionEngine.AddAdminNoop | Server/pks/permissions.py:181-187 | a user already in admin, with a duplicate-free list, is not changed by being made admin again |
| PermissionEngine.AddAdminsEstablishes | Server/pks/permissions.py:28-34 | afterwards every listed account is in admin with a duplicate-free list; other accounts are untouched |
| PermissionEngine.AddAdminsNoop | Server/pks/permissions.py:28-34 | when every listed account is already admin, bootstrapping changes nothing |
| PermissionEngine.AddAdminsIdempotent | Server/pks/permissions.py:28-34 | bootstrapping the admins again, as every restart does, changes nothing |
| PermissionEngine.PermissionsDatabase.constructor | Server/pks/permissions.py:140-146 | the store is `db/permissions.db` with its one column "permissions", persisted content kept |
| PermissionEngine.PermissionsDatabase.ListGroups | Server/pks/permissions.py:148-160 | the stored list of a known user, `[]` for an unknown one |
| PermissionEngine.PermissionsDatabase.CreateUser | Server/pks/permissions.py:162-169 | the user is set to an empty list, whether or not it existed |
| PermissionEngine.PermissionsDatabase.AddUserToGroup | Server/pks/permissions.py:171-187 | the user's list becomes the old list plus the group, duplicates dropped |
| PermissionEngine.PermissionsDatabase.RemoveUserFromGroup | Server/pks/permissions.py:189-202 | `KeyError` with nothing changed when the group is not in the list; otherwise the list without the group is written back |
| PermissionEngine.Permissions.constructor | Server/pks/permissions.py:22-23 | the user table is the persisted one, or empty |
| PermissionEngine.Permissions.UserExists | Server/pks/permissions.py:36-38 | true exactly when the user has an entry in the table; a user without one is in no group |
| PermissionEngine.Permissions.CreateUser | Server/pks/permissions.py:59-62 | only a user not yet stored is created, with no groups; afterwards the user exists and their groups are as before |
| PermissionEngine.Permissions.AddUserToGroup | Server/pks/permissions.py:64-72 | the table becomes `AddUser(old table, user, group)` |
| PermissionEngine.Permissions.RemoveUserFromGroup | Server/pks/permissions.py:74-79 | `KeyError` exactly when `RemoveUser` fails, with nothing changed; otherwise the table becomes `RemoveUser`'s result |
| PermissionEngine.Permissions.SetTelegramAdmins | Server/pks/permissions.py:28-34 | the table becomes the old one with "1" and every configured admin added to admin, in turn |
| PermissionEngine.Permissions.GetGroupMembers | Server/pks/permissions.py:40-49 | the members of the group, in table order, without duplicates |
| PermissionEngine.Permissions.GetGroupsPermissions | Server/pks/permissions.py:81-93 | "none", then the grants of the user's groups in table order |
| PermissionEngine.Permissions.IsUserAllowed | Server/pks/permissions.py:95-121 | true exactly when the lists admit the user and every needed permission is held |
| ChannelRegistry.ActiveChannels | Server/pks/channels.py:26-28 | exactly the chats whose flag is true, without duplicates |
| ChannelRegistry.AllChannels | Server/pks/channels.py:30-31 | exactly the registered chats, without duplicates |
| ChannelRegistry.AddChannelEffect | Server/pks/channels.py:11-15 | after `add` the chat is active; others keep their flag; a known chat keeps its place, a new one is appended |
| ChannelRegistry.DisableChannelEffect | Server/pks/channels.py:17-19 | after `disable` the chat is inactive but still registered; no chat is created and no other chat changes |
| ChannelRegistry.AddDisableAdd | Server/pks/channels.py:11-19 | `add`, `disable`, `add` leaves the registry as one `add` does |
| ChannelRegistry.AddChannelIdempotent | Server/pks/channels.py:11-15 | adding a chat twice is adding it once |
| ChannelRegistry.BroadcastMessages | Server/pks/channels.py:21-24 | one message per active chat, in order, with the same text and no reply target |
| ChannelRegistry.ChannelsDatabase.constructor | Server/pks/channels.py:35-41 | the store is `db/channels.db` with its one column "channels", persisted content kept |
| ChannelRegistry.ChannelsDatabase.ChannelExists | Server/pks/channels.py:43-44 | true exactly when the chat is registered |
| ChannelRegistry.ChannelsDatabase.SetActive | Server/pks/channels.py:46-47 | the chat's flag becomes true |
| ChannelRegistry.ChannelsDatabase.Add | Server/pks/channels.py:49-50 | the chat is inserted with flag true |
| ChannelRegistry.ChannelsDatabase.Disable | Server/pks/channels.py:52-54 | the chat's flag becomes false |
| ChannelRegistry.Channels.constructor | Server/pks/channels.py:7-9 | the registry is the persisted one, or empty |
| ChannelRegistry.Channels.Add | Server/pks/channels.py:11-15 | the registry becomes `AddChannel(old registry, chat)` |
| ChannelRegistry.Channels.Disable | Server/pks/channels.py:17-19 | the registry becomes `DisableChannel(old registry, chat)` |
| ChannelRegistry.Channels.ListActiveChannels | Server/pks/channels.py:26-28 | the comprehension gives `ActiveChannels` of the registry |
| ChannelRegistry.Channels.ListAllChannels | Server/pks/channels.py:30-31 | the comprehension gives `AllChannels` of the registry |
| ChannelRegistry.Channels.Broadcast | Server/pks/channels.py:21-24 | the outbox grows by exactly one send per active chat, in order; the registry is unchanged |
| Environment.Host.Systemctl | Server/pks/utils.py:15 | the invocation is recorded, and its exit code is the next one from the exit-code source |
| Environment.Host.RandInt | Server/pks/core.py:35-39 | the next draw, which lies within the bounds |
| Environment.Host.WriteFile | Server/pks/core.py:75-76 | the file holds exactly the text written |
| Environment.Bot.SendMessage | Server/pks/__init__.py:127 | exactly one message is appended to the outbox |
| Utils.StartService | Server/pks/utils.py:13-21 | one `systemctl start`; true exactly when it exits with 0 |
| Utils.StopService | Server/pks/utils.py:24-32 | one `systemctl stop`; true exactly when it exits with 0 |
| Utils.RestartCalls | Server/pks/utils.py:37-40 | a restart always stops, and starts only when the stop exited with 0 |
| Utils.RestartService | Server/pks/utils.py:35-40 | true exactly when the stop and then the start both exit with 0; the start is skipped after a failed stop |
| Utils.StepDecreases | Server/pks/utils.py:62-65 | a probe step from a port that may not be used moves closer to an acceptable port |
| Utils.FilterPort | Server/pks/utils.py:62-66 | the probe ends on a port that is in range and not blacklisted; an acceptable port is kept |
| Utils.FilterPorts | Server/pks/utils.py:61-66 | same length; each element is filtered on its own |
| Utils.FilterPortsAcceptable | Server/pks/utils.py:61-66 | every filtered port is acceptable, and acceptable inputs are unchanged |
| Utils.FilterPortIsNextAcceptable | Server/pks/utils.py:62-66 | without wrap-around the probe stops at the first acceptable port at or above the input |
| Utils.FilterPortExample | Server/pks/utils.py:62-66 | with range 1000..1010 and blacklist {1005, 1006}, port 1005 becomes 1007 |
| Utils.WrapSkipsFirst | Server/pks/utils.py:63-65 | stepping past the last port lands on the first port plus one, never on the first port itself |
| Utils.TwoPortRangeStuck | Server/pks/utils.py:62-65 | with a two-port range, some ports above the range step to themselves, so the loop would never end |
| Utils.TerminatesIsNotNecessary | Server/pks/utils.py:62-65 | two configurations where `Terminates` fails yet the probe stops: range `[5, 6]` wraps 11 onto 5, and range `[1000, 1002]` with 1001 and 1002 blacklisted keeps 1000 and steps 999 onto it |
| Utils.FilterPortList | Server/pks/utils.py:56-67 | the array is rewritten in place to `FilterPorts` of its old content, every element acceptable |
| Core.ReadRenderPorts | Server/pks/core.py:69 | reading the rendered `", "`-joined ports gives the ports back |
| Core.RenderPortsInjective | Server/pks/core.py:69 | different sequences render differently |
| Core.RenderPortsChars | Server/pks/core.py:69 | the rendering holds only digits, minus signs, commas and blanks |
| Core.KnockdConfShape | Server/pks/core.py:54-72 | the configuration has 13 lines; the interface is `any`; the sequence line reads back as the ports; both iptables commands open `target_port` |
| Core.KnockdConfInjective | Server/pks/core.py:54-72 | different sequences give different configurations |
| Core.KnockdConfIgnoresInterface | Server/pks/core.py:68-72 | `network_interface` has no effect on the configuration |
| Core.SeededCandidates | Server/pks/core.py:24-32 | one candidate per index, a function of the seed and index alone |
| Core.RandomCandidates | Server/pks/core.py:34-40 | one draw per index, each within the acceptable range |
| Core.GenerateNewSequence | Server/pks/core.py:14-44 | exactly `num` acceptable ports; with a truthy seed, the filtered hashes and no draws; otherwise the filtered next `num` draws |
| Core.ConfigureKnockd | Server/pks/core.py:52-76 | the configuration file holds the rendered template for the ports |
| Core.SetOpenSequence | Server/pks/core.py:46-49 | the configuration is written, then the daemon is restarted; the restart's result is dropped |
| CommandHandlers.GenerateWarnsIffStopped | Server/pks/commands.py:86-89 | the answer ends with the stopped warning exactly when the bot is stopped |
| CommandHandlers.GenerateMessageReadsBack | Server/pks/commands.py:86-89 | the answer starts with "New sequence: " and the sequence reads back from it |
| CommandHandlers.GenerateMessageInjective | Server/pks/commands.py:86-89 | the answer determines both the sequence and whether the bot is running |
| CommandHandlers.FreshSequence | Server/pks/commands.py:80-83 | the open sequence when it is configured; otherwise `sequences_length` acceptable ports |
| CommandHandlers.ReportSnoc | Server/pks/commands.py:129-132 | each group of the loop appends its own line to the answer |
| CommandHandlers.ReportSplit | Server/pks/commands.py:129-132 | split at line breaks, the answer gives each group's line, then an empty rest |
| CommandHandlers.MembersReportLines | Server/pks/commands.py:126-132 | the answer has exactly four lines: guest, member, manager, admin, each with its members |
| CommandHandlers.FourLines | Server/pks/commands.py:129-132 | the report of any four one-line groups splits into exactly their four lines and an empty rest |
| CommandHandlers.Listed | Server/pks/commands.py:51-53 | the documented names are exactly the class functions whose `/name` is whitelisted |
| CommandHandlers.HelpLinesSnoc | Server/pks/commands.py:51-54 | each name adds its line exactly when its command is whitelisted |
| CommandHandlers.HelpText | Server/pks/commands.py:51-54 | the loop writes one line per documented name, in name order |
| CommandHandlers.Commands.constructor | Server/pks/commands.py:29-35 | acting as "1", the admins are bootstrapped, then `start` runs; the daemon is started only when "1" passes the lists, and the bot runs only if that start succeeded |
| CommandHandlers.Commands.Bootstrap | Server/pks/commands.py:33-35 | the table gains the bootstrapped admins, and `start` as "1" runs the daemon exactly when "1" is admitted |
| CommandHandlers.Commands.Guard | Server/pks/commands.py:13-24 | the decorator lets the handler run exactly when `str(user_id)` is allowed the permissions |
| CommandHandlers.Commands.Invalid | Server/pks/commands.py:41-44 | no answer for an admitted user, the refusal otherwise |
| CommandHandlers.Commands.Help | Server/pks/commands.py:46-55 | the refusal for a user shut out by the lists; nothing while stopped; otherwise the header and one line per documented whitelisted command |
| CommandHandlers.Commands.TargetPort | Server/pks/commands.py:57-59 | the refusal, or the target port as text that reads back as it |
| CommandHandlers.Commands.Status | Server/pks/commands.py:91-94 | "Running" exactly when running, "Stopped" exactly when not |
| CommandHandlers.Commands.Start | Server/pks/commands.py:134-143 | refused, or already running with no change, or one start call with running set exactly when it succeeded, each with its exact answer |
| CommandHandlers.Commands.Stop | Server/pks/commands.py:145-154 | the mirror of `start` with its three answers |
| CommandHandlers.Commands.Shutdown | Server/pks/commands.py:156-160 | refused with no change; otherwise `stop` runs and `SystemExit` follows every time |
| CommandHandlers.Commands.AddPerm | Server/pks/commands.py:61-67 | refused or invalid group: the exact answer and no change; otherwise the table becomes `AddUser` and the confirmation is returned |
| CommandHandlers.Commands.RemovePerm | Server/pks/commands.py:69-75 | refused or invalid group: the exact answer and no change; otherwise `KeyError` with no change, or the table becomes `RemoveUser`'s result with the confirmation |
| CommandHandlers.Commands.Generate | Server/pks/commands.py:77-89 | refused with no effect; otherwise the fresh sequence is written into the configuration, the daemon is restarted, and the answer is `GenerateMessage` |
| CommandHandlers.Commands.Forget | Server/pks/commands.py:121-124 | refused with no change; otherwise the chat is disabled and nothing is answered |
| CommandHandlers.Commands.ListGroupsMembers | Server/pks/commands.py:126-132 | refused, or the report of every valid group with its members |
| CommandHandlers.Commands.GroupsReport | Server/pks/commands.py:129-132 | the text the loop builds is the report of the given groups, one line each with the members read from the table |
| Dispatcher.FindEntry | Server/pks/__init__.py:107-110 | a table with distinct keys finds each key's own row, and `invalid` with no arguments for any other word |
| Dispatcher.LookupTable | Server/pks/__init__.py:38-58 | each command word runs its own handler with its own arity; every other word runs `invalid` with none |
| Dispatcher.FindIsRow | Server/pks/__init__.py:107-110 | whatever the lookup finds is a row of the table, or `invalid` with no arguments |
| Dispatcher.LookupArity | Server/pks/__init__.py:38-58 | `/add_perm` and `/remove_perm` take two arguments; every other command, `invalid` included, takes none |
| Dispatcher.HelpOmitsItself | Server/pks/__init__.py:56-58 | `/help` is given the keys without its own, so it never documents itself |
| Dispatcher.Words | Server/pks/__init__.py:104 | a text always has at least one word |
| Dispatcher.ParseCommandLine | Server/pks/__init__.py:104-118 | a command word and blank-free arguments, joined by blanks, parse back into themselves |
| Dispatcher.DoubledBlankCounts | Server/pks/__init__.py:104-118 | two blanks in a row give an empty argument, which is counted |
| Dispatcher.AddressedCommand | Server/pks/__init__.py:106 | `/cmd@botname` is the command `/cmd` |
| Dispatcher.ArgumentsError | Server/pks/__init__.py:80-87 | no message exactly when the counts match; otherwise the exact "Too many" or "Too few" message |
| Dispatcher.OffsetAfterPrefix | Server/pks/__init__.py:151-152 | after `n` updates the offset is one past the `n`-th update's id |
| Dispatcher.PKS.constructor | Server/pks/__init__.py:27-30 | the broadcast list is opened, then the commands, which start the daemon |
| Dispatcher.WithChannels | Server/pks/channels.py:11-19 | the broadcast list written into a state reads back as written, and the user table is untouched |
| Dispatcher.WithPermissions | Server/pks/permissions.py:64-79 | the user table written into a state reads back as written, and the broadcast list is untouched |
| Dispatcher.Registered | Server/pks/__init__.py:97-102 | the state after registration: the broadcast list is `AddChannel` of the old one, the user table is unchanged, and the acting user is `str(user_id)` |
| Dispatcher.PKS.ProcessedWrongCount | Server/pks/__init__.py:117-121 | a wrong argument count never runs the command: only the registration happens, and the answer is the non-empty "Too many"/"Too few" message |
| Dispatcher.PKS.ShutOutSenderChangesNothing | Server/pks/commands.py:13-24 | a sender refused by the white- or blacklist changes nothing beyond the registration, whatever the command, and is answered the refusal unless the argument count is wrong |
| Dispatcher.PKS.RanKeepsChannels | Server/pks/__init__.py:110-124 | every handler the table can route to, other than `forget`, leaves the channels store, its `db_columns` included, exactly as it was |
| Dispatcher.PKS.ProcessedBroadcastList | Server/pks/__init__.py:97-124 | after any message other than `/forget` the broadcast list is `AddChannel` of the old one: the chat is active, appended when it was new |
| Dispatcher.PKS.ProcessedForget | Server/pks/commands.py:121-124 | a permitted `/forget` leaves its chat registered but inactive, answers nothing, and no other chat changes |
| Dispatcher.PKS.ProcessedKeepsUsers | Server/pks/__init__.py:38-58 | only `/add_perm` and `/remove_perm` change the user table |
| Dispatcher.PKS.ProcessedLeavesDaemon | Server/pks/__init__.py:38-58 | only `/generate`, `/start`, `/stop` and `/shutdown` touch the daemon's calls, its running flag, its file and the random draws |
| Dispatcher.PKS.ProcessedAddPerm | Server/pks/commands.py:61-67 | a permitted `/add_perm user group` with a valid group answers the confirmation, puts the group in the user's list, and changes no other user |
| Dispatcher.PKS.ProcessedRemovePerm | Server/pks/commands.py:69-75 | a permitted `/remove_perm user group` with a valid group raises `KeyError` exactly when the user lacks the group, changing nothing then; otherwise it answers the confirmation, the group is gone, and no other user changes |
| Dispatcher.PKS.Register | Server/pks/__init__.py:97-102 | the state becomes `Registered`: the chat joins the broadcast list and the sender becomes the current user, before any check |
| Dispatcher.PKS.Dispatch | Server/pks/__init__.py:104-124 | `Dispatched`: a wrong argument count answers the exact message and changes nothing; otherwise the handler the table gives for the command word runs with the parsed arguments, and the state and answer are that handler's (`Ran`); only `/shutdown` exits and only `/remove_perm` raises `KeyError` |
| Dispatcher.PKS.Answer | Server/pks/__init__.py:126-127 | a reply is sent to the chat, in reply to the message, exactly when the answer is a non-empty string |
| Dispatcher.PKS.Process | Server/pks/__init__.py:89-127 | `Processed`: registration, then `Dispatched` from the registered state, then the reply; the outbox grows by the answer only when it is a non-empty string |
| Dispatcher.PKS.RunServiceCommand | Server/pks/__init__.py:120-124 | `generate`, `start`, `stop` or `shutdown` runs, whichever the handler names, with the state change and answer `Ran` gives it; only `shutdown` can exit, and none raises `KeyError` |
| Dispatcher.PKS.RunRecordCommand | Server/pks/__init__.py:120-124 | `forget` with the chat id, `list_groups_members`, `add_perm`/`remove_perm` with the two arguments in order, `help` with the dispatched keys, or `invalid` runs, whichever the handler names, as `Ran` states; only `remove_perm` can raise `KeyError` |
| Dispatcher.PKS.RunGenerate | Server/pks/commands.py:77-89 | the refusal with no change; otherwise the fresh sequence is written to the daemon's file, the daemon is restarted, and `GenerateMessage` is answered |
| Dispatcher.PKS.RunStart | Server/pks/commands.py:134-143 | the refusal, "already running" with no change, or one start call whose exit code sets the running flag and picks the answer |
| Dispatcher.PKS.RunStop | Server/pks/commands.py:145-154 | the refusal, "already stopped" with no change, or one stop call whose exit code sets the running flag and picks the answer |
| Dispatcher.PKS.RunShutdown | Server/pks/commands.py:156-160 | the refusal with no change; otherwise the daemon is stopped if it runs, and `SystemExit` follows |
| Dispatcher.PKS.RunForget | Server/pks/commands.py:121-124 | the refusal with no change; otherwise the chat is disabled in the broadcast list and nothing is answered |
| Dispatcher.PKS.RunListGroupsMembers | Server/pks/commands.py:126-132 | nothing changes; the answer is the report of the four groups, or the refusal |
| Dispatcher.PKS.RunAddPerm | Server/pks/commands.py:61-67 | the refusal or the invalid-group answer with no change; otherwise the user table becomes `AddUser` and the confirmation is answered |
| Dispatcher.PKS.RunRemovePerm | Server/pks/commands.py:69-75 | the refusal or the invalid-group answer with no change; `KeyError` with no change when `RemoveUser` fails; otherwise its table and the confirmation |
| Dispatcher.PKS.RunHelp | Server/pks/commands.py:46-55 | nothing changes; the refusal for a sender shut out by the lists, nothing while stopped, otherwise the header and the documented dispatched commands |
| Dispatcher.PKS.RunInvalid | Server/pks/commands.py:41-44 | nothing changes; no answer for an admitted sender, the refusal otherwise |
| Dispatcher.PKS.HandleUpdate | Server/pks/__init__.py:136-146 | an update is processed exactly when it has text starting with "/" and is younger than the timeout; a processed one is `Processed` and its non-empty answer is sent; a skipped one leaves the whole state as it was: both stores with their `db_columns` lists, the acting user, the flag, the host's calls, draws and files, and the outbox |
| Dispatcher.PKS.HandleUpdates | Server/pks/__init__.py:129-152 | the offset moves one past every update gone through, processed or skipped; each update is judged against its own clock reading; the pass ends early only on an update eligible at its reading that ran `/shutdown` or raised `KeyError` in `/remove_perm` |

## Left out

- The Telegram HTTP client (`telegram.py`) is not part of this model. Sends are appended to an outbox; updates arrive as a sequence.
- `shelve` files, `os.mkdir`, `sync` and `__del__` are not modelled. The store is an in-memory map; a persisted shelf is a constructor parameter.
- `subprocess` calls are not modelled. `systemctl`'s exit codes come from a given function of the invocation's position.
- `sha256` and `randint` are given functions. The SHA-256 digest read as a hexadecimal number is a `string -> nat` parameter.
- The clock is a parameter: `now` for one update, and one reading per update (`clock`) for a pass, since `main` reads `time.time()` again for each update. Logging and `print` are not modelled.
- `create_log_file` and `install_package` are not modelled: they only call the shell or the file system.
- `print_config` is not modelled: it is driven by reflection over `dir(Config)`.
- `print_broadcast_list` is not modelled: no command word dispatches to it. The same holds for `status` and `target_port`, which are modelled but unreachable from the table.
- `pks/config.py` is not part of this model. Its fields are the constants of `Config`, and the port range is the inclusive range `[first, last]` of a step-1 `range`.
- `totp_manager.py`, the client, `behavioral_monitor_test`, `partb-2nd`, `setup.py` and `trigger_sequence_change.py` are not part of this model.
- Commands.Help: `inspect.getmembers` and `inspect.getdoc` are replaced by the constant list of the class's function names in name order (`CommandMembers`) and a `doc` parameter.
- Utils.FilterPort: requires `Terminates`: some acceptable port above `first`, and `last >= first + 2` whenever the input is above the range. This condition is sufficient for the probe to stop, not necessary. Some excluded inputs do stop: with range `[5, 6]` and no blacklist, input 11 steps to 5 and stops; with range `[1000, 1002]` and blacklist `{1001, 1002}`, input 1000 stops at once and 999 steps to 1000 (`TerminatesIsNotNecessary`). Some excluded inputs loop forever (see `TwoPortRangeStuck`).
- Utils.FilterPortList: requires `Terminates` of every element, so it also leaves out the excluded inputs that stop.
- Core.GenerateNewSequence: requires an acceptable port above `first`, and `last >= first + 2` for a truthy seed, because hash values lie far above the range.
- Dispatcher.PKS.Process: requires `SafeText`, which is the termination condition above whenever the text dispatches to `/generate` with a generated sequence.
- Dispatcher.PKS.HandleUpdates: states the offset and how the pass ends. That a skipped update changes nothing is stated for each update by `HandleUpdate`, not for the whole batch.
- Dispatcher.PKS.HandleUpdates: an exception other than `SystemExit` is returned as the end of the pass rather than propagated through `main`'s outer `while True` loop. That loop and its polling are not modelled.
