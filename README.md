# QuickShop transfer command and debug log, modelled in Dafny

This project models two pieces of QuickShop-Hikari, a Bukkit shop plugin.

**The `/quickshop transfer` sub-command** (`SubCommand_Transfer`). A player proposes to hand all of their shops to another player. The proposal is a `PendingTransferTask` holding the sender, the receiver and a snapshot of the sender's shop list. It is kept in a cache keyed by the receiver's UUID, and the cache expires an entry 60 seconds after it is written. The receiver answers `accept`/`allow`/`yes` or `reject`/`deny`/`no`. Either answer looks the entry up and invalidates it. Accepting commits the task: for each shop in the snapshot, in order, a cancellable `ShopOwnershipTransferEvent` is fired. A cancelled shop is skipped; every other shop gets the receiver as owner. Rejecting sends the rejection messages and changes no shop. A player with `quickshop.transfer.other` can give two names and move every shop of the first player to the second straight away, without any cache entry.

**The debug log** (`Log`). A static evicting queue holds up to `1500 × 3 = 4500` records. `debug`, `cron` and `transaction` append a record of their type. When the queue is full, the oldest record is dropped. The `fetchLogs` overloads return the whole buffer, or the records of one type, or of one type and level, in buffer order. A `Record` formats itself as `[thread/LEVEL] (class#method:line) message` or `[LEVEL] message` and caches that text.

Modules:

- `TransferProtocol` (`transfer_protocol.dfy`) is the command as pure functions of its state. The state is the registry, a map from UUID to (task, write time), plus the sequence of shop owner fields. `Step` gives the next state and the notices sent. The lemmas state the protocol's properties.
- `TransferCommand` (`transfer_command.dfy`) is the imperative side. `TaskCache` is a class whose entries map is updated in place. `Commit` is the source's loop writing owner fields of an array. `SubCommandTransfer` has `OnCommand` and one method per branch. Each method is proved equal to the matching function of `TransferProtocol`.
- `Logger` (`logger.dfy`) holds the evicting-queue semantics (`Offer`), the filters, the `Record` class with its `toStringCache`, and the `Log` class holding the buffer.
- `Wrappers` (`wrappers.dfy`) holds `Option`.

The platform is passed in as parameters:

- The clock is `now`, in nanoseconds of the cache's ticker.
- The player finder, the "is this UUID an online player" check, the permission service, `ShopManager.getAllShops` and the event's cancellation are the fields of `Env`. Each is a total function.
- A shop is an index into the array of owner fields.
- A message send is recorded as a `Notice` (recipient, message key and the arguments that matter).
- Whether location recording is disabled is a constructor argument of `Log`, and so is developer mode (`Util.isDevMode`).

Behaviour of the code worth knowing:

- A lookup at exactly 60 s after the write finds nothing, because Guava's expire-after-write treats an entry as expired once `now - writeTime >= 60 s`.
- The override summary reports the size of the shop list, not how many shops were actually moved.
- `accept`/`reject` read the entry and then invalidate it as two separate calls, not as one atomic take (see Left out).
- With three or more arguments the command does nothing and sends no message.

## Model

| member | source | states |
|---|---|---|
| `TransferProtocol.Lookup` | quickshop-bukkit/src/main/java/com/ghostchu/quickshop/command/subcommand/SubCommand_Transfer.java:27-30 | a task is found only under its key, and only while its write time is less than 60 s before `now`; a missing key or an entry 60 s old or older finds nothing |
| `TransferProtocol.Written` | quickshop-bukkit/src/main/java/com/ghostchu/quickshop/command/subcommand/SubCommand_Transfer.java:84 | `put` adds the key, stores the task with write time `now`, and keeps every other entry as it was |
| `TransferProtocol.Invalidated` | quickshop-bukkit/src/main/java/com/ghostchu/quickshop/command/subcommand/SubCommand_Transfer.java:47 | `invalidate` removes the key, live or expired, and keeps every other entry as it was |
| `TransferProtocol.WrittenIsVisible` | quickshop-bukkit/src/main/java/com/ghostchu/quickshop/command/subcommand/SubCommand_Transfer.java:27-30 | a task written at `written` is returned by a lookup at any `now` less than 60 s later |
| `TransferProtocol.WrittenExpires` | quickshop-bukkit/src/main/java/com/ghostchu/quickshop/command/subcommand/SubCommand_Transfer.java:27-30 | from 60 s after the write on, the lookup finds nothing |
| `TransferProtocol.AbsentStaysAbsent` | quickshop-bukkit/src/main/java/com/ghostchu/quickshop/command/subcommand/SubCommand_Transfer.java:27-30 | with no write in between, an entry absent at `now` is absent at every later time |
| `TransferProtocol.LastWriteWins` | quickshop-bukkit/src/main/java/com/ghostchu/quickshop/command/subcommand/SubCommand_Transfer.java:84 | writing the same key twice looks up exactly as writing only the second task |
| `TransferProtocol.InvalidatedIsAbsent` | quickshop-bukkit/src/main/java/com/ghostchu/quickshop/command/subcommand/SubCommand_Transfer.java:47 | after `invalidate` the key finds nothing |
| `TransferProtocol.OtherKeysUnaffected` | quickshop-bukkit/src/main/java/com/ghostchu/quickshop/command/subcommand/SubCommand_Transfer.java:84 | a put or an invalidate of one key changes no lookup of another key |
| `TransferProtocol.Committed` | quickshop-bukkit/src/main/java/com/ghostchu/quickshop/command/subcommand/SubCommand_Transfer.java:150-157 | after the commit walk, every shop's owner is its old owner or `to`, and a shop not in the list keeps its owner |
| `TransferProtocol.CommittedExactly` | quickshop-bukkit/src/main/java/com/ghostchu/quickshop/command/subcommand/SubCommand_Transfer.java:151-157 | each listed shop, even one listed more than once, ends with owner `to` exactly when its event (shop, old owner, `to`) is not cancelled, and keeps its owner otherwise; vetoes do not stop the walk |
| `TransferProtocol.CommittedKeepsNewOwner` | quickshop-bukkit/src/main/java/com/ghostchu/quickshop/command/subcommand/SubCommand_Transfer.java:151-157 | a shop already owned by `to` still is after the walk |
| `TransferProtocol.CommittedWithoutVeto` | quickshop-bukkit/src/main/java/com/ghostchu/quickshop/command/subcommand/SubCommand_Transfer.java:151-157 | when no event is cancelled, every listed shop ends with owner `to`, duplicates included (a consequence of `CommittedExactly`) |
| `TransferProtocol.CommitNotices` | quickshop-bukkit/src/main/java/com/ghostchu/quickshop/command/subcommand/SubCommand_Transfer.java:158-161 | with `sendMessage` the from-player then the to-player get one acceptance message each; without it nothing is sent |
| `TransferProtocol.CancelNotices` | quickshop-bukkit/src/main/java/com/ghostchu/quickshop/command/subcommand/SubCommand_Transfer.java:143-148 | with `sendMessage` the from-player then the to-player get one rejection message each; without it nothing is sent |
| `TransferProtocol.Parse` | quickshop-bukkit/src/main/java/com/ghostchu/quickshop/command/subcommand/SubCommand_Transfer.java:39-120 | the branch is decided by the argument count and, for one argument, by the accept words, then the reject words, else a player name; each branch holds exactly when its condition does |
| `TransferProtocol.Step` | quickshop-bukkit/src/main/java/com/ghostchu/quickshop/command/subcommand/SubCommand_Transfer.java:38-121 | a command keeps the number of shops, and every pending task names only existing shops |
| `TransferProtocol.RespondStep` | quickshop-bukkit/src/main/java/com/ghostchu/quickshop/command/subcommand/SubCommand_Transfer.java:45-62 | an answer always removes the sender's entry and no other; with no live entry the sender is told there is nothing pending and no owner changes; a rejection never changes an owner |
| `TransferProtocol.ProposeStep` | quickshop-bukkit/src/main/java/com/ghostchu/quickshop/command/subcommand/SubCommand_Transfer.java:63-89 | a proposal changes no owner, always answers the sender first, can only write the named player's entry, and changes nothing unless that player resolves, is online and is not the sender |
| `TransferProtocol.OnlinePlayer` | quickshop-bukkit/src/main/java/com/ghostchu/quickshop/command/subcommand/SubCommand_Transfer.java:98-102 | a player is found exactly when the name resolves to a UUID whose player is online, and then it is that UUID |
| `TransferProtocol.OverrideStep` | quickshop-bukkit/src/main/java/com/ghostchu/quickshop/command/subcommand/SubCommand_Transfer.java:92-117 | the override never touches the cache, keeps the number of shops, sends exactly one message and only to the sender; without `quickshop.transfer.other` it changes nothing; with it, an unknown or offline from-player (checked first) or target changes nothing and the message names that side |
| `TransferProtocol.EmptyArgsOnlyWarn` | quickshop-bukkit/src/main/java/com/ghostchu/quickshop/command/subcommand/SubCommand_Transfer.java:39-42 | no arguments: only `command.wrong-args` to the sender, and nothing changes |
| `TransferProtocol.TooManyArgsIgnored` | quickshop-bukkit/src/main/java/com/ghostchu/quickshop/command/subcommand/SubCommand_Transfer.java:43-120 | three or more arguments: nothing changes and nothing is sent |
| `TransferProtocol.ResponseWithoutPendingTask` | quickshop-bukkit/src/main/java/com/ghostchu/quickshop/command/subcommand/SubCommand_Transfer.java:45-60 | an accept or reject word with no live entry sends `transfer-no-pending-operation`, changes no owner, and only drops the sender's (expired) entry |
| `TransferProtocol.ResponseConsumesOnce` | quickshop-bukkit/src/main/java/com/ghostchu/quickshop/command/subcommand/SubCommand_Transfer.java:46-56 | after any response the sender has no entry, so a second response at any time finds nothing and changes nothing |
| `TransferProtocol.RejectKeepsOwners` | quickshop-bukkit/src/main/java/com/ghostchu/quickshop/command/subcommand/SubCommand_Transfer.java:54-62 | `reject`/`deny`/`no` changes no owner, removes the entry, and with a live task sends `transfer-rejected-fromside` to the proposer and then `transfer-rejected-toside` to the receiver |
| `TransferProtocol.AcceptCommits` | quickshop-bukkit/src/main/java/com/ghostchu/quickshop/command/subcommand/SubCommand_Transfer.java:45-53 | `accept`/`allow`/`yes` with a live task removes the entry, commits that task's shops to its receiver and sends the two acceptance messages |
| `TransferProtocol.ProposalErrorsInstallNothing` | quickshop-bukkit/src/main/java/com/ghostchu/quickshop/command/subcommand/SubCommand_Transfer.java:63-78 | an unknown name, then an offline receiver, then the sender's own name, checked in that order, each send one message and change nothing |
| `TransferProtocol.ProposalInstalls` | quickshop-bukkit/src/main/java/com/ghostchu/quickshop/command/subcommand/SubCommand_Transfer.java:79-87 | a valid proposal writes the task (sender, receiver, sender's shops) under the receiver's UUID at `now`, changes no owner, sends `transfer-sent` to the sender and then `transfer-request` and `transfer-ask` (60 s) to the receiver, and is visible exactly while less than 60 s old |
| `TransferProtocol.ProposalLastWriterWins` | quickshop-bukkit/src/main/java/com/ghostchu/quickshop/command/subcommand/SubCommand_Transfer.java:82-84 | after two valid proposals to one receiver, the lookup yields the second one (or nothing once it expired) |
| `TransferProtocol.AcceptUsesSnapshot` | quickshop-bukkit/src/main/java/com/ghostchu/quickshop/command/subcommand/SubCommand_Transfer.java:82-84 | accepting in time commits the shop list captured at proposal time, whatever the shop manager would list at acceptance |
| `TransferProtocol.ProposalExpires` | quickshop-bukkit/src/main/java/com/ghostchu/quickshop/command/subcommand/SubCommand_Transfer.java:27-30 | answering 60 s or more after the proposal finds nothing and changes no owner |
| `TransferProtocol.OverrideNeedsPermission` | quickshop-bukkit/src/main/java/com/ghostchu/quickshop/command/subcommand/SubCommand_Transfer.java:92-96 | two arguments without `quickshop.transfer.other`: `no-permission` and nothing changes |
| `TransferProtocol.OverrideUnknownPlayer` | quickshop-bukkit/src/main/java/com/ghostchu/quickshop/command/subcommand/SubCommand_Transfer.java:104-111 | with the permission, an unknown or offline from-player is reported as `unknown-player` naming `fromPlayer`, otherwise an unknown or offline target naming `targetPlayer`; nothing changes |
| `TransferProtocol.OverrideBypassesRegistry` | quickshop-bukkit/src/main/java/com/ghostchu/quickshop/command/subcommand/SubCommand_Transfer.java:97-117 | the override never changes the cache; with both players online it commits the first player's shops to the second and reports the list's size however many were vetoed |
| `TransferCommand.TaskCache.constructor` | quickshop-bukkit/src/main/java/com/ghostchu/quickshop/command/subcommand/SubCommand_Transfer.java:27-30 | a new cache is empty |
| `TransferCommand.TaskCache.Put` | quickshop-bukkit/src/main/java/com/ghostchu/quickshop/command/subcommand/SubCommand_Transfer.java:84 | the key's entry becomes the task with write time `now`; other entries are kept |
| `TransferCommand.TaskCache.GetIfPresent` | quickshop-bukkit/src/main/java/com/ghostchu/quickshop/command/subcommand/SubCommand_Transfer.java:46 | returns exactly `Lookup` of the current entries, so the registry lemmas about `Lookup` apply to it |
| `TransferCommand.TaskCache.Invalidate` | quickshop-bukkit/src/main/java/com/ghostchu/quickshop/command/subcommand/SubCommand_Transfer.java:47 | the key's entry is removed; other entries are kept |
| `TransferCommand.Commit` | quickshop-bukkit/src/main/java/com/ghostchu/quickshop/command/subcommand/SubCommand_Transfer.java:150-162 | the owner array after the loop is `Committed` of the old one; the acceptance messages are sent only when asked |
| `TransferCommand.SubCommandTransfer.constructor` | quickshop-bukkit/src/main/java/com/ghostchu/quickshop/command/subcommand/SubCommand_Transfer.java:26-34 | the command starts with an empty task cache |
| `TransferCommand.SubCommandTransfer.OnCommand` | quickshop-bukkit/src/main/java/com/ghostchu/quickshop/command/subcommand/SubCommand_Transfer.java:38-121 | the new cache and owners, and the notices, are those `Step` gives for the old state |
| `TransferCommand.SubCommandTransfer.Respond` | quickshop-bukkit/src/main/java/com/ghostchu/quickshop/command/subcommand/SubCommand_Transfer.java:45-62 | lookup, invalidate, then commit or cancel, with the state and notices of `RespondStep` |
| `TransferCommand.SubCommandTransfer.Propose` | quickshop-bukkit/src/main/java/com/ghostchu/quickshop/command/subcommand/SubCommand_Transfer.java:63-89 | changes only the cache, as `ProposeStep` says |
| `TransferCommand.SubCommandTransfer.Override` | quickshop-bukkit/src/main/java/com/ghostchu/quickshop/command/subcommand/SubCommand_Transfer.java:92-120 | changes only the owner array (its frame excludes the cache), as `OverrideStep` says |
| `Logger.AllTypesListsEachTypeOnce` | quickshop-bukkit/src/main/java/com/ghostchu/quickshop/util/logger/Log.java:41 | `Type.values()` lists each of the three types once, so `bufferSize` is 4500 |
| `Logger.LevelNameInjective` | quickshop-bukkit/src/main/java/com/ghostchu/quickshop/util/logger/Log.java:176 | distinct levels have distinct names |
| `Logger.NatToString` | quickshop-bukkit/src/main/java/com/ghostchu/quickshop/util/logger/Log.java:180 | the decimal text is non-empty, all digits, and has no leading zero |
| `Logger.IntToString` | quickshop-bukkit/src/main/java/com/ghostchu/quickshop/util/logger/Log.java:180 | the text of an int is non-empty, starts with `-` exactly when the int is negative, and is otherwise all digits |
| `Logger.NatToStringRoundTrip` | quickshop-bukkit/src/main/java/com/ghostchu/quickshop/util/logger/Log.java:180 | reading the decimal text back gives the number |
| `Logger.IntToStringRoundTrip` | quickshop-bukkit/src/main/java/com/ghostchu/quickshop/util/logger/Log.java:180 | the caller's line number, negative ones included, reads back from its text |
| `Logger.Format` | quickshop-bukkit/src/main/java/com/ghostchu/quickshop/util/logger/Log.java:169-189 | a record's text starts with `[` and ends with its message, which it strictly extends |
| `Logger.BracketAfterName` | quickshop-bukkit/src/main/java/com/ghostchu/quickshop/util/logger/Log.java:183-188 | in the caller-less shape `[LEVEL] message` the first `]` comes right after the level name, and the name and the message can be read back from their positions |
| `Logger.FormatWithoutCallerInjective` | quickshop-bukkit/src/main/java/com/ghostchu/quickshop/util/logger/Log.java:183-189 | the caller-less text `[LEVEL] message` determines the level and the message |
| `Logger.Record.constructor` | quickshop-bukkit/src/main/java/com/ghostchu/quickshop/util/logger/Log.java:158-163 | a record keeps the given level, type, message and caller, with no cached text |
| `Logger.Record.ToString` | quickshop-bukkit/src/main/java/com/ghostchu/quickshop/util/logger/Log.java:166-191 | returns the formatted text of the record's shape and caches it; once cached, the cached text is returned |
| `Logger.Offer` | quickshop-bukkit/src/main/java/com/ghostchu/quickshop/util/logger/Log.java:42 | the queue never exceeds its maximum size, and the offered element is the newest |
| `Logger.OfferKeepsNewest` | quickshop-bukkit/src/main/java/com/ghostchu/quickshop/util/logger/Log.java:83 | one offer leaves the newest `maxSize` elements of the old queue plus the new one, in order; the oldest is the one dropped |
| `Logger.OfferAllKeepsNewest` | quickshop-bukkit/src/main/java/com/ghostchu/quickshop/util/logger/Log.java:42 | after any run of offers the queue is the newest `maxSize` of everything offered, in order |
| `Logger.Filter` | quickshop-bukkit/src/main/java/com/ghostchu/quickshop/util/logger/Log.java:129 | a filtered stream keeps every element that passes and nothing else |
| `Logger.FilterIsSubsequence` | quickshop-bukkit/src/main/java/com/ghostchu/quickshop/util/logger/Log.java:129 | the filtered list keeps the order of the buffer |
| `Logger.FilterCounts` | quickshop-bukkit/src/main/java/com/ghostchu/quickshop/util/logger/Log.java:129 | each passing element occurs as often as in the buffer, and each failing one never |
| `Logger.FilterAppend` | quickshop-bukkit/src/main/java/com/ghostchu/quickshop/util/logger/Log.java:129 | filtering a concatenation is concatenating the filtered parts |
| `Logger.FilterFilter` | quickshop-bukkit/src/main/java/com/ghostchu/quickshop/util/logger/Log.java:137 | filtering by one condition and then another equals filtering once by both |
| `Logger.OfType` | quickshop-bukkit/src/main/java/com/ghostchu/quickshop/util/logger/Log.java:129 | the records kept are buffered records of the type, and every buffered record of the type is kept |
| `Logger.OfTypeAndLevel` | quickshop-bukkit/src/main/java/com/ghostchu/quickshop/util/logger/Log.java:137 | the records kept are buffered records of the type and level, and every buffered record of both is kept |
| `Logger.OfTypeExactly` | quickshop-bukkit/src/main/java/com/ghostchu/quickshop/util/logger/Log.java:127-132 | `fetchLogs(type)` is in buffer order and holds each record of that type as often as the buffer does, and no other record |
| `Logger.OfTypeAndLevelNarrowsOfType` | quickshop-bukkit/src/main/java/com/ghostchu/quickshop/util/logger/Log.java:135-140 | `fetchLogs(type, level)` is `fetchLogs(type)` narrowed to the level, so it is a subsequence of it |
| `Logger.Log.constructor` | quickshop-bukkit/src/main/java/com/ghostchu/quickshop/util/logger/Log.java:41-48 | the buffer starts empty, with the configuration given |
| `Logger.Log.StoredCaller` | quickshop-bukkit/src/main/java/com/ghostchu/quickshop/util/logger/Log.java:79-82 | a new record stores no caller when location recording is disabled, and the given caller otherwise |
| `Logger.Log.Append` | quickshop-bukkit/src/main/java/com/ghostchu/quickshop/util/logger/Log.java:78-84 | one fresh record of the type, level and message is offered to the buffer; its caller is null when location recording is disabled; the buffer stays within 4500 and every buffered record's cached text, if any, is its own formatted text |
| `Logger.Log.DebugStdOutputs` | quickshop-bukkit/src/main/java/com/ghostchu/quickshop/util/logger/Log.java:112-116 | in developer mode the record's text gets cached (it is rendered to be echoed), otherwise the record is untouched |
| `Logger.Log.LogDebug` | quickshop-bukkit/src/main/java/com/ghostchu/quickshop/util/logger/Log.java:76-86 | appends a DEBUG record as `Append` says |
| `Logger.Log.LogCron` | quickshop-bukkit/src/main/java/com/ghostchu/quickshop/util/logger/Log.java:88-98 | appends a CRON record as `Append` says |
| `Logger.Log.LogTransaction` | quickshop-bukkit/src/main/java/com/ghostchu/quickshop/util/logger/Log.java:100-110 | appends a TRANSACTION record as `Append` says |
| `Logger.Log.FetchLogs` | quickshop-bukkit/src/main/java/com/ghostchu/quickshop/util/logger/Log.java:118-124 | returns the whole buffer in insertion order, at most 4500 records, and changes nothing; each returned record can be asked for its text |
| `Logger.Log.FetchLogsOfType` | quickshop-bukkit/src/main/java/com/ghostchu/quickshop/util/logger/Log.java:126-132 | returns a record exactly when it is buffered and has the type, in buffer order |
| `Logger.Log.FetchLogsOfTypeAndLevel` | quickshop-bukkit/src/main/java/com/ghostchu/quickshop/util/logger/Log.java:134-140 | returns a record exactly when it is buffered and has both the type and the level |

## Left out

- Concurrency. The source reads the entry and invalidates it as two calls (`getIfPresent`, then `invalidate`). Under concurrent answers, two `accept`s could both read the task before either invalidates it. The model runs each command atomically, so consume-once holds in the model but is not shown for concurrent callers. The log's read-write lock is left out too.
- Asynchronous hops. The proposal's completion callback and the override's worker and main-thread hops are run in line; the cache write uses the command's `now`.
- Message rendering. `plugin.text()` is left out; a send is recorded as recipient plus message key. `transfer-request` carries the sender's UUID instead of their display name.
- Player lookups. `name2UuidFuture`, `QUserImpl.createSync`/`createFullFilled` and `Bukkit.getPlayer` are reduced to `Env.resolve` and `Env.online`. A lookup that throws counts as an unknown name.
- `ShopManager.getAllShops` is the function `Env.shopsOf`; the order of its list is not modelled. Shops are indices of an owner array and every listed index must exist.
- Shop persistence. `Shop.setOwner` persistence and the event bus are an array write and the pure predicate `Env.veto`; a listener's side effects are not modelled.
- Cache memory. The cache keeps an expired entry in its map until the key is invalidated or overwritten; lookups treat it as absent. Guava's background clean-up is not modelled.
- `onTabComplete`, which depends on the live player list.
- `SubCommand_SilentUnlimited` is not part of this model.
- The log's convenience overloads. The one- and two-argument `debug`/`cron`/`transaction` forms only supply `Level.INFO` and `Caller.create()` (stack walking and the thread name), which are platform calls. Callers are passed in.
- `Record.nanoTime` (`System.nanoTime`) and the Lombok `equals`/`hashCode`. The buffer holds record references.
- The developer-mode echo to the console. Only its effect on the record's cache is modelled.
- `Logger.Level`: only the nine standard `java.util.logging` levels are modelled; custom `Level` objects are not.
