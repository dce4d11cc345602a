/**
 * The `/quickshop transfer` sub-command as pure functions of its state.
 *
 * The state is the pending-transfer registry (the command's `taskCache`, a map
 * from the recipient's UUID to the task and the time it was written) and the
 * owner field of every shop. A command turns one state into the next and a
 * list of notices (which message key went to which player).
 */
module TransferProtocol {
  import opened Wrappers

  type Uuid = nat

  /** A shop, named by its position in the sequence of shop owner fields. */
  type ShopId = nat

  /** `expireAfterWrite(60, TimeUnit.SECONDS)`, in nanoseconds of the cache's clock. */
  const ExpireAfterWriteNanos: int := 60 * 1_000_000_000

  /** The number of seconds announced to the recipient by `transfer-ask`. */
  const AskSeconds: nat := 60

  const TransferOtherPermission: string := "quickshop.transfer.other"

  const AcceptWords: set<string> := {"accept", "allow", "yes"}
  const RejectWords: set<string> := {"reject", "deny", "no"}

  /** A proposal: `from` offers all the listed shops to `to`. The list is a snapshot. */
  datatype PendingTransferTask = PendingTransferTask(from: Uuid, to: Uuid, shops: seq<ShopId>)

  datatype CacheEntry = CacheEntry(task: PendingTransferTask, writeTime: int)

  type Registry = map<Uuid, CacheEntry>

  /** The cancellable event fired for each shop before its owner is changed. */
  datatype TransferEvent = TransferEvent(shop: ShopId, previousOwner: Uuid, newOwner: Uuid)

  /** The message keys the command sends, with the arguments that matter. */
  datatype Message =
    | WrongArgs                                                 // command.wrong-args
    | NoPendingOperation                                        // transfer-no-pending-operation
    | UnknownPlayer(side: Option<string>)                       // unknown-player
    | PlayerOffline(name: string)                               // player-offline
    | TransferNoSelf(name: string)                              // transfer-no-self
    | TransferSent(name: string)                                // transfer-sent
    | TransferRequest(sender: Uuid)                             // transfer-request
    | TransferAsk(seconds: nat)                                 // transfer-ask
    | NoPermission                                              // no-permission
    | TransferSuccessOther(count: nat, fromName: string, toName: string) // command.transfer-success-other
    | TransferRejectedFromSide(to: Uuid)                        // transfer-rejected-fromside
    | TransferRejectedToSide(from: Uuid)                        // transfer-rejected-toside
    | TransferAcceptedFromSide(to: Uuid)                        // transfer-accepted-fromside
    | TransferAcceptedToSide(from: Uuid)                        // transfer-accepted-toside

  datatype Notice = Notice(recipient: Uuid, message: Message)

  /**
   * The platform the command talks to: the player finder, whether a player is
   * online, the permission service, the shop manager's list of a player's
   * shops, and whether a listener cancels a transfer event.
   */
  datatype Env = Env(
    resolve: string -> Option<Uuid>,
    online: Uuid -> bool,
    hasPermission: (Uuid, string) -> bool,
    shopsOf: Uuid -> seq<ShopId>,
    veto: TransferEvent -> bool)

  datatype World = World(cache: Registry, owners: seq<Uuid>)

  /** What the argument list asks for. */
  datatype Request =
    | Empty
    | Accept
    | Reject
    | Propose(name: string)
    | Override(fromName: string, toName: string)
    | Unhandled

  predicate ShopsIn(shops: seq<ShopId>, n: nat) {
    forall i :: 0 <= i < |shops| ==> shops[i] < n
  }

  /** Every shop the shop manager hands out exists. */
  ghost predicate EnvFits(env: Env, n: nat) {
    forall u :: ShopsIn(env.shopsOf(u), n)
  }

  /** Every shop named by a pending task exists. */
  predicate TasksFit(cache: Registry, n: nat) {
    forall k :: k in cache ==> ShopsIn(cache[k].task.shops, n)
  }

  // ---------------------------------------------------------------------------
  // The registry: expire-after-write semantics of the cache

  predicate Live(e: CacheEntry, now: int) {
    now - e.writeTime < ExpireAfterWriteNanos
  }

  /** `getIfPresent`: the entry's task, unless it is missing or has expired. */
  function Lookup(cache: Registry, key: Uuid, now: int): (r: Option<PendingTransferTask>)
    ensures r.Some? ==> key in cache && r.value == cache[key].task
                        && cache[key].writeTime > now - ExpireAfterWriteNanos
    ensures r.None? ==> key !in cache || cache[key].writeTime <= now - ExpireAfterWriteNanos
  {
    if key in cache && Live(cache[key], now) then Some(cache[key].task) else None
  }

  /** `put`: writes the entry afresh, replacing any earlier one for the key. */
  function Written(cache: Registry, key: Uuid, task: PendingTransferTask, now: int): (r: Registry)
    ensures r.Keys == cache.Keys + {key}
    ensures r[key] == CacheEntry(task, now)
    ensures forall k :: k in cache && k != key ==> r[k] == cache[k]
  {
    cache[key := CacheEntry(task, now)]
  }

  /** `invalidate`: drops the entry for the key, live or not. */
  function Invalidated(cache: Registry, key: Uuid): (r: Registry)
    ensures r.Keys == cache.Keys - {key}
    ensures forall k :: k in r ==> r[k] == cache[k]
  {
    cache - {key}
  }

  lemma WrittenIsVisible(cache: Registry, key: Uuid, task: PendingTransferTask, written: int, now: int)
    requires now - written < ExpireAfterWriteNanos
    ensures Lookup(Written(cache, key, task, written), key, now) == Some(task)
  {
  }

  lemma WrittenExpires(cache: Registry, key: Uuid, task: PendingTransferTask, written: int, now: int)
    requires now - written >= ExpireAfterWriteNanos
    ensures Lookup(Written(cache, key, task, written), key, now) == None
  {
  }

  /** With no write in between, an absent entry stays absent as the clock advances. */
  lemma AbsentStaysAbsent(cache: Registry, key: Uuid, now: int, later: int)
    requires now <= later && Lookup(cache, key, now) == None
    ensures Lookup(cache, key, later) == None
  {
  }

  lemma LastWriteWins(cache: Registry, key: Uuid, t1: PendingTransferTask, w1: int,
                      t2: PendingTransferTask, w2: int, now: int)
    ensures Lookup(Written(Written(cache, key, t1, w1), key, t2, w2), key, now)
         == Lookup(Written(cache, key, t2, w2), key, now)
  {
  }

  lemma InvalidatedIsAbsent(cache: Registry, key: Uuid, now: int)
    ensures Lookup(Invalidated(cache, key), key, now) == None
  {
  }

  /** Writing or invalidating one key leaves the lookup of every other key alone. */
  lemma OtherKeysUnaffected(cache: Registry, key: Uuid, other: Uuid, task: PendingTransferTask,
                            written: int, now: int)
    requires other != key
    ensures Lookup(Written(cache, key, task, written), other, now) == Lookup(cache, other, now)
    ensures Lookup(Invalidated(cache, key), other, now) == Lookup(cache, other, now)
  {
  }

  // ---------------------------------------------------------------------------
  // Committing a task: one owner write per shop the event does not veto

  /**
   * The owner fields after walking `shops` in order: each shop whose event is
   * not cancelled gets owner `to`; a cancelled one is skipped.
   */
  function Committed(owners: seq<Uuid>, shops: seq<ShopId>, to: Uuid,
                     veto: TransferEvent -> bool): (r: seq<Uuid>)
    requires ShopsIn(shops, |owners|)
    ensures |r| == |owners|
    ensures forall j :: 0 <= j < |owners| ==> r[j] == owners[j] || r[j] == to
    ensures forall j :: 0 <= j < |owners| && j !in shops ==> r[j] == owners[j]
    decreases |shops|
  {
    if shops == [] then owners
    else
      var shop := shops[0];
      var next := if veto(TransferEvent(shop, owners[shop], to)) then owners else owners[shop := to];
      assert forall j :: j in shops[1..] ==> j in shops;
      Committed(next, shops[1..], to, veto)
  }

  /** One step of the walk: the first shop is handled, then the rest. */
  lemma CommittedUnfolds(owners: seq<Uuid>, shops: seq<ShopId>, to: Uuid, veto: TransferEvent -> bool)
    requires ShopsIn(shops, |owners|) && shops != []
    ensures ShopsIn(shops[1..], |owners|)
    ensures Committed(owners, shops, to, veto)
         == Committed(if veto(TransferEvent(shops[0], owners[shops[0]], to)) then owners
                      else owners[shops[0] := to], shops[1..], to, veto)
  {
  }

  /**
   * Every listed shop, even one listed more than once, ends up with owner `to`
   * exactly when its event (shop, old owner, `to`) is not cancelled, and keeps
   * its owner otherwise. A later event for the same shop repeats the first one
   * when it was cancelled, and finds the shop already owned by `to` when not.
   */
  lemma {:induction false} CommittedExactly(owners: seq<Uuid>, shops: seq<ShopId>, to: Uuid,
                                            veto: TransferEvent -> bool, j: nat)
    requires ShopsIn(shops, |owners|) && j < |owners| && j in shops
    ensures Committed(owners, shops, to, veto)[j]
         == if veto(TransferEvent(j, owners[j], to)) then owners[j] else to
    decreases |shops|
  {
    var shop := shops[0];
    var next := if veto(TransferEvent(shop, owners[shop], to)) then owners else owners[shop := to];
    CommittedUnfolds(owners, shops, to, veto);
    if shop == j && !veto(TransferEvent(j, owners[j], to)) {
      CommittedKeepsNewOwner(next, shops[1..], to, veto, j);
    } else if j in shops[1..] {
      assert next[j] == owners[j];
      CommittedExactly(next, shops[1..], to, veto, j);
    }
  }

  /** A shop that already has owner `to` keeps it, whatever the rest of the walk does. */
  lemma {:induction false} CommittedKeepsNewOwner(owners: seq<Uuid>, shops: seq<ShopId>, to: Uuid,
                                                  veto: TransferEvent -> bool, j: nat)
    requires ShopsIn(shops, |owners|) && j < |owners| && owners[j] == to
    ensures Committed(owners, shops, to, veto)[j] == to
  {
  }

  /**
   * When no listener cancels, every listed shop ends with owner `to`, even a
   * shop listed more than once.
   */
  lemma CommittedWithoutVeto(owners: seq<Uuid>, shops: seq<ShopId>, to: Uuid,
                             veto: TransferEvent -> bool)
    requires ShopsIn(shops, |owners|)
    requires forall e :: !veto(e)
    ensures forall k :: 0 <= k < |shops| ==> Committed(owners, shops, to, veto)[shops[k]] == to
  {
    forall k | 0 <= k < |shops| ensures Committed(owners, shops, to, veto)[shops[k]] == to {
      CommittedExactly(owners, shops, to, veto, shops[k]);
    }
  }

  /** The notices `commit(sendMessage)` sends once the walk is done. */
  function CommitNotices(task: PendingTransferTask, sendMessage: bool): (r: seq<Notice>)
    ensures sendMessage <==> r != []
    ensures sendMessage ==> |r| == 2 && r[0].recipient == task.from && r[1].recipient == task.to
    ensures forall n :: n in r ==> n.message.TransferAcceptedFromSide? || n.message.TransferAcceptedToSide?
  {
    if sendMessage then
      [Notice(task.from, TransferAcceptedFromSide(task.to)), Notice(task.to, TransferAcceptedToSide(task.from))]
    else []
  }

  /** The notices `cancel(sendMessage)` sends; cancelling writes no owner. */
  function CancelNotices(task: PendingTransferTask, sendMessage: bool): (r: seq<Notice>)
    ensures sendMessage <==> r != []
    ensures sendMessage ==> |r| == 2 && r[0].recipient == task.from && r[1].recipient == task.to
    ensures forall n :: n in r ==> n.message.TransferRejectedFromSide? || n.message.TransferRejectedToSide?
  {
    if sendMessage then
      [Notice(task.from, TransferRejectedFromSide(task.to)), Notice(task.to, TransferRejectedToSide(task.from))]
    else []
  }

  // ---------------------------------------------------------------------------
  // The command

  /** Which branch of the command the arguments select. */
  function Parse(args: seq<string>): (r: Request)
    ensures r == Empty <==> |args| == 0
    ensures r == Accept <==> |args| == 1 && args[0] in AcceptWords
    ensures r == Reject <==> |args| == 1 && args[0] in RejectWords
    ensures r.Propose? <==> |args| == 1 && args[0] !in AcceptWords && args[0] !in RejectWords
    ensures r.Propose? ==> r.name == args[0]
    ensures r.Override? <==> |args| == 2
    ensures r.Override? ==> r.fromName == args[0] && r.toName == args[1]
    ensures r == Unhandled <==> |args| > 2
  {
    if |args| == 0 then Empty
    else if |args| == 1 then
      if args[0] in AcceptWords then Accept
      else if args[0] in RejectWords then Reject
      else Propose(args[0])
    else if |args| == 2 then Override(args[0], args[1])
    else Unhandled
  }

  /** `accept`/`reject`: take the sender's entry out of the registry, then commit or cancel it. */
  function RespondStep(w: World, sender: Uuid, accept: bool, now: int,
                       veto: TransferEvent -> bool): (r: (World, seq<Notice>))
    requires TasksFit(w.cache, |w.owners|)
    ensures sender !in r.0.cache && TasksFit(r.0.cache, |w.owners|)
    ensures forall k :: k in w.cache && k != sender ==> k in r.0.cache && r.0.cache[k] == w.cache[k]
    ensures |r.0.owners| == |w.owners|
    ensures !accept || Lookup(w.cache, sender, now).None? ==> r.0.owners == w.owners
    ensures Lookup(w.cache, sender, now).None? ==> r.1 == [Notice(sender, NoPendingOperation)]
  {
    var cache := Invalidated(w.cache, sender);
    match Lookup(w.cache, sender, now)
    case None => (World(cache, w.owners), [Notice(sender, NoPendingOperation)])
    case Some(task) =>
      if accept then (World(cache, Committed(w.owners, task.shops, task.to, veto)), CommitNotices(task, true))
      else (World(cache, w.owners), CancelNotices(task, true))
  }

  /** A proposal to the player called `name`. */
  function ProposeStep(w: World, sender: Uuid, name: string, now: int, env: Env): (r: (World, seq<Notice>))
    ensures r.0.owners == w.owners
    ensures r.1 != [] && r.1[0].recipient == sender
    ensures forall k :: k in w.cache && Some(k) != env.resolve(name) ==> k in r.0.cache && r.0.cache[k] == w.cache[k]
    ensures var u := env.resolve(name);
      !(u.Some? && env.online(u.value) && u.value != sender) ==> r.0 == w
  {
    match env.resolve(name)
    case None => (w, [Notice(sender, UnknownPlayer(None))])
    case Some(receiver) =>
      if !env.online(receiver) then (w, [Notice(sender, PlayerOffline(name))])
      else if sender == receiver then (w, [Notice(sender, TransferNoSelf(name))])
      else
        var task := PendingTransferTask(sender, receiver, env.shopsOf(sender));
        (World(Written(w.cache, receiver, task, now), w.owners),
         [Notice(sender, TransferSent(name)), Notice(receiver, TransferRequest(sender)),
          Notice(receiver, TransferAsk(AskSeconds))])
  }

  /** The player called `name`, if the name resolves and that player is online. */
  function OnlinePlayer(env: Env, name: string): (r: Option<Uuid>)
    ensures r.Some? <==> env.resolve(name).Some? && env.online(env.resolve(name).value)
    ensures r.Some? ==> r == env.resolve(name)
  {
    match env.resolve(name)
    case None => None
    case Some(u) => if env.online(u) then Some(u) else None
  }

  /** The privileged path: move all of `fromName`'s shops to `toName` without consent. */
  function OverrideStep(w: World, sender: Uuid, fromName: string, toName: string, env: Env): (r: (World, seq<Notice>))
    requires EnvFits(env, |w.owners|)
    ensures r.0.cache == w.cache && |r.0.owners| == |w.owners|
    ensures |r.1| == 1 && r.1[0].recipient == sender
    ensures !env.hasPermission(sender, TransferOtherPermission) ==> r == (w, [Notice(sender, NoPermission)])
    ensures env.hasPermission(sender, TransferOtherPermission) &&
            (OnlinePlayer(env, fromName).None? || OnlinePlayer(env, toName).None?)
            ==> r == (w, [Notice(sender, UnknownPlayer(Some(if OnlinePlayer(env, fromName).None?
                                                            then "fromPlayer" else "targetPlayer")))])
  {
    if !env.hasPermission(sender, TransferOtherPermission) then (w, [Notice(sender, NoPermission)])
    else
      match (OnlinePlayer(env, fromName), OnlinePlayer(env, toName))
      case (None, _) => (w, [Notice(sender, UnknownPlayer(Some("fromPlayer")))])
      case (_, None) => (w, [Notice(sender, UnknownPlayer(Some("targetPlayer")))])
      case (Some(from), Some(target)) =>
        var task := PendingTransferTask(from, target, env.shopsOf(from));
        (World(w.cache, Committed(w.owners, task.shops, target, env.veto)),
         CommitNotices(task, false) + [Notice(sender, TransferSuccessOther(|task.shops|, fromName, toName))])
  }

  /** One run of the command by `sender` at time `now`. */
  function Step(w: World, sender: Uuid, args: seq<string>, now: int, env: Env): (r: (World, seq<Notice>))
    requires TasksFit(w.cache, |w.owners|) && EnvFits(env, |w.owners|)
    ensures |r.0.owners| == |w.owners| && TasksFit(r.0.cache, |w.owners|)
  {
    match Parse(args)
    case Empty => (w, [Notice(sender, WrongArgs)])
    case Accept => RespondStep(w, sender, true, now, env.veto)
    case Reject => RespondStep(w, sender, false, now, env.veto)
    case Propose(name) => ProposeStep(w, sender, name, now, env)
    case Override(fromName, toName) => OverrideStep(w, sender, fromName, toName, env)
    case Unhandled => (w, [])
  }

  // ---------------------------------------------------------------------------
  // Properties of the command

  /** No arguments: the sender is told the arguments are wrong, and nothing else happens. */
  lemma EmptyArgsOnlyWarn(w: World, sender: Uuid, now: int, env: Env)
    requires TasksFit(w.cache, |w.owners|) && EnvFits(env, |w.owners|)
    ensures Step(w, sender, [], now, env) == (w, [Notice(sender, WrongArgs)])
  {
  }

  /** Three or more arguments fall through every branch: no state change, no message. */
  lemma TooManyArgsIgnored(w: World, sender: Uuid, args: seq<string>, now: int, env: Env)
    requires TasksFit(w.cache, |w.owners|) && EnvFits(env, |w.owners|) && |args| > 2
    ensures Step(w, sender, args, now, env) == (w, [])
  {
  }

  /** A response with no live entry for the sender reports so and writes no owner. */
  lemma ResponseWithoutPendingTask(w: World, sender: Uuid, word: string, now: int, env: Env)
    requires TasksFit(w.cache, |w.owners|) && EnvFits(env, |w.owners|)
    requires word in AcceptWords || word in RejectWords
    requires Lookup(w.cache, sender, now) == None
    ensures Step(w, sender, [word], now, env)
         == (World(Invalidated(w.cache, sender), w.owners), [Notice(sender, NoPendingOperation)])
  {
  }

  /** Any response removes the sender's entry, so a second response finds nothing. */
  lemma ResponseConsumesOnce(w: World, sender: Uuid, word: string, now: int,
                             word2: string, now2: int, env: Env)
    requires TasksFit(w.cache, |w.owners|) && EnvFits(env, |w.owners|)
    requires word in AcceptWords || word in RejectWords
    requires word2 in AcceptWords || word2 in RejectWords
    ensures var w1 := Step(w, sender, [word], now, env).0;
      sender !in w1.cache &&
      Step(w1, sender, [word2], now2, env) == (w1, [Notice(sender, NoPendingOperation)])
  {
    var w1 := Step(w, sender, [word], now, env).0;
    assert Invalidated(w1.cache, sender) == w1.cache;
  }

  /** Rejecting writes no owner and tells both parties. */
  lemma RejectKeepsOwners(w: World, sender: Uuid, word: string, now: int, env: Env)
    requires TasksFit(w.cache, |w.owners|) && EnvFits(env, |w.owners|)
    requires word in RejectWords
    ensures var r := Step(w, sender, [word], now, env);
      r.0.owners == w.owners && r.0.cache == Invalidated(w.cache, sender) &&
      (Lookup(w.cache, sender, now).Some? ==>
         var task := Lookup(w.cache, sender, now).value;
         r.1 == [Notice(task.from, TransferRejectedFromSide(task.to)),
                 Notice(task.to, TransferRejectedToSide(task.from))])
  {
  }

  /** Accepting a live task commits exactly that task's snapshot to its recipient. */
  lemma AcceptCommits(w: World, sender: Uuid, word: string, now: int, env: Env)
    requires TasksFit(w.cache, |w.owners|) && EnvFits(env, |w.owners|)
    requires word in AcceptWords && Lookup(w.cache, sender, now).Some?
    ensures var task := Lookup(w.cache, sender, now).value;
      ShopsIn(task.shops, |w.owners|) &&
      Step(w, sender, [word], now, env)
      == (World(Invalidated(w.cache, sender), Committed(w.owners, task.shops, task.to, env.veto)),
          CommitNotices(task, true))
  {
  }

  /** An unknown name, an offline receiver or the sender's own name, checked in that order, install nothing. */
  lemma ProposalErrorsInstallNothing(w: World, sender: Uuid, name: string, now: int, env: Env)
    requires TasksFit(w.cache, |w.owners|) && EnvFits(env, |w.owners|)
    requires name !in AcceptWords && name !in RejectWords
    requires env.resolve(name).None? || !env.online(env.resolve(name).value) || env.resolve(name) == Some(sender)
    ensures Step(w, sender, [name], now, env)
         == (w, [Notice(sender,
                        if env.resolve(name).None? then UnknownPlayer(None)
                        else if !env.online(env.resolve(name).value) then PlayerOffline(name)
                        else TransferNoSelf(name))])
  {
  }

  /** A successful proposal installs a task keyed by the receiver, holding a snapshot of the sender's shops. */
  lemma ProposalInstalls(w: World, sender: Uuid, name: string, now: int, env: Env, later: int)
    requires TasksFit(w.cache, |w.owners|) && EnvFits(env, |w.owners|)
    requires name !in AcceptWords && name !in RejectWords
    requires env.resolve(name).Some? && env.online(env.resolve(name).value)
    requires env.resolve(name).value != sender
    ensures var receiver := env.resolve(name).value;
      var r := Step(w, sender, [name], now, env);
      r.0.owners == w.owners &&
      r.0.cache == w.cache[receiver := CacheEntry(PendingTransferTask(sender, receiver, env.shopsOf(sender)), now)] &&
      r.1 == [Notice(sender, TransferSent(name)), Notice(receiver, TransferRequest(sender)),
              Notice(receiver, TransferAsk(60))] &&
      (later - now < ExpireAfterWriteNanos <==>
         Lookup(r.0.cache, receiver, later) == Some(PendingTransferTask(sender, receiver, env.shopsOf(sender))))
  {
  }

  /** Of two successful proposals to the same receiver, the later one is the one that stays. */
  lemma ProposalLastWriterWins(w: World, s1: Uuid, n1: string, t1: int,
                               s2: Uuid, n2: string, t2: int, env: Env, now: int)
    requires TasksFit(w.cache, |w.owners|) && EnvFits(env, |w.owners|)
    requires n1 !in AcceptWords && n1 !in RejectWords && n2 !in AcceptWords && n2 !in RejectWords
    requires env.resolve(n1).Some? && env.resolve(n1) == env.resolve(n2)
    requires env.online(env.resolve(n1).value)
    requires s1 != env.resolve(n1).value && s2 != env.resolve(n1).value
    ensures var receiver := env.resolve(n1).value;
      var w1 := Step(w, s1, [n1], t1, env).0;
      var w2 := Step(w1, s2, [n2], t2, env).0;
      Lookup(w2.cache, receiver, now)
      == if now - t2 < ExpireAfterWriteNanos
         then Some(PendingTransferTask(s2, receiver, env.shopsOf(s2))) else None
  {
  }

  /**
   * The commit uses the snapshot taken at proposal time: shops the sender
   * gains or loses later (a different `shopsOf` at acceptance) do not matter.
   */
  lemma AcceptUsesSnapshot(w: World, sender: Uuid, name: string, t0: int, env0: Env,
                           word: string, t1: int, env1: Env)
    requires TasksFit(w.cache, |w.owners|) && EnvFits(env0, |w.owners|) && EnvFits(env1, |w.owners|)
    requires name !in AcceptWords && name !in RejectWords
    requires env0.resolve(name).Some? && env0.online(env0.resolve(name).value)
    requires env0.resolve(name).value != sender
    requires word in AcceptWords && t1 - t0 < ExpireAfterWriteNanos
    ensures var receiver := env0.resolve(name).value;
      var w1 := Step(w, sender, [name], t0, env0).0;
      var r := Step(w1, receiver, [word], t1, env1);
      ShopsIn(env0.shopsOf(sender), |w.owners|) &&
      r.0.owners == Committed(w.owners, env0.shopsOf(sender), receiver, env1.veto) &&
      r.1 == [Notice(sender, TransferAcceptedFromSide(receiver)), Notice(receiver, TransferAcceptedToSide(sender))]
  {
  }

  /** Once 60 seconds have passed since the proposal, accepting finds nothing and writes no owner. */
  lemma ProposalExpires(w: World, sender: Uuid, name: string, t0: int, word: string, t1: int, env: Env)
    requires TasksFit(w.cache, |w.owners|) && EnvFits(env, |w.owners|)
    requires name !in AcceptWords && name !in RejectWords
    requires env.resolve(name).Some? && env.online(env.resolve(name).value)
    requires env.resolve(name).value != sender
    requires word in AcceptWords || word in RejectWords
    requires t1 - t0 >= ExpireAfterWriteNanos
    ensures var receiver := env.resolve(name).value;
      var w1 := Step(w, sender, [name], t0, env).0;
      var r := Step(w1, receiver, [word], t1, env);
      r.0.owners == w.owners && r.1 == [Notice(receiver, NoPendingOperation)]
  {
  }

  /** Two arguments without the permission: `no-permission`, and no state change. */
  lemma OverrideNeedsPermission(w: World, sender: Uuid, fromName: string, toName: string, now: int, env: Env)
    requires TasksFit(w.cache, |w.owners|) && EnvFits(env, |w.owners|)
    requires !env.hasPermission(sender, TransferOtherPermission)
    ensures Step(w, sender, [fromName, toName], now, env) == (w, [Notice(sender, NoPermission)])
  {
  }

  /**
   * With the permission, an unknown or offline from-player is reported first,
   * then an unknown or offline target; either way nothing changes.
   */
  lemma OverrideUnknownPlayer(w: World, sender: Uuid, fromName: string, toName: string, now: int, env: Env)
    requires TasksFit(w.cache, |w.owners|) && EnvFits(env, |w.owners|)
    requires env.hasPermission(sender, TransferOtherPermission)
    requires OnlinePlayer(env, fromName).None? || OnlinePlayer(env, toName).None?
    ensures Step(w, sender, [fromName, toName], now, env)
         == (w, [Notice(sender, UnknownPlayer(Some(if OnlinePlayer(env, fromName).None?
                                                   then "fromPlayer" else "targetPlayer")))])
  {
  }

  /**
   * The override path never touches the registry. When both players are
   * online it commits `from`'s current shops to `target` and reports the size
   * of that list, however many of the shops were vetoed.
   */
  lemma OverrideBypassesRegistry(w: World, sender: Uuid, fromName: string, toName: string, now: int, env: Env)
    requires TasksFit(w.cache, |w.owners|) && EnvFits(env, |w.owners|)
    ensures var r := Step(w, sender, [fromName, toName], now, env);
      r.0.cache == w.cache &&
      (env.hasPermission(sender, TransferOtherPermission) &&
       OnlinePlayer(env, fromName).Some? && OnlinePlayer(env, toName).Some? ==>
         var from := OnlinePlayer(env, fromName).value;
         ShopsIn(env.shopsOf(from), |w.owners|) &&
         r.0.owners == Committed(w.owners, env.shopsOf(from), OnlinePlayer(env, toName).value, env.veto) &&
         r.1 == [Notice(sender, TransferSuccessOther(|env.shopsOf(from)|, fromName, toName))])
  {
  }
}
