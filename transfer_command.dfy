/**
 * The transfer sub-command as the source runs it: a task cache object whose
 * entries are put and invalidated in place, and a commit loop that writes the
 * owner field of each shop it does not skip. Each method is proved against
 * the matching function of TransferProtocol.
 */
module TransferCommand {
  import opened Wrappers
  import opened TransferProtocol

  /** The expire-after-write cache of pending tasks, keyed by the recipient's UUID. */
  class TaskCache {
    var entries: Registry

    constructor ()
      ensures entries == map[]
    {
      entries := map[];
    }

    method Put(key: Uuid, task: PendingTransferTask, now: int)
      modifies this
      ensures entries == Written(old(entries), key, task, now)
    {
      entries := entries[key := CacheEntry(task, now)];
    }

    /** The task for `key`, unless there is none or it was written 60 seconds or more ago. */
    method GetIfPresent(key: Uuid, now: int) returns (task: Option<PendingTransferTask>)
      ensures task == Lookup(entries, key, now)
    {
      if key in entries && now - entries[key].writeTime < ExpireAfterWriteNanos {
        task := Some(entries[key].task);
      } else {
        task := None;
      }
    }

    method Invalidate(key: Uuid)
      modifies this
      ensures entries == Invalidated(old(entries), key)
    {
      entries := entries - {key};
    }
  }

  /**
   * `PendingTransferTask.commit`: walk the snapshot in order; a shop whose
   * transfer event is cancelled is skipped, every other shop gets owner `to`.
   */
  method Commit(task: PendingTransferTask, sendMessage: bool, owners: array<Uuid>,
                veto: TransferEvent -> bool) returns (sent: seq<Notice>)
    requires ShopsIn(task.shops, owners.Length)
    modifies owners
    ensures owners[..] == Committed(old(owners[..]), task.shops, task.to, veto)
    ensures sent == CommitNotices(task, sendMessage)
  {
    for i := 0 to |task.shops|
      invariant ShopsIn(task.shops[i..], owners.Length)
      invariant Committed(owners[..], task.shops[i..], task.to, veto)
             == Committed(old(owners[..]), task.shops, task.to, veto)
    {
      var shop := task.shops[i];
      ghost var before := owners[..];
      CommittedUnfolds(before, task.shops[i..], task.to, veto);
      assert task.shops[i..][0] == shop && task.shops[i..][1..] == task.shops[i + 1..];
      if veto(TransferEvent(shop, owners[shop], task.to)) {
        continue;
      }
      owners[shop] := task.to;
      assert owners[..] == before[shop := task.to];
    }
    sent := CommitNotices(task, sendMessage);
  }

  /** `SubCommand_Transfer`: the command object, its task cache and the shops it reaches. */
  class SubCommandTransfer {
    const taskCache: TaskCache
    const shopOwners: array<Uuid>

    ghost predicate Valid()
      reads this, taskCache
    {
      TasksFit(taskCache.entries, shopOwners.Length)
    }

    constructor (shopOwners: array<Uuid>)
      ensures Valid() && fresh(taskCache) && taskCache.entries == map[]
      ensures this.shopOwners == shopOwners
    {
      taskCache := new TaskCache();
      this.shopOwners := shopOwners;
    }

    /** `onCommand`: the new cache and owners, and the notices sent, are those of `Step`. */
    method OnCommand(sender: Uuid, args: seq<string>, now: int, env: Env) returns (sent: seq<Notice>)
      requires Valid() && EnvFits(env, shopOwners.Length)
      modifies taskCache, shopOwners
      ensures Valid()
      ensures (World(taskCache.entries, shopOwners[..]), sent)
           == Step(World(old(taskCache.entries), old(shopOwners[..])), sender, args, now, env)
    {
      if |args| == 0 {
        sent := [Notice(sender, WrongArgs)];
        return;
      }
      sent := [];
      if |args| == 1 {
        if args[0] in AcceptWords {
          sent := Respond(sender, true, now, env.veto);
        } else if args[0] in RejectWords {
          sent := Respond(sender, false, now, env.veto);
        } else {
          sent := Propose(sender, args[0], now, env);
        }
      }
      if |args| == 2 {
        sent := Override(sender, args[0], args[1], env);
      }
    }

    /** The `accept`/`reject` branches: look the sender's entry up, drop it, then commit or cancel. */
    method Respond(sender: Uuid, accept: bool, now: int, veto: TransferEvent -> bool) returns (sent: seq<Notice>)
      requires Valid()
      modifies taskCache, shopOwners
      ensures Valid()
      ensures (World(taskCache.entries, shopOwners[..]), sent)
           == RespondStep(World(old(taskCache.entries), old(shopOwners[..])), sender, accept, now, veto)
    {
      var task := taskCache.GetIfPresent(sender, now);
      taskCache.Invalidate(sender);
      if task == None {
        sent := [Notice(sender, NoPendingOperation)];
        return;
      }
      if accept {
        sent := Commit(task.value, true, shopOwners, veto);
      } else {
        sent := CancelNotices(task.value, true);
      }
    }

    /** The default one-argument branch: a proposal to the player called `name`. */
    method Propose(sender: Uuid, name: string, now: int, env: Env) returns (sent: seq<Notice>)
      requires Valid() && EnvFits(env, shopOwners.Length)
      modifies taskCache
      ensures Valid()
      ensures (World(taskCache.entries, shopOwners[..]), sent)
           == ProposeStep(World(old(taskCache.entries), shopOwners[..]), sender, name, now, env)
    {
      var uuid := env.resolve(name);
      if uuid == None {
        sent := [Notice(sender, UnknownPlayer(None))];
        return;
      }
      var receiver := uuid.value;
      if !env.online(receiver) {
        sent := [Notice(sender, PlayerOffline(name))];
        return;
      }
      if sender == receiver {
        sent := [Notice(sender, TransferNoSelf(name))];
        return;
      }
      var shopsToTransfer := env.shopsOf(sender);
      var task := PendingTransferTask(sender, receiver, shopsToTransfer);
      taskCache.Put(receiver, task, now);
      sent := [Notice(sender, TransferSent(name)), Notice(receiver, TransferRequest(sender)),
               Notice(receiver, TransferAsk(AskSeconds))];
    }

    /** The two-argument branch; its frame leaves the task cache out. */
    method Override(sender: Uuid, fromName: string, toName: string, env: Env) returns (sent: seq<Notice>)
      requires Valid() && EnvFits(env, shopOwners.Length)
      modifies shopOwners
      ensures Valid()
      ensures (World(taskCache.entries, shopOwners[..]), sent)
           == OverrideStep(World(taskCache.entries, old(shopOwners[..])), sender, fromName, toName, env)
    {
      if !env.hasPermission(sender, TransferOtherPermission) {
        sent := [Notice(sender, NoPermission)];
        return;
      }
      var fromPlayer := OnlinePlayer(env, fromName);
      var targetPlayer := OnlinePlayer(env, toName);
      if fromPlayer == None {
        sent := [Notice(sender, UnknownPlayer(Some("fromPlayer")))];
        return;
      }
      if targetPlayer == None {
        sent := [Notice(sender, UnknownPlayer(Some("targetPlayer")))];
        return;
      }
      var shopList := env.shopsOf(fromPlayer.value);
      var task := PendingTransferTask(fromPlayer.value, targetPlayer.value, shopList);
      sent := Commit(task, false, shopOwners, env.veto);
      sent := sent + [Notice(sender, TransferSuccessOther(|shopList|, fromName, toName))];
    }
  }
}
