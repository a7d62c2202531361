/** Bot-maintained slowmode: the handler that runs for every saved message of a guild.

    One call handles one inbound message. It skips bot messages and channels that cannot hold
    slowmode. It takes the message's lock, reads the channel's slowmode configuration through a
    per-plugin cache, and checks that the author is affected and that the bot may manage the
    channel. Then it either deletes a message sent while the author is already slowmoded or
    applies slowmode to the author.

    The platform, the database and the permission system are oracles (`Env`, `Store`), and every
    effect the handler issues is recorded in a trace (`Effect`). */
module Slowmode {
  import opened Wrappers

  /** Discord's numeric identifiers, as the strings the source passes around. */
  type Snowflake = string

  /** The fields of a saved message that the handler reads. */
  datatype SavedMessage = SavedMessage(id: Snowflake, channelId: Snowflake, userId: Snowflake, isBot: bool)

  /** What the guild's channel cache resolves the message's channel id to. `Unresolved` is a miss
      (`undefined`). A stage channel is text-based, but the handler excludes it anyway. */
  datatype ChannelKind = Unresolved | NotTextBased | StageVoice | TextBased

  /** A channel's bot-slowmode row in the database. */
  datatype SlowmodeChannel = SlowmodeChannel(channelId: Snowflake, slowmodeSeconds: nat)

  /** The database's table of channels with a bot-maintained slowmode, by channel id. */
  type Store = map<Snowflake, SlowmodeChannel>

  /** `channelSlowmodeCache`: an entry holds either the row or `null` ("this channel has no slowmode"). */
  type Cache = map<Snowflake, Option<SlowmodeChannel>>

  /** The answers of the outside world for one message:
      the channel the message's channel id resolves to; whether the lock for this message had
      already been interrupted by an earlier stage; `hasPermission(..., "is_affected", ...)`;
      the bitfield returned by `getMissingChannelPermissions` (0n, which is falsy, means none is
      missing); `userHasSlowmode`; and whether deleting the message succeeds. */
  datatype Env = Env(
    channel: ChannelKind,
    lockInterrupted: bool,
    isAffected: bool,
    missingPermissions: nat,
    userHasSlowmode: bool,
    deleteSucceeds: bool)

  /** What the handler does to the world, in order. */
  datatype Effect =
    | AcquireLock(messageId: Snowflake)                    // locks.acquire(messageLock(msg))
    | QueryChannelSlowmode(channelId: Snowflake)           // slowmodes.getChannelSlowmode on a cache miss
    | BotAlert(channelId: Snowflake, missingPermissions: nat)  // LogsPlugin.logBotAlert
    | DeleteMessage(channelId: Snowflake, messageId: Snowflake) // channel.messages.delete (attempted)
    | ApplySlowmode(channelId: Snowflake, userId: Snowflake)    // applyBotSlowmodeToUserId
    | InterruptLock
    | UnlockLock

  /** Which exit the handler took. */
  datatype Outcome =
    | IgnoredBot
    | IgnoredChannel
    | AlreadyInterrupted
    | NoSlowmode
    | NotAffected
    | MissingPermissions
    | DeletedExtra
    | DeleteFailed
    | Applied

  /** The observable state of a message lock. */
  datatype LockView = LockView(interrupted: bool, unlockCount: nat, interruptCount: nat)

  /** The result of handling one message: the exit taken, the effect trace, the new cache, and the
      final state of the message's lock (`None` when no lock was acquired). */
  datatype Step = Step(outcome: Outcome, effects: seq<Effect>, cache: Cache, lock: Option<LockView>)

  /** `getChannelSlowmode(channelId) ?? null` */
  function GetChannelSlowmode(store: Store, channelId: Snowflake): Option<SlowmodeChannel>
  {
    if channelId in store then Some(store[channelId]) else None
  }

  /** The handler gets as far as acquiring the message lock. */
  predicate Acquires(msg: SavedMessage, env: Env)
  {
    !msg.isBot && env.channel == TextBased
  }

  /** The handler gets as far as reading the channel's slowmode configuration. */
  predicate ReadsConfig(msg: SavedMessage, env: Env)
  {
    Acquires(msg, env) && !env.lockInterrupted
  }

  /** Every effect names this message, its channel, its author or the bitfield from `env`. */
  predicate Concerns(e: Effect, msg: SavedMessage, env: Env)
  {
    match e
    case AcquireLock(id) => id == msg.id
    case QueryChannelSlowmode(c) => c == msg.channelId
    case BotAlert(c, m) => c == msg.channelId && m == env.missingPermissions
    case DeleteMessage(c, id) => c == msg.channelId && id == msg.id
    case ApplySlowmode(c, u) => c == msg.channelId && u == msg.userId
    case InterruptLock => true
    case UnlockLock => true
  }

  /** The configuration read through the cache, the cache afterwards, and whether the store was asked. */
  datatype CacheRead = CacheRead(config: Option<SlowmodeChannel>, cache: Cache, queried: bool)

  /** The read-through of `channelSlowmodeCache` for one channel. */
  function ReadThrough(store: Store, cache: Cache, channelId: Snowflake): (r: CacheRead)
    ensures channelId in r.cache && r.config == r.cache[channelId]
    ensures r.queried <==> channelId !in cache
    ensures channelId in cache ==> r.cache == cache
    ensures channelId !in cache ==> r.config == GetChannelSlowmode(store, channelId)
    ensures r.cache.Keys == cache.Keys + {channelId}
    ensures forall k | k in cache :: r.cache[k] == cache[k]
  {
    if channelId in cache then CacheRead(cache[channelId], cache, false)
    else
      var config := GetChannelSlowmode(store, channelId);
      CacheRead(config, cache[channelId := config], true)
  }

  /** What is left of the handler once the lock is held, not interrupted, and the configuration read:
      its exit, the effects it issues, and the lock's final state. */
  datatype Tail = Tail(outcome: Outcome, effects: seq<Effect>, lock: LockView)

  /** The handler after the configuration read: the checks for a configuration, an affected author and
      the bot's permissions, then delete-or-apply. */
  function AfterConfigRead(config: Option<SlowmodeChannel>, msg: SavedMessage, env: Env): (t: Tail)
    ensures forall e | e in t.effects :: Concerns(e, msg, env) && !e.AcquireLock? && !e.QueryChannelSlowmode?
    // which exit is taken
    ensures t.outcome in {NoSlowmode, NotAffected} <==> config.None? || !env.isAffected
    ensures t.outcome == MissingPermissions <==> config.Some? && env.isAffected && env.missingPermissions != 0
    ensures t.outcome in {DeletedExtra, DeleteFailed} <==>
              config.Some? && env.isAffected && env.missingPermissions == 0 && env.userHasSlowmode
    ensures t.outcome == DeletedExtra <==>
              config.Some? && env.isAffected && env.missingPermissions == 0 && env.userHasSlowmode && env.deleteSucceeds
    ensures t.outcome == Applied <==>
              config.Some? && env.isAffected && env.missingPermissions == 0 && !env.userHasSlowmode
    // the lock record agrees with the trace
    ensures t.lock == LockView(InterruptLock in t.effects, multiset(t.effects)[UnlockLock], multiset(t.effects)[InterruptLock])
  {
    if config.None? then Tail(NoSlowmode, [UnlockLock], LockView(false, 1, 0))
    else if !env.isAffected then Tail(NotAffected, [UnlockLock], LockView(false, 1, 0))
    else if env.missingPermissions != 0 then
      Tail(MissingPermissions, [BotAlert(msg.channelId, env.missingPermissions)], LockView(false, 0, 0))
    else if env.userHasSlowmode then
      if env.deleteSucceeds then
        Tail(DeletedExtra, [DeleteMessage(msg.channelId, msg.id), InterruptLock], LockView(true, 0, 1))
      else
        Tail(DeleteFailed, [DeleteMessage(msg.channelId, msg.id), UnlockLock], LockView(false, 1, 0))
    else
      Tail(Applied, [ApplySlowmode(msg.channelId, msg.userId), UnlockLock], LockView(false, 1, 0))
  }

  /** The effects and lock operations of each exit after the configuration read: an alert only when
      permissions are missing, a delete only for an author already under slowmode, slowmode applied
      only on the last exit and then the lock unlocked; at most one delete, at most one unlock and at
      most one interrupt, and an interrupt only right after a successful delete. */
  lemma ExitEffects(config: Option<SlowmodeChannel>, msg: SavedMessage, env: Env)
    ensures var t := AfterConfigRead(config, msg, env);
            (BotAlert(msg.channelId, env.missingPermissions) in t.effects <==> t.outcome == MissingPermissions) &&
            multiset(t.effects)[BotAlert(msg.channelId, env.missingPermissions)] <= 1
    ensures var t := AfterConfigRead(config, msg, env);
            (DeleteMessage(msg.channelId, msg.id) in t.effects <==> t.outcome in {DeletedExtra, DeleteFailed}) &&
            multiset(t.effects)[DeleteMessage(msg.channelId, msg.id)] <= 1 &&
            (t.outcome == DeletedExtra ==> t.effects == [DeleteMessage(msg.channelId, msg.id), InterruptLock])
    ensures var t := AfterConfigRead(config, msg, env);
            (ApplySlowmode(msg.channelId, msg.userId) in t.effects <==> t.outcome == Applied) &&
            (t.outcome == Applied ==> t.effects == [ApplySlowmode(msg.channelId, msg.userId), UnlockLock])
    ensures var t := AfterConfigRead(config, msg, env);
            (UnlockLock in t.effects <==> t.outcome in {NoSlowmode, NotAffected, DeleteFailed, Applied}) &&
            multiset(t.effects)[UnlockLock] <= 1
    ensures var t := AfterConfigRead(config, msg, env);
            (InterruptLock in t.effects <==> t.outcome == DeletedExtra) &&
            multiset(t.effects)[InterruptLock] <= 1
  {
  }

  /** One run of `onMessageCreate`, as a function of the store, the cache and the oracles. */
  function OnMessageCreateStep(store: Store, cache: Cache, msg: SavedMessage, env: Env): (s: Step)
    ensures forall e | e in s.effects :: Concerns(e, msg, env)
    // bot messages and unusable channels: nothing at all happens
    ensures msg.isBot ==> s == Step(IgnoredBot, [], cache, None)
    ensures !msg.isBot && env.channel != TextBased ==> s == Step(IgnoredChannel, [], cache, None)
    ensures s.lock.Some? <==> Acquires(msg, env)
    ensures AcquireLock(msg.id) in s.effects <==> Acquires(msg, env)
    // an interrupted lock: stop before the cache, without unlocking
    ensures Acquires(msg, env) && env.lockInterrupted ==>
              s == Step(AlreadyInterrupted, [AcquireLock(msg.id)], cache, Some(LockView(true, 0, 0)))
    // otherwise the cache is read through and the rest of the handler runs on what it yields
    ensures !ReadsConfig(msg, env) ==> s.cache == cache
    ensures ReadsConfig(msg, env) ==>
              var r := ReadThrough(store, cache, msg.channelId);
              var t := AfterConfigRead(r.config, msg, env);
              s.cache == r.cache && s.outcome == t.outcome && s.lock == Some(t.lock) &&
              s.effects == [AcquireLock(msg.id)] + (if r.queried then [QueryChannelSlowmode(msg.channelId)] else []) + t.effects
    ensures forall k | k in cache :: k in s.cache && s.cache[k] == cache[k]
    ensures forall c | QueryChannelSlowmode(c) in s.effects :: c !in cache && c in s.cache
    ensures InterruptLock in s.effects ==> s.outcome == DeletedExtra && env.userHasSlowmode && env.deleteSucceeds
  {
    if msg.isBot then Step(IgnoredBot, [], cache, None)
    else if env.channel != TextBased then Step(IgnoredChannel, [], cache, None)
    else
      var acquire := [AcquireLock(msg.id)];
      if env.lockInterrupted then Step(AlreadyInterrupted, acquire, cache, Some(LockView(true, 0, 0)))
      else
        var r := ReadThrough(store, cache, msg.channelId);
        var t := AfterConfigRead(r.config, msg, env);
        var read := if r.queried then [QueryChannelSlowmode(msg.channelId)] else [];
        Step(t.outcome, acquire + read + t.effects, r.cache, Some(t.lock))
  }

  /** On every path through the handler the lock is unlocked at most once and interrupted at most
      once, an interrupt happens only after a successful delete, and the lock record agrees with the
      trace. Some paths leave the lock neither unlocked nor interrupted. */
  lemma LockDiscipline(store: Store, cache: Cache, msg: SavedMessage, env: Env)
    ensures var s := OnMessageCreateStep(store, cache, msg, env);
            multiset(s.effects)[UnlockLock] <= 1 && multiset(s.effects)[InterruptLock] <= 1
    ensures var s := OnMessageCreateStep(store, cache, msg, env);
            InterruptLock in s.effects ==> s.outcome == DeletedExtra && env.userHasSlowmode && env.deleteSucceeds
    ensures var s := OnMessageCreateStep(store, cache, msg, env);
            s.lock.Some? ==>
              s.lock.value == LockView(env.lockInterrupted || InterruptLock in s.effects,
                                       multiset(s.effects)[UnlockLock], multiset(s.effects)[InterruptLock])
  {
    if ReadsConfig(msg, env) {
      var r := ReadThrough(store, cache, msg.channelId);
      var t := AfterConfigRead(r.config, msg, env);
      var prefix := [AcquireLock(msg.id)] + (if r.queried then [QueryChannelSlowmode(msg.channelId)] else []);
      assert OnMessageCreateStep(store, cache, msg, env).effects == prefix + t.effects;
      assert multiset(prefix)[UnlockLock] == 0 && multiset(prefix)[InterruptLock] == 0;
      ExitEffects(r.config, msg, env);
    }
  }

  /** A lock handed out by the plugin's lock manager for one message. Only its observable state is
      modelled: waiting for and releasing the underlying mutual exclusion is not. */
  class MessageLock {
    var interrupted: bool
    var unlockCount: nat
    var interruptCount: nat

    function View(): LockView
      reads this
    {
      LockView(interrupted, unlockCount, interruptCount)
    }

    /** A freshly acquired lock; it starts interrupted if an earlier stage interrupted this message. */
    constructor Acquired(interruptedEarlier: bool)
      ensures View() == LockView(interruptedEarlier, 0, 0)
    {
      interrupted := interruptedEarlier;
      unlockCount := 0;
      interruptCount := 0;
    }

    method Unlock()
      modifies this
      ensures View() == old(View()).(unlockCount := old(unlockCount) + 1)
    {
      unlockCount := unlockCount + 1;
    }

    method Interrupt()
      modifies this
      ensures View() == LockView(true, old(unlockCount), old(interruptCount) + 1)
    {
      interrupted := true;
      interruptCount := interruptCount + 1;
    }
  }

  /** The Slowmode plugin's state that the handler uses: the channel slowmode cache, and the
      database's table of slowmode channels, which the handler only reads. */
  class SlowmodePlugin {
    var channelSlowmodeCache: Cache
    const slowmodes: Store

    constructor (slowmodes: Store)
      ensures this.slowmodes == slowmodes && channelSlowmodeCache == map[]
    {
      this.slowmodes := slowmodes;
      channelSlowmodeCache := map[];
    }

    /** The read-through of lines 26-32: a hit returns the cached entry (`null` included); a miss
        asks the store and caches its answer, `null` included. */
    method ReadChannelSlowmode(channelId: Snowflake) returns (channelSlowmode: Option<SlowmodeChannel>, queried: bool)
      modifies this
      ensures var r := ReadThrough(slowmodes, old(channelSlowmodeCache), channelId);
              channelSlowmode == r.config && queried == r.queried && channelSlowmodeCache == r.cache
    {
      if channelId in channelSlowmodeCache {
        channelSlowmode := channelSlowmodeCache[channelId];
        queried := false;
      } else {
        channelSlowmode := GetChannelSlowmode(slowmodes, channelId);
        queried := true;
        channelSlowmodeCache := channelSlowmodeCache[channelId := channelSlowmode];
      }
    }

    /** Lines 33-78 of the handler, run with the message's lock held and not interrupted. */
    method EnforceAfterConfigRead(lock: MessageLock, channelSlowmode: Option<SlowmodeChannel>, msg: SavedMessage, env: Env)
      returns (outcome: Outcome, effects: seq<Effect>)
      requires lock.View() == LockView(false, 0, 0)
      modifies lock
      ensures var t := AfterConfigRead(channelSlowmode, msg, env);
              outcome == t.outcome && effects == t.effects && lock.View() == t.lock
    {
      effects := [];
      if channelSlowmode.None? {
        lock.Unlock();
        effects := effects + [UnlockLock];
        outcome := NoSlowmode;
        return;
      }

      if !env.isAffected {
        lock.Unlock();
        effects := effects + [UnlockLock];
        outcome := NotAffected;
        return;
      }

      if env.missingPermissions != 0 {
        effects := effects + [BotAlert(msg.channelId, env.missingPermissions)];
        outcome := MissingPermissions;
        return;
      }

      if env.userHasSlowmode {
        effects := effects + [DeleteMessage(msg.channelId, msg.id)];
        if env.deleteSucceeds {
          lock.Interrupt();
          effects := effects + [InterruptLock];
          outcome := DeletedExtra;
        } else {
          lock.Unlock();
          effects := effects + [UnlockLock];
          outcome := DeleteFailed;
        }
        return;
      }

      effects := effects + [ApplySlowmode(msg.channelId, msg.userId)];
      lock.Unlock();
      effects := effects + [UnlockLock];
      outcome := Applied;
    }

    /** `onMessageCreate(pluginData, msg)`, with the outside world's answers in `env`. */
    method OnMessageCreate(msg: SavedMessage, env: Env) returns (outcome: Outcome, effects: seq<Effect>, lock: MessageLock?)
      modifies this
      ensures var s := OnMessageCreateStep(slowmodes, old(channelSlowmodeCache), msg, env);
              outcome == s.outcome && effects == s.effects && channelSlowmodeCache == s.cache &&
              (lock == null <==> s.lock.None?) &&
              (lock != null ==> fresh(lock) && lock.View() == s.lock.value)
    {
      ghost var step := OnMessageCreateStep(slowmodes, channelSlowmodeCache, msg, env);
      effects := [];
      lock := null;
      if msg.isBot {
        outcome := IgnoredBot;
        return;
      }
      if env.channel != TextBased {
        outcome := IgnoredChannel;
        return;
      }

      lock := new MessageLock.Acquired(env.lockInterrupted);
      effects := effects + [AcquireLock(msg.id)];
      if lock.interrupted {
        outcome := AlreadyInterrupted;
        return;
      }

      ghost var read := ReadThrough(slowmodes, channelSlowmodeCache, msg.channelId);
      var channelSlowmode, queried := ReadChannelSlowmode(msg.channelId);
      if queried {
        effects := effects + [QueryChannelSlowmode(msg.channelId)];
      }
      var rest;
      outcome, rest := EnforceAfterConfigRead(lock, channelSlowmode, msg, env);
      effects := effects + rest;
      assert step == Step(outcome, effects, read.cache, Some(lock.View()));
    }
  }

  /** One inbound message together with the outside world's answers for it. */
  datatype Event = Event(msg: SavedMessage, env: Env)

  /** The cache left behind and the effects issued by a run of handler calls. */
  datatype Run = Run(cache: Cache, effects: seq<Effect>)

  /** The handler called once per event, in order, all calls sharing the plugin's cache. */
  function RunEvents(store: Store, cache: Cache, events: seq<Event>): Run
    decreases |events|
  {
    if |events| == 0 then Run(cache, [])
    else
      var s := OnMessageCreateStep(store, cache, events[0].msg, events[0].env);
      var rest := RunEvents(store, s.cache, events[1..]);
      Run(rest.cache, s.effects + rest.effects)
  }

  /** The cache has no expiry: over handler calls that do not interleave, once a channel is cached,
      its entry is never dropped or refreshed, whatever the store says later. */
  lemma {:induction false} CachedEntriesNeverChange(store: Store, cache: Cache, events: seq<Event>)
    ensures var r := RunEvents(store, cache, events);
            forall k | k in cache :: k in r.cache && r.cache[k] == cache[k]
    decreases |events|
  {
    if |events| > 0 {
      var s := OnMessageCreateStep(store, cache, events[0].msg, events[0].env);
      CachedEntriesNeverChange(store, s.cache, events[1..]);
    }
  }

  /** Over any run of handler calls that do not interleave, the store is asked for a channel's
      configuration at most once, and never for a channel that was already cached. */
  lemma {:induction false} StoreQueriedAtMostOnce(store: Store, cache: Cache, events: seq<Event>, channelId: Snowflake)
    ensures multiset(RunEvents(store, cache, events).effects)[QueryChannelSlowmode(channelId)]
              <= if channelId in cache then 0 else 1
    decreases |events|
  {
    if |events| > 0 {
      var q := QueryChannelSlowmode(channelId);
      var s := OnMessageCreateStep(store, cache, events[0].msg, events[0].env);
      var rest := RunEvents(store, s.cache, events[1..]);
      StoreQueriedAtMostOnce(store, s.cache, events[1..], channelId);
      assert RunEvents(store, cache, events).effects == s.effects + rest.effects;
      if q in s.effects {
        assert channelId !in cache && channelId in s.cache;
        assert multiset(s.effects)[q] == 1;
      } else {
        assert multiset(s.effects)[q] == 0;
        assert channelId in cache ==> channelId in s.cache;
      }
    }
  }

  /** Whenever the cache starts out agreeing with an unchanging store, it keeps agreeing with it:
      every entry added is the store's answer, `null` included. */
  lemma {:induction false} CacheAgreesWithStore(store: Store, cache: Cache, events: seq<Event>)
    requires forall k | k in cache :: cache[k] == GetChannelSlowmode(store, k)
    ensures var r := RunEvents(store, cache, events);
            forall k | k in r.cache :: r.cache[k] == GetChannelSlowmode(store, k)
    decreases |events|
  {
    if |events| > 0 {
      var s := OnMessageCreateStep(store, cache, events[0].msg, events[0].env);
      CacheAgreesWithStore(store, s.cache, events[1..]);
    }
  }
}
