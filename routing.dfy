/**
 * The routing tables of the destinations service and the invariant that ties
 * them to the live units: per token, the destination IDs, the batch storages,
 * the consumers (a stream destination's queue under its own name, the token's
 * shared logger under the token itself) and the reference-counted loggers.
 */
module Routing {
  import opened Wrappers
  import opened Tokenized
  import opened Units

  /** An `events.Consumer`: a stream destination's queue, or a token's shared incoming logger. */
  datatype Consumer = QueueConsumer(queue: Option<Handle>) | LoggerConsumer(logger: Handle)

  /** `LoggerUsage`: a shared logger and the number of batch registrations that use it. */
  datatype LoggerUsage = LoggerUsage(logger: Handle, usage: int)

  /** The service's maps, apart from the unit registry. */
  datatype Tables = Tables(
    loggers: map<TokenID, LoggerUsage>,
    consumers: Nested<Consumer>,
    storages: Nested<Handle>,
    ids: Nested<bool>)

  /** The consumers, storages and IDs a cycle collects before it merges them into the service. */
  datatype Pending = Pending(consumers: Nested<Consumer>, storages: Nested<Handle>, ids: Nested<bool>)

  const NothingPending := Pending(map[], map[], map[])

  /** The calls the service makes into its collaborators, in order. */
  datatype Effect =
    | FactoryCalled(name: Name)                   // storageFactory.Create
    | LoggerCreated(token: TokenID, logger: Handle) // loggerFactory.CreateIncomingLogger
    | LoggerClosed(token: TokenID, logger: Handle)  // logger.Close()
    | UnitClosed(name: Name, unit: Unit)            // unit.Close()

  /**
   * What one unit contributes to the tables: its queue and storage, the tokens
   * it is routed for, and how many times it holds each token's shared logger.
   */
  datatype Reg = Reg(queue: Option<Handle>, storage: Handle, routed: set<TokenID>, held: multiset<TokenID>)

  /** For each token with a shared logger, the batch units holding it (with multiplicity). */
  type Holders = map<TokenID, multiset<Name>>

  /** What a unit contributes once the tokens `done` are registered. */
  function PartialReg(u: Unit, staged: bool, done: seq<TokenID>): Reg
  {
    Reg(u.eventQueue, u.storage,
        if staged then {} else set t | t in done,
        if staged || u.eventQueue.Some? then multiset{} else multiset(done))
  }

  /** What a fully registered unit contributes: nothing when staged. */
  function RegOf(u: Unit, staged: bool): Reg
  {
    PartialReg(u, staged, u.tokenIDs)
  }

  /** The contribution of every live unit. */
  function Regs(units: map<Name, Unit>, staged: set<Name>): map<Name, Reg>
  {
    map n | n in units :: RegOf(units[n], n in staged)
  }

  function Held(holders: Holders, t: TokenID, n: Name): nat
  {
    if t in holders then holders[t][n] else 0
  }

  // ---------------------------------------------------------------------------
  // The tables the registrations determine
  // ---------------------------------------------------------------------------

  /** The token IDs some unit is routed for. */
  function Routed(regs: map<Name, Reg>): set<TokenID>
  {
    set n, t | n in regs && t in regs[n].routed :: t
  }

  /** `destinationsIDByTokenID[t]`: every unit routed for `t`. */
  function IdsFor(regs: map<Name, Reg>, t: TokenID): map<Name, bool>
  {
    map n | n in regs && t in regs[n].routed :: true
  }

  /** `storagesByTokenID[t]`: the storage of every batch unit routed for `t`. */
  function StoragesFor(regs: map<Name, Reg>, t: TokenID): map<Name, Handle>
  {
    map n | n in regs && regs[n].queue.None? && t in regs[n].routed :: regs[n].storage
  }

  /** The queue of every stream unit routed for `t`, under the unit's name. */
  function QueuesFor(regs: map<Name, Reg>, t: TokenID): map<string, Consumer>
  {
    map n | n in regs && regs[n].queue.Some? && t in regs[n].routed :: QueueConsumer(regs[n].queue)
  }

  /** The shared logger of `t`, under `t` itself. */
  function LoggerFor(loggers: map<TokenID, LoggerUsage>, t: TokenID): map<string, Consumer>
  {
    if t in loggers then map[t := LoggerConsumer(loggers[t].logger)] else map[]
  }

  /** `consumersByTokenID[t]`: the stream queues and the shared logger of `t`. */
  function ConsumersFor(loggers: map<TokenID, LoggerUsage>, regs: map<Name, Reg>, t: TokenID): map<string, Consumer>
  {
    QueuesFor(regs, t) + LoggerFor(loggers, t)
  }

  function Ids(regs: map<Name, Reg>): Nested<bool>
  {
    map t | t in Routed(regs) && IdsFor(regs, t) != map[] :: IdsFor(regs, t)
  }

  function Storages(regs: map<Name, Reg>): Nested<Handle>
  {
    map t | t in Routed(regs) && StoragesFor(regs, t) != map[] :: StoragesFor(regs, t)
  }

  function Consumers(loggers: map<TokenID, LoggerUsage>, regs: map<Name, Reg>): Nested<Consumer>
  {
    map t | t in Routed(regs) + loggers.Keys && ConsumersFor(loggers, regs, t) != map[] :: ConsumersFor(loggers, regs, t)
  }

  /** Each token reads as the units routed for it; no token is left with an empty map. */
  lemma GetIds(regs: map<Name, Reg>)
    ensures NoEmpty(Ids(regs))
    ensures forall t :: Get(Ids(regs), t) == IdsFor(regs, t)
  {
    forall t | IdsFor(regs, t) != map[] ensures t in Routed(regs) {
      var n :| n in IdsFor(regs, t);
    }
  }

  lemma GetStorages(regs: map<Name, Reg>)
    ensures NoEmpty(Storages(regs))
    ensures forall t :: Get(Storages(regs), t) == StoragesFor(regs, t)
  {
    forall t | StoragesFor(regs, t) != map[] ensures t in Routed(regs) {
      var n :| n in StoragesFor(regs, t);
    }
  }

  lemma GetConsumers(loggers: map<TokenID, LoggerUsage>, regs: map<Name, Reg>)
    ensures NoEmpty(Consumers(loggers, regs))
    ensures forall t :: Get(Consumers(loggers, regs), t) == ConsumersFor(loggers, regs, t)
  {
    forall t | ConsumersFor(loggers, regs, t) != map[] ensures t in Routed(regs) + loggers.Keys {
      var k :| k in ConsumersFor(loggers, regs, t);
      if k !in LoggerFor(loggers, t) {
        assert k in QueuesFor(regs, t);
      }
    }
  }

  /** Replacing one registration changes each token's IDs at that name only. */
  lemma IdsForUpdate(regs: map<Name, Reg>, name: Name, r: Reg, t: TokenID)
    ensures IdsFor(regs[name := r], t) == if t in r.routed then IdsFor(regs, t)[name := true] else IdsFor(regs, t) - {name}
  {
  }

  lemma StoragesForUpdate(regs: map<Name, Reg>, name: Name, r: Reg, t: TokenID)
    ensures StoragesFor(regs[name := r], t) ==
            if r.queue.None? && t in r.routed then StoragesFor(regs, t)[name := r.storage] else StoragesFor(regs, t) - {name}
  {
  }

  lemma QueuesForUpdate(regs: map<Name, Reg>, name: Name, r: Reg, t: TokenID)
    ensures QueuesFor(regs[name := r], t) ==
            if r.queue.Some? && t in r.routed then QueuesFor(regs, t)[name := QueueConsumer(r.queue)] else QueuesFor(regs, t) - {name}
  {
  }

  /** A stream unit is never routed for a token equal to its own name. */
  ghost predicate QueueNotSelf(regs: map<Name, Reg>)
  {
    forall n :: n in regs && regs[n].queue.Some? ==> n !in regs[n].routed
  }

  /** Each logger's usage is the number of its holds, and a logger without holds is gone. */
  ghost predicate LoggerCounts(loggers: map<TokenID, LoggerUsage>, holders: Holders)
  {
    && holders.Keys == loggers.Keys
    && (forall t :: t in loggers ==> loggers[t].usage == |holders[t]| && holders[t] != multiset{})
  }

  ghost predicate HeldAgrees(holders: Holders, regs: map<Name, Reg>)
  {
    forall t, n :: n in regs ==> regs[n].held[t] == Held(holders, t, n)
  }

  ghost predicate HoldersLive(holders: Holders, regs: map<Name, Reg>)
  {
    forall t, n :: t in holders && holders[t][n] > 0 ==> n in regs
  }

  ghost predicate QueueHoldsNothing(regs: map<Name, Reg>)
  {
    forall n :: n in regs && regs[n].queue.Some? ==> regs[n].held == multiset{}
  }

  /** A token has a shared logger exactly while some batch unit holds it, and its usage counts the holds. */
  ghost predicate HoldersMatch(loggers: map<TokenID, LoggerUsage>, holders: Holders, regs: map<Name, Reg>)
  {
    LoggerCounts(loggers, holders) && HeldAgrees(holders, regs) && HoldersLive(holders, regs) && QueueHoldsNothing(regs)
  }

  /** The tables are exactly what the registrations determine. */
  ghost predicate Matches(tb: Tables, regs: map<Name, Reg>, holders: Holders)
  {
    && tb.ids == Ids(regs)
    && tb.storages == Storages(regs)
    && tb.consumers == Consumers(tb.loggers, regs)
    && QueueNotSelf(regs)
    && HoldersMatch(tb.loggers, holders, regs)
  }

  ghost predicate LiveNoEmpty(tb: Tables)
  {
    NoEmpty(tb.consumers) && NoEmpty(tb.storages) && NoEmpty(tb.ids)
  }

  /** The tables as they will be once the pending entries are merged. */
  function View(tb: Tables, p: Pending): Tables
  {
    Tables(tb.loggers, AddAll(tb.consumers, p.consumers), AddAll(tb.storages, p.storages), AddAll(tb.ids, p.ids))
  }

  /** Some unit of `cycle` holds the logger of `t`. */
  ghost predicate HeldByAny(holders: Holders, t: TokenID, cycle: set<Name>)
  {
    exists n :: n in cycle && Held(holders, t, n) > 0
  }

  /** Every pending entry was registered by a unit of `cycle` (a logger entry: held by one). */
  ghost predicate PendingBy(p: Pending, holders: Holders, cycle: set<Name>)
  {
    && NoEmpty(p.consumers) && NoEmpty(p.storages) && NoEmpty(p.ids)
    && (forall t, n :: Has(p.ids, t, n) ==> n in cycle)
    && (forall t, n :: Has(p.storages, t, n) ==> n in cycle)
    && (forall t, k :: Has(p.consumers, t, k) ==> if k == t then HeldByAny(holders, t, cycle) else k in cycle)
  }

  // ---------------------------------------------------------------------------
  // Removing a unit (`remove`)
  // ---------------------------------------------------------------------------

  /** What `remove` leaves behind, or the nil dereference it runs into. */
  datatype Removal = NilDeref | Removed(tables: Tables, closed: seq<Effect>)

  /**
   * The body of `remove`'s loop for one token: a unit with a queue drops its
   * consumer entry; one without a queue decrements the token's logger usage,
   * closing and dropping the logger (and its consumer entry) at zero, and
   * dereferences nil when the token has no logger; then the unit's storage and
   * ID entries go, and every emptied inner map is dropped.
   */
  function UnregisterToken(tb: Tables, name: Name, hasQueue: bool, t: TokenID): Removal
  {
    if hasQueue then
      Removed(tb.(consumers := Delete(tb.consumers, t, name),
                  storages := Delete(tb.storages, t, name),
                  ids := Delete(tb.ids, t, name)), [])
    else if t !in tb.loggers then NilDeref
    else
      var lu := tb.loggers[t].(usage := tb.loggers[t].usage - 1);
      if lu.usage == 0 then
        Removed(Tables(tb.loggers - {t}, Delete(tb.consumers, t, t),
                       Delete(tb.storages, t, name), Delete(tb.ids, t, name)),
                [LoggerClosed(t, lu.logger)])
      else
        Removed(Tables(tb.loggers[t := lu], Prune(tb.consumers, t),
                       Delete(tb.storages, t, name), Delete(tb.ids, t, name)), [])
  }

  /** `remove`'s loop over the unit's token IDs, in order. */
  function UnregisterAll(tb: Tables, name: Name, hasQueue: bool, tokens: seq<TokenID>): Removal
    decreases |tokens|
  {
    if tokens == [] then Removed(tb, [])
    else match UnregisterAll(tb, name, hasQueue, tokens[..|tokens| - 1])
      case NilDeref => NilDeref
      case Removed(mid, closed) =>
        match UnregisterToken(mid, name, hasQueue, tokens[|tokens| - 1])
        case NilDeref => NilDeref
        case Removed(next, more) => Removed(next, closed + more)
  }

  /** `remove`'s loop over one more token, after a prefix that did not run into nil. */
  lemma UnregisterAllNext(tb: Tables, name: Name, hasQueue: bool, tokens: seq<TokenID>, i: nat)
    requires i < |tokens| && UnregisterAll(tb, name, hasQueue, tokens[..i]).Removed?
    ensures var mid := UnregisterAll(tb, name, hasQueue, tokens[..i]);
            var step := UnregisterToken(mid.tables, name, hasQueue, tokens[i]);
            UnregisterAll(tb, name, hasQueue, tokens[..i + 1]) ==
            if step.NilDeref? then NilDeref else Removed(step.tables, mid.closed + step.closed)
  {
    assert tokens[..i + 1][..i] == tokens[..i];
  }

  /** Once a prefix of the tokens runs into nil, the whole loop does. */
  lemma {:induction false} NilDerefSticks(tb: Tables, name: Name, hasQueue: bool, tokens: seq<TokenID>, i: nat)
    requires i <= |tokens| && UnregisterAll(tb, name, hasQueue, tokens[..i]).NilDeref?
    ensures UnregisterAll(tb, name, hasQueue, tokens).NilDeref?
    decreases |tokens| - i
  {
    if i < |tokens| {
      assert tokens[..i + 1][..i] == tokens[..i];
      NilDerefSticks(tb, name, hasQueue, tokens, i + 1);
    } else {
      assert tokens[..i] == tokens;
    }
  }

  /** `remove`'s loop closes loggers only, one per token whose usage drops to zero. */
  lemma {:induction false} UnregisterClosesLoggers(tb: Tables, name: Name, hasQueue: bool, tokens: seq<TokenID>)
    ensures var r := UnregisterAll(tb, name, hasQueue, tokens);
            r.Removed? ==> forall e :: e in r.closed ==> e.LoggerClosed? && e.token in tokens && e.token !in r.tables.loggers
    decreases |tokens|
  {
    if tokens != [] {
      var pre := tokens[..|tokens| - 1];
      UnregisterClosesLoggers(tb, name, hasQueue, pre);
      assert forall x :: x in pre ==> x in tokens;
    }
  }

  /**
   * `remove`'s loop for a batch unit releases one hold per listing of a
   * token: a logger whose usage equals the unit's listings of its token is
   * closed and dropped, any other logger the unit lists keeps its usage less
   * those listings, and the loggers of other tokens are untouched.
   */
  lemma {:induction false} UnregisterReleases(tb: Tables, name: Name, tokens: seq<TokenID>)
    requires forall t :: t in tokens && t in tb.loggers ==> tb.loggers[t].usage > 0
    requires UnregisterAll(tb, name, false, tokens).Removed?
    ensures var r := UnregisterAll(tb, name, false, tokens);
            && (forall t :: t in tokens ==> t in tb.loggers && multiset(tokens)[t] <= tb.loggers[t].usage)
            && (forall t :: t in tokens && t in tb.loggers && multiset(tokens)[t] == tb.loggers[t].usage ==>
                  t !in r.tables.loggers && LoggerClosed(t, tb.loggers[t].logger) in r.closed)
            && (forall t :: t in tokens && t in tb.loggers && multiset(tokens)[t] < tb.loggers[t].usage ==>
                  t in r.tables.loggers
                  && r.tables.loggers[t] == tb.loggers[t].(usage := tb.loggers[t].usage - multiset(tokens)[t]))
            && (forall t :: t in tb.loggers && t !in tokens ==> t in r.tables.loggers && r.tables.loggers[t] == tb.loggers[t])
            && (forall t :: t in r.tables.loggers ==> t in tb.loggers)
    decreases |tokens|
  {
    if tokens != [] {
      var pre, x := tokens[..|tokens| - 1], tokens[|tokens| - 1];
      assert tokens == pre + [x];
      assert forall t :: t in tokens <==> t in pre || t == x;
      assert multiset(tokens) == multiset(pre) + multiset{x};
      UnregisterReleases(tb, name, pre);
    }
  }

  function Release(holders: Holders, t: TokenID, n: Name): Holders
  {
    if t !in holders then holders
    else
      var h := holders[t] - multiset{n};
      if h == multiset{} then holders - {t} else holders[t := h]
  }

  function ReleaseAll(holders: Holders, n: Name, tokens: seq<TokenID>): Holders
    decreases |tokens|
  {
    if tokens == [] then holders
    else Release(ReleaseAll(holders, n, tokens[..|tokens| - 1]), tokens[|tokens| - 1], n)
  }

  function Drop(r: Reg, t: TokenID): Reg
  {
    r.(routed := r.routed - {t}, held := r.held - multiset{t})
  }

  function DropAll(r: Reg, tokens: seq<TokenID>): Reg
  {
    r.(routed := r.routed - (set t | t in tokens), held := r.held - multiset(tokens))
  }

  // One token of a unit unregistered, table by table.

  lemma IdsDrop(regs: map<Name, Reg>, name: Name, t: TokenID)
    requires name in regs
    ensures Delete(Ids(regs), t, name) == Ids(regs[name := Drop(regs[name], t)])
  {
    var regs' := regs[name := Drop(regs[name], t)];
    GetIds(regs);
    GetIds(regs');
    GetDelete(Ids(regs), t, name);
    forall t' ensures Get(Delete(Ids(regs), t, name), t') == Get(Ids(regs'), t') {
      IdsForUpdate(regs, name, Drop(regs[name], t), t');
      if t' != t {
        if t' in regs[name].routed {
          UpdateSame(IdsFor(regs, t'), name, true);
        } else {
          MinusAbsent(IdsFor(regs, t'), name);
        }
      }
    }
    GetExt(Delete(Ids(regs), t, name), Ids(regs'));
  }

  lemma StoragesDrop(regs: map<Name, Reg>, name: Name, t: TokenID)
    requires name in regs
    ensures Delete(Storages(regs), t, name) == Storages(regs[name := Drop(regs[name], t)])
  {
    var regs' := regs[name := Drop(regs[name], t)];
    GetStorages(regs);
    GetStorages(regs');
    GetDelete(Storages(regs), t, name);
    forall t' ensures Get(Delete(Storages(regs), t, name), t') == Get(Storages(regs'), t') {
      StoragesForUpdate(regs, name, Drop(regs[name], t), t');
      if t' != t {
        if regs[name].queue.None? && t' in regs[name].routed {
          UpdateSame(StoragesFor(regs, t'), name, regs[name].storage);
        } else {
          MinusAbsent(StoragesFor(regs, t'), name);
        }
      }
    }
    GetExt(Delete(Storages(regs), t, name), Storages(regs'));
  }

  /** Changing the tokens of a batch unit leaves every token's queues as they are. */
  lemma QueuesBatchChange(regs: map<Name, Reg>, name: Name, r: Reg)
    requires name in regs && regs[name].queue.None? && r.queue.None?
    ensures forall t :: QueuesFor(regs[name := r], t) == QueuesFor(regs, t)
  {
    forall t ensures QueuesFor(regs[name := r], t) == QueuesFor(regs, t) {
      QueuesForUpdate(regs, name, r, t);
      MinusAbsent(QueuesFor(regs, t), name);
    }
  }

  lemma ConsumersDropQueue(loggers: map<TokenID, LoggerUsage>, regs: map<Name, Reg>, name: Name, t: TokenID)
    requires name in regs && regs[name].queue.Some? && name != t
    ensures Delete(Consumers(loggers, regs), t, name) == Consumers(loggers, regs[name := Drop(regs[name], t)])
  {
    var regs' := regs[name := Drop(regs[name], t)];
    var before := Consumers(loggers, regs);
    GetConsumers(loggers, regs);
    GetConsumers(loggers, regs');
    GetDelete(before, t, name);
    forall t' ensures Get(Delete(before, t, name), t') == Get(Consumers(loggers, regs'), t') {
      QueuesForUpdate(regs, name, Drop(regs[name], t), t');
      if t' == t {
        assert name !in LoggerFor(loggers, t);
        UnionMinus(QueuesFor(regs, t), LoggerFor(loggers, t), name);
      } else if t' in regs[name].routed {
        UpdateSame(QueuesFor(regs, t'), name, QueueConsumer(regs[name].queue));
      } else {
        MinusAbsent(QueuesFor(regs, t'), name);
      }
    }
    GetExt(Delete(before, t, name), Consumers(loggers, regs'));
  }

  /** Closing the logger of `t` takes the logger entry out of `t`'s consumers and changes nothing else. */
  lemma ConsumersForDropLogger(loggers: map<TokenID, LoggerUsage>, regs: map<Name, Reg>, name: Name, t: TokenID)
    requires QueueNotSelf(regs) && name in regs && regs[name].queue.None? && t in loggers
    ensures forall t' :: ConsumersFor(loggers - {t}, regs[name := Drop(regs[name], t)], t') ==
                         if t' == t then ConsumersFor(loggers, regs, t) - {t} else ConsumersFor(loggers, regs, t')
  {
    var regs' := regs[name := Drop(regs[name], t)];
    QueuesBatchChange(regs, name, Drop(regs[name], t));
    forall t' ensures ConsumersFor(loggers - {t}, regs', t') ==
                      if t' == t then ConsumersFor(loggers, regs, t) - {t} else ConsumersFor(loggers, regs, t') {
      if t' == t {
        assert t !in QueuesFor(regs, t);
        MinusAdded(QueuesFor(regs, t), t, LoggerConsumer(loggers[t].logger));
        assert ConsumersFor(loggers - {t}, regs', t) == QueuesFor(regs, t) + map[];
      } else {
        assert LoggerFor(loggers - {t}, t') == LoggerFor(loggers, t');
      }
    }
  }

  lemma ConsumersDropLogger(loggers: map<TokenID, LoggerUsage>, regs: map<Name, Reg>, name: Name, t: TokenID)
    requires QueueNotSelf(regs) && name in regs && regs[name].queue.None? && t in loggers
    ensures Delete(Consumers(loggers, regs), t, t) == Consumers(loggers - {t}, regs[name := Drop(regs[name], t)])
  {
    var regs' := regs[name := Drop(regs[name], t)];
    var before := Consumers(loggers, regs);
    GetConsumers(loggers, regs);
    GetConsumers(loggers - {t}, regs');
    GetDelete(before, t, t);
    ConsumersForDropLogger(loggers, regs, name, t);
    GetExt(Delete(before, t, t), Consumers(loggers - {t}, regs'));
  }

  lemma ConsumersKeepLogger(loggers: map<TokenID, LoggerUsage>, regs: map<Name, Reg>, name: Name, t: TokenID, lu: LoggerUsage)
    requires name in regs && regs[name].queue.None? && t in loggers && lu.logger == loggers[t].logger
    ensures Consumers(loggers, regs) == Consumers(loggers[t := lu], regs[name := Drop(regs[name], t)])
  {
    var regs' := regs[name := Drop(regs[name], t)];
    GetConsumers(loggers, regs);
    GetConsumers(loggers[t := lu], regs');
    QueuesBatchChange(regs, name, Drop(regs[name], t));
    forall t' ensures Get(Consumers(loggers, regs), t') == Get(Consumers(loggers[t := lu], regs'), t') {
      assert LoggerFor(loggers[t := lu], t') == LoggerFor(loggers, t');
    }
    GetExt(Consumers(loggers, regs), Consumers(loggers[t := lu], regs'));
  }

  lemma HoldersDropQueue(loggers: map<TokenID, LoggerUsage>, holders: Holders, regs: map<Name, Reg>, name: Name, t: TokenID)
    requires HoldersMatch(loggers, holders, regs) && name in regs && regs[name].queue.Some?
    ensures HoldersMatch(loggers, holders, regs[name := Drop(regs[name], t)])
  {
  }

  /** The logger usage after one release, as `remove` leaves it. */
  function Released(loggers: map<TokenID, LoggerUsage>, t: TokenID): map<TokenID, LoggerUsage>
    requires t in loggers
  {
    if loggers[t].usage - 1 == 0 then loggers - {t} else loggers[t := loggers[t].(usage := loggers[t].usage - 1)]
  }

  /** Releasing takes one hold of `name` on `t` away and leaves every other hold. */
  lemma ReleaseHeld(holders: Holders, t: TokenID, name: Name)
    ensures forall t', n :: Held(Release(holders, t, name), t', n) == Held(holders, t', n) - (if t' == t && n == name && Held(holders, t', n) > 0 then 1 else 0)
  {
    forall t', n
      ensures Held(Release(holders, t, name), t', n) == Held(holders, t', n) - (if t' == t && n == name && Held(holders, t', n) > 0 then 1 else 0)
    {
      if t in holders && t' == t {
        var h := holders[t] - multiset{name};
        assert h[n] == holders[t][n] - (if n == name && holders[t][n] > 0 then 1 else 0);
        if h == multiset{} {
          assert h[n] == 0;
        }
      }
    }
  }

  /** The usage reaches zero exactly when the token's last hold is released. */
  lemma ReleaseCounts(loggers: map<TokenID, LoggerUsage>, holders: Holders, t: TokenID, name: Name)
    requires LoggerCounts(loggers, holders) && Held(holders, t, name) > 0
    ensures t in loggers && t in holders
    ensures loggers[t].usage - 1 == 0 <==> holders[t] == multiset{name}
    ensures LoggerCounts(Released(loggers, t), Release(holders, t, name))
  {
    var h := holders[t] - multiset{name};
    assert holders[t] == h + multiset{name};
    assert |h| == |holders[t]| - 1;
  }

  lemma ReleaseAgrees(holders: Holders, regs: map<Name, Reg>, name: Name, t: TokenID)
    requires HeldAgrees(holders, regs) && name in regs && regs[name].held[t] > 0
    ensures HeldAgrees(Release(holders, t, name), regs[name := Drop(regs[name], t)])
  {
    var regs' := regs[name := Drop(regs[name], t)];
    var holders' := Release(holders, t, name);
    ReleaseHeld(holders, t, name);
    forall t', n | n in regs' ensures regs'[n].held[t'] == Held(holders', t', n) {
      assert regs[n].held[t'] == Held(holders, t', n);
    }
  }

  lemma ReleaseLive(holders: Holders, regs: map<Name, Reg>, name: Name, t: TokenID)
    requires HoldersLive(holders, regs) && name in regs
    ensures HoldersLive(Release(holders, t, name), regs[name := Drop(regs[name], t)])
  {
    var holders' := Release(holders, t, name);
    ReleaseHeld(holders, t, name);
    forall t', n | t' in holders' && holders'[t'][n] > 0 ensures n in regs {
      assert Held(holders', t', n) > 0;
      assert Held(holders, t', n) > 0;
    }
  }

  /** A holder's release decrements the usage, reaching zero exactly when it was the last holder. */
  lemma HoldersRelease(loggers: map<TokenID, LoggerUsage>, holders: Holders, regs: map<Name, Reg>, name: Name, t: TokenID)
    requires HoldersMatch(loggers, holders, regs) && name in regs && regs[name].queue.None? && regs[name].held[t] > 0
    ensures t in loggers && t in holders
    ensures loggers[t].usage - 1 == 0 <==> holders[t] == multiset{name}
    ensures HoldersMatch(Released(loggers, t), Release(holders, t, name), regs[name := Drop(regs[name], t)])
  {
    assert Held(holders, t, name) > 0;
    ReleaseCounts(loggers, holders, t, name);
    ReleaseAgrees(holders, regs, name, t);
    ReleaseLive(holders, regs, name, t);
  }

  lemma PendingRelease(p: Pending, holders: Holders, cycle: set<Name>, name: Name, t: TokenID)
    requires PendingBy(p, holders, cycle) && name !in cycle
    ensures PendingBy(p, Release(holders, t, name), cycle)
    ensures t in holders && holders[t] == multiset{name} ==> !Has(p.consumers, t, t)
  {
    var h := Release(holders, t, name);
    forall t', k | Has(p.consumers, t', k) && k == t'
      ensures HeldByAny(h, t', cycle)
    {
      var m :| m in cycle && Held(holders, t', m) > 0;
      assert Held(h, t', m) > 0;
    }
  }

  /** The tables agree with the registrations, and the pending entries belong to the current cycle. */
  ghost predicate Inv(tb: Tables, p: Pending, regs: map<Name, Reg>, holders: Holders, cycle: set<Name>)
  {
    LiveNoEmpty(tb) && Matches(View(tb, p), regs, holders) && PendingBy(p, holders, cycle)
  }

  /** `Inv`, put together from its parts. */
  lemma InvFrom(tb: Tables, p: Pending, regs: map<Name, Reg>, holders: Holders, cycle: set<Name>)
    requires LiveNoEmpty(tb) && PendingBy(p, holders, cycle) && QueueNotSelf(regs)
    requires View(tb, p).ids == Ids(regs) && View(tb, p).storages == Storages(regs)
    requires View(tb, p).consumers == Consumers(tb.loggers, regs)
    requires HoldersMatch(tb.loggers, holders, regs)
    ensures Inv(tb, p, regs, holders, cycle)
  {
  }

  /** The holds left once a unit has unregistered `tokens`: a stream unit holds none. */
  function HoldsAfter(holders: Holders, name: Name, hasQueue: bool, tokens: seq<TokenID>): Holders
  {
    if hasQueue then holders else ReleaseAll(holders, name, tokens)
  }

  /** The ID and storage entries of one token of a unit go, in both the queue and the batch case. */
  lemma UnregisterTokenStores(tb: Tables, p: Pending, r: Tables, regs: map<Name, Reg>, name: Name, t: TokenID)
    requires View(tb, p).ids == Ids(regs) && View(tb, p).storages == Storages(regs)
    requires LiveNoEmpty(tb) && NoEmpty(p.ids) && NoEmpty(p.storages)
    requires !Has(p.ids, t, name) && !Has(p.storages, t, name) && name in regs
    requires r.ids == Delete(tb.ids, t, name) && r.storages == Delete(tb.storages, t, name)
    ensures View(r, p).ids == Ids(regs[name := Drop(regs[name], t)])
    ensures View(r, p).storages == Storages(regs[name := Drop(regs[name], t)])
  {
    AddAllDelete(tb.ids, p.ids, t, name);
    AddAllDelete(tb.storages, p.storages, t, name);
    IdsDrop(regs, name, t);
    StoragesDrop(regs, name, t);
  }

  /** Unregistering one token of a stream unit outside the current cycle keeps the tables matched. */
  lemma UnregisterQueueToken(tb: Tables, p: Pending, regs: map<Name, Reg>, holders: Holders,
                             cycle: set<Name>, name: Name, t: TokenID)
    requires Inv(tb, p, regs, holders, cycle)
    requires name in regs && name !in cycle && regs[name].queue.Some? && name != t
    ensures UnregisterToken(tb, name, true, t).Removed?
    ensures Inv(UnregisterToken(tb, name, true, t).tables, p, regs[name := Drop(regs[name], t)], holders, cycle)
  {
    var r := UnregisterToken(tb, name, true, t).tables;
    assert !Has(p.ids, t, name) && !Has(p.storages, t, name) && !Has(p.consumers, t, name);
    UnregisterTokenStores(tb, p, r, regs, name, t);
    AddAllDelete(tb.consumers, p.consumers, t, name);
    ConsumersDropQueue(tb.loggers, regs, name, t);
    HoldersDropQueue(tb.loggers, holders, regs, name, t);
  }

  /** The step of a batch unit on a token with a logger, in terms of `Released`. */
  lemma UnregisterBatchShape(tb: Tables, name: Name, t: TokenID)
    requires t in tb.loggers
    ensures UnregisterToken(tb, name, false, t) ==
            var closing := tb.loggers[t].usage - 1 == 0;
            Removed(Tables(Released(tb.loggers, t),
                           if closing then Delete(tb.consumers, t, t) else Prune(tb.consumers, t),
                           Delete(tb.storages, t, name), Delete(tb.ids, t, name)),
                    if closing then [LoggerClosed(t, tb.loggers[t].logger)] else [])
  {
  }

  /** The consumer entries after one token of a batch unit is unregistered. */
  lemma UnregisterBatchConsumers(tb: Tables, p: Pending, regs: map<Name, Reg>, name: Name, t: TokenID)
    requires NoEmpty(tb.consumers) && NoEmpty(p.consumers)
    requires View(tb, p).consumers == Consumers(tb.loggers, regs) && QueueNotSelf(regs)
    requires name in regs && regs[name].queue.None? && t in tb.loggers
    requires tb.loggers[t].usage - 1 == 0 ==> !Has(p.consumers, t, t)
    ensures UnregisterToken(tb, name, false, t).Removed?
    ensures View(UnregisterToken(tb, name, false, t).tables, p).consumers ==
            Consumers(Released(tb.loggers, t), regs[name := Drop(regs[name], t)])
  {
    UnregisterBatchShape(tb, name, t);
    if tb.loggers[t].usage - 1 == 0 {
      AddAllDelete(tb.consumers, p.consumers, t, t);
      ConsumersDropLogger(tb.loggers, regs, name, t);
    } else {
      ConsumersKeepLogger(tb.loggers, regs, name, t, Released(tb.loggers, t)[t]);
    }
  }

  /** Unregistering one token of a batch unit that holds the token's logger keeps the tables matched. */
  lemma UnregisterBatchToken(tb: Tables, p: Pending, regs: map<Name, Reg>, holders: Holders,
                             cycle: set<Name>, name: Name, t: TokenID)
    requires Inv(tb, p, regs, holders, cycle)
    requires name in regs && name !in cycle && regs[name].queue.None? && regs[name].held[t] > 0
    ensures UnregisterToken(tb, name, false, t).Removed?
    ensures Inv(UnregisterToken(tb, name, false, t).tables, p, regs[name := Drop(regs[name], t)], Release(holders, t, name), cycle)
  {
    ReleaseToken(tb, p, regs, holders, cycle, name, t);
  }

  /** `UnregisterBatchToken`, from the parts of `Inv`. */
  lemma ReleaseToken(tb: Tables, p: Pending, regs: map<Name, Reg>, holders: Holders,
                     cycle: set<Name>, name: Name, t: TokenID)
    requires LiveNoEmpty(tb) && PendingBy(p, holders, cycle) && QueueNotSelf(regs)
    requires View(tb, p).ids == Ids(regs) && View(tb, p).storages == Storages(regs)
    requires View(tb, p).consumers == Consumers(tb.loggers, regs)
    requires HoldersMatch(tb.loggers, holders, regs)
    requires name in regs && name !in cycle && regs[name].queue.None? && regs[name].held[t] > 0
    ensures UnregisterToken(tb, name, false, t).Removed?
    ensures Inv(UnregisterToken(tb, name, false, t).tables, p, regs[name := Drop(regs[name], t)], Release(holders, t, name), cycle)
  {
    var regs', holders' := regs[name := Drop(regs[name], t)], Release(holders, t, name);
    assert t in tb.loggers && (tb.loggers[t].usage - 1 == 0 ==> !Has(p.consumers, t, t))
           && HoldersMatch(Released(tb.loggers, t), holders', regs') by {
      HoldersRelease(tb.loggers, holders, regs, name, t);
      PendingRelease(p, holders, cycle, name, t);
    }
    assert PendingBy(p, holders', cycle) by {
      PendingRelease(p, holders, cycle, name, t);
    }
    assert UnregisterToken(tb, name, false, t).Removed?
           && View(UnregisterToken(tb, name, false, t).tables, p).consumers == Consumers(Released(tb.loggers, t), regs') by {
      UnregisterBatchConsumers(tb, p, regs, name, t);
    }
    var r := UnregisterToken(tb, name, false, t).tables;
    assert r.loggers == Released(tb.loggers, t) && LiveNoEmpty(r) && r.ids == Delete(tb.ids, t, name)
           && r.storages == Delete(tb.storages, t, name) by {
      UnregisterBatchShape(tb, name, t);
    }
    assert View(r, p).ids == Ids(regs') && View(r, p).storages == Storages(regs') by {
      assert !Has(p.ids, t, name) && !Has(p.storages, t, name);
      UnregisterTokenStores(tb, p, r, regs, name, t);
    }
    QueueNotSelfDrop(regs, name, t);
    assert View(r, p).consumers == Consumers(r.loggers, regs') && HoldersMatch(r.loggers, holders', regs');
    InvFrom(r, p, regs', holders', cycle);
  }

  /** Dropping the tokens of a prefix one more token at a time. */
  lemma DropAllStep(r: Reg, tokens: seq<TokenID>)
    requires tokens != []
    ensures DropAll(r, tokens) == Drop(DropAll(r, tokens[..|tokens| - 1]), tokens[|tokens| - 1])
  {
    var pre, t := tokens[..|tokens| - 1], tokens[|tokens| - 1];
    assert tokens == pre + [t];
    assert (set x | x in tokens) == (set x | x in pre) + {t};
    assert multiset(tokens) == multiset(pre) + multiset{t};
  }

  lemma PrefixTokens(tokens: seq<TokenID>)
    requires tokens != []
    ensures multiset(tokens) == multiset(tokens[..|tokens| - 1]) + multiset{tokens[|tokens| - 1]}
    ensures forall x :: x in tokens[..|tokens| - 1] ==> x in tokens
  {
    assert tokens == tokens[..|tokens| - 1] + [tokens[|tokens| - 1]];
  }

  /** The registration and the holds after one more token of `remove`'s loop. */
  lemma DropStep(regs: map<Name, Reg>, holders: Holders, name: Name, tokens: seq<TokenID>)
    requires tokens != [] && name in regs
    requires regs[name].queue.None? ==> multiset(tokens) <= regs[name].held
    ensures var pre, t := tokens[..|tokens| - 1], tokens[|tokens| - 1];
            var regs1 := regs[name := DropAll(regs[name], pre)];
            && regs1[name := Drop(regs1[name], t)] == regs[name := DropAll(regs[name], tokens)]
            && (regs[name].queue.None? ==> regs1[name].held[t] > 0)
            && Release(HoldsAfter(holders, name, false, pre), t, name) == HoldsAfter(holders, name, false, tokens)
  {
    var pre, t := tokens[..|tokens| - 1], tokens[|tokens| - 1];
    PrefixTokens(tokens);
    DropAllStep(regs[name], tokens);
  }

  /** One more token of `remove`'s loop, for a stream unit. */
  lemma UnregisterQueueStep(tb: Tables, p: Pending, regs: map<Name, Reg>, holders: Holders,
                            cycle: set<Name>, name: Name, tokens: seq<TokenID>)
    requires tokens != [] && name in regs && name !in cycle && regs[name].queue.Some? && name !in tokens
    requires var u := UnregisterAll(tb, name, true, tokens[..|tokens| - 1]);
             u.Removed? && Inv(u.tables, p, regs[name := DropAll(regs[name], tokens[..|tokens| - 1])], holders, cycle)
    ensures var u := UnregisterAll(tb, name, true, tokens);
            u.Removed? && Inv(u.tables, p, regs[name := DropAll(regs[name], tokens)], holders, cycle)
  {
    var pre, t := tokens[..|tokens| - 1], tokens[|tokens| - 1];
    var mid := UnregisterAll(tb, name, true, pre);
    var regs1 := regs[name := DropAll(regs[name], pre)];
    assert t in tokens;
    UnregisterQueueToken(mid.tables, p, regs1, holders, cycle, name, t);
    assert regs1[name := Drop(regs1[name], t)] == regs[name := DropAll(regs[name], tokens)] by {
      DropStep(regs, holders, name, tokens);
    }
  }

  /** One more token of `remove`'s loop, for a batch unit. */
  lemma UnregisterBatchStep(tb: Tables, p: Pending, regs: map<Name, Reg>, holders: Holders,
                            cycle: set<Name>, name: Name, tokens: seq<TokenID>)
    requires tokens != [] && name in regs && name !in cycle && regs[name].queue.None?
    requires multiset(tokens) <= regs[name].held
    requires var pre := tokens[..|tokens| - 1];
             var u := UnregisterAll(tb, name, false, pre);
             u.Removed? && Inv(u.tables, p, regs[name := DropAll(regs[name], pre)], HoldsAfter(holders, name, false, pre), cycle)
    ensures var u := UnregisterAll(tb, name, false, tokens);
            u.Removed? && Inv(u.tables, p, regs[name := DropAll(regs[name], tokens)], HoldsAfter(holders, name, false, tokens), cycle)
  {
    var pre := tokens[..|tokens| - 1];
    DropStep(regs, holders, name, tokens);
    UnregisterBatchToken(UnregisterAll(tb, name, false, pre).tables, p, regs[name := DropAll(regs[name], pre)],
                         HoldsAfter(holders, name, false, pre), cycle, name, tokens[|tokens| - 1]);
  }

  lemma DropNothing(regs: map<Name, Reg>, holders: Holders, name: Name, hasQueue: bool)
    requires name in regs
    ensures regs[name := DropAll(regs[name], [])] == regs
    ensures HoldsAfter(holders, name, hasQueue, []) == holders
  {
    assert DropAll(regs[name], []) == regs[name];
  }

  lemma {:induction false} UnregisterAllQueueKeeps(tb: Tables, p: Pending, regs: map<Name, Reg>, holders: Holders,
                                                   cycle: set<Name>, name: Name, tokens: seq<TokenID>)
    requires Inv(tb, p, regs, holders, cycle) && name in regs && name !in cycle
    requires regs[name].queue.Some? && name !in tokens
    ensures var u := UnregisterAll(tb, name, true, tokens);
            u.Removed? && Inv(u.tables, p, regs[name := DropAll(regs[name], tokens)], holders, cycle)
    decreases |tokens|
  {
    if tokens == [] {
      DropNothing(regs, holders, name, true);
    } else {
      PrefixTokens(tokens);
      UnregisterAllQueueKeeps(tb, p, regs, holders, cycle, name, tokens[..|tokens| - 1]);
      UnregisterQueueStep(tb, p, regs, holders, cycle, name, tokens);
    }
  }

  lemma {:induction false} UnregisterAllBatchKeeps(tb: Tables, p: Pending, regs: map<Name, Reg>, holders: Holders,
                                                   cycle: set<Name>, name: Name, tokens: seq<TokenID>)
    requires Inv(tb, p, regs, holders, cycle) && name in regs && name !in cycle
    requires regs[name].queue.None? && multiset(tokens) <= regs[name].held
    ensures var u := UnregisterAll(tb, name, false, tokens);
            u.Removed? && Inv(u.tables, p, regs[name := DropAll(regs[name], tokens)], HoldsAfter(holders, name, false, tokens), cycle)
    decreases |tokens|
  {
    if tokens == [] {
      DropNothing(regs, holders, name, false);
    } else {
      PrefixTokens(tokens);
      UnregisterAllBatchKeeps(tb, p, regs, holders, cycle, name, tokens[..|tokens| - 1]);
      UnregisterBatchStep(tb, p, regs, holders, cycle, name, tokens);
    }
  }

  /**
   * `remove`'s loop keeps the tables matched for a unit outside the current
   * cycle, provided a stream unit is not routed for its own name and a batch
   * unit holds the logger of every token it lists: it never dereferences nil,
   * the unit's registration has the listed tokens dropped and its holds are
   * released.
   */
  lemma UnregisterAllKeeps(tb: Tables, p: Pending, regs: map<Name, Reg>, holders: Holders,
                           cycle: set<Name>, name: Name, tokens: seq<TokenID>)
    requires Inv(tb, p, regs, holders, cycle) && name in regs && name !in cycle
    requires regs[name].queue.Some? ==> name !in tokens
    requires regs[name].queue.None? ==> multiset(tokens) <= regs[name].held
    ensures var u := UnregisterAll(tb, name, regs[name].queue.Some?, tokens);
            u.Removed? &&
            Inv(u.tables, p, regs[name := DropAll(regs[name], tokens)], HoldsAfter(holders, name, regs[name].queue.Some?, tokens), cycle)
  {
    if regs[name].queue.Some? {
      UnregisterAllQueueKeeps(tb, p, regs, holders, cycle, name, tokens);
    } else {
      UnregisterAllBatchKeeps(tb, p, regs, holders, cycle, name, tokens);
    }
  }

  // ---------------------------------------------------------------------------
  // Registrations that are not routed for anything
  // ---------------------------------------------------------------------------

  predicate Idle(r: Reg)
  {
    r.routed == {} && r.held == multiset{}
  }

  /** A registration routed for nothing adds nothing to the tables. */
  lemma TablesIgnoreIdle(loggers: map<TokenID, LoggerUsage>, small: map<Name, Reg>, name: Name, r: Reg)
    requires name !in small && r.routed == {}
    ensures Ids(small[name := r]) == Ids(small)
    ensures Storages(small[name := r]) == Storages(small)
    ensures Consumers(loggers, small[name := r]) == Consumers(loggers, small)
  {
    var big := small[name := r];
    GetIds(small);
    GetIds(big);
    GetStorages(small);
    GetStorages(big);
    GetConsumers(loggers, small);
    GetConsumers(loggers, big);
    forall t ensures IdsFor(big, t) == IdsFor(small, t) && StoragesFor(big, t) == StoragesFor(small, t)
                  && QueuesFor(big, t) == QueuesFor(small, t) {
      IdsForUpdate(small, name, r, t);
      StoragesForUpdate(small, name, r, t);
      QueuesForUpdate(small, name, r, t);
      MinusAbsent(IdsFor(small, t), name);
      MinusAbsent(StoragesFor(small, t), name);
      MinusAbsent(QueuesFor(small, t), name);
    }
    GetExt(Ids(big), Ids(small));
    GetExt(Storages(big), Storages(small));
    GetExt(Consumers(loggers, big), Consumers(loggers, small));
  }

  lemma HoldersIgnoreIdle(loggers: map<TokenID, LoggerUsage>, holders: Holders, small: map<Name, Reg>, name: Name, r: Reg)
    requires name !in small && Idle(r)
    ensures HoldersMatch(loggers, holders, small[name := r]) <==> HoldersMatch(loggers, holders, small)
  {
    var big := small[name := r];
    if HoldersMatch(loggers, holders, small) {
      forall t ensures Held(holders, t, name) == 0 {
        if t in holders {
          assert holders[t][name] > 0 ==> name in small;
        }
      }
      assert HeldAgrees(holders, big);
    }
    if HoldersMatch(loggers, holders, big) {
      forall t, n | n in small ensures small[n].held[t] == Held(holders, t, n) {
        assert big[n] == small[n];
      }
      forall n | n in small && small[n].queue.Some? ensures small[n].held == multiset{} {
        assert big[n] == small[n];
      }
      forall t ensures Held(holders, t, name) == 0 {
        assert big[name].held[t] == Held(holders, t, name);
      }
      forall t, n | t in holders && holders[t][n] > 0 ensures n in small {
        assert Held(holders, t, n) > 0;
        assert n in big;
      }
    }
  }

  /** A new unit's registration, before its first token, keeps the tables matched. */
  lemma AddIdle(tb: Tables, regs: map<Name, Reg>, holders: Holders, name: Name, r: Reg)
    requires Matches(tb, regs, holders) && name !in regs && Idle(r)
    ensures Matches(tb, regs[name := r], holders)
  {
    TablesIgnoreIdle(tb.loggers, regs, name, r);
    HoldersIgnoreIdle(tb.loggers, holders, regs, name, r);
  }

  /** A registration with every token dropped can go. */
  lemma ForgetIdle(tb: Tables, regs: map<Name, Reg>, holders: Holders, name: Name)
    requires Matches(tb, regs, holders) && name in regs && Idle(regs[name])
    ensures Matches(tb, regs - {name}, holders)
  {
    var small := regs - {name};
    assert small[name := regs[name]] == regs;
    TablesIgnoreIdle(tb.loggers, small, name, regs[name]);
    HoldersIgnoreIdle(tb.loggers, holders, small, name, regs[name]);
  }

  // ---------------------------------------------------------------------------
  // Registering a unit (the token loop of `init`)
  // ---------------------------------------------------------------------------

  /** The logger usage and pending entries after some tokens, and the loggers created meanwhile. */
  datatype Registration = Registration(loggers: map<TokenID, LoggerUsage>, pending: Pending, created: seq<Effect>)

  /** The token's logger usage, or a new logger with no usage yet. */
  function GetOrCreate(loggers: map<TokenID, LoggerUsage>, t: TokenID, newLogger: TokenID -> Handle): LoggerUsage
  {
    if t in loggers then loggers[t] else LoggerUsage(newLogger(t), 0)
  }

  /** The token's logger usage, zero when it has no logger. */
  function UsageOf(loggers: map<TokenID, LoggerUsage>, t: TokenID): int
  {
    if t in loggers then loggers[t].usage else 0
  }

  lemma GetOrCreateUsage(loggers: map<TokenID, LoggerUsage>, t: TokenID, newLogger: TokenID -> Handle)
    ensures GetOrCreate(loggers, t, newLogger).usage == UsageOf(loggers, t)
  {
  }

  /**
   * The body of `init`'s token loop: a staged destination registers nothing; any
   * other records its ID; a stream destination (by its configured mode) adds its
   * queue under its own name; a batch destination gets or creates the token's
   * shared logger, increments its usage, adds the logger under the token itself
   * and adds its storage. Consumers, storages and IDs go to the pending maps,
   * the logger usage straight into the service.
   */
  function RegisterToken(loggers: map<TokenID, LoggerUsage>, p: Pending, name: Name, config: DestinationConfig,
                         u: Unit, t: TokenID, newLogger: TokenID -> Handle): Registration
  {
    if config.staged then Registration(loggers, p, [])
    else
      var ids := Add(p.ids, t, name, true);
      if config.mode == StreamMode then
        Registration(loggers, p.(consumers := Add(p.consumers, t, name, QueueConsumer(u.eventQueue)), ids := ids), [])
      else
        var lu := GetOrCreate(loggers, t, newLogger);
        Registration(loggers[t := lu.(usage := lu.usage + 1)],
                     Pending(Add(p.consumers, t, t, LoggerConsumer(lu.logger)), Add(p.storages, t, name, u.storage), ids),
                     if t in loggers then [] else [LoggerCreated(t, lu.logger)])
  }

  /** `init`'s token loop over a new unit's token IDs, in order. */
  function RegisterAll(loggers: map<TokenID, LoggerUsage>, p: Pending, name: Name, config: DestinationConfig,
                       u: Unit, tokens: seq<TokenID>, newLogger: TokenID -> Handle): Registration
    decreases |tokens|
  {
    if tokens == [] then Registration(loggers, p, [])
    else
      var mid := RegisterAll(loggers, p, name, config, u, tokens[..|tokens| - 1], newLogger);
      var next := RegisterToken(mid.loggers, mid.pending, name, config, u, tokens[|tokens| - 1], newLogger);
      Registration(next.loggers, next.pending, mid.created + next.created)
  }

  /** `init`'s token loop over one more token. */
  lemma RegisterAllNext(loggers: map<TokenID, LoggerUsage>, p: Pending, name: Name, config: DestinationConfig,
                        u: Unit, tokens: seq<TokenID>, i: nat, newLogger: TokenID -> Handle)
    requires i < |tokens|
    ensures var mid := RegisterAll(loggers, p, name, config, u, tokens[..i], newLogger);
            var next := RegisterToken(mid.loggers, mid.pending, name, config, u, tokens[i], newLogger);
            RegisterAll(loggers, p, name, config, u, tokens[..i + 1], newLogger)
            == Registration(next.loggers, next.pending, mid.created + next.created)
  {
    assert tokens[..i + 1][..i] == tokens[..i];
  }

  /** `init`'s token loop creates loggers only, for tokens that had none. */
  lemma {:induction false} RegisterCreatesLoggers(loggers: map<TokenID, LoggerUsage>, p: Pending, name: Name,
                                                  config: DestinationConfig, u: Unit, tokens: seq<TokenID>,
                                                  newLogger: TokenID -> Handle)
    ensures forall e :: e in RegisterAll(loggers, p, name, config, u, tokens, newLogger).created ==>
              e.LoggerCreated? && e.token in tokens && e.token !in loggers
    decreases |tokens|
  {
    if tokens != [] {
      var pre := tokens[..|tokens| - 1];
      RegisterCreatesLoggers(loggers, p, name, config, u, pre, newLogger);
      RegisterKeepsLoggers(loggers, p, name, config, u, pre, newLogger);
      assert forall x :: x in pre ==> x in tokens;
    }
  }

  /** `init`'s token loop never drops a logger. */
  lemma {:induction false} RegisterKeepsLoggers(loggers: map<TokenID, LoggerUsage>, p: Pending, name: Name,
                                                config: DestinationConfig, u: Unit, tokens: seq<TokenID>,
                                                newLogger: TokenID -> Handle)
    ensures loggers.Keys <= RegisterAll(loggers, p, name, config, u, tokens, newLogger).loggers.Keys
    decreases |tokens|
  {
    if tokens != [] {
      RegisterKeepsLoggers(loggers, p, name, config, u, tokens[..|tokens| - 1], newLogger);
    }
  }

  /** A batch unit takes one more hold on the logger of `t`. */
  function Acquire(holders: Holders, t: TokenID, n: Name): Holders
  {
    holders[t := (if t in holders then holders[t] else multiset{}) + multiset{n}]
  }

  function AcquireAll(holders: Holders, n: Name, tokens: seq<TokenID>): Holders
    decreases |tokens|
  {
    if tokens == [] then holders
    else Acquire(AcquireAll(holders, n, tokens[..|tokens| - 1]), tokens[|tokens| - 1], n)
  }

  /** One more token registered: routed for it, and holding its logger unless it has a queue. */
  function Grow(r: Reg, t: TokenID): Reg
  {
    r.(routed := r.routed + {t}, held := if r.queue.Some? then r.held else r.held + multiset{t})
  }

  // One token of a unit registered, table by table.

  lemma IdsGrow(regs: map<Name, Reg>, name: Name, t: TokenID)
    requires name in regs
    ensures Add(Ids(regs), t, name, true) == Ids(regs[name := Grow(regs[name], t)])
  {
    var regs' := regs[name := Grow(regs[name], t)];
    GetIds(regs);
    GetIds(regs');
    GetAdd(Ids(regs), t, name, true);
    forall t' ensures Get(Add(Ids(regs), t, name, true), t') == Get(Ids(regs'), t') {
      IdsForUpdate(regs, name, Grow(regs[name], t), t');
      if t' != t {
        if t' in regs[name].routed {
          UpdateSame(IdsFor(regs, t'), name, true);
        } else {
          MinusAbsent(IdsFor(regs, t'), name);
        }
      }
    }
    GetExt(Add(Ids(regs), t, name, true), Ids(regs'));
  }

  lemma StoragesGrowBatch(regs: map<Name, Reg>, name: Name, t: TokenID)
    requires name in regs && regs[name].queue.None?
    ensures Add(Storages(regs), t, name, regs[name].storage) == Storages(regs[name := Grow(regs[name], t)])
  {
    var regs' := regs[name := Grow(regs[name], t)];
    var after := Add(Storages(regs), t, name, regs[name].storage);
    GetStorages(regs);
    GetStorages(regs');
    GetAdd(Storages(regs), t, name, regs[name].storage);
    forall t' ensures Get(after, t') == Get(Storages(regs'), t') {
      StoragesForUpdate(regs, name, Grow(regs[name], t), t');
      if t' != t {
        if t' in regs[name].routed {
          UpdateSame(StoragesFor(regs, t'), name, regs[name].storage);
        } else {
          MinusAbsent(StoragesFor(regs, t'), name);
        }
      }
    }
    GetExt(after, Storages(regs'));
  }

  lemma StoragesGrowQueue(regs: map<Name, Reg>, name: Name, t: TokenID)
    requires name in regs && regs[name].queue.Some?
    ensures Storages(regs) == Storages(regs[name := Grow(regs[name], t)])
  {
    var regs' := regs[name := Grow(regs[name], t)];
    GetStorages(regs);
    GetStorages(regs');
    forall t' ensures Get(Storages(regs), t') == Get(Storages(regs'), t') {
      StoragesForUpdate(regs, name, Grow(regs[name], t), t');
      MinusAbsent(StoragesFor(regs, t'), name);
    }
    GetExt(Storages(regs), Storages(regs'));
  }

  lemma ConsumersGrowQueue(loggers: map<TokenID, LoggerUsage>, regs: map<Name, Reg>, name: Name, t: TokenID)
    requires name in regs && regs[name].queue.Some? && name != t
    ensures Add(Consumers(loggers, regs), t, name, QueueConsumer(regs[name].queue)) ==
            Consumers(loggers, regs[name := Grow(regs[name], t)])
  {
    var regs' := regs[name := Grow(regs[name], t)];
    var q := QueueConsumer(regs[name].queue);
    var after := Add(Consumers(loggers, regs), t, name, q);
    GetConsumers(loggers, regs);
    GetConsumers(loggers, regs');
    GetAdd(Consumers(loggers, regs), t, name, q);
    forall t' ensures Get(after, t') == Get(Consumers(loggers, regs'), t') {
      QueuesForUpdate(regs, name, Grow(regs[name], t), t');
      if t' == t {
        assert name !in LoggerFor(loggers, t);
        UpdateUnion(QueuesFor(regs, t), LoggerFor(loggers, t), name, q);
      } else if t' in regs[name].routed {
        UpdateSame(QueuesFor(regs, t'), name, q);
      } else {
        MinusAbsent(QueuesFor(regs, t'), name);
      }
    }
    GetExt(after, Consumers(loggers, regs'));
  }

  /** Setting the logger of `t` changes the logger entry of `t` only. */
  lemma LoggerForUpdate(loggers: map<TokenID, LoggerUsage>, t: TokenID, lu: LoggerUsage, t': TokenID)
    ensures LoggerFor(loggers[t := lu], t') ==
            if t' == t then LoggerFor(loggers, t)[t := LoggerConsumer(lu.logger)] else LoggerFor(loggers, t')
  {
  }

  lemma ConsumersGrowLogger(loggers: map<TokenID, LoggerUsage>, regs: map<Name, Reg>, name: Name, t: TokenID, lu: LoggerUsage)
    requires name in regs && regs[name].queue.None?
    ensures Add(Consumers(loggers, regs), t, t, LoggerConsumer(lu.logger)) ==
            Consumers(loggers[t := lu], regs[name := Grow(regs[name], t)])
  {
    var regs' := regs[name := Grow(regs[name], t)];
    var c := LoggerConsumer(lu.logger);
    var after := Add(Consumers(loggers, regs), t, t, c);
    GetConsumers(loggers, regs);
    GetConsumers(loggers[t := lu], regs');
    GetAdd(Consumers(loggers, regs), t, t, c);
    QueuesBatchChange(regs, name, Grow(regs[name], t));
    forall t' ensures Get(after, t') == Get(Consumers(loggers[t := lu], regs'), t') {
      LoggerForUpdate(loggers, t, lu, t');
      if t' == t {
        UnionUpdate(QueuesFor(regs, t), LoggerFor(loggers, t), t, c);
      }
    }
    GetExt(after, Consumers(loggers[t := lu], regs'));
  }

  /** Acquiring adds one hold of `name` on `t` and leaves every other hold. */
  lemma AcquireHeld(holders: Holders, t: TokenID, name: Name)
    ensures forall t', n :: Held(Acquire(holders, t, name), t', n) == Held(holders, t', n) + (if t' == t && n == name then 1 else 0)
  {
  }

  lemma AcquireCounts(loggers: map<TokenID, LoggerUsage>, holders: Holders, t: TokenID, name: Name, lu: LoggerUsage)
    requires LoggerCounts(loggers, holders)
    requires lu.usage == UsageOf(loggers, t) + 1
    ensures LoggerCounts(loggers[t := lu], Acquire(holders, t, name))
  {
    var before := if t in holders then holders[t] else multiset{};
    assert |before + multiset{name}| == |before| + 1;
  }

  lemma AcquireAgrees(holders: Holders, regs: map<Name, Reg>, name: Name, t: TokenID)
    requires HeldAgrees(holders, regs) && name in regs && regs[name].queue.None?
    ensures HeldAgrees(Acquire(holders, t, name), regs[name := Grow(regs[name], t)])
  {
    var regs' := regs[name := Grow(regs[name], t)];
    var holders' := Acquire(holders, t, name);
    AcquireHeld(holders, t, name);
    forall t', n | n in regs' ensures regs'[n].held[t'] == Held(holders', t', n) {
      assert regs[n].held[t'] == Held(holders, t', n);
      if n == name {
        assert regs'[n].held == regs[name].held + multiset{t};
      } else {
        assert regs'[n] == regs[n];
      }
    }
  }

  lemma AcquireLive(holders: Holders, regs: map<Name, Reg>, name: Name, t: TokenID)
    requires HoldersLive(holders, regs) && name in regs
    ensures HoldersLive(Acquire(holders, t, name), regs[name := Grow(regs[name], t)])
  {
    var holders' := Acquire(holders, t, name);
    AcquireHeld(holders, t, name);
    forall t', n | t' in holders' && holders'[t'][n] > 0 ensures n in regs {
      assert Held(holders', t', n) > 0;
      if n != name {
        assert Held(holders, t', n) > 0;
      }
    }
  }

  /** A batch unit's new hold increments the usage of the token's logger, starting a new one at zero. */
  lemma HoldersAcquire(loggers: map<TokenID, LoggerUsage>, holders: Holders, regs: map<Name, Reg>,
                       name: Name, t: TokenID, lu: LoggerUsage)
    requires HoldersMatch(loggers, holders, regs) && name in regs && regs[name].queue.None?
    requires lu.usage == UsageOf(loggers, t) + 1
    ensures HoldersMatch(loggers[t := lu], Acquire(holders, t, name), regs[name := Grow(regs[name], t)])
  {
    AcquireCounts(loggers, holders, t, name, lu);
    AcquireAgrees(holders, regs, name, t);
    AcquireLive(holders, regs, name, t);
  }

  lemma HoldersGrowQueue(loggers: map<TokenID, LoggerUsage>, holders: Holders, regs: map<Name, Reg>, name: Name, t: TokenID)
    requires HoldersMatch(loggers, holders, regs) && name in regs && regs[name].queue.Some?
    ensures HoldersMatch(loggers, holders, regs[name := Grow(regs[name], t)])
  {
  }

  /** The pending entries a stream unit of the cycle adds. */
  lemma PendingAddQueue(p: Pending, holders: Holders, cycle: set<Name>, name: Name, t: TokenID, q: Consumer)
    requires PendingBy(p, holders, cycle) && name in cycle && name != t
    ensures PendingBy(p.(consumers := Add(p.consumers, t, name, q), ids := Add(p.ids, t, name, true)), holders, cycle)
  {
  }

  /** The pending entries a batch unit of the cycle adds, holding the logger it adds. */
  lemma PendingAddBatch(p: Pending, holders: Holders, cycle: set<Name>, name: Name, t: TokenID, c: Consumer, s: Handle)
    requires PendingBy(p, holders, cycle) && name in cycle
    ensures PendingBy(Pending(Add(p.consumers, t, t, c), Add(p.storages, t, name, s), Add(p.ids, t, name, true)),
                      Acquire(holders, t, name), cycle)
  {
    var h := Acquire(holders, t, name);
    AcquireHeld(holders, t, name);
    assert Held(h, t, name) > 0;
    forall t', k | Has(p.consumers, t', k) && k == t'
      ensures HeldByAny(h, t', cycle)
    {
      var m :| m in cycle && Held(holders, t', m) > 0;
      assert Held(h, t', m) > 0;
    }
  }

  /** The step of a stream unit: its queue and ID go to the pending maps. */
  lemma RegisterQueueShape(loggers: map<TokenID, LoggerUsage>, p: Pending, name: Name, config: DestinationConfig,
                           u: Unit, t: TokenID, newLogger: TokenID -> Handle)
    requires !config.staged && config.mode == StreamMode
    ensures RegisterToken(loggers, p, name, config, u, t, newLogger) ==
            Registration(loggers, p.(consumers := Add(p.consumers, t, name, QueueConsumer(u.eventQueue)),
                                     ids := Add(p.ids, t, name, true)), [])
  {
  }

  lemma QueueNotSelfDrop(regs: map<Name, Reg>, name: Name, t: TokenID)
    requires QueueNotSelf(regs) && name in regs
    ensures QueueNotSelf(regs[name := Drop(regs[name], t)])
  {
  }

  lemma QueueNotSelfGrow(regs: map<Name, Reg>, name: Name, t: TokenID)
    requires QueueNotSelf(regs) && name in regs && (regs[name].queue.Some? ==> name != t)
    ensures QueueNotSelf(regs[name := Grow(regs[name], t)])
  {
  }

  /** Registering one token of a stream unit of the cycle keeps the tables matched. */
  lemma RegisterQueueToken(tb: Tables, p: Pending, regs: map<Name, Reg>, holders: Holders, cycle: set<Name>,
                           name: Name, config: DestinationConfig, u: Unit, t: TokenID, newLogger: TokenID -> Handle)
    requires Inv(tb, p, regs, holders, cycle) && name in regs && name in cycle && name != t
    requires !config.staged && config.mode == StreamMode && regs[name].queue.Some? && regs[name].queue == u.eventQueue
    ensures var g := RegisterToken(tb.loggers, p, name, config, u, t, newLogger);
            g.loggers == tb.loggers && Inv(tb, g.pending, regs[name := Grow(regs[name], t)], holders, cycle)
  {
    var q := QueueConsumer(u.eventQueue);
    RegisterQueueShape(tb.loggers, p, name, config, u, t, newLogger);
    PendingAddQueue(p, holders, cycle, name, t, q);
    AddAllAdd(tb.ids, p.ids, t, name, true);
    AddAllAdd(tb.consumers, p.consumers, t, name, q);
    IdsGrow(regs, name, t);
    StoragesGrowQueue(regs, name, t);
    ConsumersGrowQueue(tb.loggers, regs, name, t);
    HoldersGrowQueue(tb.loggers, holders, regs, name, t);
    QueueNotSelfGrow(regs, name, t);
  }

  /** The step of a batch unit, in terms of the logger usage it leaves. */
  lemma RegisterBatchShape(loggers: map<TokenID, LoggerUsage>, p: Pending, name: Name, config: DestinationConfig,
                           u: Unit, t: TokenID, newLogger: TokenID -> Handle)
    requires !config.staged && config.mode != StreamMode
    ensures var lu := GetOrCreate(loggers, t, newLogger);
            RegisterToken(loggers, p, name, config, u, t, newLogger) ==
            Registration(loggers[t := lu.(usage := lu.usage + 1)],
                         Pending(Add(p.consumers, t, t, LoggerConsumer(lu.logger)), Add(p.storages, t, name, u.storage),
                                 Add(p.ids, t, name, true)),
                         if t in loggers then [] else [LoggerCreated(t, lu.logger)])
  {
  }

  /** The ID, storage and logger entries of one token of a batch unit are added. */
  lemma RegisterBatchTables(tb: Tables, p: Pending, regs: map<Name, Reg>, name: Name, t: TokenID, lu: LoggerUsage)
    requires View(tb, p).ids == Ids(regs) && View(tb, p).storages == Storages(regs)
    requires View(tb, p).consumers == Consumers(tb.loggers, regs)
    requires LiveNoEmpty(tb) && NoEmpty(p.consumers) && NoEmpty(p.storages) && NoEmpty(p.ids)
    requires name in regs && regs[name].queue.None?
    ensures var v := View(tb.(loggers := tb.loggers[t := lu]),
                          Pending(Add(p.consumers, t, t, LoggerConsumer(lu.logger)),
                                  Add(p.storages, t, name, regs[name].storage), Add(p.ids, t, name, true)));
            var regs' := regs[name := Grow(regs[name], t)];
            v.ids == Ids(regs') && v.storages == Storages(regs') && v.consumers == Consumers(v.loggers, regs')
  {
    AddAllAdd(tb.ids, p.ids, t, name, true);
    AddAllAdd(tb.storages, p.storages, t, name, regs[name].storage);
    AddAllAdd(tb.consumers, p.consumers, t, t, LoggerConsumer(lu.logger));
    IdsGrow(regs, name, t);
    StoragesGrowBatch(regs, name, t);
    ConsumersGrowLogger(tb.loggers, regs, name, t, lu);
  }

  /** Registering one token of a batch unit of the cycle keeps the tables matched, with one more hold. */
  lemma RegisterBatchToken(tb: Tables, p: Pending, regs: map<Name, Reg>, holders: Holders, cycle: set<Name>,
                           name: Name, config: DestinationConfig, u: Unit, t: TokenID, newLogger: TokenID -> Handle)
    requires Inv(tb, p, regs, holders, cycle) && name in regs && name in cycle
    requires !config.staged && config.mode != StreamMode && regs[name].queue.None? && regs[name].storage == u.storage
    ensures var g := RegisterToken(tb.loggers, p, name, config, u, t, newLogger);
            Inv(tb.(loggers := g.loggers), g.pending, regs[name := Grow(regs[name], t)], Acquire(holders, t, name), cycle)
  {
    var lu := GetOrCreate(tb.loggers, t, newLogger);
    var lu' := lu.(usage := lu.usage + 1);
    var c := LoggerConsumer(lu.logger);
    GetOrCreateUsage(tb.loggers, t, newLogger);
    RegisterBatchShape(tb.loggers, p, name, config, u, t, newLogger);
    PendingAddBatch(p, holders, cycle, name, t, c, u.storage);
    RegisterBatchTables(tb, p, regs, name, t, lu');
    HoldersAcquire(tb.loggers, holders, regs, name, t, lu');
    QueueNotSelfGrow(regs, name, t);
  }

  /** The registration and the holds after one more token of `init`'s token loop. */
  lemma GrowStep(regs: map<Name, Reg>, holders: Holders, name: Name, u: Unit, tokens: seq<TokenID>)
    requires tokens != []
    ensures var pre, t := tokens[..|tokens| - 1], tokens[|tokens| - 1];
            var regs1 := regs[name := PartialReg(u, false, pre)];
            && name in regs1
            && regs1[name := Grow(regs1[name], t)] == regs[name := PartialReg(u, false, tokens)]
            && Acquire(AcquireAll(holders, name, pre), t, name) == AcquireAll(holders, name, tokens)
  {
    var pre, t := tokens[..|tokens| - 1], tokens[|tokens| - 1];
    assert tokens == pre + [t];
    assert (set x | x in tokens) == (set x | x in pre) + {t};
    assert multiset(tokens) == multiset(pre) + multiset{t};
    assert PartialReg(u, false, tokens) == Grow(PartialReg(u, false, pre), t);
  }

  lemma GrowNothing(regs: map<Name, Reg>, name: Name, u: Unit)
    requires name in regs && regs[name] == PartialReg(u, false, [])
    ensures regs[name := PartialReg(u, false, [])] == regs
  {
  }

  /** One more token of `init`'s token loop, for a stream unit. */
  lemma RegisterQueueStep(tb: Tables, p: Pending, regs: map<Name, Reg>, holders: Holders, cycle: set<Name>,
                          name: Name, config: DestinationConfig, u: Unit, tokens: seq<TokenID>, newLogger: TokenID -> Handle)
    requires tokens != [] && name in regs && name in cycle && name !in tokens
    requires !config.staged && config.mode == StreamMode && u.eventQueue.Some?
    requires var g := RegisterAll(tb.loggers, p, name, config, u, tokens[..|tokens| - 1], newLogger);
             g.loggers == tb.loggers && Inv(tb, g.pending, regs[name := PartialReg(u, false, tokens[..|tokens| - 1])], holders, cycle)
    ensures var g := RegisterAll(tb.loggers, p, name, config, u, tokens, newLogger);
            g.loggers == tb.loggers && Inv(tb, g.pending, regs[name := PartialReg(u, false, tokens)], holders, cycle)
  {
    var pre := tokens[..|tokens| - 1];
    var mid := RegisterAll(tb.loggers, p, name, config, u, pre, newLogger);
    assert tokens[|tokens| - 1] in tokens;
    GrowStep(regs, holders, name, u, tokens);
    RegisterQueueToken(tb, mid.pending, regs[name := PartialReg(u, false, pre)], holders, cycle,
                       name, config, u, tokens[|tokens| - 1], newLogger);
  }

  /** One more token of `init`'s token loop, for a batch unit. */
  lemma RegisterBatchStep(tb: Tables, p: Pending, regs: map<Name, Reg>, holders: Holders, cycle: set<Name>,
                          name: Name, config: DestinationConfig, u: Unit, tokens: seq<TokenID>, newLogger: TokenID -> Handle)
    requires tokens != [] && name in regs && name in cycle
    requires !config.staged && config.mode != StreamMode && u.eventQueue.None?
    requires var pre := tokens[..|tokens| - 1];
             var g := RegisterAll(tb.loggers, p, name, config, u, pre, newLogger);
             Inv(tb.(loggers := g.loggers), g.pending, regs[name := PartialReg(u, false, pre)], AcquireAll(holders, name, pre), cycle)
    ensures var g := RegisterAll(tb.loggers, p, name, config, u, tokens, newLogger);
            Inv(tb.(loggers := g.loggers), g.pending, regs[name := PartialReg(u, false, tokens)], AcquireAll(holders, name, tokens), cycle)
  {
    var pre := tokens[..|tokens| - 1];
    var mid := RegisterAll(tb.loggers, p, name, config, u, pre, newLogger);
    var tb1 := tb.(loggers := mid.loggers);
    GrowStep(regs, holders, name, u, tokens);
    RegisterBatchToken(tb1, mid.pending, regs[name := PartialReg(u, false, pre)], AcquireAll(holders, name, pre), cycle,
                       name, config, u, tokens[|tokens| - 1], newLogger);
  }

  /**
   * `init`'s token loop keeps the tables matched for a stream unit of the cycle
   * not routed for its own name: the unit ends up routed for all its tokens
   * through its queue.
   */
  lemma {:induction false} RegisterAllQueueKeeps(tb: Tables, p: Pending, regs: map<Name, Reg>, holders: Holders,
                                                 cycle: set<Name>, name: Name, config: DestinationConfig, u: Unit,
                                                 tokens: seq<TokenID>, newLogger: TokenID -> Handle)
    requires Inv(tb, p, regs, holders, cycle) && name in regs && name in cycle && regs[name] == PartialReg(u, false, [])
    requires !config.staged && config.mode == StreamMode && u.eventQueue.Some? && name !in tokens
    ensures var g := RegisterAll(tb.loggers, p, name, config, u, tokens, newLogger);
            g.loggers == tb.loggers && Inv(tb, g.pending, regs[name := PartialReg(u, false, tokens)], holders, cycle)
    decreases |tokens|
  {
    if tokens == [] {
      GrowNothing(regs, name, u);
    } else {
      PrefixTokens(tokens);
      RegisterAllQueueKeeps(tb, p, regs, holders, cycle, name, config, u, tokens[..|tokens| - 1], newLogger);
      RegisterQueueStep(tb, p, regs, holders, cycle, name, config, u, tokens, newLogger);
    }
  }

  /**
   * `init`'s token loop keeps the tables matched for a batch unit of the cycle:
   * the unit ends up routed for all its tokens and holding each token's logger
   * once per occurrence.
   */
  lemma {:induction false} RegisterAllBatchKeeps(tb: Tables, p: Pending, regs: map<Name, Reg>, holders: Holders,
                                                 cycle: set<Name>, name: Name, config: DestinationConfig, u: Unit,
                                                 tokens: seq<TokenID>, newLogger: TokenID -> Handle)
    requires Inv(tb, p, regs, holders, cycle) && name in regs && name in cycle && regs[name] == PartialReg(u, false, [])
    requires !config.staged && config.mode != StreamMode && u.eventQueue.None?
    ensures var g := RegisterAll(tb.loggers, p, name, config, u, tokens, newLogger);
            Inv(tb.(loggers := g.loggers), g.pending, regs[name := PartialReg(u, false, tokens)], AcquireAll(holders, name, tokens), cycle)
    decreases |tokens|
  {
    if tokens == [] {
      GrowNothing(regs, name, u);
      assert tb.(loggers := tb.loggers) == tb;
    } else {
      RegisterAllBatchKeeps(tb, p, regs, holders, cycle, name, config, u, tokens[..|tokens| - 1], newLogger);
      RegisterBatchStep(tb, p, regs, holders, cycle, name, config, u, tokens, newLogger);
    }
  }

  /** A staged unit registers nothing, whatever its tokens. */
  lemma {:induction false} RegisterAllStaged(loggers: map<TokenID, LoggerUsage>, p: Pending, name: Name,
                                             config: DestinationConfig, u: Unit, tokens: seq<TokenID>,
                                             newLogger: TokenID -> Handle)
    requires config.staged
    ensures RegisterAll(loggers, p, name, config, u, tokens, newLogger) == Registration(loggers, p, [])
    ensures PartialReg(u, true, tokens) == PartialReg(u, true, [])
    decreases |tokens|
  {
    if tokens != [] {
      RegisterAllStaged(loggers, p, name, config, u, tokens[..|tokens| - 1], newLogger);
    }
  }

  /** A stream unit's token loop leaves the logger usage alone and creates no logger. */
  lemma {:induction false} RegisterAllStream(loggers: map<TokenID, LoggerUsage>, p: Pending, name: Name,
                                             config: DestinationConfig, u: Unit, tokens: seq<TokenID>,
                                             newLogger: TokenID -> Handle)
    requires !config.staged && config.mode == StreamMode
    ensures var g := RegisterAll(loggers, p, name, config, u, tokens, newLogger);
            g.loggers == loggers && g.created == []
    decreases |tokens|
  {
    if tokens != [] {
      RegisterAllStream(loggers, p, name, config, u, tokens[..|tokens| - 1], newLogger);
    }
  }
}
