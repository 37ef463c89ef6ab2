/**
 * The unit registry and the routing tables together: what removing a live
 * unit and admitting a newly created one do to the invariant that the tables
 * agree with the registrations of the live units.
 */
module Registry {
  import opened Tokenized
  import opened Units
  import opened Routing

  /** No stream unit lists its own name among its token IDs. */
  predicate StreamNotSelf(units: map<Name, Unit>)
  {
    forall n :: n in units && units[n].eventQueue.Some? ==> n !in units[n].tokenIDs
  }

  /** The staged set once `name` is registered with the given staged flag. */
  function StagedWith(staged: set<Name>, name: Name, isStaged: bool): set<Name>
  {
    if isStaged then staged + {name} else staged - {name}
  }

  /** The holds once a new unit has registered all its tokens: only a non-staged batch unit takes any. */
  function AdmitHolds(holders: Holders, name: Name, config: DestinationConfig, u: Unit): Holders
  {
    if !config.staged && config.mode != StreamMode then AcquireAll(holders, name, u.tokenIDs) else holders
  }

  lemma RegsRemove(units: map<Name, Unit>, staged: set<Name>, name: Name)
    ensures Regs(units - {name}, staged - {name}) == Regs(units, staged) - {name}
  {
  }

  lemma RegsAdd(units: map<Name, Unit>, staged: set<Name>, name: Name, u: Unit, isStaged: bool)
    ensures Regs(units[name := u], StagedWith(staged, name, isStaged)) == Regs(units, staged)[name := RegOf(u, isStaged)]
  {
  }

  lemma UpdateMinus(regs: map<Name, Reg>, name: Name, r: Reg)
    ensures regs[name := r] - {name} == regs - {name}
  {
  }

  /** Once a unit has unregistered all its own tokens it is routed for nothing and holds nothing. */
  lemma DropOwnIdle(u: Unit, isStaged: bool)
    requires isStaged ==> u.eventQueue.Some?
    ensures Idle(DropAll(RegOf(u, isStaged), u.tokenIDs))
  {
  }

  /** The pending entries still belong to the cycle once it grows. */
  lemma PendingGrowCycle(p: Pending, holders: Holders, cycle: set<Name>, name: Name)
    requires PendingBy(p, holders, cycle)
    ensures PendingBy(p, holders, cycle + {name})
  {
    forall t, k | Has(p.consumers, t, k) && k == t
      ensures HeldByAny(holders, t, cycle + {name})
    {
      var m :| m in cycle && Held(holders, t, m) > 0;
    }
  }

  /**
   * `remove` on a live unit outside the current cycle keeps the tables matched
   * to the remaining units, provided the unit is not a staged batch unit:
   * no nil is dereferenced, and the unit's holds are released.
   */
  lemma RemovalKeeps(tb: Tables, p: Pending, units: map<Name, Unit>, staged: set<Name>, holders: Holders,
                     cycle: set<Name>, name: Name)
    requires Inv(tb, p, Regs(units, staged), holders, cycle) && StreamNotSelf(units)
    requires name in units && name !in cycle
    requires name in staged ==> units[name].eventQueue.Some?
    ensures var u := units[name];
            var r := UnregisterAll(tb, name, u.eventQueue.Some?, u.tokenIDs);
            r.Removed? &&
            Inv(r.tables, p, Regs(units - {name}, staged - {name}), HoldsAfter(holders, name, u.eventQueue.Some?, u.tokenIDs), cycle)
  {
    var u := units[name];
    var regs := Regs(units, staged);
    var holders' := HoldsAfter(holders, name, u.eventQueue.Some?, u.tokenIDs);
    var dropped := DropAll(regs[name], u.tokenIDs);
    if u.eventQueue.Some? {
      UnregisterAllQueueKeeps(tb, p, regs, holders, cycle, name, u.tokenIDs);
    } else {
      UnregisterAllBatchKeeps(tb, p, regs, holders, cycle, name, u.tokenIDs);
    }
    var r := UnregisterAll(tb, name, u.eventQueue.Some?, u.tokenIDs).tables;
    DropOwnIdle(u, name in staged);
    ForgetIdle(View(r, p), regs[name := dropped], holders', name);
    UpdateMinus(regs, name, dropped);
    RegsRemove(units, staged, name);
  }

  /**
   * The service's invariant on its maps: the tables are exactly what the live
   * units register, no stream unit is routed for its own name, and only live
   * units are marked staged.
   */
  ghost predicate Consistent(tb: Tables, units: map<Name, Unit>, staged: set<Name>, holders: Holders)
  {
    Inv(tb, NothingPending, Regs(units, staged), holders, {}) && StreamNotSelf(units) && staged <= units.Keys
  }

  /** `remove` keeps the service consistent, for any unit but a staged batch unit. */
  lemma RemovalConsistent(tb: Tables, units: map<Name, Unit>, staged: set<Name>, holders: Holders, name: Name)
    requires Consistent(tb, units, staged, holders) && name in units
    requires name in staged ==> units[name].eventQueue.Some?
    ensures var u := units[name];
            var r := UnregisterAll(tb, name, u.eventQueue.Some?, u.tokenIDs);
            r.Removed? && Consistent(r.tables, units - {name}, staged - {name}, HoldsAfter(holders, name, u.eventQueue.Some?, u.tokenIDs))
  {
    RemovalKeeps(tb, NothingPending, units, staged, holders, {}, name);
  }

  /** A staged unit's token loop changes nothing, and its registration is idle. */
  lemma AdmitStaged(tb: Tables, p: Pending, regs: map<Name, Reg>, holders: Holders, cycle: set<Name>,
                    name: Name, config: DestinationConfig, u: Unit, newLogger: TokenID -> Handle)
    requires Inv(tb, p, regs, holders, cycle) && name !in regs && config.staged
    ensures var g := RegisterAll(tb.loggers, p, name, config, u, u.tokenIDs, newLogger);
            Inv(tb.(loggers := g.loggers), g.pending, regs[name := RegOf(u, true)], holders, cycle)
  {
    RegisterAllStaged(tb.loggers, p, name, config, u, u.tokenIDs, newLogger);
    AddIdle(View(tb, p), regs, holders, name, RegOf(u, true));
    assert tb.(loggers := tb.loggers) == tb;
  }

  lemma UpdateTwice(regs: map<Name, Reg>, name: Name, a: Reg, b: Reg)
    ensures regs[name := a][name := b] == regs[name := b]
  {
  }

  /** A new registration routed for nothing keeps the tables matched. */
  lemma InvAddIdle(tb: Tables, p: Pending, regs: map<Name, Reg>, holders: Holders, cycle: set<Name>, name: Name, r: Reg)
    requires Inv(tb, p, regs, holders, cycle) && name !in regs && Idle(r)
    ensures Inv(tb, p, regs[name := r], holders, cycle)
  {
    AddIdle(View(tb, p), regs, holders, name, r);
  }

  /** A stream unit is routed through its queue for every token. */
  lemma AdmitStream(tb: Tables, p: Pending, regs: map<Name, Reg>, holders: Holders, cycle: set<Name>,
                    name: Name, config: DestinationConfig, u: Unit, newLogger: TokenID -> Handle)
    requires Inv(tb, p, regs, holders, cycle) && name !in regs && name in cycle
    requires !config.staged && config.mode == StreamMode && u.eventQueue.Some? && name !in u.tokenIDs
    ensures var g := RegisterAll(tb.loggers, p, name, config, u, u.tokenIDs, newLogger);
            Inv(tb.(loggers := g.loggers), g.pending, regs[name := RegOf(u, false)], holders, cycle)
  {
    var idle := regs[name := PartialReg(u, false, [])];
    InvAddIdle(tb, p, regs, holders, cycle, name, PartialReg(u, false, []));
    RegisterAllQueueKeeps(tb, p, idle, holders, cycle, name, config, u, u.tokenIDs, newLogger);
    UpdateTwice(regs, name, PartialReg(u, false, []), RegOf(u, false));
    assert tb.(loggers := tb.loggers) == tb;
  }

  /** A batch unit holds the logger of every token it lists, once per occurrence. */
  lemma AdmitBatch(tb: Tables, p: Pending, regs: map<Name, Reg>, holders: Holders, cycle: set<Name>,
                   name: Name, config: DestinationConfig, u: Unit, newLogger: TokenID -> Handle)
    requires Inv(tb, p, regs, holders, cycle) && name !in regs && name in cycle
    requires !config.staged && config.mode != StreamMode && u.eventQueue.None?
    ensures var g := RegisterAll(tb.loggers, p, name, config, u, u.tokenIDs, newLogger);
            Inv(tb.(loggers := g.loggers), g.pending, regs[name := RegOf(u, false)], AcquireAll(holders, name, u.tokenIDs), cycle)
  {
    var idle := regs[name := PartialReg(u, false, [])];
    InvAddIdle(tb, p, regs, holders, cycle, name, PartialReg(u, false, []));
    RegisterAllBatchKeeps(tb, p, idle, holders, cycle, name, config, u, u.tokenIDs, newLogger);
    UpdateTwice(regs, name, PartialReg(u, false, []), RegOf(u, false));
  }

  /**
   * Registering a newly created unit of the current cycle keeps the tables
   * matched to the units, provided the factory handed out a queue exactly for
   * a stream-mode destination and a stream destination does not list its own
   * name as a token.
   */
  lemma AdmissionKeeps(tb: Tables, p: Pending, units: map<Name, Unit>, staged: set<Name>, holders: Holders,
                       cycle: set<Name>, name: Name, config: DestinationConfig, u: Unit, newLogger: TokenID -> Handle)
    requires Inv(tb, p, Regs(units, staged), holders, cycle) && name !in units
    requires config.mode == StreamMode <==> u.eventQueue.Some?
    requires u.eventQueue.Some? ==> name !in u.tokenIDs
    ensures var g := RegisterAll(tb.loggers, p, name, config, u, u.tokenIDs, newLogger);
            Inv(tb.(loggers := g.loggers), g.pending, Regs(units[name := u], StagedWith(staged, name, config.staged)),
                AdmitHolds(holders, name, config, u), cycle + {name})
  {
    var regs := Regs(units, staged);
    PendingGrowCycle(p, holders, cycle, name);
    if config.staged {
      AdmitStaged(tb, p, regs, holders, cycle + {name}, name, config, u, newLogger);
    } else if config.mode == StreamMode {
      AdmitStream(tb, p, regs, holders, cycle + {name}, name, config, u, newLogger);
    } else {
      AdmitBatch(tb, p, regs, holders, cycle + {name}, name, config, u, newLogger);
    }
    RegsAdd(units, staged, name, u, config.staged);
  }

  /** Merging the pending entries into the live tables ends the cycle with nothing pending. */
  lemma MergeKeeps(tb: Tables, p: Pending, regs: map<Name, Reg>, holders: Holders, cycle: set<Name>)
    requires Inv(tb, p, regs, holders, cycle)
    ensures Inv(View(tb, p), NothingPending, regs, holders, {})
  {
    var v := View(tb, p);
    AddAllEmpty(v.consumers);
    AddAllEmpty(v.storages);
    AddAllEmpty(v.ids);
    assert View(v, NothingPending) == v;
  }

  // ---------------------------------------------------------------------------
  // What a consistent service answers
  // ---------------------------------------------------------------------------

  /** A consistent service's tables are exactly the ones its units' registrations determine. */
  lemma ConsistentTables(tb: Tables, units: map<Name, Unit>, staged: set<Name>, holders: Holders)
    requires Consistent(tb, units, staged, holders)
    ensures var regs := Regs(units, staged);
            && tb.ids == Ids(regs) && tb.storages == Storages(regs) && tb.consumers == Consumers(tb.loggers, regs)
            && HoldersMatch(tb.loggers, holders, regs)
  {
    AddAllEmpty(tb.ids);
    AddAllEmpty(tb.storages);
    AddAllEmpty(tb.consumers);
    assert View(tb, NothingPending) == tb;
  }

  /** The units a token is routed to: every live, non-staged unit that lists it. */
  lemma ConsistentIds(tb: Tables, units: map<Name, Unit>, staged: set<Name>, holders: Holders, t: TokenID)
    requires Consistent(tb, units, staged, holders)
    ensures Get(tb.ids, t) == map n | n in units && n !in staged && t in units[n].tokenIDs :: true
  {
    ConsistentTables(tb, units, staged, holders);
    GetIds(Regs(units, staged));
  }

  /** The storages a token's batch events go to: that of every live, non-staged batch unit that lists it. */
  lemma ConsistentStorages(tb: Tables, units: map<Name, Unit>, staged: set<Name>, holders: Holders, t: TokenID)
    requires Consistent(tb, units, staged, holders)
    ensures Get(tb.storages, t) ==
            map n | n in units && n !in staged && units[n].eventQueue.None? && t in units[n].tokenIDs :: units[n].storage
  {
    ConsistentTables(tb, units, staged, holders);
    GetStorages(Regs(units, staged));
    StoragesForRegs(units, staged, t);
  }

  lemma StoragesForRegs(units: map<Name, Unit>, staged: set<Name>, t: TokenID)
    ensures StoragesFor(Regs(units, staged), t) ==
            map n | n in units && n !in staged && units[n].eventQueue.None? && t in units[n].tokenIDs :: units[n].storage
  {
  }

  lemma QueuesForRegs(units: map<Name, Unit>, staged: set<Name>, t: TokenID)
    ensures QueuesFor(Regs(units, staged), t) ==
            map n | n in units && n !in staged && units[n].eventQueue.Some? && t in units[n].tokenIDs
                  :: QueueConsumer(units[n].eventQueue)
  {
  }

  /**
   * The consumers of a token: the queue of every live, non-staged stream unit
   * that lists it, under the unit's name, and the token's shared logger under
   * the token itself.
   */
  lemma ConsistentConsumers(tb: Tables, units: map<Name, Unit>, staged: set<Name>, holders: Holders, t: TokenID)
    requires Consistent(tb, units, staged, holders)
    ensures Get(tb.consumers, t) ==
            (map n | n in units && n !in staged && units[n].eventQueue.Some? && t in units[n].tokenIDs
                   :: QueueConsumer(units[n].eventQueue))
            + (if t in tb.loggers then map[t := LoggerConsumer(tb.loggers[t].logger)] else map[])
  {
    ConsistentTables(tb, units, staged, holders);
    GetConsumers(tb.loggers, Regs(units, staged));
    QueuesForRegs(units, staged, t);
  }

  /** A unit holds the shared logger of `t` once per listing of `t`, when it is a live, non-staged batch unit. */
  lemma HeldByUnits(units: map<Name, Unit>, staged: set<Name>, holders: Holders, t: TokenID)
    requires HeldAgrees(holders, Regs(units, staged))
    ensures forall n :: n in units ==>
              Held(holders, t, n) == if n !in staged && units[n].eventQueue.None? then multiset(units[n].tokenIDs)[t] else 0
  {
    var regs := Regs(units, staged);
    forall n | n in units
      ensures Held(holders, t, n) == if n !in staged && units[n].eventQueue.None? then multiset(units[n].tokenIDs)[t] else 0
    {
      assert regs[n].held[t] == Held(holders, t, n);
    }
  }

  /**
   * A token has a shared logger exactly when some live, non-staged batch unit
   * lists it; its usage is the number of holds, and each such unit holds it
   * once per listing.
   */
  lemma ConsistentLoggers(tb: Tables, units: map<Name, Unit>, staged: set<Name>, holders: Holders, t: TokenID)
    requires Consistent(tb, units, staged, holders)
    ensures t in tb.loggers <==> exists n :: n in units && n !in staged && units[n].eventQueue.None? && t in units[n].tokenIDs
    ensures t in tb.loggers ==> tb.loggers[t].usage == |holders[t]|
    ensures forall n :: n in units ==>
              Held(holders, t, n) == if n !in staged && units[n].eventQueue.None? then multiset(units[n].tokenIDs)[t] else 0
  {
    ConsistentTables(tb, units, staged, holders);
    HeldByUnits(units, staged, holders, t);
    if t in tb.loggers {
      var n :| n in holders[t];
      assert Held(holders, t, n) > 0;
      assert n in Regs(units, staged);
      assert multiset(units[n].tokenIDs)[t] > 0;
      assert n in units && n !in staged && units[n].eventQueue.None? && t in units[n].tokenIDs;
    } else {
      forall n | n in units && n !in staged && units[n].eventQueue.None?
        ensures t !in units[n].tokenIDs
      {
        assert multiset(units[n].tokenIDs)[t] == Held(holders, t, n) == 0;
      }
    }
  }

  /**
   * A staged batch unit never took a hold on a logger, yet `remove` releases
   * one per token: when no other batch unit is routed for its first token,
   * that token has no logger and the release dereferences nil.
   */
  lemma StagedBatchRemovalPanics(tb: Tables, units: map<Name, Unit>, staged: set<Name>, holders: Holders, name: Name)
    requires Consistent(tb, units, staged, holders) && name in staged
    requires units[name].eventQueue.None? && units[name].tokenIDs != []
    requires forall n :: n in units && n !in staged && units[n].eventQueue.None? ==> units[name].tokenIDs[0] !in units[n].tokenIDs
    ensures UnregisterAll(tb, name, false, units[name].tokenIDs).NilDeref?
  {
    var tokens := units[name].tokenIDs;
    ConsistentLoggers(tb, units, staged, holders, tokens[0]);
    assert tokens[..1][..0] == [];
    NilDerefSticks(tb, name, false, tokens, 1);
  }

  lemma ReleaseLastHold(tb: Tables, name: Name, t: TokenID)
    requires t in tb.loggers && tb.loggers[t].usage == 1
    ensures var r := UnregisterAll(tb, name, false, [t]);
            && r.Removed? && t !in r.tables.loggers && r.closed == [LoggerClosed(t, tb.loggers[t].logger)]
  {
    assert [t][..0] == [];
  }

  /**
   * When another batch unit holds the only hold on the token's logger,
   * removing a staged batch unit routed for that token closes and drops the
   * logger that the other unit is still routed through.
   */
  lemma StagedBatchRemovalClosesShared(tb: Tables, units: map<Name, Unit>, staged: set<Name>, holders: Holders,
                                       name: Name, t: TokenID)
    requires Consistent(tb, units, staged, holders) && name in staged
    requires units[name].eventQueue.None? && units[name].tokenIDs == [t]
    requires t in tb.loggers && tb.loggers[t].usage == 1
    ensures var r := UnregisterAll(tb, name, false, [t]);
            && r.Removed? && t !in r.tables.loggers && r.closed == [LoggerClosed(t, tb.loggers[t].logger)]
    ensures exists n :: n in units && n != name && n !in staged && units[n].eventQueue.None? && t in units[n].tokenIDs
  {
    ConsistentLoggers(tb, units, staged, holders, t);
    ReleaseLastHold(tb, name, t);
  }
}
