/**
 * One reconciliation cycle of the destinations service (`init` in
 * server/destinations/service.go), on values: the deletion pass, the step for
 * one destination of the snapshot and the final merge, as functions of the
 * service's state; what each leaves in the unit registry and the effect log;
 * and the invariant each keeps.
 */
module Reconciliation {
  import opened Wrappers
  import opened Tokenized
  import opened Units
  import opened Routing
  import opened Registry

  /**
   * The service's state during a cycle: the routing tables, the cycle's pending
   * maps, the unit registry, the units registered as staged, the holds on the
   * shared loggers and the calls made into the collaborators so far.
   */
  datatype Snapshot = Snapshot(
    tables: Tables,
    pending: Pending,
    units: map<Name, Unit>,
    staged: set<Name>,
    holders: Holders,
    effects: seq<Effect>)

  /** The invariant a cycle keeps: the tables and pending maps match the units, as `Consistent` but mid-cycle. */
  ghost predicate Sound(s: Snapshot, cycle: set<Name>)
  {
    Inv(s.tables, s.pending, Regs(s.units, s.staged), s.holders, cycle) && StreamNotSelf(s.units) && s.staged <= s.units.Keys
  }

  // ---------------------------------------------------------------------------
  // The effect log
  // ---------------------------------------------------------------------------

  /** The units closed in a stretch of the effect log, with the unit each one closed. */
  function UnitsClosed(es: seq<Effect>): set<(Name, Unit)>
  {
    set e | e in es && e.UnitClosed? :: (e.name, e.unit)
  }

  /** The destinations the storage factory was asked to build in a stretch of the effect log. */
  function FactoryCalls(es: seq<Effect>): set<Name>
  {
    set e | e in es && e.FactoryCalled? :: e.name
  }

  /** The part of the log `after` added to `before`. */
  function Added(before: Snapshot, after: Snapshot): seq<Effect>
  {
    if |before.effects| <= |after.effects| then after.effects[|before.effects|..] else []
  }

  /** `after` only appended to the log of `before`. */
  predicate Extends(before: Snapshot, after: Snapshot)
  {
    |before.effects| <= |after.effects| && after.effects[..|before.effects|] == before.effects
  }

  lemma LogAppend(a: seq<Effect>, b: seq<Effect>)
    ensures UnitsClosed(a + b) == UnitsClosed(a) + UnitsClosed(b)
    ensures FactoryCalls(a + b) == FactoryCalls(a) + FactoryCalls(b)
  {
    assert forall e :: e in a + b <==> e in a || e in b;
  }

  /** No unit is closed twice and no destination is built twice in a stretch of the effect log. */
  predicate OnceEach(es: seq<Effect>)
  {
    && (forall i, j :: 0 <= i < j < |es| && es[i].UnitClosed? && es[j].UnitClosed? ==> es[i].name != es[j].name)
    && (forall i, j :: 0 <= i < j < |es| && es[i].FactoryCalled? && es[j].FactoryCalled? ==> es[i].name != es[j].name)
  }

  /** Two stretches that close and build different destinations do each only once together. */
  lemma OnceAppend(a: seq<Effect>, b: seq<Effect>)
    requires OnceEach(a) && OnceEach(b)
    requires forall p, q :: p in UnitsClosed(a) && q in UnitsClosed(b) ==> p.0 != q.0
    requires FactoryCalls(a) !! FactoryCalls(b)
    ensures OnceEach(a + b)
  {
    var ab := a + b;
    forall i, j | 0 <= i < j < |ab| && ab[i].UnitClosed? && ab[j].UnitClosed? ensures ab[i].name != ab[j].name {
      if i < |a| && |a| <= j {
        assert (ab[i].name, ab[i].unit) in UnitsClosed(a) by { assert ab[i] == a[i]; }
        assert (ab[j].name, ab[j].unit) in UnitsClosed(b) by { assert ab[j] == b[j - |a|]; }
      } else if |a| <= i {
        assert ab[i] == b[i - |a|] && ab[j] == b[j - |a|];
      } else {
        assert ab[i] == a[i] && ab[j] == a[j];
      }
    }
    forall i, j | 0 <= i < j < |ab| && ab[i].FactoryCalled? && ab[j].FactoryCalled? ensures ab[i].name != ab[j].name {
      if i < |a| && |a| <= j {
        assert ab[i].name in FactoryCalls(a) by { assert ab[i] == a[i]; }
        assert ab[j].name in FactoryCalls(b) by { assert ab[j] == b[j - |a|]; }
      } else if |a| <= i {
        assert ab[i] == b[i - |a|] && ab[j] == b[j - |a|];
      } else {
        assert ab[i] == a[i] && ab[j] == a[j];
      }
    }
  }

  /** Logger creations and closings name no unit and no factory call. */
  lemma LoggerEffectsQuiet(es: seq<Effect>)
    requires forall e :: e in es ==> e.LoggerCreated? || e.LoggerClosed?
    ensures UnitsClosed(es) == {} && FactoryCalls(es) == {}
  {
  }

  /** Logger creations and closings close no unit and build no destination, so none twice. */
  lemma LoggerEffectsOnce(es: seq<Effect>)
    requires forall e :: e in es ==> e.LoggerCreated? || e.LoggerClosed?
    ensures OnceEach(es)
  {
    assert forall i :: 0 <= i < |es| ==> es[i] in es;
  }

  /** What two successive extensions added, in order. */
  lemma AddedChain(a: Snapshot, b: Snapshot, c: Snapshot)
    requires Extends(a, b) && Extends(b, c)
    ensures Extends(a, c) && Added(a, c) == Added(a, b) + Added(b, c)
  {
    assert c.effects[..|a.effects|] == c.effects[..|b.effects|][..|a.effects|];
    assert c.effects[|a.effects|..] == c.effects[|a.effects|..|b.effects|] + c.effects[|b.effects|..];
    assert c.effects[|a.effects|..|b.effects|] == b.effects[|a.effects|..];
  }

  // ---------------------------------------------------------------------------
  // The step for one destination
  // ---------------------------------------------------------------------------

  /**
   * `remove` of the live unit `name`: its tokens are unregistered, the unit is
   * closed and leaves the registry; `None` when a token's logger is nil.
   */
  function Drop(s: Snapshot, name: Name): Option<Snapshot>
    requires name in s.units
  {
    var u := s.units[name];
    match UnregisterAll(s.tables, name, u.eventQueue.Some?, u.tokenIDs)
    case NilDeref => None
    case Removed(tb, closed) =>
      Some(s.(tables := tb, units := s.units - {name}, staged := s.staged - {name},
              holders := HoldsAfter(s.holders, name, u.eventQueue.Some?, u.tokenIDs),
              effects := s.effects + closed + [UnitClosed(name, u)]))
  }

  /** Registering the newly created unit `u`: its registry entry, then its token loop. */
  function Admit(s: Snapshot, name: Name, config: DestinationConfig, u: Unit, newLogger: TokenID -> Handle): Snapshot
  {
    var g := RegisterAll(s.tables.loggers, s.pending, name, config, u, u.tokenIDs, newLogger);
    s.(tables := s.tables.(loggers := g.loggers), pending := g.pending, units := s.units[name := u],
       staged := StagedWith(s.staged, name, config.staged), holders := AdmitHolds(s.holders, name, config, u),
       effects := s.effects + g.created)
  }

  /**
   * Creating the destination `name` once no unit of that name is live: nothing
   * when no token resolves; otherwise the storage factory is called, and on
   * success the unit is admitted with its resolved token IDs and its hash.
   */
  function Create(s: Snapshot, name: Name, config: DestinationConfig, env: Collaborators): Snapshot
  {
    var resolved := Resolve(config, env);
    if |resolved.onlyTokens| == 0 then s
    else
      var called := s.(effects := s.effects + [FactoryCalled(name)]);
      match env.create(name, resolved)
      case CreateFailed(_) => called
      case Created(storage, queue) =>
        Admit(called, name, resolved, Unit(queue, storage, resolved.onlyTokens, HashOf(name, config, env)),
              env.incomingLogger)
  }

  /**
   * `init`'s loop body for the destination `name` of the snapshot: an unchanged
   * unit stays; a changed one is removed first (`None` if that dereferences
   * nil); then the destination is created.
   */
  function Step(s: Snapshot, name: Name, config: DestinationConfig, env: Collaborators): Option<Snapshot>
  {
    if Unchanged(s.units, name, config, env) then Some(s)
    else if name in s.units then
      match Drop(s, name)
      case None => None
      case Some(dropped) => Some(Create(dropped, name, config, env))
    else Some(Create(s, name, config, env))
  }

  /** The registry with the entry of `name` set to `next`, or removed when `next` is `None`. */
  function Updated(units: map<Name, Unit>, name: Name, next: Option<Unit>): map<Name, Unit>
  {
    match next
    case Some(u) => units[name := u]
    case None => units - {name}
  }

  /** The staged set after the step for `name`. */
  function StagedStep(units: map<Name, Unit>, staged: set<Name>, name: Name, config: DestinationConfig,
                      env: Collaborators): set<Name>
  {
    if Unchanged(units, name, config, env) then staged
    else if NextUnit(units, name, config, env).Some? then StagedWith(staged, name, config.staged)
    else if name in units then staged - {name}
    else staged
  }

  /** `remove` logs the closings of the loggers it drops, then the closing of the unit. */
  lemma DropLog(s: Snapshot, name: Name)
    requires name in s.units && Drop(s, name).Some?
    ensures var r := Drop(s, name).value;
            Extends(s, r) && FactoryCalls(Added(s, r)) == {} && UnitsClosed(Added(s, r)) == {(name, s.units[name])}
  {
    var u := s.units[name];
    var r := Drop(s, name).value;
    var closed := UnregisterAll(s.tables, name, u.eventQueue.Some?, u.tokenIDs).closed;
    UnregisterClosesLoggers(s.tables, name, u.eventQueue.Some?, u.tokenIDs);
    LoggerEffectsQuiet(closed);
    LogAppend(closed, [UnitClosed(name, u)]);
    assert r.effects == s.effects + (closed + [UnitClosed(name, u)]);
    assert Added(s, r) == closed + [UnitClosed(name, u)];
  }

  /** A snapshot whose log is that of `s` plus `es` extends `s` by exactly `es`. */
  lemma AppendExtends(s: Snapshot, r: Snapshot, es: seq<Effect>)
    requires r.effects == s.effects + es
    ensures Extends(s, r) && Added(s, r) == es
  {
  }

  /** Admitting a unit logs only the loggers its token loop creates. */
  lemma AdmitLog(s: Snapshot, name: Name, config: DestinationConfig, u: Unit, newLogger: TokenID -> Handle)
    ensures var r := Admit(s, name, config, u, newLogger);
            && Extends(s, r) && UnitsClosed(Added(s, r)) == {} && FactoryCalls(Added(s, r)) == {}
  {
    var g := RegisterAll(s.tables.loggers, s.pending, name, config, u, u.tokenIDs, newLogger);
    RegisterCreatesLoggers(s.tables.loggers, s.pending, name, config, u, u.tokenIDs, newLogger);
    LoggerEffectsQuiet(g.created);
    AppendExtends(s, Admit(s, name, config, u, newLogger), g.created);
  }

  /** Creating logs the factory call when a token resolved, then the loggers the new unit creates. */
  lemma CreateLog(s: Snapshot, name: Name, config: DestinationConfig, env: Collaborators)
    ensures var r := Create(s, name, config, env);
            && Extends(s, r) && UnitsClosed(Added(s, r)) == {}
            && FactoryCalls(Added(s, r)) == (if |Resolve(config, env).onlyTokens| > 0 then {name} else {})
  {
    var r := Create(s, name, config, env);
    var resolved := Resolve(config, env);
    if |resolved.onlyTokens| == 0 {
      AppendExtends(s, r, []);
      return;
    }
    var called := s.(effects := s.effects + [FactoryCalled(name)]);
    AppendExtends(s, called, [FactoryCalled(name)]);
    assert FactoryCalls([FactoryCalled(name)]) == {name} && UnitsClosed([FactoryCalled(name)]) == {};
    match env.create(name, resolved)
    case CreateFailed(_) =>
    case Created(storage, queue) =>
      var u := Unit(queue, storage, resolved.onlyTokens, HashOf(name, config, env));
      AdmitLog(called, name, resolved, u, env.incomingLogger);
      AddedChain(s, called, r);
      LogAppend(Added(s, called), Added(called, r));
  }

  /**
   * The step grows the log by the factory call exactly when one is due and by
   * the closing of the old unit exactly when it changed.
   */
  lemma StepLog(s: Snapshot, name: Name, config: DestinationConfig, env: Collaborators)
    requires Step(s, name, config, env).Some?
    ensures var r := Step(s, name, config, env).value;
            && Extends(s, r)
            && FactoryCalls(Added(s, r)) == (if CreateCalled(s.units, name, config, env) then {name} else {})
            && UnitsClosed(Added(s, r)) ==
               (if name in s.units && !Unchanged(s.units, name, config, env) then {(name, s.units[name])} else {})
  {
    var r := Step(s, name, config, env).value;
    if Unchanged(s.units, name, config, env) {
      assert Added(s, r) == [];
    } else if name in s.units {
      var dropped := Drop(s, name).value;
      DropLog(s, name);
      CreateLog(dropped, name, config, env);
      AddedChain(s, dropped, r);
      LogAppend(Added(s, dropped), Added(dropped, r));
    } else {
      CreateLog(s, name, config, env);
    }
  }

  /** The step leaves the registry entry `NextUnit` describes, and the staged mark follows the new unit. */
  lemma StepRegistry(s: Snapshot, name: Name, config: DestinationConfig, env: Collaborators)
    requires Step(s, name, config, env).Some?
    ensures var r := Step(s, name, config, env).value;
            && r.units == Updated(s.units, name, NextUnit(s.units, name, config, env))
            && r.staged == StagedStep(s.units, s.staged, name, config, env)
  {
    var resolved := Resolve(config, env);
    if !Unchanged(s.units, name, config, env) && |resolved.onlyTokens| > 0 && env.create(name, resolved).Created? {
      var base := if name in s.units then s.staged - {name} else s.staged;
      assert StagedWith(base, name, resolved.staged) == StagedWith(s.staged, name, config.staged);
    }
  }

  /** What the step must not meet: a changed staged batch unit, whose removal would touch loggers it never held. */
  predicate RecreateSafe(units: map<Name, Unit>, staged: set<Name>, name: Name, config: DestinationConfig,
                         env: Collaborators)
  {
    name in units && !Unchanged(units, name, config, env) && name in staged ==> units[name].eventQueue.Some?
  }

  /**
   * The step keeps the tables matched to the units and adds `name` to the
   * cycle, provided the factory fits the destination and the unit it replaces
   * is not a staged batch unit; it never dereferences nil.
   */
  lemma StepKeeps(s: Snapshot, cycle: set<Name>, name: Name, config: DestinationConfig, env: Collaborators)
    requires Sound(s, cycle) && name !in cycle && FactoryFits(name, config, env)
    requires RecreateSafe(s.units, s.staged, name, config, env)
    ensures Step(s, name, config, env).Some? && Sound(Step(s, name, config, env).value, cycle + {name})
  {
    if Unchanged(s.units, name, config, env) {
      PendingGrowCycle(s.pending, s.holders, cycle, name);
      return;
    }
    var dropped := s;
    if name in s.units {
      DropKeeps(s, cycle, name);
      dropped := Drop(s, name).value;
    }
    CreateKeeps(dropped, cycle, name, config, env);
  }

  lemma CreateKeeps(s: Snapshot, cycle: set<Name>, name: Name, config: DestinationConfig, env: Collaborators)
    requires Sound(s, cycle) && name !in s.units && FactoryFits(name, config, env)
    ensures Sound(Create(s, name, config, env), cycle + {name})
  {
    var resolved := Resolve(config, env);
    PendingGrowCycle(s.pending, s.holders, cycle, name);
    if |resolved.onlyTokens| > 0 {
      match env.create(name, resolved)
      case CreateFailed(_) =>
      case Created(storage, queue) =>
        var u := Unit(queue, storage, resolved.onlyTokens, HashOf(name, config, env));
        AdmissionKeeps(s.tables, s.pending, s.units, s.staged, s.holders, cycle, name, resolved, u, env.incomingLogger);
    }
  }

  // ---------------------------------------------------------------------------
  // The loops of a cycle
  // ---------------------------------------------------------------------------

  /** The names a sequence lists. */
  function Names(xs: seq<Name>): set<Name>
  {
    set n | n in xs
  }

  predicate Distinct(xs: seq<Name>)
  {
    forall i, j :: 0 <= i < j < |xs| ==> xs[i] != xs[j]
  }

  lemma NamesSnoc(xs: seq<Name>, n: Name)
    ensures Names(xs + [n]) == Names(xs) + {n}
    ensures Distinct(xs + [n]) <==> Distinct(xs) && n !in xs
  {
    assert forall m :: m in xs + [n] <==> m in xs || m == n;
    var ys := xs + [n];
    if Distinct(ys) {
      forall i, j | 0 <= i < j < |xs| ensures xs[i] != xs[j] {
        assert ys[i] == xs[i] && ys[j] == xs[j];
      }
      forall k | 0 <= k < |xs| ensures xs[k] != n {
        assert ys[k] == xs[k] && ys[|xs|] == n;
      }
    }
    if Distinct(xs) && n !in xs {
      forall i, j | 0 <= i < j < |ys| ensures ys[i] != ys[j] {
        if j == |xs| {
          assert ys[i] == xs[i];
        } else {
          assert ys[i] == xs[i] && ys[j] == xs[j];
        }
      }
    }
  }

  lemma NamesEmpty(xs: seq<Name>)
    ensures Names(xs) == {} <==> xs == []
  {
    if xs != [] {
      assert xs[0] in Names(xs);
    }
  }

  lemma NamesPrefix(xs: seq<Name>)
    requires xs != []
    ensures xs == xs[..|xs| - 1] + [xs[|xs| - 1]]
    ensures Names(xs) == Names(xs[..|xs| - 1]) + {xs[|xs| - 1]}
    ensures Distinct(xs) ==> Distinct(xs[..|xs| - 1]) && xs[|xs| - 1] !in xs[..|xs| - 1]
  {
    assert xs == xs[..|xs| - 1] + [xs[|xs| - 1]];
    NamesSnoc(xs[..|xs| - 1], xs[|xs| - 1]);
  }

  lemma DistinctAppend(a: seq<Name>, b: seq<Name>)
    requires Distinct(a) && Distinct(b) && Names(a) !! Names(b)
    ensures Distinct(a + b) && Names(a + b) == Names(a) + Names(b)
  {
    assert forall n :: n in a + b <==> n in a || n in b;
    forall i, j | 0 <= i < j < |a + b| ensures (a + b)[i] != (a + b)[j] {
      if j < |a| {
        assert (a + b)[i] == a[i] && (a + b)[j] == a[j];
      } else if i >= |a| {
        assert (a + b)[i] == b[i - |a|] && (a + b)[j] == b[j - |a|];
      } else {
        assert (a + b)[i] == a[i] && (a + b)[j] == b[j - |a|];
        assert a[i] in Names(a) && b[j - |a|] in Names(b);
      }
    }
  }

  /** Some listing of the names of a finite set, each once. */
  ghost function Listing(xs: set<Name>): (r: seq<Name>)
    ensures Distinct(r) && Names(r) == xs
    decreases xs
  {
    if xs == {} then []
    else
      var x :| x in xs;
      NamesSnoc(Listing(xs - {x}), x);
      Listing(xs - {x}) + [x]
  }

  /**
   * The deletion pass: `remove` of each unit that left the snapshot, in the
   * order the pass meets them; `None` as soon as one dereferences nil.
   */
  function RemoveAll(s: Snapshot, gone: seq<Name>): (r: Option<Snapshot>)
    requires Distinct(gone) && Names(gone) <= s.units.Keys
    ensures r.Some? ==> r.value.units == s.units - Names(gone) && r.value.staged == s.staged - Names(gone)
    decreases |gone|
  {
    if gone == [] then Some(s)
    else
      NamesPrefix(gone);
      var last := gone[|gone| - 1];
      match RemoveAll(s, gone[..|gone| - 1])
      case None => None
      case Some(m) => Drop(m, last)
  }

  /** The loop over the snapshot: the step of each destination, in the order the loop meets them. */
  function StepAll(s: Snapshot, order: seq<Name>, dc: map<Name, DestinationConfig>, env: Collaborators): Option<Snapshot>
    requires Names(order) <= dc.Keys
    decreases |order|
  {
    if order == [] then Some(s)
    else
      NamesPrefix(order);
      var last := order[|order| - 1];
      match StepAll(s, order[..|order| - 1], dc, env)
      case None => None
      case Some(m) => Step(m, last, dc[last], env)
  }

  lemma RemoveAllNext(s: Snapshot, gone: seq<Name>, n: Name)
    requires Distinct(gone) && Names(gone) <= s.units.Keys && n in s.units && n !in gone
    requires Distinct(gone + [n]) && Names(gone + [n]) <= s.units.Keys
    ensures RemoveAll(s, gone + [n]) == match RemoveAll(s, gone) case None => None case Some(m) => Drop(m, n)
  {
    NamesSnoc(gone, n);
    assert (gone + [n])[..|gone|] == gone;
  }

  lemma StepAllNext(s: Snapshot, order: seq<Name>, n: Name, dc: map<Name, DestinationConfig>, env: Collaborators)
    requires Names(order) <= dc.Keys && n in dc && Names(order + [n]) <= dc.Keys
    ensures StepAll(s, order + [n], dc, env) ==
            match StepAll(s, order, dc, env) case None => None case Some(m) => Step(m, n, dc[n], env)
  {
    NamesSnoc(order, n);
    assert (order + [n])[..|order|] == order;
  }

  /** Once the deletion pass dereferences nil, the rest of it does not matter. */
  lemma {:induction false} RemoveAllSticks(s: Snapshot, gone: seq<Name>, extra: seq<Name>)
    requires Distinct(gone) && Names(gone) <= s.units.Keys
    requires Distinct(gone + extra) && Names(gone + extra) <= s.units.Keys
    requires RemoveAll(s, gone).None?
    ensures RemoveAll(s, gone + extra).None?
    decreases |extra|
  {
    if extra == [] {
      assert gone + extra == gone;
      return;
    }
    var pre, last := extra[..|extra| - 1], extra[|extra| - 1];
    assert gone + extra == (gone + pre) + [last];
    NamesSnoc(gone + pre, last);
    RemoveAllSticks(s, gone, pre);
    RemoveAllNext(s, gone + pre, last);
  }

  /** Once the loop over the snapshot dereferences nil, the rest of it does not matter. */
  lemma {:induction false} StepAllSticks(s: Snapshot, order: seq<Name>, extra: seq<Name>,
                                         dc: map<Name, DestinationConfig>, env: Collaborators)
    requires Names(order) <= dc.Keys && Names(order + extra) <= dc.Keys
    requires StepAll(s, order, dc, env).None?
    ensures StepAll(s, order + extra, dc, env).None?
    decreases |extra|
  {
    if extra == [] {
      assert order + extra == order;
      return;
    }
    var pre, last := extra[..|extra| - 1], extra[|extra| - 1];
    assert order + extra == (order + pre) + [last];
    NamesSnoc(order + pre, last);
    StepAllSticks(s, order, pre, dc, env);
    StepAllNext(s, order + pre, last, dc, env);
  }

  /** Merging the pending maps into the tables at the end of the cycle. */
  function Merge(s: Snapshot): Snapshot
  {
    s.(tables := View(s.tables, s.pending), pending := NothingPending)
  }

  /**
   * `init(dc)`: the deletion pass over `gone`, the units that left the
   * snapshot, then the step of each destination of the snapshot in `order`,
   * then the merge; `None` when a removal dereferences nil.
   */
  function Reconcile(s: Snapshot, gone: seq<Name>, order: seq<Name>, dc: map<Name, DestinationConfig>,
                     env: Collaborators): Option<Snapshot>
    requires Distinct(gone) && Names(gone) <= s.units.Keys && Names(order) <= dc.Keys
  {
    match RemoveAll(s, gone)
    case None => None
    case Some(m) =>
      match StepAll(m, order, dc, env)
      case None => None
      case Some(r) => Some(Merge(r))
  }

  // ---------------------------------------------------------------------------
  // What the loops leave
  // ---------------------------------------------------------------------------

  /** The registry once the destinations `done` of the snapshot have had their step. */
  function Planned(units: map<Name, Unit>, done: set<Name>, dc: map<Name, DestinationConfig>, env: Collaborators)
    : map<Name, Unit>
    requires done <= dc.Keys
  {
    map n | n in units.Keys + done && (n in done ==> NextUnit(units, n, dc[n], env).Some?) ::
      if n in done then NextUnit(units, n, dc[n], env).value else units[n]
  }

  /** The staged set once the destinations `done` of the snapshot have had their step. */
  function PlannedStaged(units: map<Name, Unit>, staged: set<Name>, done: set<Name>, dc: map<Name, DestinationConfig>,
                         env: Collaborators): set<Name>
    requires done <= dc.Keys
  {
    set n | n in staged + done && n in (if n in done then StagedStep(units, staged, n, dc[n], env) else staged)
  }

  /** The step of a destination not yet met sees its entry as it was before the loop. */
  lemma PlannedUntouched(units: map<Name, Unit>, staged: set<Name>, done: set<Name>, n: Name,
                         dc: map<Name, DestinationConfig>, env: Collaborators)
    requires done <= dc.Keys && n in dc && n !in done
    ensures var p := Planned(units, done, dc, env);
            && (n in p <==> n in units) && (n in p ==> p[n] == units[n])
            && (n in PlannedStaged(units, staged, done, dc, env) <==> n in staged)
            && NextUnit(p, n, dc[n], env) == NextUnit(units, n, dc[n], env)
            && Unchanged(p, n, dc[n], env) == Unchanged(units, n, dc[n], env)
            && CreateCalled(p, n, dc[n], env) == CreateCalled(units, n, dc[n], env)
  {
    var p := Planned(units, done, dc, env);
    assert n in p <==> n in units;
  }

  /** The step of a destination not yet met extends the planned registry by its entry. */
  lemma PlannedNext(units: map<Name, Unit>, done: set<Name>, n: Name, dc: map<Name, DestinationConfig>, env: Collaborators)
    requires done <= dc.Keys && n in dc && n !in done
    ensures Updated(Planned(units, done, dc, env), n, NextUnit(units, n, dc[n], env)) == Planned(units, done + {n}, dc, env)
  {
    var q := Planned(units, done + {n}, dc, env);
    var u := Updated(Planned(units, done, dc, env), n, NextUnit(units, n, dc[n], env));
    assert forall m :: m in u <==> m in q;
    assert forall m :: m in u ==> u[m] == q[m];
  }

  /** The step of a destination not yet met extends the planned staged set by its mark. */
  lemma PlannedStagedNext(units: map<Name, Unit>, staged: set<Name>, done: set<Name>, n: Name,
                          dc: map<Name, DestinationConfig>, env: Collaborators)
    requires done <= dc.Keys && n in dc && n !in done
    ensures StagedStep(Planned(units, done, dc, env), PlannedStaged(units, staged, done, dc, env), n, dc[n], env)
            == PlannedStaged(units, staged, done + {n}, dc, env)
  {
    PlannedUntouched(units, staged, done, n, dc, env);
    var p := Planned(units, done, dc, env);
    var ps := PlannedStaged(units, staged, done, dc, env);
    var qs := PlannedStaged(units, staged, done + {n}, dc, env);
    assert forall m :: m != n ==> (m in qs <==> m in ps);
    assert n in qs <==> n in StagedStep(units, staged, n, dc[n], env);
  }

  /** The loop over the snapshot leaves each destination it met with the entry `NextUnit` describes and every other entry as it was. */
  lemma {:induction false} StepAllPlan(s: Snapshot, order: seq<Name>, dc: map<Name, DestinationConfig>, env: Collaborators)
    requires Names(order) <= dc.Keys && Distinct(order) && StepAll(s, order, dc, env).Some?
    ensures var r := StepAll(s, order, dc, env).value;
            && r.units == Planned(s.units, Names(order), dc, env)
            && r.staged == PlannedStaged(s.units, s.staged, Names(order), dc, env)
    decreases |order|
  {
    var r := StepAll(s, order, dc, env).value;
    if order == [] {
      assert Names(order) == {};
      assert r.units == Planned(s.units, {}, dc, env);
      assert r.staged == PlannedStaged(s.units, s.staged, {}, dc, env);
      return;
    }
    NamesPrefix(order);
    var prefix, last := order[..|order| - 1], order[|order| - 1];
    assert StepAll(s, prefix, dc, env).Some?;
    StepAllPlan(s, prefix, dc, env);
    var m := StepAll(s, prefix, dc, env).value;
    PlannedUntouched(s.units, s.staged, Names(prefix), last, dc, env);
    PlannedNext(s.units, Names(prefix), last, dc, env);
    PlannedStagedNext(s.units, s.staged, Names(prefix), last, dc, env);
    StepRegistry(m, last, dc[last], env);
  }

  /** The destinations of `order` for which the storage factory is due to be called. */
  function CallsDue(units: map<Name, Unit>, order: seq<Name>, dc: map<Name, DestinationConfig>, env: Collaborators)
    : set<Name>
    requires Names(order) <= dc.Keys
  {
    set n | n in order && CreateCalled(units, n, dc[n], env)
  }

  /** The live units that the destinations of `order` replace or drop, as the closings that log them. */
  function Replaced(units: map<Name, Unit>, order: seq<Name>, dc: map<Name, DestinationConfig>, env: Collaborators)
    : set<(Name, Unit)>
    requires Names(order) <= dc.Keys
  {
    set n | n in order && n in units && !Unchanged(units, n, dc[n], env) :: (n, units[n])
  }

  lemma DueSnoc(units: map<Name, Unit>, order: seq<Name>, dc: map<Name, DestinationConfig>, env: Collaborators)
    requires order != [] && Names(order) <= dc.Keys && Names(order[..|order| - 1]) <= dc.Keys && order[|order| - 1] in dc
    ensures var last := order[|order| - 1];
            && CallsDue(units, order, dc, env) ==
               CallsDue(units, order[..|order| - 1], dc, env) + (if CreateCalled(units, last, dc[last], env) then {last} else {})
            && Replaced(units, order, dc, env) ==
               Replaced(units, order[..|order| - 1], dc, env) +
               (if last in units && !Unchanged(units, last, dc[last], env) then {(last, units[last])} else {})
  {
    NamesPrefix(order);
    assert forall n :: n in order <==> n in order[..|order| - 1] || n == order[|order| - 1];
  }

  /**
   * The loop over the snapshot logs a factory call for each destination due
   * one and the closing of each unit it replaces or drops.
   */
  lemma {:induction false} StepAllLog(s: Snapshot, order: seq<Name>, dc: map<Name, DestinationConfig>, env: Collaborators)
    requires Names(order) <= dc.Keys && Distinct(order) && StepAll(s, order, dc, env).Some?
    ensures var r := StepAll(s, order, dc, env).value;
            && Extends(s, r)
            && FactoryCalls(Added(s, r)) == CallsDue(s.units, order, dc, env)
            && UnitsClosed(Added(s, r)) == Replaced(s.units, order, dc, env)
    decreases |order|
  {
    var r := StepAll(s, order, dc, env).value;
    if order == [] {
      assert Added(s, r) == [];
      return;
    }
    NamesPrefix(order);
    var prefix, last := order[..|order| - 1], order[|order| - 1];
    assert StepAll(s, prefix, dc, env).Some?;
    StepAllLog(s, prefix, dc, env);
    var m := StepAll(s, prefix, dc, env).value;
    StepAllSees(s, prefix, last, dc, env);
    StepLog(m, last, dc[last], env);
    AddedChain(s, m, r);
    LogAppend(Added(s, m), Added(m, r));
    DueSnoc(s.units, order, dc, env);
  }

  /** The step of a destination the loop has not met yet sees its registry entry and staged mark as they were. */
  lemma StepAllSees(s: Snapshot, prefix: seq<Name>, last: Name, dc: map<Name, DestinationConfig>, env: Collaborators)
    requires Names(prefix) <= dc.Keys && Distinct(prefix) && last in dc && last !in prefix
    requires StepAll(s, prefix, dc, env).Some?
    ensures var m := StepAll(s, prefix, dc, env).value;
            && (last in m.units <==> last in s.units) && (last in m.units ==> m.units[last] == s.units[last])
            && (last in m.staged <==> last in s.staged)
            && Unchanged(m.units, last, dc[last], env) == Unchanged(s.units, last, dc[last], env)
            && CreateCalled(m.units, last, dc[last], env) == CreateCalled(s.units, last, dc[last], env)
            && NextUnit(m.units, last, dc[last], env) == NextUnit(s.units, last, dc[last], env)
            && (RecreateSafe(s.units, s.staged, last, dc[last], env) ==> RecreateSafe(m.units, m.staged, last, dc[last], env))
  {
    StepAllPlan(s, prefix, dc, env);
    PlannedUntouched(s.units, s.staged, Names(prefix), last, dc, env);
  }

  /**
   * The loop over the snapshot keeps the tables matched to the units and never
   * dereferences nil, provided the factory fits every destination and no
   * changed unit is a staged batch unit.
   */
  lemma {:induction false} StepAllKeeps(s: Snapshot, cycle: set<Name>, order: seq<Name>,
                                        dc: map<Name, DestinationConfig>, env: Collaborators)
    requires Sound(s, cycle) && Names(order) <= dc.Keys && Distinct(order) && Names(order) !! cycle
    requires forall n :: n in order ==> FactoryFits(n, dc[n], env) && RecreateSafe(s.units, s.staged, n, dc[n], env)
    ensures StepAll(s, order, dc, env).Some? && Sound(StepAll(s, order, dc, env).value, cycle + Names(order))
    decreases |order|
  {
    if order == [] {
      assert cycle + Names(order) == cycle;
      return;
    }
    NamesPrefix(order);
    var prefix, last := order[..|order| - 1], order[|order| - 1];
    StepAllKeeps(s, cycle, prefix, dc, env);
    var m := StepAll(s, prefix, dc, env).value;
    StepAllSees(s, prefix, last, dc, env);
    StepKeeps(m, cycle + Names(prefix), last, dc[last], env);
    assert cycle + Names(prefix) + {last} == cycle + Names(order);
  }

  /** The deletion pass logs the closing of each unit it removes and calls no factory. */
  lemma {:induction false} RemoveAllLog(s: Snapshot, gone: seq<Name>)
    requires Distinct(gone) && Names(gone) <= s.units.Keys && RemoveAll(s, gone).Some?
    ensures var r := RemoveAll(s, gone).value;
            && Extends(s, r) && FactoryCalls(Added(s, r)) == {}
            && UnitsClosed(Added(s, r)) == (set n | n in gone :: (n, s.units[n]))
    decreases |gone|
  {
    var r := RemoveAll(s, gone).value;
    if gone == [] {
      assert Added(s, r) == [];
      return;
    }
    NamesPrefix(gone);
    var prefix, last := gone[..|gone| - 1], gone[|gone| - 1];
    assert RemoveAll(s, prefix).Some?;
    RemoveAllLog(s, prefix);
    var m := RemoveAll(s, prefix).value;
    DropLog(m, last);
    AddedChain(s, m, r);
    LogAppend(Added(s, m), Added(m, r));
    assert forall n :: n in gone <==> n in prefix || n == last;
  }

  /**
   * The deletion pass keeps the tables matched to the units and never
   * dereferences nil, provided no unit it removes is a staged batch unit.
   */
  lemma {:induction false} RemoveAllKeeps(s: Snapshot, gone: seq<Name>)
    requires Sound(s, {}) && Distinct(gone) && Names(gone) <= s.units.Keys
    requires forall n :: n in gone && n in s.staged ==> s.units[n].eventQueue.Some?
    ensures RemoveAll(s, gone).Some? && Sound(RemoveAll(s, gone).value, {})
    ensures RemoveAll(s, gone).Some? ==> RemoveAll(s, gone).value.pending == s.pending
    decreases |gone|
  {
    if gone == [] {
      return;
    }
    NamesPrefix(gone);
    var prefix, last := gone[..|gone| - 1], gone[|gone| - 1];
    RemoveAllKeeps(s, prefix);
    var m := RemoveAll(s, prefix).value;
    DropKeeps(m, {}, last);
  }

  /** `remove` of a unit outside the cycle that is not a staged batch unit keeps the state sound. */
  lemma DropKeeps(s: Snapshot, cycle: set<Name>, name: Name)
    requires Sound(s, cycle) && name in s.units && name !in cycle
    requires name in s.staged ==> s.units[name].eventQueue.Some?
    ensures Drop(s, name).Some? && Sound(Drop(s, name).value, cycle) && Drop(s, name).value.pending == s.pending
  {
    RemovalKeeps(s.tables, s.pending, s.units, s.staged, s.holders, cycle, name);
  }

  // ---------------------------------------------------------------------------
  // A whole cycle
  // ---------------------------------------------------------------------------

  /**
   * `gone` lists each live unit missing from the snapshot once, and `order`
   * each destination of the snapshot once: the orders in which `init`'s two
   * loops may meet them.
   */
  predicate CycleOrder(units: map<Name, Unit>, gone: seq<Name>, order: seq<Name>, dc: map<Name, DestinationConfig>)
  {
    Distinct(gone) && Names(gone) == units.Keys - dc.Keys && Distinct(order) && Names(order) == dc.Keys
  }

  /** Two registries with the same entry for `n` lead to the same step for it. */
  lemma SameEntry(a: map<Name, Unit>, b: map<Name, Unit>, n: Name, config: DestinationConfig, env: Collaborators)
    requires (n in a <==> n in b) && (n in a ==> a[n] == b[n])
    ensures NextUnit(a, n, config, env) == NextUnit(b, n, config, env)
    ensures Unchanged(a, n, config, env) == Unchanged(b, n, config, env)
    ensures CreateCalled(a, n, config, env) == CreateCalled(b, n, config, env)
  {
  }

  /**
   * A cycle on a consistent service never dereferences nil and leaves it
   * consistent with nothing pending, provided the factory fits every
   * destination and no unit the cycle removes is a staged batch unit.
   */
  lemma ReconcileConsistent(s: Snapshot, gone: seq<Name>, order: seq<Name>, dc: map<Name, DestinationConfig>,
                            env: Collaborators)
    requires Consistent(s.tables, s.units, s.staged, s.holders) && s.pending == NothingPending
    requires CycleOrder(s.units, gone, order, dc)
    requires forall n :: n in dc ==> FactoryFits(n, dc[n], env)
    requires forall n :: n in RemovedNames(s.units, dc, env) && n in s.staged ==> s.units[n].eventQueue.Some?
    ensures Reconcile(s, gone, order, dc, env).Some?
    ensures var r := Reconcile(s, gone, order, dc, env).value;
            Consistent(r.tables, r.units, r.staged, r.holders) && r.pending == NothingPending
  {
    RemoveAllKeeps(s, gone);
    var m := RemoveAll(s, gone).value;
    forall n | n in order ensures FactoryFits(n, dc[n], env) && RecreateSafe(m.units, m.staged, n, dc[n], env) {
      SameEntry(m.units, s.units, n, dc[n], env);
    }
    StepAllKeeps(m, {}, order, dc, env);
    var r := StepAll(m, order, dc, env).value;
    MergeKeeps(r.tables, r.pending, Regs(r.units, r.staged), r.holders, {} + Names(order));
  }

  /** After the deletion pass every destination of the snapshot sees its entry as it was before the cycle. */
  lemma GoneAgrees(s: Snapshot, gone: seq<Name>, dc: map<Name, DestinationConfig>, env: Collaborators)
    requires Distinct(gone) && Names(gone) == s.units.Keys - dc.Keys && RemoveAll(s, gone).Some?
    ensures var m := RemoveAll(s, gone).value;
            && m.units.Keys <= dc.Keys
            && forall n :: n in dc ==>
                 && (n in m.units <==> n in s.units) && (n in m.units ==> m.units[n] == s.units[n])
                 && (n in m.staged <==> n in s.staged)
                 && NextUnit(m.units, n, dc[n], env) == NextUnit(s.units, n, dc[n], env)
                 && Unchanged(m.units, n, dc[n], env) == Unchanged(s.units, n, dc[n], env)
                 && CreateCalled(m.units, n, dc[n], env) == CreateCalled(s.units, n, dc[n], env)
  {
    var m := RemoveAll(s, gone).value;
    forall n | n in dc
      ensures NextUnit(m.units, n, dc[n], env) == NextUnit(s.units, n, dc[n], env)
      ensures Unchanged(m.units, n, dc[n], env) == Unchanged(s.units, n, dc[n], env)
      ensures CreateCalled(m.units, n, dc[n], env) == CreateCalled(s.units, n, dc[n], env)
    {
      SameEntry(m.units, s.units, n, dc[n], env);
    }
  }

  /** A cycle leaves the registry `ReconciledUnits` describes, with nothing pending. */
  lemma ReconcileUnits(s: Snapshot, gone: seq<Name>, order: seq<Name>, dc: map<Name, DestinationConfig>,
                       env: Collaborators)
    requires CycleOrder(s.units, gone, order, dc)
    requires Reconcile(s, gone, order, dc, env).Some?
    ensures var r := Reconcile(s, gone, order, dc, env).value;
            r.units == ReconciledUnits(s.units, dc, env) && r.pending == NothingPending
  {
    var m := RemoveAll(s, gone).value;
    GoneAgrees(s, gone, dc, env);
    StepAllPlan(m, order, dc, env);
    var r := StepAll(m, order, dc, env).value;
    var want := ReconciledUnits(s.units, dc, env);
    assert r.units.Keys == want.Keys;
    assert forall n :: n in want ==> r.units[n] == want[n];
  }

  /** A cycle marks as staged exactly the units `StagedAfter` names. */
  lemma ReconcileStaged(s: Snapshot, gone: seq<Name>, order: seq<Name>, dc: map<Name, DestinationConfig>,
                        env: Collaborators)
    requires CycleOrder(s.units, gone, order, dc) && s.staged <= s.units.Keys
    requires Reconcile(s, gone, order, dc, env).Some?
    ensures Reconcile(s, gone, order, dc, env).value.staged == StagedAfter(s.units, s.staged, dc, env)
  {
    var m := RemoveAll(s, gone).value;
    GoneAgrees(s, gone, dc, env);
    StepAllPlan(m, order, dc, env);
    PlannedStagedFull(m.units, m.staged, s.units, s.staged, dc, env);
  }

  /** Once every destination has had its step, the staged set is the one `StagedAfter` names. */
  lemma PlannedStagedFull(units: map<Name, Unit>, staged: set<Name>, before: map<Name, Unit>, stagedBefore: set<Name>,
                          dc: map<Name, DestinationConfig>, env: Collaborators)
    requires units.Keys <= dc.Keys && staged <= units.Keys
    requires forall n :: n in dc ==>
               && (n in units <==> n in before) && (n in units ==> units[n] == before[n])
               && (n in staged <==> n in stagedBefore)
    ensures PlannedStaged(units, staged, dc.Keys, dc, env) == StagedAfter(before, stagedBefore, dc, env)
  {
    var got := PlannedStaged(units, staged, dc.Keys, dc, env);
    var want := StagedAfter(before, stagedBefore, dc, env);
    forall n | n in dc ensures n in got <==> n in want {
      SameEntry(units, before, n, dc[n], env);
    }
  }

  /** The closings of the deletion pass and of the loop together are those of every removed unit. */
  lemma ClosedUnion(s: Snapshot, m: Snapshot, gone: seq<Name>, order: seq<Name>, dc: map<Name, DestinationConfig>,
                    env: Collaborators)
    requires CycleOrder(s.units, gone, order, dc) && forall n :: n in gone ==> n in s.units
    requires forall n :: n in dc ==> (n in m.units <==> n in s.units) && (n in m.units ==> m.units[n] == s.units[n])
                                     && Unchanged(m.units, n, dc[n], env) == Unchanged(s.units, n, dc[n], env)
    ensures (set n | n in gone :: (n, s.units[n])) + Replaced(m.units, order, dc, env)
            == (set n | n in RemovedNames(s.units, dc, env) :: (n, s.units[n]))
  {
    var left := (set n | n in gone :: (n, s.units[n])) + Replaced(m.units, order, dc, env);
    var right := set n | n in RemovedNames(s.units, dc, env) :: (n, s.units[n]);
    forall p | p in right ensures p in left {
      var n :| n in RemovedNames(s.units, dc, env) && p == (n, s.units[n]);
      if n in dc {
        assert n in Names(order);
      } else {
        assert n in Names(gone);
      }
    }
    forall p | p in left ensures p in right {
      if p in Replaced(m.units, order, dc, env) {
        var n :| n in order && n in m.units && !Unchanged(m.units, n, dc[n], env) && p == (n, m.units[n]);
        assert n in Names(order);
        assert n in RemovedNames(s.units, dc, env);
      } else {
        var n :| n in gone && p == (n, s.units[n]);
        assert n in Names(gone);
        assert n in RemovedNames(s.units, dc, env);
      }
    }
  }

  /** `remove` closes its unit once and calls no factory. */
  lemma DropOnce(s: Snapshot, name: Name)
    requires name in s.units && Drop(s, name).Some?
    ensures OnceEach(Added(s, Drop(s, name).value))
  {
    var u := s.units[name];
    var r := Drop(s, name).value;
    var closed := UnregisterAll(s.tables, name, u.eventQueue.Some?, u.tokenIDs).closed;
    UnregisterClosesLoggers(s.tables, name, u.eventQueue.Some?, u.tokenIDs);
    LoggerEffectsQuiet(closed);
    LoggerEffectsOnce(closed);
    OnceAppend(closed, [UnitClosed(name, u)]);
    assert r.effects == s.effects + (closed + [UnitClosed(name, u)]);
    assert Added(s, r) == closed + [UnitClosed(name, u)];
  }

  /** Creating a destination calls the factory at most once and closes no unit. */
  lemma CreateOnce(s: Snapshot, name: Name, config: DestinationConfig, env: Collaborators)
    ensures OnceEach(Added(s, Create(s, name, config, env)))
  {
    var r := Create(s, name, config, env);
    var resolved := Resolve(config, env);
    if |resolved.onlyTokens| == 0 {
      AppendExtends(s, r, []);
      return;
    }
    var called := s.(effects := s.effects + [FactoryCalled(name)]);
    AppendExtends(s, called, [FactoryCalled(name)]);
    assert FactoryCalls([FactoryCalled(name)]) == {name} && UnitsClosed([FactoryCalled(name)]) == {};
    match env.create(name, resolved)
    case CreateFailed(_) =>
    case Created(storage, queue) =>
      var u := Unit(queue, storage, resolved.onlyTokens, HashOf(name, config, env));
      var g := RegisterAll(called.tables.loggers, called.pending, name, resolved, u, u.tokenIDs, env.incomingLogger);
      RegisterCreatesLoggers(called.tables.loggers, called.pending, name, resolved, u, u.tokenIDs, env.incomingLogger);
      LoggerEffectsQuiet(g.created);
      LoggerEffectsOnce(g.created);
      AppendExtends(called, r, g.created);
      AddedChain(s, called, r);
      OnceAppend(Added(s, called), Added(called, r));
  }

  /** One destination's step closes its old unit at most once and calls the factory at most once. */
  lemma StepOnce(s: Snapshot, name: Name, config: DestinationConfig, env: Collaborators)
    requires Step(s, name, config, env).Some?
    ensures OnceEach(Added(s, Step(s, name, config, env).value))
  {
    var r := Step(s, name, config, env).value;
    if Unchanged(s.units, name, config, env) {
      assert Added(s, r) == [];
    } else if name in s.units {
      var dropped := Drop(s, name).value;
      DropLog(s, name);
      DropOnce(s, name);
      CreateLog(dropped, name, config, env);
      CreateOnce(dropped, name, config, env);
      AddedChain(s, dropped, r);
      OnceAppend(Added(s, dropped), Added(dropped, r));
    } else {
      CreateOnce(s, name, config, env);
    }
  }

  /** The loop over the snapshot closes each unit at most once and builds each destination at most once. */
  lemma {:induction false} StepAllOnce(s: Snapshot, order: seq<Name>, dc: map<Name, DestinationConfig>, env: Collaborators)
    requires Names(order) <= dc.Keys && Distinct(order) && StepAll(s, order, dc, env).Some?
    ensures OnceEach(Added(s, StepAll(s, order, dc, env).value))
    decreases |order|
  {
    var r := StepAll(s, order, dc, env).value;
    if order == [] {
      assert Added(s, r) == [];
      return;
    }
    NamesPrefix(order);
    var prefix, last := order[..|order| - 1], order[|order| - 1];
    assert StepAll(s, prefix, dc, env).Some?;
    StepAllOnce(s, prefix, dc, env);
    var m := StepAll(s, prefix, dc, env).value;
    StepOnce(m, last, dc[last], env);
    assert Extends(s, m) && Extends(m, r)
           && (forall p :: p in UnitsClosed(Added(s, m)) ==> p.0 in prefix)
           && (forall n :: n in FactoryCalls(Added(s, m)) ==> n in prefix)
           && (forall q :: q in UnitsClosed(Added(m, r)) ==> q.0 == last)
           && FactoryCalls(Added(m, r)) <= {last} by {
      StepAllLog(s, prefix, dc, env);
      StepLog(m, last, dc[last], env);
    }
    AddedChain(s, m, r);
    OnceAppend(Added(s, m), Added(m, r));
  }

  /** The deletion pass closes each unit it removes once and calls no factory. */
  lemma {:induction false} RemoveAllOnce(s: Snapshot, gone: seq<Name>)
    requires Distinct(gone) && Names(gone) <= s.units.Keys && RemoveAll(s, gone).Some?
    ensures OnceEach(Added(s, RemoveAll(s, gone).value))
    decreases |gone|
  {
    var r := RemoveAll(s, gone).value;
    if gone == [] {
      assert Added(s, r) == [];
      return;
    }
    NamesPrefix(gone);
    var prefix, last := gone[..|gone| - 1], gone[|gone| - 1];
    assert RemoveAll(s, prefix).Some?;
    RemoveAllOnce(s, prefix);
    var m := RemoveAll(s, prefix).value;
    DropOnce(m, last);
    assert Extends(s, m) && Extends(m, r)
           && (forall p :: p in UnitsClosed(Added(s, m)) ==> p.0 in prefix)
           && FactoryCalls(Added(s, m)) == {}
           && (forall q :: q in UnitsClosed(Added(m, r)) ==> q.0 == last) by {
      RemoveAllLog(s, prefix);
      DropLog(m, last);
    }
    AddedChain(s, m, r);
    OnceAppend(Added(s, m), Added(m, r));
  }

  /**
   * A cycle logs a factory call for each destination of the snapshot due one,
   * and the closing of each unit it removes, with the unit as it was.
   */
  lemma ReconcileLog(s: Snapshot, gone: seq<Name>, order: seq<Name>, dc: map<Name, DestinationConfig>,
                     env: Collaborators)
    requires CycleOrder(s.units, gone, order, dc)
    requires Reconcile(s, gone, order, dc, env).Some?
    ensures var r := Reconcile(s, gone, order, dc, env).value;
            && Extends(s, r)
            && FactoryCalls(Added(s, r)) == (set n | n in dc && CreateCalled(s.units, n, dc[n], env))
            && UnitsClosed(Added(s, r)) == (set n | n in RemovedNames(s.units, dc, env) :: (n, s.units[n]))
            && OnceEach(Added(s, r))
  {
    var m := RemoveAll(s, gone).value;
    var r := StepAll(m, order, dc, env).value;
    RemoveAllLog(s, gone);
    StepAllLog(m, order, dc, env);
    AddedChain(s, m, r);
    LogAppend(Added(s, m), Added(m, r));
    GoneAgrees(s, gone, dc, env);
    ClosedUnion(s, m, gone, order, dc, env);
    assert CallsDue(m.units, order, dc, env) == (set n | n in dc && CreateCalled(s.units, n, dc[n], env));
    assert OnceEach(Added(s, m) + Added(m, r)) by {
      RemoveAllOnce(s, gone);
      StepAllOnce(m, order, dc, env);
      assert forall n :: n in gone ==> n !in dc;
      OnceAppend(Added(s, m), Added(m, r));
    }
    assert Added(s, Merge(r)) == Added(s, r);
  }

  /**
   * The step of a destination whose unit is already what the cycle would make
   * of it changes nothing but, for a destination with no unit, the log.
   */
  lemma {:induction false} StepAllQuiet(s: Snapshot, order: seq<Name>, dc: map<Name, DestinationConfig>, env: Collaborators)
    requires Names(order) <= dc.Keys
    requires forall n :: n in order ==> NextUnit(s.units, n, dc[n], env) == if n in s.units then Some(s.units[n]) else None
    ensures StepAll(s, order, dc, env).Some? && StepAll(s, order, dc, env).value.(effects := s.effects) == s
    decreases |order|
  {
    if order == [] {
      return;
    }
    NamesPrefix(order);
    var prefix, last := order[..|order| - 1], order[|order| - 1];
    StepAllQuiet(s, prefix, dc, env);
    var m := StepAll(s, prefix, dc, env).value;
    assert m.units == s.units;
    var resolved := Resolve(dc[last], env);
    if !Unchanged(m.units, last, dc[last], env) && |resolved.onlyTokens| > 0 {
      assert env.create(last, resolved).CreateFailed?;
    }
  }

  /**
   * A cycle on a registry that is already what the cycle would make of it
   * changes no table, no unit, no staged mark and no hold.
   */
  lemma ReconcileQuiet(s: Snapshot, gone: seq<Name>, order: seq<Name>, dc: map<Name, DestinationConfig>,
                       env: Collaborators)
    requires CycleOrder(s.units, gone, order, dc) && s.pending == NothingPending
    requires ReconciledUnits(s.units, dc, env) == s.units
    ensures Reconcile(s, gone, order, dc, env).Some?
    ensures var r := Reconcile(s, gone, order, dc, env).value;
            r.tables == s.tables && r.units == s.units && r.staged == s.staged && r.holders == s.holders
            && r.pending == NothingPending
  {
    NamesEmpty(gone);
    forall n | n in order ensures NextUnit(s.units, n, dc[n], env) == if n in s.units then Some(s.units[n]) else None {
      assert n in dc;
    }
    StepAllQuiet(s, order, dc, env);
    AddAllEmpty(s.tables.consumers);
    AddAllEmpty(s.tables.storages);
    AddAllEmpty(s.tables.ids);
  }

  /**
   * Feeding the same snapshot to two cycles in a row: the second never
   * dereferences nil and changes no table, no unit, no staged mark and no hold.
   */
  lemma ReconcileIdempotent(s: Snapshot, gone: seq<Name>, order: seq<Name>, gone': seq<Name>, order': seq<Name>,
                            dc: map<Name, DestinationConfig>, env: Collaborators)
    requires CycleOrder(s.units, gone, order, dc) && s.staged <= s.units.Keys
    requires Reconcile(s, gone, order, dc, env).Some?
    requires CycleOrder(Reconcile(s, gone, order, dc, env).value.units, gone', order', dc)
    ensures var once := Reconcile(s, gone, order, dc, env).value;
            && Reconcile(once, gone', order', dc, env).Some?
            && var twice := Reconcile(once, gone', order', dc, env).value;
            && twice.tables == once.tables && twice.units == once.units
            && twice.staged == once.staged && twice.holders == once.holders
  {
    ReconcileUnits(s, gone, order, dc, env);
    ReconcileTwice(s.units, dc, env);
    ReconcileQuiet(Reconcile(s, gone, order, dc, env).value, gone', order', dc, env);
  }

  /**
   * The loop over the snapshot never dereferences nil when every destination
   * it meets either has no live unit or an unchanged one: nothing is removed.
   */
  lemma {:induction false} StepAllNoDrop(s: Snapshot, order: seq<Name>, dc: map<Name, DestinationConfig>, env: Collaborators)
    requires Names(order) <= dc.Keys && Distinct(order)
    requires forall n :: n in order && n in s.units ==> Unchanged(s.units, n, dc[n], env)
    ensures StepAll(s, order, dc, env).Some?
    decreases |order|
  {
    if order == [] {
      return;
    }
    NamesPrefix(order);
    var prefix, last := order[..|order| - 1], order[|order| - 1];
    assert forall n :: n in prefix ==> n in order;
    StepAllNoDrop(s, prefix, dc, env);
    StepAllPlan(s, prefix, dc, env);
    var m := StepAll(s, prefix, dc, env).value;
    assert last !in Names(prefix);
    assert last in m.units ==> last in s.units && m.units[last] == s.units[last];
  }

  /**
   * A second cycle on the same snapshot whose storage factory may now answer
   * differently, as when a destination whose storage could not be created is
   * retried: it never dereferences nil, closes no unit, keeps every unit of
   * the first cycle as it is, adds units only for destinations whose creation
   * failed in the first cycle, and calls the factory for exactly the
   * destinations with tokens that have no unit.
   */
  lemma ReconcileRetry(s: Snapshot, gone: seq<Name>, order: seq<Name>, gone': seq<Name>, order': seq<Name>,
                       dc: map<Name, DestinationConfig>, env: Collaborators, env': Collaborators)
    requires CycleOrder(s.units, gone, order, dc) && SameResolution(env, env')
    requires Reconcile(s, gone, order, dc, env).Some?
    requires CycleOrder(Reconcile(s, gone, order, dc, env).value.units, gone', order', dc)
    ensures var once := Reconcile(s, gone, order, dc, env).value;
            && Reconcile(once, gone', order', dc, env').Some?
            && var twice := Reconcile(once, gone', order', dc, env').value;
            && UnitsClosed(Added(once, twice)) == {}
            && (forall n :: n in once.units ==> n in twice.units && twice.units[n] == once.units[n])
            && (forall n :: n in twice.units && n !in once.units ==>
                  n in dc && CreateCalled(s.units, n, dc[n], env) && env.create(n, Resolve(dc[n], env)).CreateFailed?)
            && FactoryCalls(Added(once, twice)) == (set n | n in dc && n !in once.units && |Resolve(dc[n], env).onlyTokens| > 0)
  {
    ReconcileUnits(s, gone, order, dc, env);
    var once := Reconcile(s, gone, order, dc, env).value;
    ReconcileAgain(s.units, dc, env, env');
    NamesEmpty(gone');
    forall n | n in order' && n in once.units ensures Unchanged(once.units, n, dc[n], env') {
      assert n !in RemovedNames(once.units, dc, env');
    }
    StepAllNoDrop(once, order', dc, env');
    ReconcileUnits(once, gone', order', dc, env');
    ReconcileLog(once, gone', order', dc, env');
  }

}
