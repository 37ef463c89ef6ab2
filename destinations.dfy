/**
 * The destinations service (`Service` in server/destinations/service.go): the
 * registry of live units, the reference-counted shared loggers and the three
 * token-keyed routing maps, reconciled against each new configuration snapshot
 * by `Init` and unwound unit by unit by `Remove`.
 */
module Destinations {
  import opened Wrappers
  import opened Tokenized
  import opened Units
  import opened Routing
  import opened Registry
  import opened Reconciliation

  /** The closing of the shared logger of each of `tokens`, in that order. */
  function LoggerClosings(loggers: map<TokenID, LoggerUsage>, tokens: seq<TokenID>): seq<Effect>
    requires forall i :: 0 <= i < |tokens| ==> tokens[i] in loggers
    decreases |tokens|
  {
    if tokens == [] then []
    else
      var t := tokens[|tokens| - 1];
      LoggerClosings(loggers, tokens[..|tokens| - 1]) + [LoggerClosed(t, loggers[t].logger)]
  }

  /** The closing of each of the units `names`, in that order. */
  function UnitClosings(units: map<Name, Unit>, names: seq<Name>): seq<Effect>
    requires forall i :: 0 <= i < |names| ==> names[i] in units
    decreases |names|
  {
    if names == [] then []
    else
      var n := names[|names| - 1];
      UnitClosings(units, names[..|names| - 1]) + [UnitClosed(n, units[n])]
  }

  /** The errors `Close` collects from the loggers of `tokens`, in that order. */
  function LoggerErrors(loggers: map<TokenID, LoggerUsage>, tokens: seq<TokenID>, env: Collaborators): seq<string>
    requires forall i :: 0 <= i < |tokens| ==> tokens[i] in loggers
    decreases |tokens|
  {
    if tokens == [] then []
    else
      var t := tokens[|tokens| - 1];
      LoggerErrors(loggers, tokens[..|tokens| - 1], env) +
      match env.loggerCloseError(loggers[t].logger)
      case None => []
      case Some(e) => ["Error closing logger for token [" + t + "]: " + e]
  }

  /** The errors `Close` collects from the units `names`, in that order. */
  function UnitErrors(units: map<Name, Unit>, names: seq<Name>, env: Collaborators): seq<string>
    requires forall i :: 0 <= i < |names| ==> names[i] in units
    decreases |names|
  {
    if names == [] then []
    else
      var n := names[|names| - 1];
      UnitErrors(units, names[..|names| - 1], env) +
      match env.unitCloseError(units[n])
      case None => []
      case Some(e) => ["[" + n + "] Error closing destination unit: " + e]
  }

  /** The loggers closed in a stretch of the effect log, with the logger each closing closed. */
  function LoggersClosed(es: seq<Effect>): set<(TokenID, Handle)>
  {
    set e | e in es && e.LoggerClosed? :: (e.token, e.logger)
  }

  /** `Close` closes each logger it lists, and nothing else. */
  lemma {:induction false} LoggerClosingsClose(loggers: map<TokenID, LoggerUsage>, tokens: seq<TokenID>)
    requires forall i :: 0 <= i < |tokens| ==> tokens[i] in loggers
    ensures LoggersClosed(LoggerClosings(loggers, tokens)) == set t | t in tokens :: (t, loggers[t].logger)
    ensures UnitsClosed(LoggerClosings(loggers, tokens)) == {}
    decreases |tokens|
  {
    if tokens != [] {
      var pre, t := tokens[..|tokens| - 1], tokens[|tokens| - 1];
      LoggerClosingsClose(loggers, pre);
      assert tokens == pre + [t];
      assert forall x :: x in tokens <==> x in pre || x == t;
      var es, c := LoggerClosings(loggers, pre), LoggerClosed(t, loggers[t].logger);
      assert forall e :: e in es + [c] <==> e in es || e == c;
      assert LoggersClosed(es + [c]) == LoggersClosed(es) + {(t, loggers[t].logger)};
      assert UnitsClosed(es + [c]) == UnitsClosed(es);
      assert (set x | x in tokens :: (x, loggers[x].logger)) ==
             (set x | x in pre :: (x, loggers[x].logger)) + {(t, loggers[t].logger)};
    }
  }

  /** `Close` closes each unit it lists, and nothing else. */
  lemma {:induction false} UnitClosingsClose(units: map<Name, Unit>, names: seq<Name>)
    requires forall i :: 0 <= i < |names| ==> names[i] in units
    ensures UnitsClosed(UnitClosings(units, names)) == set n | n in names :: (n, units[n])
    ensures LoggersClosed(UnitClosings(units, names)) == {}
    decreases |names|
  {
    if names != [] {
      var pre, n := names[..|names| - 1], names[|names| - 1];
      UnitClosingsClose(units, pre);
      assert names == pre + [n];
      assert forall x :: x in names <==> x in pre || x == n;
      var es, c := UnitClosings(units, pre), UnitClosed(n, units[n]);
      assert forall e :: e in es + [c] <==> e in es || e == c;
      assert UnitsClosed(es + [c]) == UnitsClosed(es) + {(n, units[n])};
      assert LoggersClosed(es + [c]) == LoggersClosed(es);
      assert (set x | x in names :: (x, units[x])) == (set x | x in pre :: (x, units[x])) + {(n, units[n])};
    }
  }

  /** `Close` reports at most one error per logger, and none exactly when every logger closes cleanly. */
  lemma {:induction false} LoggerErrorsCount(loggers: map<TokenID, LoggerUsage>, tokens: seq<TokenID>, env: Collaborators)
    requires forall i :: 0 <= i < |tokens| ==> tokens[i] in loggers
    ensures |LoggerErrors(loggers, tokens, env)| <= |tokens|
    ensures LoggerErrors(loggers, tokens, env) == [] <==>
            forall i :: 0 <= i < |tokens| ==> env.loggerCloseError(loggers[tokens[i]].logger).None?
    decreases |tokens|
  {
    if tokens != [] {
      var pre := tokens[..|tokens| - 1];
      LoggerErrorsCount(loggers, pre, env);
      assert forall i :: 0 <= i < |pre| ==> pre[i] == tokens[i];
    }
  }

  /** `Close` reports at most one error per unit, and none exactly when every unit closes cleanly. */
  lemma {:induction false} UnitErrorsCount(units: map<Name, Unit>, names: seq<Name>, env: Collaborators)
    requires forall i :: 0 <= i < |names| ==> names[i] in units
    ensures |UnitErrors(units, names, env)| <= |names|
    ensures UnitErrors(units, names, env) == [] <==> forall i :: 0 <= i < |names| ==> env.unitCloseError(units[names[i]]).None?
    decreases |names|
  {
    if names != [] {
      var pre := names[..|names| - 1];
      UnitErrorsCount(units, pre, env);
      assert forall i :: 0 <= i < |pre| ==> pre[i] == names[i];
    }
  }

  /** A list without repeats has as many entries as names. */
  lemma {:induction false} DistinctCount(xs: seq<Name>)
    requires Distinct(xs)
    ensures |Names(xs)| == |xs|
    decreases |xs|
  {
    if xs != [] {
      NamesPrefix(xs);
      DistinctCount(xs[..|xs| - 1]);
    }
  }

  /**
   * What the logger loop of `Close` achieves once it has visited every token:
   * each shared logger is closed, and an error is reported for exactly the
   * loggers that failed to close.
   */
  lemma LoggerLoopOutcome(loggers: map<TokenID, LoggerUsage>, tokens: seq<TokenID>, env: Collaborators)
    requires Distinct(tokens) && Names(tokens) == loggers.Keys
    requires forall i :: 0 <= i < |tokens| ==> tokens[i] in loggers
    ensures LoggersClosed(LoggerClosings(loggers, tokens)) == (set t | t in loggers :: (t, loggers[t].logger))
    ensures UnitsClosed(LoggerClosings(loggers, tokens)) == {}
    ensures |LoggerErrors(loggers, tokens, env)| <= |loggers|
    ensures LoggerErrors(loggers, tokens, env) == [] <==> forall t :: t in loggers ==> env.loggerCloseError(loggers[t].logger).None?
  {
    LoggerClosingsClose(loggers, tokens);
    assert (set t | t in tokens :: (t, loggers[t].logger)) == (set t | t in loggers :: (t, loggers[t].logger)) by {
      assert forall t :: t in tokens <==> t in Names(tokens);
    }
    LoggerErrorsCount(loggers, tokens, env);
    DistinctCount(tokens);
    assert |loggers| == |loggers.Keys|;
    assert forall t :: t in loggers ==> t in Names(tokens);
  }

  /**
   * What the unit loop of `Close` achieves once it has visited every unit:
   * each live unit is closed, and an error is reported for exactly the units
   * that failed to close.
   */
  lemma UnitLoopOutcome(units: map<Name, Unit>, names: seq<Name>, env: Collaborators)
    requires Distinct(names) && Names(names) == units.Keys
    requires forall i :: 0 <= i < |names| ==> names[i] in units
    ensures UnitsClosed(UnitClosings(units, names)) == (set n | n in units :: (n, units[n]))
    ensures LoggersClosed(UnitClosings(units, names)) == {}
    ensures |UnitErrors(units, names, env)| <= |units|
    ensures UnitErrors(units, names, env) == [] <==> forall n :: n in units ==> env.unitCloseError(units[n]).None?
  {
    UnitClosingsClose(units, names);
    assert (set n | n in names :: (n, units[n])) == (set n | n in units :: (n, units[n])) by {
      assert forall n :: n in names <==> n in Names(names);
    }
    UnitErrorsCount(units, names, env);
    DistinctCount(names);
    assert |units| == |units.Keys|;
    assert forall n :: n in units ==> n in Names(names);
  }

  /** What a log of closings closes is what its two halves close. */
  lemma ClosingsAppend(a: seq<Effect>, b: seq<Effect>)
    ensures LoggersClosed(a + b) == LoggersClosed(a) + LoggersClosed(b)
    ensures UnitsClosed(a + b) == UnitsClosed(a) + UnitsClosed(b)
  {
    assert forall e :: e in a + b <==> e in a || e in b;
  }

  /** The first loop of `Close`, over the shared loggers: the closings it makes and the errors it collects, entry by entry. */
  method CloseLoggers(loggers: map<TokenID, LoggerUsage>, env: Collaborators)
    returns (closings: seq<Effect>, errors: seq<string>, ghost tokens: seq<TokenID>)
    ensures Distinct(tokens) && Names(tokens) == loggers.Keys
    ensures closings == LoggerClosings(loggers, tokens)
    ensures errors == LoggerErrors(loggers, tokens, env)
  {
    closings, errors, tokens := [], [], [];
    var rest := loggers.Keys;
    while rest != {}
      invariant Distinct(tokens) && Names(tokens) !! rest && Names(tokens) + rest == loggers.Keys
      invariant closings == LoggerClosings(loggers, tokens)
      invariant errors == LoggerErrors(loggers, tokens, env)
      decreases rest
    {
      var token :| token in rest;
      var loggerUsage := loggers[token];
      closings := closings + [LoggerClosed(token, loggerUsage.logger)];
      var err := env.loggerCloseError(loggerUsage.logger);
      if err.Some? {
        errors := errors + ["Error closing logger for token [" + token + "]: " + err.value];
      }
      NamesSnoc(tokens, token);
      assert (tokens + [token])[..|tokens|] == tokens;
      tokens := tokens + [token];
      rest := rest - {token};
    }
  }

  /** The second loop of `Close`, over the live units: the closings it makes and the errors it collects, entry by entry. */
  method CloseUnits(units: map<Name, Unit>, env: Collaborators)
    returns (closings: seq<Effect>, errors: seq<string>, ghost names: seq<Name>)
    ensures Distinct(names) && Names(names) == units.Keys
    ensures closings == UnitClosings(units, names)
    ensures errors == UnitErrors(units, names, env)
  {
    closings, errors, names := [], [], [];
    var rest := units.Keys;
    while rest != {}
      invariant Distinct(names) && Names(names) !! rest && Names(names) + rest == units.Keys
      invariant closings == UnitClosings(units, names)
      invariant errors == UnitErrors(units, names, env)
      decreases rest
    {
      var name :| name in rest;
      var unit := units[name];
      closings := closings + [UnitClosed(name, unit)];
      var err := env.unitCloseError(unit);
      if err.Some? {
        errors := errors + ["[" + name + "] Error closing destination unit: " + err.value];
      }
      NamesSnoc(names, name);
      assert (names + [name])[..|names|] == names;
      names := names + [name];
      rest := rest - {name};
    }
  }

  /**
   * The two loops of `Close` one after the other: every shared logger and
   * every live unit is closed exactly once, and an error is reported for
   * exactly the ones that failed to close.
   */
  method CloseAll(loggers: map<TokenID, LoggerUsage>, units: map<Name, Unit>, env: Collaborators)
    returns (closings: seq<Effect>, errors: seq<string>, ghost tokens: seq<TokenID>, ghost names: seq<Name>)
    ensures Distinct(tokens) && Names(tokens) == loggers.Keys
    ensures Distinct(names) && Names(names) == units.Keys
    ensures closings == LoggerClosings(loggers, tokens) + UnitClosings(units, names)
    ensures errors == LoggerErrors(loggers, tokens, env) + UnitErrors(units, names, env)
    ensures LoggersClosed(closings) == (set t | t in loggers :: (t, loggers[t].logger))
    ensures UnitsClosed(closings) == (set n | n in units :: (n, units[n]))
    ensures |errors| <= |loggers| + |units|
    ensures errors == [] <==>
              (forall t :: t in loggers ==> env.loggerCloseError(loggers[t].logger).None?) &&
              (forall n :: n in units ==> env.unitCloseError(units[n]).None?)
  {
    var loggerClosings, loggerErrors;
    loggerClosings, loggerErrors, tokens := CloseLoggers(loggers, env);
    LoggerLoopOutcome(loggers, tokens, env);
    var unitClosings, unitErrors;
    unitClosings, unitErrors, names := CloseUnits(units, env);
    UnitLoopOutcome(units, names, env);
    closings, errors := loggerClosings + unitClosings, loggerErrors + unitErrors;
    ClosingsAppend(loggerClosings, unitClosings);
  }

  class Service {
    /** The storage factory, the logger factory, the authorization service and `getHash`. */
    const env: Collaborators

    /** All live units, for closing. */
    var unitsByName: map<Name, Unit>
    /** The shared incoming logger of each token and how many batch registrations use it. */
    var loggersUsageByTokenID: map<TokenID, LoggerUsage>
    var consumersByTokenID: Nested<Consumer>
    var storagesByTokenID: Nested<Handle>
    var destinationsIDByTokenID: Nested<bool>
    /** `StatusInstance.Reloading`, kept on the service. */
    var reloading: bool
    /** The calls made into the collaborators so far, in order. */
    var effects: seq<Effect>

    /** The live units that were registered as staged. */
    ghost var staged: set<Name>
    /** For each token with a shared logger, the batch units holding it. */
    ghost var holders: Holders

    /** The maps apart from the unit registry. */
    function Current(): Tables
      reads this
    {
      Tables(loggersUsageByTokenID, consumersByTokenID, storagesByTokenID, destinationsIDByTokenID)
    }

    /**
     * The routing maps are exactly what the live units register, each logger's
     * usage is the number of batch registrations holding it, and no token keeps
     * an empty inner map.
     */
    ghost predicate Valid()
      reads this
    {
      Consistent(Current(), unitsByName, staged, holders)
    }

    /** The service `NewService` builds before it loads anything: every map empty. */
    constructor (env: Collaborators)
      ensures Valid() && this.env == env
      ensures unitsByName == map[] && loggersUsageByTokenID == map[]
      ensures consumersByTokenID == map[] && storagesByTokenID == map[] && destinationsIDByTokenID == map[]
      ensures !reloading && effects == []
    {
      this.env := env;
      unitsByName, loggersUsageByTokenID := map[], map[];
      consumersByTokenID, storagesByTokenID, destinationsIDByTokenID := map[], map[], map[];
      reloading, effects := false, [];
      staged, holders := {}, map[];
      new;
      var none: map<Name, Reg> := map[];
      assert Regs(unitsByName, staged) == none;
      assert Ids(none) == map[] && Storages(none) == map[];
      assert Consumers(map[], none) == map[];
      AddAllEmpty(consumersByTokenID);
      AddAllEmpty(storagesByTokenID);
      AddAllEmpty(destinationsIDByTokenID);
    }

    /**
     * One pass of `remove`'s loop, for the token `tokenID` of the unit `name`: a
     * unit with a queue drops its consumer entry; one without a queue decrements
     * the token's logger usage and at zero closes the logger and drops it and
     * its consumer entry; then the unit's storage and ID entries go. Every inner
     * map this empties is dropped. A unit without a queue on a token without a
     * logger dereferences nil: `panicked`, and nothing has changed.
     */
    method RemoveToken(name: Name, hasQueue: bool, tokenID: TokenID) returns (panicked: bool)
      modifies this`loggersUsageByTokenID, this`consumersByTokenID, this`storagesByTokenID,
               this`destinationsIDByTokenID, this`effects
      ensures var r := UnregisterToken(old(Current()), name, hasQueue, tokenID);
              && (panicked <==> r.NilDeref?)
              && (!panicked ==> Current() == r.tables && effects == old(effects) + r.closed)
      ensures panicked ==> Current() == old(Current()) && effects == old(effects)
    {
      if hasQueue {
        consumersByTokenID := Delete(consumersByTokenID, tokenID, name);
      } else {
        if tokenID !in loggersUsageByTokenID {
          return true;
        }
        var loggerUsage := loggersUsageByTokenID[tokenID];
        loggerUsage := loggerUsage.(usage := loggerUsage.usage - 1);
        if loggerUsage.usage == 0 {
          consumersByTokenID := Delete(consumersByTokenID, tokenID, tokenID);
          loggersUsageByTokenID := loggersUsageByTokenID - {tokenID};
          effects := effects + [LoggerClosed(tokenID, loggerUsage.logger)];
        } else {
          loggersUsageByTokenID := loggersUsageByTokenID[tokenID := loggerUsage];
          consumersByTokenID := Prune(consumersByTokenID, tokenID);
        }
      }
      storagesByTokenID := Delete(storagesByTokenID, tokenID, name);
      destinationsIDByTokenID := Delete(destinationsIDByTokenID, tokenID, name);
      panicked := false;
    }

    /**
     * `remove`: every token of the unit is unregistered in turn, the unit is
     * closed and leaves the registry. A staged batch unit never took a logger,
     * so its first token without one dereferences nil (`panicked`, the unit
     * stays registered), and a token with another unit's logger has that
     * logger's usage decremented (`RemovalConsistent` shows that removing any
     * other unit keeps the service consistent).
     */
    method Remove(name: Name) returns (panicked: bool)
      requires name in unitsByName
      modifies this
      ensures var u := old(unitsByName[name]);
              var r := UnregisterAll(old(Current()), name, u.eventQueue.Some?, u.tokenIDs);
              && (panicked <==> r.NilDeref?)
              && (!panicked ==>
                    && Current() == r.tables
                    && unitsByName == old(unitsByName) - {name}
                    && effects == old(effects) + r.closed + [UnitClosed(name, u)]
                    && staged == old(staged) - {name}
                    && holders == HoldsAfter(old(holders), name, u.eventQueue.Some?, u.tokenIDs))
      ensures panicked ==> unitsByName == old(unitsByName)
      ensures reloading == old(reloading)
      ensures old(Valid()) && (name in old(staged) ==> old(unitsByName)[name].eventQueue.Some?) ==> !panicked && Valid()
    {
      var u := unitsByName[name];
      if Valid() && (name in staged ==> u.eventQueue.Some?) {
        RemovalConsistent(Current(), unitsByName, staged, holders, name);
      }
      panicked := RemoveTokens(name, u.eventQueue.Some?, u.tokenIDs);
      if panicked {
        return;
      }
      effects := effects + [UnitClosed(name, u)];
      unitsByName := unitsByName - {name};
      staged := staged - {name};
      holders := HoldsAfter(holders, name, u.eventQueue.Some?, u.tokenIDs);
    }

    /** The token loop of `remove`: each token of the unit is unregistered in turn, up to the first nil dereference. */
    method RemoveTokens(name: Name, hasQueue: bool, tokenIDs: seq<TokenID>) returns (panicked: bool)
      modifies this`loggersUsageByTokenID, this`consumersByTokenID, this`storagesByTokenID,
               this`destinationsIDByTokenID, this`effects
      ensures var r := UnregisterAll(old(Current()), name, hasQueue, tokenIDs);
              && (panicked <==> r.NilDeref?)
              && (!panicked ==> Current() == r.tables && effects == old(effects) + r.closed)
    {
      ghost var before, e0 := Current(), effects;
      ghost var closed: seq<Effect> := [];
      var i := 0;
      while i < |tokenIDs|
        invariant 0 <= i <= |tokenIDs|
        invariant UnregisterAll(before, name, hasQueue, tokenIDs[..i]) == Removed(Current(), closed)
        invariant effects == e0 + closed
      {
        UnregisterAllNext(before, name, hasQueue, tokenIDs, i);
        ghost var step := UnregisterToken(Current(), name, hasQueue, tokenIDs[i]);
        var failed := RemoveToken(name, hasQueue, tokenIDs[i]);
        if failed {
          NilDerefSticks(before, name, hasQueue, tokenIDs, i + 1);
          return true;
        }
        closed := closed + step.closed;
        i := i + 1;
      }
      assert tokenIDs[..i] == tokenIDs;
      panicked := false;
    }

    /**
     * One pass of `init`'s token loop for the new unit `u` named `name`: a staged
     * destination registers nothing; any other records its name in the token's
     * IDs; a stream destination (by its configured mode) adds its queue under its
     * own name; a batch destination gets the token's shared logger, creating it
     * when the token has none, increments its usage, adds the logger under the
     * token itself and adds its storage under its name. The consumers, storages
     * and IDs go to the cycle's pending maps, the logger usage straight into the
     * service.
     */
    method AddToken(name: Name, config: DestinationConfig, u: Unit, pending: Pending, tokenID: TokenID)
      returns (next: Pending)
      modifies this`loggersUsageByTokenID, this`effects
      ensures var r := RegisterToken(old(loggersUsageByTokenID), pending, name, config, u, tokenID, env.incomingLogger);
              loggersUsageByTokenID == r.loggers && next == r.pending && effects == old(effects) + r.created
    {
      next := pending;
      if config.staged {
        return;
      }
      next := next.(ids := Add(next.ids, tokenID, name, true));
      if config.mode == StreamMode {
        next := next.(consumers := Add(next.consumers, tokenID, name, QueueConsumer(u.eventQueue)));
      } else {
        var loggerUsage: LoggerUsage;
        if tokenID in loggersUsageByTokenID {
          loggerUsage := loggersUsageByTokenID[tokenID];
        } else {
          var incomeLogger := env.incomingLogger(tokenID);
          effects := effects + [LoggerCreated(tokenID, incomeLogger)];
          loggerUsage := LoggerUsage(incomeLogger, 0);
        }
        loggerUsage := loggerUsage.(usage := loggerUsage.usage + 1);
        loggersUsageByTokenID := loggersUsageByTokenID[tokenID := loggerUsage];
        next := next.(consumers := Add(next.consumers, tokenID, tokenID, LoggerConsumer(loggerUsage.logger)));
        next := next.(storages := Add(next.storages, tokenID, name, u.storage));
      }
    }

    /** `init`'s token loop over all the token IDs of the new unit `u`, in order. */
    method AddTokens(name: Name, config: DestinationConfig, u: Unit, pending: Pending) returns (next: Pending)
      modifies this`loggersUsageByTokenID, this`effects
      ensures var r := RegisterAll(old(loggersUsageByTokenID), pending, name, config, u, u.tokenIDs, env.incomingLogger);
              loggersUsageByTokenID == r.loggers && next == r.pending && effects == old(effects) + r.created
    {
      ghost var l0, e0 := loggersUsageByTokenID, effects;
      ghost var created: seq<Effect> := [];
      next := pending;
      var i := 0;
      while i < |u.tokenIDs|
        invariant 0 <= i <= |u.tokenIDs|
        invariant RegisterAll(l0, pending, name, config, u, u.tokenIDs[..i], env.incomingLogger)
                  == Registration(loggersUsageByTokenID, next, created)
        invariant effects == e0 + created
      {
        RegisterAllNext(l0, pending, name, config, u, u.tokenIDs, i, env.incomingLogger);
        ghost var step := RegisterToken(loggersUsageByTokenID, next, name, config, u, u.tokenIDs[i], env.incomingLogger);
        next := AddToken(name, config, u, next, u.tokenIDs[i]);
        created := created + step.created;
        i := i + 1;
      }
      assert u.tokenIDs[..i] == u.tokenIDs;
    }

    /** The service's state, with the cycle's pending maps `pending`. */
    ghost function State(pending: Pending): Snapshot
      reads this
    {
      Snapshot(Current(), pending, unitsByName, staged, holders, effects)
    }

    /**
     * The body of `init`'s loop over the snapshot for one destination: the
     * token list is resolved and the hash computed; a live unit with the same
     * hash is left as it is; a live unit with another hash is removed first;
     * then, unless no token resolved or the storage factory fails, the new unit
     * is registered and its tokens added to the cycle's pending maps.
     */
    method CreateOrRecreate(name: Name, config: DestinationConfig, pending: Pending) returns (next: Pending, panicked: bool)
      modifies this
      ensures var r := Step(old(State(pending)), name, config, env);
              (panicked <==> r.None?) && (!panicked ==> State(next) == r.value)
      ensures reloading == old(reloading)
    {
      next, panicked := pending, false;
      var destinationConfig := Resolve(config, env);
      var hash := env.hash(name, destinationConfig);
      if name in unitsByName {
        if unitsByName[name].hash == hash {
          return;
        }
        panicked := Remove(name);
        if panicked {
          return;
        }
      }
      next := Build(name, config, destinationConfig, hash, pending);
    }

    /**
     * The creating half of `init`'s loop body, once no unit named `name` is
     * live: nothing when no token resolved; otherwise the storage factory is
     * called and, unless it fails, the new unit is registered and its tokens
     * added to the pending maps.
     */
    method Build(name: Name, ghost config: DestinationConfig, destinationConfig: DestinationConfig, hash: int,
                 pending: Pending) returns (next: Pending)
      requires destinationConfig == Resolve(config, env) && hash == HashOf(name, config, env)
      modifies this
      ensures State(next) == Create(old(State(pending)), name, config, env)
      ensures reloading == old(reloading)
    {
      next := pending;
      if |destinationConfig.onlyTokens| == 0 {
        return;
      }
      effects := effects + [FactoryCalled(name)];
      ghost var called := State(pending);
      var creation := env.create(name, destinationConfig);
      if creation.CreateFailed? {
        return;
      }
      var u := Unit(creation.eventQueue, creation.storage, destinationConfig.onlyTokens, hash);
      assert Create(old(State(pending)), name, config, env) == Admit(called, name, destinationConfig, u, env.incomingLogger);
      next := Register(name, destinationConfig, u, pending);
    }

    /** The new unit `u` enters the registry, with its staged mark and its holds, and its tokens are registered. */
    method Register(name: Name, destinationConfig: DestinationConfig, u: Unit, pending: Pending) returns (next: Pending)
      modifies this
      ensures State(next) == Admit(old(State(pending)), name, destinationConfig, u, env.incomingLogger)
      ensures reloading == old(reloading)
    {
      unitsByName := unitsByName[name := u];
      staged := StagedWith(staged, name, destinationConfig.staged);
      holders := AdmitHolds(holders, name, destinationConfig, u);
      next := AddTokens(name, destinationConfig, u, pending);
    }

    /**
     * The first half of `init`: every live unit missing from the snapshot is
     * removed, in the order the pass meets them (`gone`); `panicked` when one
     * of them dereferences nil, which ends the pass.
     */
    method RemoveAbsent(dc: map<Name, DestinationConfig>) returns (panicked: bool, ghost gone: seq<Name>)
      modifies this
      ensures Distinct(gone) && Names(gone) == old(unitsByName).Keys - dc.Keys
      ensures var r := RemoveAll(old(State(NothingPending)), gone);
              (panicked <==> r.None?) && (!panicked ==> State(NothingPending) == r.value)
      ensures reloading == old(reloading)
    {
      ghost var s0 := State(NothingPending);
      var toDelete := set n | n in unitsByName && n !in dc;
      gone := [];
      while toDelete != {}
        invariant Distinct(gone) && Names(gone) !! toDelete
        invariant Names(gone) + toDelete == s0.units.Keys - dc.Keys
        invariant RemoveAll(s0, gone) == Some(State(NothingPending))
        invariant reloading == old(reloading)
        decreases toDelete
      {
        var name :| name in toDelete;
        NamesSnoc(gone, name);
        RemoveAllNext(s0, gone, name);
        panicked := Remove(name);
        if panicked {
          ghost var rest := Listing(toDelete - {name});
          DistinctAppend(gone + [name], rest);
          RemoveAllSticks(s0, gone + [name], rest);
          gone := gone + [name] + rest;
          return;
        }
        gone := gone + [name];
        toDelete := toDelete - {name};
      }
      panicked := false;
    }

    /**
     * The second half of `init`: each destination of the snapshot is created,
     * recreated or kept, in the order the loop meets them (`order`), its
     * consumers, storages and IDs collected in `pending`; `panicked` when a
     * removal dereferences nil, which ends the loop.
     */
    method CreateAll(dc: map<Name, DestinationConfig>) returns (pending: Pending, panicked: bool, ghost order: seq<Name>)
      modifies this
      ensures Distinct(order) && Names(order) == dc.Keys
      ensures var r := StepAll(old(State(NothingPending)), order, dc, env);
              (panicked <==> r.None?) && (!panicked ==> State(pending) == r.value)
      ensures reloading == old(reloading)
    {
      ghost var s1 := State(NothingPending);
      pending, panicked := NothingPending, false;
      var todo := dc.Keys;
      order := [];
      while todo != {}
        invariant Distinct(order) && Names(order) !! todo && Names(order) + todo == dc.Keys
        invariant StepAll(s1, order, dc, env) == Some(State(pending))
        invariant reloading == old(reloading)
        decreases todo
      {
        var name :| name in todo;
        NamesSnoc(order, name);
        StepAllNext(s1, order, name, dc, env);
        pending, panicked := CreateOrRecreate(name, dc[name], pending);
        if panicked {
          ghost var rest := Listing(todo - {name});
          DistinctAppend(order + [name], rest);
          StepAllSticks(s1, order + [name], rest, dc, env);
          order := order + [name] + rest;
          return;
        }
        order := order + [name];
        todo := todo - {name};
      }
    }

    /**
     * `init(dc)`: with the reloading flag raised, the units missing from the
     * snapshot are removed, then each destination of the snapshot is created,
     * recreated or kept, and the collected consumers, storages and IDs are
     * merged into the service. `panicked` when a removal dereferences nil,
     * which ends the cycle with the flag still raised.
     */
    method Init(dc: map<Name, DestinationConfig>) returns (panicked: bool, ghost gone: seq<Name>, ghost order: seq<Name>)
      modifies this
      ensures CycleOrder(old(unitsByName), gone, order, dc)
      ensures var r := Reconcile(old(State(NothingPending)), gone, order, dc, env);
              (panicked <==> r.None?) && (!panicked ==> State(NothingPending) == r.value && !reloading)
      ensures old(Valid()) && (forall n :: n in dc ==> FactoryFits(n, dc[n], env))
              && (forall n :: n in RemovedNames(old(unitsByName), dc, env) && n in old(staged) ==> old(unitsByName)[n].eventQueue.Some?)
              ==> !panicked && Valid()
    {
      ghost var before := State(NothingPending);
      ghost var valid := Valid() && (forall n :: n in dc ==> FactoryFits(n, dc[n], env))
                         && (forall n :: n in RemovedNames(unitsByName, dc, env) && n in staged ==> unitsByName[n].eventQueue.Some?);
      reloading := true;
      panicked, gone := RemoveAbsent(dc);
      if panicked {
        order := Listing(dc.Keys);
        assert !valid by {
          if valid {
            ReconcileConsistent(before, gone, order, dc, env);
          }
        }
        return;
      }
      var pending;
      pending, panicked, order := CreateAll(dc);
      assert valid ==> !panicked && Consistent(Reconcile(before, gone, order, dc, env).value.tables,
                                               Reconcile(before, gone, order, dc, env).value.units,
                                               Reconcile(before, gone, order, dc, env).value.staged,
                                               Reconcile(before, gone, order, dc, env).value.holders) by {
        if valid {
          ReconcileConsistent(before, gone, order, dc, env);
        }
      }
      if panicked {
        return;
      }
      consumersByTokenID := AddAll(consumersByTokenID, pending.consumers);
      storagesByTokenID := AddAll(storagesByTokenID, pending.storages);
      destinationsIDByTokenID := AddAll(destinationsIDByTokenID, pending.ids);
      reloading := false;
    }

    /** `GetConsumers`: every consumer of `tokenID`, once each, in the order the map yields them. */
    method GetConsumers(tokenID: TokenID) returns (consumers: seq<Consumer>, ghost keys: seq<string>)
      ensures Distinct(keys) && Names(keys) == Get(consumersByTokenID, tokenID).Keys
      ensures |consumers| == |Get(consumersByTokenID, tokenID)|
      ensures forall c :: c in consumers <==> c in Get(consumersByTokenID, tokenID).Values
      ensures |keys| == |consumers|
      ensures forall i :: 0 <= i < |keys| ==> consumers[i] == Get(consumersByTokenID, tokenID)[keys[i]]
    {
      consumers, keys := ListValues(Get(consumersByTokenID, tokenID));
    }

    /** `GetStorages`: every storage of `tokenID`, once each, in the order the map yields them. */
    method GetStorages(tokenID: TokenID) returns (storages: seq<Handle>, ghost keys: seq<string>)
      ensures Distinct(keys) && Names(keys) == Get(storagesByTokenID, tokenID).Keys
      ensures |storages| == |Get(storagesByTokenID, tokenID)|
      ensures forall c :: c in storages <==> c in Get(storagesByTokenID, tokenID).Values
      ensures |keys| == |storages|
      ensures forall i :: 0 <= i < |keys| ==> storages[i] == Get(storagesByTokenID, tokenID)[keys[i]]
    {
      storages, keys := ListValues(Get(storagesByTokenID, tokenID));
    }

    /** `GetStorageByID`: the storage of the live unit named `id`, if there is one. */
    method GetStorageByID(id: Name) returns (storage: Option<Handle>)
      ensures storage.Some? <==> id in unitsByName
      ensures storage.Some? ==> storage.value == unitsByName[id].storage
    {
      if id !in unitsByName {
        return None;
      }
      return Some(unitsByName[id].storage);
    }

    /** `GetDestinationIDs`: a fresh set of the names of the units routed for `tokenID`, each marked true. */
    method GetDestinationIDs(tokenID: TokenID) returns (ids: map<Name, bool>)
      ensures ids.Keys == Get(destinationsIDByTokenID, tokenID).Keys
      ensures forall n :: n in ids ==> ids[n]
    {
      ids := map[];
      var rest := Get(destinationsIDByTokenID, tokenID).Keys;
      while rest != {}
        invariant rest <= Get(destinationsIDByTokenID, tokenID).Keys
        invariant ids.Keys == Get(destinationsIDByTokenID, tokenID).Keys - rest
        invariant forall n :: n in ids ==> ids[n]
        decreases rest
      {
        var id :| id in rest;
        ids := ids[id := true];
        rest := rest - {id};
      }
    }

    /**
     * `Close`: every shared logger is closed, then every live unit, each in
     * the order its map yields them (`tokens`, `names`); the errors they
     * report are collected, and the maps are left as they are.
     */
    method Close() returns (errors: seq<string>, ghost tokens: seq<TokenID>, ghost names: seq<Name>)
      modifies this`effects
      ensures Distinct(tokens) && Names(tokens) == loggersUsageByTokenID.Keys
      ensures Distinct(names) && Names(names) == unitsByName.Keys
      ensures effects == old(effects) + LoggerClosings(loggersUsageByTokenID, tokens) + UnitClosings(unitsByName, names)
      ensures errors == LoggerErrors(loggersUsageByTokenID, tokens, env) + UnitErrors(unitsByName, names, env)
    {
      var closings;
      closings, errors, tokens, names := CloseAll(loggersUsageByTokenID, unitsByName, env);
      effects := effects + closings;
    }
  }
}
