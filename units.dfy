/**
 * Destination units and the collaborators the destinations service calls: what a
 * reconciliation cycle is to leave in the unit registry, as a function of the
 * registry before the cycle and the new configuration snapshot.
 */
module Units {
  import opened Wrappers

  type Name = string
  type TokenID = string
  /** The identity of an object a collaborator hands out: a queue, a storage or a logger. */
  type Handle = nat

  /** `storages.StreamMode`; every other mode value is treated as batch. */
  const StreamMode := "stream"

  /**
   * The part of `storages.DestinationConfig` that routing reads; `settings`
   * stands for the remaining fields, which only enter the change-detection hash.
   */
  datatype DestinationConfig = DestinationConfig(
    kind: string,
    mode: string,
    onlyTokens: seq<string>,
    staged: bool,
    settings: string)

  /** One live destination: its queue (stream mode), its storage, the token IDs it serves and its hash. */
  datatype Unit = Unit(eventQueue: Option<Handle>, storage: Handle, tokenIDs: seq<TokenID>, hash: int)

  /** The outcome of `storageFactory.Create`: a storage and possibly a queue, or an error. */
  datatype Creation = Created(storage: Handle, eventQueue: Option<Handle>) | CreateFailed(message: string)

  /**
   * The collaborators, as functions of their inputs:
   * `idsByTokens` is the authorization service's `GetAllIDsByToken`, `allTokenIDs`
   * its `GetAllTokenIDs()`, `hash` is `getHash`, `create` is `storageFactory.Create`,
   * `incomingLogger` is `loggerFactory.CreateIncomingLogger`, and `loggerCloseError` and
   * `unitCloseError` are the errors (if any) that closing a logger or a unit reports.
   */
  datatype Collaborators = Collaborators(
    idsByTokens: seq<string> -> seq<TokenID>,
    allTokenIDs: seq<TokenID>,
    hash: (Name, DestinationConfig) -> int,
    create: (Name, DestinationConfig) -> Creation,
    incomingLogger: TokenID -> Handle,
    loggerCloseError: Handle -> Option<string>,
    unitCloseError: Unit -> Option<string>)

  /** The configuration with `OnlyTokens` mapped to token IDs; no tokens means all known token IDs. */
  function Resolve(config: DestinationConfig, env: Collaborators): DestinationConfig
  {
    config.(onlyTokens := if |config.onlyTokens| > 0 then env.idsByTokens(config.onlyTokens) else env.allTokenIDs)
  }

  /** The hash of a destination, computed on its resolved configuration. */
  function HashOf(name: Name, config: DestinationConfig, env: Collaborators): int
  {
    env.hash(name, Resolve(config, env))
  }

  /**
   * What the routing of a created destination relies on: the storage factory
   * hands out a queue exactly for a stream-mode destination, and a stream
   * destination is not named like one of its own token IDs (its queue and the
   * token's shared logger would take the same consumer key).
   */
  predicate FactoryFits(name: Name, config: DestinationConfig, env: Collaborators)
  {
    var resolved := Resolve(config, env);
    match env.create(name, resolved)
    case CreateFailed(_) => true
    case Created(_, queue) =>
      (queue.Some? <==> config.mode == StreamMode) && (queue.Some? ==> name !in resolved.onlyTokens)
  }

  /** A live unit of that name exists and its hash equals the new one. */
  predicate Unchanged(units: map<Name, Unit>, name: Name, config: DestinationConfig, env: Collaborators)
  {
    name in units && units[name].hash == HashOf(name, config, env)
  }

  /** The storage factory is called for this destination in this cycle. */
  predicate CreateCalled(units: map<Name, Unit>, name: Name, config: DestinationConfig, env: Collaborators)
  {
    !Unchanged(units, name, config, env) && |Resolve(config, env).onlyTokens| > 0
  }

  /** The unit registered under `name` at the end of the cycle, if any. */
  function NextUnit(units: map<Name, Unit>, name: Name, config: DestinationConfig, env: Collaborators): Option<Unit>
  {
    var resolved := Resolve(config, env);
    if Unchanged(units, name, config, env) then Some(units[name])
    else if |resolved.onlyTokens| == 0 then None
    else match env.create(name, resolved)
      case CreateFailed(_) => None
      case Created(storage, queue) => Some(Unit(queue, storage, resolved.onlyTokens, HashOf(name, config, env)))
  }

  /**
   * The unit registry after `init(dc)`: only names of the snapshot remain; an
   * unchanged unit is kept as the same value; a changed or new destination
   * with no resolved token, or whose storage cannot be created, has no unit;
   * otherwise it has the freshly created unit with its resolved token IDs and
   * new hash.
   */
  function ReconciledUnits(units: map<Name, Unit>, dc: map<Name, DestinationConfig>, env: Collaborators): (r: map<Name, Unit>)
    ensures r.Keys <= dc.Keys
    ensures forall n :: n in dc && Unchanged(units, n, dc[n], env) ==> n in r && r[n] == units[n]
    ensures forall n :: n in dc && !Unchanged(units, n, dc[n], env) && |Resolve(dc[n], env).onlyTokens| == 0 ==> n !in r
    ensures forall n :: n in dc && CreateCalled(units, n, dc[n], env) && env.create(n, Resolve(dc[n], env)).CreateFailed? ==> n !in r
    ensures forall n :: n in dc && CreateCalled(units, n, dc[n], env) && env.create(n, Resolve(dc[n], env)).Created? ==>
              var c := env.create(n, Resolve(dc[n], env));
              n in r && r[n] == Unit(c.eventQueue, c.storage, Resolve(dc[n], env).onlyTokens, HashOf(n, dc[n], env))
  {
    map n | n in dc && NextUnit(units, n, dc[n], env).Some? :: NextUnit(units, n, dc[n], env).value
  }

  /** The names whose live unit the cycle removes: gone from the snapshot, or changed. */
  function RemovedNames(units: map<Name, Unit>, dc: map<Name, DestinationConfig>, env: Collaborators): set<Name>
  {
    set n | n in units && (n !in dc || !Unchanged(units, n, dc[n], env))
  }

  /** The names registered as staged after the cycle. */
  function StagedAfter(units: map<Name, Unit>, staged: set<Name>, dc: map<Name, DestinationConfig>, env: Collaborators): set<Name>
  {
    set n | n in ReconciledUnits(units, dc, env)
              && (if Unchanged(units, n, dc[n], env) then n in staged else dc[n].staged)
  }

  /**
   * Feeding the same snapshot twice: the second cycle removes nothing and keeps
   * every unit of the first as it is, so the registry does not change.
   */
  lemma ReconcileTwice(units: map<Name, Unit>, dc: map<Name, DestinationConfig>, env: Collaborators)
    ensures var once := ReconciledUnits(units, dc, env);
            RemovedNames(once, dc, env) == {}
            && (forall n :: n in once ==> Unchanged(once, n, dc[n], env))
            && ReconciledUnits(once, dc, env) == once
  {
    var once := ReconciledUnits(units, dc, env);
    forall n | n in once ensures Unchanged(once, n, dc[n], env) {
      assert NextUnit(units, n, dc[n], env).Some?;
    }
    var twice := ReconciledUnits(once, dc, env);
    forall n | n in dc ensures (n in twice <==> n in once) && (n in once ==> twice[n] == once[n]) {
      if n !in once {
        assert !Unchanged(units, n, dc[n], env);
        assert NextUnit(once, n, dc[n], env) == NextUnit(units, n, dc[n], env);
      }
    }
  }

  /**
   * Two sets of collaborators that resolve tokens and hash configurations
   * alike; their storage factories may answer differently.
   */
  ghost predicate SameResolution(env: Collaborators, env': Collaborators)
  {
    && env'.allTokenIDs == env.allTokenIDs
    && (forall ts :: env'.idsByTokens(ts) == env.idsByTokens(ts))
    && (forall n, c :: env'.hash(n, c) == env.hash(n, c))
  }

  lemma SameResolve(env: Collaborators, env': Collaborators, name: Name, config: DestinationConfig)
    requires SameResolution(env, env')
    ensures Resolve(config, env') == Resolve(config, env) && HashOf(name, config, env') == HashOf(name, config, env)
  {
  }

  /**
   * Feeding the same snapshot to a second cycle whose storage factory may
   * answer differently (a retry): the second cycle removes nothing and keeps
   * every unit of the first as it is; the only units it adds are those of
   * destinations whose creation failed in the first cycle, and it calls the
   * factory for exactly the destinations with tokens that have no unit.
   */
  lemma ReconcileAgain(units: map<Name, Unit>, dc: map<Name, DestinationConfig>, env: Collaborators, env': Collaborators)
    requires SameResolution(env, env')
    ensures var once := ReconciledUnits(units, dc, env);
            var twice := ReconciledUnits(once, dc, env');
            && RemovedNames(once, dc, env') == {}
            && (forall n :: n in once ==> n in twice && twice[n] == once[n])
            && (forall n :: n in twice && n !in once ==>
                  n in dc && CreateCalled(units, n, dc[n], env) && env.create(n, Resolve(dc[n], env)).CreateFailed?)
            && (forall n :: n in dc ==>
                  (CreateCalled(once, n, dc[n], env') <==> n !in once && |Resolve(dc[n], env).onlyTokens| > 0))
  {
    var once := ReconciledUnits(units, dc, env);
    var twice := ReconciledUnits(once, dc, env');
    forall n | n in dc
      ensures n in once ==> Unchanged(once, n, dc[n], env') && n in twice && twice[n] == once[n]
      ensures n in twice && n !in once ==> CreateCalled(units, n, dc[n], env) && env.create(n, Resolve(dc[n], env)).CreateFailed?
      ensures CreateCalled(once, n, dc[n], env') <==> n !in once && |Resolve(dc[n], env).onlyTokens| > 0
    {
      SameResolve(env, env', n, dc[n]);
      if n in once {
        assert NextUnit(units, n, dc[n], env).Some?;
      } else {
        assert NextUnit(units, n, dc[n], env).None?;
      }
    }
  }

}
