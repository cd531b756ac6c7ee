/** The host-agent proxy's shared maps. Every method but `Interleave` and
    `RouteByClaim` runs under the state's mutex; spawning and routing are spread over
    several critical sections, with other callers in between. */
module HostAgentProxy {
  import opened Claims

  type Identity = string
  type SpawnId = string
  type ClaimId = string
  type Conn = nat

  datatype Key = Key(scope: string, binding: string)

  datatype Spawn = Spawn(agent: Identity, key: Key)

  datatype Route = Route(identity: Identity, spawn: SpawnId)

  /** A spawn under way; `probed` once it has found no spawn for its key. */
  datatype Flight = Flight(agent: Identity, key: Key, probed: bool)

  function FlightKey(k: Key): string { k.scope + "\0" + k.binding }

  /** The (scope, binding) index and the spawn map are inverse to each other. */
  ghost predicate OneToOne(spawns: map<SpawnId, Spawn>, index: map<Key, SpawnId>) {
    && (forall k | k in index :: index[k] in spawns && spawns[index[k]].key == k)
    && (forall id | id in spawns :: spawns[id].key in index && index[spawns[id].key] == id)
  }

  /** At most one live spawn exists for a key, and the index finds it. */
  lemma OneSpawnPerKey(spawns: map<SpawnId, Spawn>, index: map<Key, SpawnId>, a: SpawnId, b: SpawnId)
    requires OneToOne(spawns, index) && a in spawns && b in spawns && spawns[a].key == spawns[b].key
    ensures a == b && index[spawns[a].key] == a
  {
  }

  ghost predicate FlightsOk(flights: map<string, Flight>, index: map<Key, SpawnId>) {
    forall f | f in flights :: FlightKey(flights[f].key) == f && (flights[f].probed ==> flights[f].key !in index)
  }

  function IndexWithout(index: map<Key, SpawnId>, gone: set<SpawnId>): map<Key, SpawnId> {
    map k | k in index && index[k] !in gone :: index[k]
  }

  function RoutesWithout(routes: map<ClaimId, Route>, gone: set<SpawnId>): map<ClaimId, Route> {
    map c | c in routes && routes[c].spawn !in gone :: routes[c]
  }

  /** A route leads to a live spawn exactly if its spawn was live when the route
      was recorded: `late` are the claims recorded after their spawn had gone.
      Spawn ids are never issued twice. */
  ghost predicate RoutesOk(live: set<SpawnId>, routes: map<ClaimId, Route>, issued: set<SpawnId>, late: set<ClaimId>) {
    && live <= issued
    && forall c | c in routes :: routes[c].spawn in issued && (routes[c].spawn in live <==> c !in late)
  }

  class ProxyState {
    var agents: map<Identity, Conn>
    var spawns: map<SpawnId, Spawn>
    var index: map<Key, SpawnId>
    var routes: map<ClaimId, Route>
    var flights: map<string, Flight>
    // Every spawn id ever used; stands for ids being random.
    var issued: set<SpawnId>
    ghost var late: set<ClaimId>

    ghost predicate Indexed()
      reads this
    {
      OneToOne(spawns, index) && FlightsOk(flights, index)
    }

    ghost predicate Valid()
      reads this
    {
      Indexed() && RoutesOk(spawns.Keys, routes, issued, late)
    }

    constructor ()
      ensures Valid() && spawns == map[] && agents == map[] && routes == map[] && flights == map[]
    {
      agents, spawns, index, routes, flights := map[], map[], map[], map[], map[];
      issued, late := {}, {};
    }

    // --------------------------------------------------------------- agents

    /** Registers a connection. A connection it displaces loses its spawns. */
    method RegisterAgent(identity: Identity, conn: Conn, rejectOnCollision: bool) returns (collided: bool)
      requires Valid()
      modifies this`agents, this`spawns, this`index, this`routes
      ensures Valid()
      ensures Succeeds(old(agents), old(spawns), old(issued), agents, spawns, issued)
      ensures collided <==> identity in old(agents) && rejectOnCollision
      ensures agents == if collided then old(agents) else old(agents)[identity := conn]
      ensures var gone := if collided || identity !in old(agents) then {} else OfAgent(old(spawns), identity);
              spawns == old(spawns) - gone && index == IndexWithout(old(index), gone)
                  && routes == RoutesWithout(old(routes), gone)
    {
      var prior := identity in agents;
      if prior && rejectOnCollision {
        KeepAll(index, routes);
        return true;
      }
      agents := agents[identity := conn];
      if prior { DropSpawns(OfAgent(spawns, identity)); } else { KeepAll(index, routes); }
      return false;
    }

    /** Drops a connection. Its identity's spawns go even if another connection
        has taken its place meanwhile. */
    method DropAgent(identity: Identity, conn: Conn) returns (dropped: set<SpawnId>)
      requires Valid()
      modifies this`agents, this`spawns, this`index, this`routes
      ensures Valid()
      ensures Succeeds(old(agents), old(spawns), old(issued), agents, spawns, issued)
      ensures agents == if identity in old(agents) && old(agents)[identity] == conn then old(agents) - {identity}
              else old(agents)
      ensures dropped == OfAgent(old(spawns), identity)
      ensures spawns == old(spawns) - dropped && index == IndexWithout(old(index), dropped)
              && routes == RoutesWithout(old(routes), dropped)
    {
      if identity in agents && agents[identity] == conn { agents := agents - {identity}; }
      dropped := OfAgent(spawns, identity);
      DropSpawns(dropped);
    }

    // --------------------------------------------------------------- spawns

    method DropSpawnsForRunScope(scope: string) returns (dropped: set<SpawnId>)
      requires Valid()
      modifies this`spawns, this`index, this`routes
      ensures Valid()
      ensures dropped == set id | id in old(spawns) && old(spawns)[id].key.scope == scope
      ensures spawns == old(spawns) - dropped && index == IndexWithout(old(index), dropped)
              && routes == RoutesWithout(old(routes), dropped)
    {
      dropped := set id | id in spawns && spawns[id].key.scope == scope;
      DropSpawns(dropped);
    }

    method DropSpawn(id: SpawnId)
      requires Valid()
      modifies this`spawns, this`index, this`routes
      ensures Valid()
      ensures var gone := if id in old(spawns) then {id} else {};
              spawns == old(spawns) - gone && index == IndexWithout(old(index), gone)
                  && routes == RoutesWithout(old(routes), gone)
    {
      if id !in spawns {
        KeepAll(index, routes);
        return;
      }
      DropSpawns({id});
    }

    /** Deletes spawns with their index entries, then every claim route recorded to
        one of them. */
    method DropSpawns(gone: set<SpawnId>)
      requires Valid() && gone <= spawns.Keys
      modifies this`spawns, this`index, this`routes
      ensures Valid()
      ensures spawns == old(spawns) - gone && index == IndexWithout(old(index), gone)
              && routes == RoutesWithout(old(routes), gone)
    {
      DropEntries(gone);
      routes := RoutesWithout(routes, gone);
    }

    method DropEntries(gone: set<SpawnId>)
      requires Indexed() && gone <= spawns.Keys
      modifies this`spawns, this`index
      ensures Indexed() && spawns == old(spawns) - gone && index == IndexWithout(old(index), gone)
    {
      var rest := gone;
      KeepAll(index, routes);
      ghost var done: set<SpawnId> := {};
      while rest != {}
        invariant done == gone - rest && rest <= gone
        invariant Shed(old(spawns), old(index), spawns, index, done)
        decreases |rest|
      {
        var id :| id in rest;
        DropOne(old(spawns), old(index), spawns, index, done, id);
        index, spawns := index - {spawns[id].key}, spawns - {id};
        rest, done := rest - {id}, done + {id};
      }
      assert done == gone;
      FlightsLast(flights, old(index), gone);
    }

    // --------------------------------------------------------------- routes

    /** Remembers which spawn opened a claim. The spawn may have gone since it was
        asked. */
    method RecordClaimRoute(claim: ClaimId, identity: Identity, spawn: SpawnId)
      requires Valid() && spawn in issued
      modifies this`routes, this`late
      ensures Valid()
      ensures routes == if claim == "" then old(routes) else old(routes)[claim := Route(identity, spawn)]
      ensures late == if claim == "" then old(late)
                      else if spawn in spawns then old(late) - {claim} else old(late) + {claim}
    {
      if claim != "" {
        routes := routes[claim := Route(identity, spawn)];
        late := if spawn in spawns then late - {claim} else late + {claim};
      }
    }

    // ------------------------------------------------------------- spawning

    /** Starts a flight for a key, or joins the one under way. */
    method BeginFlight(key: Key, agent: Identity) returns (started: bool)
      requires Valid()
      modifies this`flights
      ensures Valid()
      ensures started <==> FlightKey(key) !in old(flights)
      ensures flights == if started then old(flights)[FlightKey(key) := Flight(agent, key, false)] else old(flights)
    {
      started := FlightKey(key) !in flights;
      if started { flights := flights[FlightKey(key) := Flight(agent, key, false)]; }
    }

    /** The second lookup, inside the flight: a hit ends it. */
    method Probe(f: string) returns (hit: Option<SpawnId>)
      requires Valid() && f in flights
      modifies this`flights
      ensures Valid()
      ensures hit == if old(flights)[f].key in index then Some(index[old(flights)[f].key]) else None
      ensures flights == if hit.Some? then old(flights) - {f} else old(flights)[f := old(flights)[f].(probed := true)]
    {
      var key := flights[f].key;
      if key in index {
        hit := Some(index[key]);
        flights := flights - {f};
      } else {
        hit := None;
        flights := flights[f := flights[f].(probed := true)];
      }
    }

    /** The child is up: it is recorded under a fresh id and the flight ends. */
    method RecordSpawn(f: string, id: SpawnId)
      requires Valid() && f in flights && flights[f].probed && id !in issued
      modifies this`spawns, this`index, this`flights, this`issued
      ensures Valid() && issued == old(issued) + {id}
      ensures var fl := old(flights)[f];
              && spawns == old(spawns)[id := Spawn(fl.agent, fl.key)] && index == old(index)[fl.key := id]
              && flights == old(flights) - {f}
    {
      var fl := flights[f];
      spawns := spawns[id := Spawn(fl.agent, fl.key)];
      index := index[fl.key := id];
      flights := flights - {f};
      issued := issued + {id};
    }

    method FailFlight(f: string)
      requires Valid() && f in flights
      modifies this`flights
      ensures Valid() && flights == old(flights) - {f}
    {
      flights := flights - {f};
    }

    // ------------------------------------------------------- interleavings

    method Perform(op: Op)
      requires Valid()
      modifies this
      ensures Valid() && Succeeds(old(agents), old(spawns), old(issued), agents, spawns, issued)
    {
      match op {
        case Register(identity, conn, reject) => var _ := RegisterAgent(identity, conn, reject);
        case Disconnect(identity, conn) => var _ := DropAgent(identity, conn);
        case CloseScope(scope) => var _ := DropSpawnsForRunScope(scope);
        case Reap(id) => DropSpawn(id);
        case Routed(claim, identity, id) => if id in issued { RecordClaimRoute(claim, identity, id); }
        case Call(key, agent) => var _ := BeginFlight(key, agent);
        case Lookup(f) => if f in flights { var _ := Probe(f); }
        case Up(f, id) => if f in flights && flights[f].probed && id !in issued { RecordSpawn(f, id); }
        case Down(f) => if f in flights { FailFlight(f); }
      }
    }

    /** Whatever callers and drops do in whatever order, the index and the spawn
        map stay inverse to each other, every route leads to a live spawn unless it
        was recorded too late, and no spawn on record outlives its agent's
        connection. */
    method Interleave(ops: seq<Op>)
      requires Valid()
      modifies this
      ensures Valid() && Succeeds(old(agents), old(spawns), old(issued), agents, spawns, issued)
      ensures ops == [] ==> unchanged(this)
    {
      for i := 0 to |ops|
        invariant Valid() && Succeeds(old(agents), old(spawns), old(issued), agents, spawns, issued)
        invariant i == 0 ==> unchanged(this)
      {
        ghost var ag, sp, ids := agents, spawns, issued;
        Perform(ops[i]);
        SucceedsTrans(old(agents), old(spawns), old(issued), ag, sp, ids, agents, spawns, issued);
      }
    }

    /** Where a verb of a claim goes. Route, agent and spawn are looked up one after
        the other, with anything in between: a verb that is forwarded goes to the
        spawn that opened the claim, which has been live all along, and to the
        connection that its agent still has. Undisturbed, it is forwarded exactly
        if the route was recorded in time and the agent is connected. */
    method RouteByClaim(claim: ClaimId, first: seq<Op>, second: seq<Op>) returns (to: Option<(Conn, SpawnId)>)
      requires Valid()
      modifies this
      ensures Valid()
      ensures to.Some? ==> Opened(old(routes), old(late), claim, to.value.1)
      ensures to.Some? ==> to.value.1 in old(spawns) && to.value.1 in spawns
      ensures to.Some? && spawns[to.value.1].agent == old(routes)[claim].identity ==>
              ConnectedAs(agents, old(routes)[claim].identity, to.value.0)
      ensures first == [] && second == [] ==>
              && unchanged(this)
              && (to.Some? <==> claim in routes && claim !in late && routes[claim].identity in agents)
              && (to.Some? ==> to.value.0 == agents[routes[claim].identity])
    {
      if claim !in routes {
        Interleave(first);
        Interleave(second);
        return None;
      }
      var route := routes[claim];
      Interleave(first);
      if route.identity !in agents {
        Interleave(second);
        return None;
      }
      var agent := agents[route.identity];
      Interleave(second);
      if route.spawn !in spawns { return None; }
      return Some((agent, route.spawn));
    }
  }

  /** The claim's route leads to the spawn, and was recorded while the spawn lived. */
  ghost predicate Opened(routes: map<ClaimId, Route>, late: set<ClaimId>, claim: ClaimId, spawn: SpawnId) {
    claim in routes && claim !in late && routes[claim].spawn == spawn
  }

  ghost predicate ConnectedAs(agents: map<Identity, Conn>, identity: Identity, conn: Conn) {
    identity in agents && agents[identity] == conn
  }

  /** What any number of callers may do: a spawn that has gone does not come back,
      and an agent whose connection goes or is displaced loses the spawns it had. */
  ghost predicate Succeeds(agents: map<Identity, Conn>, spawns: map<SpawnId, Spawn>, issued: set<SpawnId>,
                           ag: map<Identity, Conn>, sp: map<SpawnId, Spawn>, ids: set<SpawnId>) {
    && issued <= ids
    && (forall id | id in sp && id in issued :: id in spawns && sp[id] == spawns[id])
    && (forall a | a in agents && !ConnectedAs(ag, a, agents[a]) ::
          forall id | id in sp && id in issued :: sp[id].agent != a)
  }

  lemma SucceedsTrans(a: map<Identity, Conn>, s: map<SpawnId, Spawn>, i: set<SpawnId>,
                      a1: map<Identity, Conn>, s1: map<SpawnId, Spawn>, i1: set<SpawnId>,
                      a2: map<Identity, Conn>, s2: map<SpawnId, Spawn>, i2: set<SpawnId>)
    requires Succeeds(a, s, i, a1, s1, i1) && Succeeds(a1, s1, i1, a2, s2, i2)
    ensures Succeeds(a, s, i, a2, s2, i2)
  {
    forall x, id | x in a && !ConnectedAs(a2, x, a[x]) && id in s2 && id in i ensures s2[id].agent != x {
      assert id in i1 && id in s1;
      if ConnectedAs(a1, x, a[x]) { assert !ConnectedAs(a2, x, a1[x]); }
    }
  }

  datatype Op =
    | Register(identity: Identity, conn: Conn, reject: bool)
    | Disconnect(identity: Identity, conn: Conn)
    | CloseScope(scope: string)
    | Reap(id: SpawnId)
    | Routed(claim: ClaimId, identity: Identity, id: SpawnId)
    | Call(key: Key, agent: Identity)
    | Lookup(f: string)
    | Up(f: string, id: SpawnId)
    | Down(f: string)

  function OfAgent(spawns: map<SpawnId, Spawn>, identity: Identity): set<SpawnId> {
    set id | id in spawns && spawns[id].agent == identity
  }

  /** The spawns `gone` and their index entries are out. */
  ghost predicate Shed(spawns: map<SpawnId, Spawn>, index: map<Key, SpawnId>, sp: map<SpawnId, Spawn>,
                       ix: map<Key, SpawnId>, gone: set<SpawnId>) {
    OneToOne(sp, ix) && sp == spawns - gone && ix == IndexWithout(index, gone)
  }

  /** Dropping one more spawn together with its index entry. */
  lemma DropOne(spawns: map<SpawnId, Spawn>, index: map<Key, SpawnId>, sp: map<SpawnId, Spawn>, ix: map<Key, SpawnId>,
                gone: set<SpawnId>, id: SpawnId)
    requires Shed(spawns, index, sp, ix, gone) && id in spawns && id !in gone
    ensures id in sp && Shed(spawns, index, sp - {id}, ix - {sp[id].key}, gone + {id})
  {
  }

  lemma FlightsLast(flights: map<string, Flight>, index: map<Key, SpawnId>, gone: set<SpawnId>)
    requires FlightsOk(flights, index)
    ensures FlightsOk(flights, IndexWithout(index, gone))
  {
  }

  lemma KeepAll(index: map<Key, SpawnId>, routes: map<ClaimId, Route>)
    ensures IndexWithout(index, {}) == index && RoutesWithout(routes, {}) == routes
  {
  }
}
