/** The circuit-build controller of ooni/utils/onion.py as the object it is: class CustomCircuit,
    whose handlers update the pending table, the relay pool and the daemon's outstanding build
    commands in place. Each method is proved against the corresponding function of CircuitModel,
    whose properties are proved there. */
module CustomCircuitClass {
  import opened CircuitModel

  class CustomCircuit {
    /** self.waiting_circuits: (circuit id, deferred) rows of acknowledged, unfinished builds. */
    var waiting: seq<Pending>
    /** self.state.relays: the seeded relay pool, popped from the end. */
    var pool: seq<Relay>
    /** self.state.entry_guards.values() and self.state.routers.values(). */
    const guards: seq<Relay>
    const routers: seq<Relay>
    /** self.relays: stored by the constructor and never read. */
    const relays: Option<seq<Relay>>
    /** The daemon's build_circuit commands not yet answered, each with the deferred its
        AppendWaiting callback holds. */
    var inFlight: seq<Build>
    /** Build commands issued and deferreds fired, in order. */
    var effects: seq<Effect>

    function State(): Controller
      reads this
    {
      Controller(waiting, pool, guards, routers, inFlight, effects)
    }

    /** A circuit id occurs in at most one row. */
    ghost predicate Valid()
      reads this
    {
      DistinctIds(waiting)
    }

    constructor (relayPool: seq<Relay>, entryGuards: seq<Relay>, allRouters: seq<Relay>, seed: Option<seq<Relay>>)
      ensures Valid()
      ensures State() == Init(relayPool, entryGuards, allRouters)
      ensures relays == seed
    {
      waiting := [];
      pool := relayPool;
      guards := entryGuards;
      routers := allRouters;
      relays := seed;
      inFlight := [];
      effects := [];
    }

    /** waiting_on: a linear search of the table; it changes nothing. */
    method WaitingOn(c: Circuit) returns (b: bool)
      ensures b == IsPending(waiting, c.id)
    {
      for i := 0 to |waiting|
        invariant forall j :: 0 <= j < i ==> waiting[j].circ != c.id
      {
        if waiting[i].circ == c.id {
          return true;
        }
      }
      return false;
    }

    /** circuit_extend: only logs. The result says whether it logs, which it does exactly for a
        pending GENERAL circuit; no state changes. */
    method CircuitExtend(c: Circuit, router: Relay) returns (logged: bool)
      ensures logged == (c.purpose == GENERAL && IsPending(waiting, c.id))
    {
      if c.purpose != GENERAL {
        return false;
      }
      logged := WaitingOn(c);
    }

    /** circuit_built: walk the live table; on the row of this circuit, remove it and then fire its
        deferred with the circuit. */
    method CircuitBuilt(c: Circuit)
      requires Valid()
      modifies this
      ensures Valid()
      ensures State() == Built(old(State()), c)
    {
      if c.purpose != GENERAL {
        return;
      }
      ghost var s0 := State();
      ghost var w0 := waiting;
      ghost var target := Built(s0, c);
      ghost var k := if IsPending(w0, c.id) then FirstIndex(w0, c.id) else |w0|;
      if k < |w0| {
        BuiltResolves(s0, c, k);
        RemoveAt(w0, k);
      } else {
        BuiltIgnored(s0, c);
      }
      var i := 0;
      while i < |waiting|
        invariant 0 <= i <= |w0|
        invariant pool == s0.pool && inFlight == s0.inFlight
        invariant i <= k ==> waiting == w0 && effects == s0.effects
        invariant i > k ==> k < |w0| && waiting == target.waiting && effects == target.effects
        decreases |w0| - i
      {
        var p := waiting[i];
        if p.circ == c.id {
          assert i == k && p == w0[k];
          waiting := Remove(waiting, p);
          effects := effects + [Resolved(p.req, c, waiting)];
        }
        i := i + 1;
      }
    }

    /** circuit_failed: if the circuit is pending, keep the last row carrying its id, remove it,
        and ask for a new build for the same deferred. The result is None when nothing was
        retried, otherwise what the retry returned. */
    method CircuitFailed(c: Circuit, draw: Draw) returns (retry: Option<Result<seq<Relay>, BuildError>>)
      requires Valid()
      modifies this
      ensures Valid()
      ensures (State(), retry) == Failed(old(State()), c, draw)
    {
      ghost var s0 := State();
      var pending := WaitingOn(c);
      if !pending {
        return None;
      }
      var found: Option<Pending> := None;
      ghost var at: int := -1;
      for i := 0 to |waiting|
        invariant -1 <= at < i
        invariant found.Some? <==> at >= 0
        invariant at >= 0 ==> waiting[at].circ == c.id && found.value == waiting[at]
        invariant forall j :: at < j < i ==> waiting[j].circ != c.id
      {
        if waiting[i].circ == c.id {
          found := Some(waiting[i]);
          at := i;
        }
      }
      assert found.Some?;
      assert at == LastIndex(waiting, c.id);
      var p := found.value;
      RemoveRowIds(waiting, at);
      waiting := Remove(waiting, p);
      ghost var s1 := State();
      assert s1 == s0.(waiting := Remove(s0.waiting, s0.waiting[LastIndex(s0.waiting, c.id)]));
      ghost var expected := Request(s1, p.req, None, draw);
      assert Failed(s0, c, draw) == (expected.0, Some(expected.1));
      var r := RequestCircuitBuild(p.req, None, draw);
      assert (State(), r) == expected;
      retry := Some(r);
    }

    /** request_circuit_build: choose the path (the caller's, three relays popped from the pool, or
        one random entry guard and two random routers), then send the build command. A row is added
        only later, by Acknowledge. */
    method RequestCircuitBuild(req: ReqId, path: Option<seq<Relay>>, draw: Draw) returns (r: Result<seq<Relay>, BuildError>)
      requires Valid()
      modifies this
      ensures Valid()
      ensures (State(), r) == Request(old(State()), req, path, draw)
    {
      var hops: seq<Relay>;
      if path.None? {
        if |pool| > 0 {
          ghost var p0 := pool;
          var popped: seq<Relay> := [];
          for i := 0 to 3
            invariant i <= |p0| && |popped| == i
            invariant waiting == old(waiting) && inFlight == old(inFlight) && effects == old(effects)
            invariant pool == p0[..|p0| - i]
            invariant forall j :: 0 <= j < i ==> popped[j] == p0[|p0| - 1 - j]
          {
            if pool == [] {
              return Err(PoolRanDry);
            }
            popped := popped + [pool[|pool| - 1]];
            pool := pool[..|pool| - 1];
          }
          assert popped == [p0[|p0| - 1], p0[|p0| - 2], p0[|p0| - 3]];
          hops := popped;
        } else {
          if guards == [] {
            return Err(NoEntryGuards);
          }
          if routers == [] {
            return Err(NoRouters);
          }
          hops := [Choose(guards, draw.guard), Choose(routers, draw.middle), Choose(routers, draw.last)];
        }
      } else {
        if |path.value| < 3 {
          return Err(PathTooShort);
        }
        hops := path.value;
      }
      inFlight := inFlight + [Build(hops, req)];
      effects := effects + [Issued(hops, req)];
      r := Ok(hops);
    }

    /** AppendWaiting.__call__: the daemon answered build command `slot` with circuit id `id`; the
        row (id, deferred) is appended. The daemon does not hand out the id of a circuit that is
        still pending. */
    method Acknowledge(slot: nat, id: CircId)
      requires Valid() && slot < |inFlight| && !IsPending(waiting, id)
      modifies this
      ensures Valid()
      ensures State() == Ack(old(State()), slot, id)
    {
      AckAppends(State(), slot, id);
      var b := inFlight[slot];
      inFlight := Splice(inFlight, slot);
      waiting := waiting + [Pending(id, b.req)];
    }

    /** The errback log.err: the daemon refused build command `slot`. Nothing is added to the table,
        this answer fires nothing, and the deferred is no longer tracked. */
    method BuildRejected(slot: nat)
      requires Valid() && slot < |inFlight|
      modifies this
      ensures Valid()
      ensures State() == Reject(old(State()), slot)
    {
      inFlight := Splice(inFlight, slot);
    }
  }
}
