/** Value-level model of the circuit-build controller of ooni/utils/onion.py (class CustomCircuit).

    The controller keeps a table of circuits whose build the daemon has acknowledged but not yet
    finished, each paired with the caller's Deferred. A Deferred is modelled by its identity (ReqId);
    firing it is recorded as a Resolved effect, and every build command sent to the daemon as an
    Issued effect. The daemon's answer to a build command arrives later as a separate event
    (Ack or Reject), so the commands still waiting for that answer are kept in `inFlight`.

    The functions here are the specification the imperative class in custom_circuit.dfy is proved
    against; their contracts and the lemmas state what each event handler does. */
module CircuitModel {

  /** Circuit identifier chosen by the daemon. */
  type CircId = nat

  /** Identity of a caller's Deferred: two requests share a ReqId exactly when they share the object. */
  type ReqId = nat

  /** A relay, as the name that goes into a circuit path. */
  type Relay = string

  datatype Option<T> = None | Some(value: T)

  datatype Result<T, E> = Ok(value: T) | Err(error: E)

  /** The only circuit purpose the handlers of circuit_extend and circuit_built act on. */
  const GENERAL: string := "GENERAL"

  /** A circuit as the daemon reports it in a lifecycle event. */
  datatype Circuit = Circuit(id: CircId, purpose: string, path: seq<Relay>)

  /** One row of waiting_circuits: the pair (circuit id, deferred). */
  datatype Pending = Pending(circ: CircId, req: ReqId)

  /** A build_circuit command the daemon has not answered yet, with the deferred AppendWaiting holds. */
  datatype Build = Build(path: seq<Relay>, req: ReqId)

  /** What the controller does to the outside world, in order. */
  datatype Effect =
    | Issued(path: seq<Relay>, req: ReqId)                       // state.build_circuit(path)
    | Resolved(req: ReqId, circuit: Circuit, seen: seq<Pending>) // d.callback(circuit); `seen` is the table the callback observes

  /** The exceptions request_circuit_build can raise. */
  datatype BuildError =
    | PathTooShort   // AssertionError: a caller path of fewer than three hops
    | PoolRanDry     // IndexError: pop() from a relay pool that emptied before three relays were taken
    | NoEntryGuards  // IndexError: random.choice over no entry guards
    | NoRouters      // IndexError: random.choice over no routers

  /** The outcomes of the three random.choice calls of the fallback path, as indices. */
  datatype Draw = Draw(guard: nat, middle: nat, last: nat)

  /** The controller's table together with the parts of the daemon state it reads and changes. */
  datatype Controller = Controller(
    waiting: seq<Pending>, // self.waiting_circuits
    pool: seq<Relay>,      // self.state.relays, popped from the end
    guards: seq<Relay>,    // self.state.entry_guards.values()
    routers: seq<Relay>,   // self.state.routers.values()
    inFlight: seq<Build>,  // build commands awaiting the daemon's answer
    effects: seq<Effect>)  // build commands issued and deferreds fired

  function Init(pool: seq<Relay>, guards: seq<Relay>, routers: seq<Relay>): (s: Controller)
    ensures s.waiting == [] && s.inFlight == [] && s.effects == []
  {
    Controller([], pool, guards, routers, [], [])
  }

  // ---------------------------------------------------------------------------------------------
  // The pending table

  /** waiting_on: some row of the table carries circuit id `id`. */
  predicate IsPending(w: seq<Pending>, id: CircId) {
    exists i :: 0 <= i < |w| && w[i].circ == id
  }

  /** No circuit id occurs in two rows of the table. */
  predicate DistinctIds(w: seq<Pending>) {
    forall i, j :: 0 <= i < j < |w| ==> w[i].circ != w[j].circ
  }

  /** The sequence without its element at index k. */
  function Splice<T>(w: seq<T>, k: nat): (r: seq<T>)
    requires k < |w|
    ensures |r| == |w| - 1
    ensures forall i :: 0 <= i < k ==> r[i] == w[i]
    ensures forall i :: k <= i < |r| ==> r[i] == w[i + 1]
  {
    w[..k] + w[k + 1..]
  }

  /** The position of the first row equal to p. */
  function IndexOf(w: seq<Pending>, p: Pending): (k: nat)
    requires p in w
    ensures k < |w| && w[k] == p
    ensures forall j :: 0 <= j < k ==> w[j] != p
  {
    if w[0] == p then 0 else 1 + IndexOf(w[1..], p)
  }

  /** Python's list.remove: drops the first row equal to p; the other rows keep their order. */
  function Remove(w: seq<Pending>, p: Pending): (r: seq<Pending>)
    requires p in w
    ensures |r| == |w| - 1
    ensures multiset(r) + multiset{p} == multiset(w)
    ensures r == Splice(w, IndexOf(w, p))
  {
    assert w == [w[0]] + w[1..];
    if w[0] == p then
      w[1..]
    else
      var rest := Remove(w[1..], p);
      SpliceCons(w, IndexOf(w[1..], p));
      [w[0]] + rest
  }

  /** Removing position j + 1 of a sequence keeps its head in front of the tail without position j. */
  lemma SpliceCons(w: seq<Pending>, j: nat)
    requires j + 1 < |w|
    ensures Splice(w, j + 1) == [w[0]] + Splice(w[1..], j)
  {
    assert w[..j + 1] == [w[0]] + w[1..][..j];
    assert w[j + 2..] == w[1..][j + 1..];
  }

  /** The first row with circuit id `id`: the one the loop of circuit_built meets first. */
  function FirstIndex(w: seq<Pending>, id: CircId): (k: nat)
    requires IsPending(w, id)
    ensures k < |w| && w[k].circ == id
    ensures forall j :: 0 <= j < k ==> w[j].circ != id
  {
    if w[0].circ == id then 0
    else
      assert IsPending(w[1..], id) by {
        var i :| 0 <= i < |w| && w[i].circ == id;
        assert w[1..][i - 1] == w[i];
      }
      1 + FirstIndex(w[1..], id)
  }

  /** The last row with circuit id `id`: the one the loop of circuit_failed keeps. */
  function LastIndex(w: seq<Pending>, id: CircId): (k: nat)
    requires IsPending(w, id)
    ensures k < |w| && w[k].circ == id
    ensures forall j :: k < j < |w| ==> w[j].circ != id
  {
    if w[|w| - 1].circ == id then |w| - 1
    else
      assert IsPending(w[..|w| - 1], id) by {
        var i :| 0 <= i < |w| && w[i].circ == id;
        assert w[..|w| - 1][i] == w[i];
      }
      LastIndex(w[..|w| - 1], id)
  }

  /** With distinct ids, the row at k is the only one carrying its id, so first and last agree. */
  lemma OnlyMatch(w: seq<Pending>, k: nat)
    requires DistinctIds(w) && k < |w|
    ensures FirstIndex(w, w[k].circ) == k && LastIndex(w, w[k].circ) == k
  {
  }

  /** With distinct ids, list.remove of the row at k removes exactly index k. */
  lemma RemoveAt(w: seq<Pending>, k: nat)
    requires DistinctIds(w) && k < |w|
    ensures Remove(w, w[k]) == Splice(w, k)
  {
  }

  /** With distinct ids, list.remove of a row keeps ids distinct and its id is no longer pending. */
  lemma RemoveRowIds(w: seq<Pending>, k: nat)
    requires DistinctIds(w) && k < |w|
    ensures DistinctIds(Remove(w, w[k])) && !IsPending(Remove(w, w[k]), w[k].circ)
  {
    RemoveAt(w, k);
    SpliceIds(w, k);
  }

  /** Removing the row at k keeps ids distinct, and the table then holds exactly the other ids. */
  lemma SpliceIds(w: seq<Pending>, k: nat)
    requires DistinctIds(w) && k < |w|
    ensures DistinctIds(Splice(w, k))
    ensures !IsPending(Splice(w, k), w[k].circ)
    ensures forall id :: IsPending(Splice(w, k), id) <==> IsPending(w, id) && id != w[k].circ
  {
    var r := Splice(w, k);
    forall id
      ensures IsPending(r, id) <==> IsPending(w, id) && id != w[k].circ
    {
      if IsPending(r, id) {
        var i :| 0 <= i < |r| && r[i].circ == id;
        var j := if i < k then i else i + 1;
        assert w[j] == r[i];
      }
      if IsPending(w, id) && id != w[k].circ {
        var j :| 0 <= j < |w| && w[j].circ == id;
        var i := if j < k then j else j - 1;
        assert r[i] == w[j];
      }
    }
  }

  // ---------------------------------------------------------------------------------------------
  // Path selection (request_circuit_build, ooni/utils/onion.py:297-309)

  /** random.choice over a non-empty sequence: the drawn index selects the element. */
  function Choose(xs: seq<Relay>, k: nat): (r: Relay)
    requires |xs| > 0
    ensures r in xs
    ensures k < |xs| ==> r == xs[k]
  {
    xs[k % |xs|]
  }

  /** Three successive pop()s: the pool's last three relays, last one first. Fewer than three
      relays raise IndexError after the pool has been emptied. */
  function PopThree(pool: seq<Relay>): (sel: (Result<seq<Relay>, BuildError>, seq<Relay>))
    ensures sel.0.Ok? <==> |pool| >= 3
    ensures sel.0.Ok? ==> |sel.0.value| == 3 && sel.1 + [sel.0.value[2], sel.0.value[1], sel.0.value[0]] == pool
    ensures sel.0.Err? ==> sel.0.error == PoolRanDry && sel.1 == []
  {
    var n := |pool|;
    if n >= 3 then (Ok([pool[n - 1], pool[n - 2], pool[n - 3]]), pool[..n - 3])
    else (Err(PoolRanDry), [])
  }

  /** The path a request uses, or the exception raised while choosing it, and the pool afterwards. */
  function SelectPath(pool: seq<Relay>, guards: seq<Relay>, routers: seq<Relay>, path: Option<seq<Relay>>, draw: Draw): (sel: (Result<seq<Relay>, BuildError>, seq<Relay>))
    ensures sel.0.Ok? ==> |sel.0.value| >= 3
    ensures path.Some? ==> sel.1 == pool && (sel.0.Ok? <==> |path.value| >= 3) &&
                           (sel.0.Ok? ==> sel.0.value == path.value) && (sel.0.Err? ==> sel.0.error == PathTooShort)
    ensures path.None? && pool != [] ==> sel == PopThree(pool)
    ensures path.None? && pool == [] ==>
      sel.1 == [] && (sel.0.Ok? <==> guards != [] && routers != []) &&
      (sel.0.Ok? ==> sel.0.value[0] in guards && sel.0.value[1] in routers && sel.0.value[2] in routers) &&
      (sel.0.Err? ==> sel.0.error == (if guards == [] then NoEntryGuards else NoRouters))
  {
    match path
    case Some(p) =>
      if |p| >= 3 then (Ok(p), pool) else (Err(PathTooShort), pool)
    case None =>
      if |pool| > 0 then PopThree(pool)
      else if guards == [] then (Err(NoEntryGuards), pool)
      else if routers == [] then (Err(NoRouters), pool)
      else (Ok([Choose(guards, draw.guard), Choose(routers, draw.middle), Choose(routers, draw.last)]), pool)
  }

  // ---------------------------------------------------------------------------------------------
  // The controller's operations

  /** request_circuit_build(req, path): choose a path and send one build command carrying `req`.
      A request never adds a row to the table: a row appears only once the daemon acknowledges. On
      success it issues exactly one build command, for a path of at least three hops, carrying
      `req`; on failure it issues nothing. */
  function Request(s: Controller, req: ReqId, path: Option<seq<Relay>>, draw: Draw): (out: (Controller, Result<seq<Relay>, BuildError>))
    ensures (out.1, out.0.pool) == SelectPath(s.pool, s.guards, s.routers, path, draw)
    ensures out.0.waiting == s.waiting && out.0.guards == s.guards && out.0.routers == s.routers
    ensures out.1.Ok? ==> |out.1.value| >= 3 && out.0.inFlight == s.inFlight + [Build(out.1.value, req)] &&
                          out.0.effects == s.effects + [Issued(out.1.value, req)]
    ensures out.1.Err? ==> out.0.inFlight == s.inFlight && out.0.effects == s.effects
  {
    var (r, pool) := SelectPath(s.pool, s.guards, s.routers, path, draw);
    if r.Ok? then
      (s.(pool := pool, inFlight := s.inFlight + [Build(r.value, req)], effects := s.effects + [Issued(r.value, req)]), r)
    else
      (s.(pool := pool), r)
  }

  /** AppendWaiting.__call__: the daemon answered build command `slot` with circuit id `id`. */
  function Ack(s: Controller, slot: nat, id: CircId): (t: Controller)
    requires slot < |s.inFlight|
    ensures |t.waiting| == |s.waiting| + 1 && t.waiting[..|s.waiting|] == s.waiting
    ensures t.waiting[|s.waiting|] == Pending(id, s.inFlight[slot].req)
    ensures t.inFlight == Splice(s.inFlight, slot)
    ensures t.effects == s.effects && t.pool == s.pool && t.guards == s.guards && t.routers == s.routers
  {
    s.(waiting := s.waiting + [Pending(id, s.inFlight[slot].req)], inFlight := Splice(s.inFlight, slot))
  }

  /** The errback log.err: the daemon refused build command `slot`. The answer adds no row and
      fires nothing; the command, and with it its deferred, leaves the controller's books. */
  function Reject(s: Controller, slot: nat): (t: Controller)
    requires slot < |s.inFlight|
    ensures t.waiting == s.waiting && t.effects == s.effects && t.pool == s.pool
    ensures t.inFlight == Splice(s.inFlight, slot)
    ensures multiset(t.inFlight) + multiset{s.inFlight[slot]} == multiset(s.inFlight)
  {
    assert s.inFlight == s.inFlight[..slot] + [s.inFlight[slot]] + s.inFlight[slot + 1..];
    s.(inFlight := Splice(s.inFlight, slot))
  }

  /** circuit_built: for a GENERAL circuit that is pending, remove its row, then fire its deferred. */
  function Built(s: Controller, c: Circuit): (t: Controller)
    ensures t.pool == s.pool && t.inFlight == s.inFlight && t.guards == s.guards && t.routers == s.routers
    ensures |s.effects| <= |t.effects| <= |s.effects| + 1 && t.effects[..|s.effects|] == s.effects
    ensures DistinctIds(s.waiting) ==> DistinctIds(t.waiting)
    ensures DistinctIds(s.waiting) && c.purpose == GENERAL ==> !IsPending(t.waiting, c.id)
  {
    if c.purpose != GENERAL || !IsPending(s.waiting, c.id) then s
    else
      var k := FirstIndex(s.waiting, c.id);
      var p := s.waiting[k];
      var w := Remove(s.waiting, p);
      assert DistinctIds(s.waiting) ==> DistinctIds(w) && !IsPending(w, c.id) by {
        if DistinctIds(s.waiting) {
          RemoveRowIds(s.waiting, k);
        }
      }
      s.(waiting := w, effects := s.effects + [Resolved(p.req, c, w)])
  }

  /** circuit_failed: for a pending circuit (of any purpose), remove its last row and request a new
      build with a freshly chosen path for the same deferred. The result says whether a retry
      happened and what it returned. */
  function Failed(s: Controller, c: Circuit, draw: Draw): (out: (Controller, Option<Result<seq<Relay>, BuildError>>))
    ensures out.1.None? <==> !IsPending(s.waiting, c.id)
    ensures out.0.guards == s.guards && out.0.routers == s.routers
    ensures |s.effects| <= |out.0.effects| <= |s.effects| + 1
    ensures out.0.effects[..|s.effects|] == s.effects
    ensures forall i :: |s.effects| <= i < |out.0.effects| ==> out.0.effects[i].Issued?
  {
    if !IsPending(s.waiting, c.id) then (s, None)
    else
      var k := LastIndex(s.waiting, c.id);
      var p := s.waiting[k];
      var w := Remove(s.waiting, p);
      var out := Request(s.(waiting := w), p.req, None, draw);
      (out.0, Some(out.1))
  }

  // ---------------------------------------------------------------------------------------------
  // What each operation does

  /** A caller path shorter than three hops fails the assertion and changes nothing. */
  lemma ShortPathRejected(s: Controller, req: ReqId, p: seq<Relay>, draw: Draw)
    requires |p| < 3
    ensures Request(s, req, Some(p), draw) == (s, Err(PathTooShort))
  {
  }

  /** A caller path of three hops or more is used as given and leaves the pool alone. */
  lemma ExplicitPathUsed(s: Controller, req: ReqId, p: seq<Relay>, draw: Draw)
    requires |p| >= 3
    ensures var (t, r) := Request(s, req, Some(p), draw);
      r == Ok(p) && t.pool == s.pool && t.inFlight == s.inFlight + [Build(p, req)]
  {
  }

  /** With three or more relays in the pool, the path is the pool's last three relays in pop order:
      pushing the path back in reverse restores the pool, which has shrunk by exactly three. */
  lemma PoolPathPopsLastThree(s: Controller, req: ReqId, draw: Draw)
    requires |s.pool| >= 3
    ensures var (t, r) := Request(s, req, None, draw);
      r.Ok? && |r.value| == 3 && |t.pool| == |s.pool| - 3 &&
      t.pool + [r.value[2], r.value[1], r.value[0]] == s.pool
  {
  }

  /** With one or two relays in the pool, the pops empty it and then raise; nothing is issued. */
  lemma SmallPoolDrained(s: Controller, req: ReqId, draw: Draw)
    requires 0 < |s.pool| < 3
    ensures Request(s, req, None, draw) == (s.(pool := []), Err(PoolRanDry))
  {
  }

  /** With an empty pool, the path is one entry guard followed by two routers. */
  lemma FallbackPath(s: Controller, req: ReqId, draw: Draw)
    requires s.pool == [] && s.guards != [] && s.routers != []
    ensures var (t, r) := Request(s, req, None, draw);
      r.Ok? && |r.value| == 3 && r.value[0] in s.guards && r.value[1] in s.routers &&
      r.value[2] in s.routers && t.pool == []
  {
  }

  /** With an empty pool and no entry guard or no router to draw from, random.choice raises and
      nothing changes. */
  lemma FallbackWithoutRelays(s: Controller, req: ReqId, draw: Draw)
    requires s.pool == [] && (s.guards == [] || s.routers == [])
    ensures var (t, r) := Request(s, req, None, draw);
      t == s && r.Err? && (r.error == NoEntryGuards <==> s.guards == [])
  {
  }

  /** After an acknowledgement the new circuit is pending, and a fresh id keeps ids distinct. */
  lemma AckAppends(s: Controller, slot: nat, id: CircId)
    requires slot < |s.inFlight|
    ensures IsPending(Ack(s, slot, id).waiting, id)
    ensures DistinctIds(s.waiting) && !IsPending(s.waiting, id) ==> DistinctIds(Ack(s, slot, id).waiting)
  {
  }

  /** circuit_built on a circuit that is not GENERAL, or not pending, changes nothing and fires
      nothing. */
  lemma BuiltIgnored(s: Controller, c: Circuit)
    requires c.purpose != GENERAL || !IsPending(s.waiting, c.id)
    ensures Built(s, c) == s
  {
  }

  /** circuit_built on a pending GENERAL circuit removes exactly its row, keeps the other rows in
      order, and fires that row's deferred with the circuit once, after the row is gone. */
  lemma BuiltResolves(s: Controller, c: Circuit, k: nat)
    requires DistinctIds(s.waiting) && c.purpose == GENERAL
    requires k < |s.waiting| && s.waiting[k].circ == c.id
    ensures var t := Built(s, c);
      t.waiting == Splice(s.waiting, k) && DistinctIds(t.waiting) && !IsPending(t.waiting, c.id) &&
      t.effects == s.effects + [Resolved(s.waiting[k].req, c, t.waiting)] &&
      t.pool == s.pool && t.inFlight == s.inFlight
  {
    OnlyMatch(s.waiting, k);
    RemoveAt(s.waiting, k);
    SpliceIds(s.waiting, k);
  }

  /** A duplicate "built" notification fires nothing more: handling it twice equals handling it once. */
  lemma BuiltTwice(s: Controller, c: Circuit)
    requires DistinctIds(s.waiting)
    ensures Built(Built(s, c), c) == Built(s, c)
  {
    if c.purpose == GENERAL && IsPending(s.waiting, c.id) {
      BuiltResolves(s, c, FirstIndex(s.waiting, c.id));
    }
  }

  /** circuit_failed on a circuit that is not pending changes nothing and issues no build. */
  lemma FailedIgnored(s: Controller, c: Circuit, draw: Draw)
    requires !IsPending(s.waiting, c.id)
    ensures Failed(s, c, draw) == (s, None)
  {
  }

  /** circuit_failed on a pending circuit, whatever its purpose, removes exactly its row and makes
      one new request for the same deferred with a freshly selected path: at most one build
      command is issued, and no deferred is fired. */
  lemma FailedRetries(s: Controller, c: Circuit, draw: Draw, k: nat)
    requires DistinctIds(s.waiting) && k < |s.waiting| && s.waiting[k].circ == c.id
    ensures var t := Failed(s, c, draw).0;
      var selected := SelectPath(s.pool, s.guards, s.routers, None, draw).0;
      t.waiting == Splice(s.waiting, k) && DistinctIds(t.waiting) && !IsPending(t.waiting, c.id) &&
      Failed(s, c, draw).1 == Some(selected) &&
      t.pool == SelectPath(s.pool, s.guards, s.routers, None, draw).1 &&
      (selected.Ok? ==> t.inFlight == s.inFlight + [Build(selected.value, s.waiting[k].req)] &&
                        t.effects == s.effects + [Issued(selected.value, s.waiting[k].req)]) &&
      (selected.Err? ==> t.inFlight == s.inFlight && t.effects == s.effects)
  {
    var w := s.waiting;
    OnlyMatch(w, k);
    RemoveAt(w, k);
    SpliceIds(w, k);
    var s1 := s.(waiting := Splice(w, k));
    assert Failed(s, c, draw) == (Request(s1, w[k].req, None, draw).0, Some(Request(s1, w[k].req, None, draw).1));
  }
}
