/** Runs of the circuit-build controller: any sequence of requests, daemon answers and circuit
    lifecycle events. Over every allowed run (a request brings a Deferred that is not currently
    waiting for a circuit, waiting for the daemon's answer, or already fired; an answer refers to an
    unanswered build command; the daemon never hands out the id of a circuit still pending), no
    Deferred is fired twice, and each is fired only after its row has left the table. */
module CircuitTrace {
  import opened CircuitModel

  /** One event the controller reacts to. */
  datatype Event =
    | RequestEvent(req: ReqId, path: Option<seq<Relay>>, draw: Draw) // a caller asks for a circuit
    | AckEvent(slot: nat, circ: CircId)                              // build_circuit's deferred fires
    | RejectEvent(slot: nat)                                         // build_circuit's deferred fails
    | ExtendEvent(circuit: Circuit, router: Relay)                   // circuit_extend
    | BuiltEvent(circuit: Circuit)                                   // circuit_built
    | FailedEvent(circuit: Circuit, draw: Draw)                      // circuit_failed

  /** The deferreds of the table's rows, in order. */
  function PendingReqs(w: seq<Pending>): (r: seq<ReqId>)
    ensures |r| == |w| && forall i :: 0 <= i < |w| ==> r[i] == w[i].req
  {
    seq(|w|, i requires 0 <= i < |w| => w[i].req)
  }

  /** The deferreds of the unanswered build commands, in order. */
  function BuildReqs(b: seq<Build>): (r: seq<ReqId>)
    ensures |r| == |b| && forall i :: 0 <= i < |b| ==> r[i] == b[i].req
  {
    seq(|b|, i requires 0 <= i < |b| => b[i].req)
  }

  /** The deferreds fired so far, in firing order. */
  function ResolvedReqs(e: seq<Effect>): (r: seq<ReqId>)
    ensures |r| <= |e|
    ensures forall x :: x in r <==> exists i :: 0 <= i < |e| && e[i].Resolved? && e[i].req == x
  {
    if e == [] then []
    else
      var last := e[|e| - 1];
      ResolvedReqs(e[..|e| - 1]) + (if last.Resolved? then [last.req] else [])
  }

  /** Every deferred the controller knows of: waiting for a circuit, waiting for the daemon's
      answer, or already fired. */
  function Tracked(s: Controller): multiset<ReqId> {
    multiset(PendingReqs(s.waiting)) + multiset(BuildReqs(s.inFlight)) + multiset(ResolvedReqs(s.effects))
  }

  ghost predicate Unique(m: multiset<ReqId>) {
    forall r :: m[r] <= 1
  }

  /** Every fired deferred saw a table no longer holding the circuit it was fired for. */
  predicate RemovedBeforeResolved(e: seq<Effect>) {
    forall i :: 0 <= i < |e| && e[i].Resolved? ==> !IsPending(e[i].seen, e[i].circuit.id)
  }

  /** The invariant every run keeps. */
  ghost predicate Good(s: Controller) {
    DistinctIds(s.waiting) && Unique(Tracked(s)) && RemovedBeforeResolved(s.effects)
  }

  /** What the environment must guarantee for an event: a request comes with a Deferred that is
      not tracked (a Deferred dropped by a rejection or a failed retry may come back), an answer
      refers to an unanswered command, and the daemon gives a new circuit an id that is not
      pending. */
  predicate Allowed(s: Controller, e: Event) {
    match e
    case RequestEvent(req, _, _) => req !in Tracked(s)
    case AckEvent(slot, id) => slot < |s.inFlight| && !IsPending(s.waiting, id)
    case RejectEvent(slot) => slot < |s.inFlight|
    case _ => true
  }

  function Apply(s: Controller, e: Event): Controller
    requires Allowed(s, e)
  {
    match e
    case RequestEvent(req, path, draw) => Request(s, req, path, draw).0
    case AckEvent(slot, id) => Ack(s, slot, id)
    case RejectEvent(slot) => Reject(s, slot)
    case ExtendEvent(_, _) => s
    case BuiltEvent(c) => Built(s, c)
    case FailedEvent(c, draw) => Failed(s, c, draw).0
  }

  predicate AllowedRun(s: Controller, es: seq<Event>)
    decreases |es|
  {
    es == [] || (Allowed(s, es[0]) && AllowedRun(Apply(s, es[0]), es[1..]))
  }

  function Run(s: Controller, es: seq<Event>): Controller
    requires AllowedRun(s, es)
    decreases |es|
  {
    if es == [] then s else Run(Apply(s, es[0]), es[1..])
  }

  // ---------------------------------------------------------------------------------------------
  // Bookkeeping of the tracked deferreds

  lemma ResolvedReqsAppend(e: seq<Effect>, x: Effect)
    ensures ResolvedReqs(e + [x]) == ResolvedReqs(e) + (if x.Resolved? then [x.req] else [])
  {
    assert (e + [x])[..|e|] == e;
  }

  lemma SpliceReqs(w: seq<Pending>, k: nat)
    requires k < |w|
    ensures multiset(PendingReqs(Splice(w, k))) == multiset(PendingReqs(w)) - multiset{w[k].req}
    ensures w[k].req in multiset(PendingReqs(w))
  {
    var a := PendingReqs(w);
    assert a == a[..k] + [a[k]] + a[k + 1..];
    assert PendingReqs(Splice(w, k)) == a[..k] + a[k + 1..];
  }

  lemma SpliceBuildReqs(b: seq<Build>, k: nat)
    requires k < |b|
    ensures multiset(BuildReqs(Splice(b, k))) == multiset(BuildReqs(b)) - multiset{b[k].req}
    ensures b[k].req in multiset(BuildReqs(b))
  {
    var a := BuildReqs(b);
    assert a == a[..k] + [a[k]] + a[k + 1..];
    assert BuildReqs(Splice(b, k)) == a[..k] + a[k + 1..];
  }

  /** A request adds its deferred to the tracked ones exactly when it issues a build. */
  lemma RequestTracked(s: Controller, req: ReqId, path: Option<seq<Relay>>, draw: Draw)
    ensures var (t, r) := Request(s, req, path, draw);
      Tracked(t) == Tracked(s) + (if r.Ok? then multiset{req} else multiset{}) &&
      t.waiting == s.waiting &&
      (RemovedBeforeResolved(s.effects) ==> RemovedBeforeResolved(t.effects))
  {
    var (t, r) := Request(s, req, path, draw);
    if r.Ok? {
      var x := Issued(r.value, req);
      ResolvedReqsAppend(s.effects, x);
      assert ResolvedReqs(t.effects) == ResolvedReqs(s.effects);
      assert BuildReqs(t.inFlight) == BuildReqs(s.inFlight) + [req];
      if RemovedBeforeResolved(s.effects) {
        RemovedBeforeResolvedAppend(s.effects, x);
      }
    } else {
      assert t.inFlight == s.inFlight && t.effects == s.effects;
    }
  }

  // ---------------------------------------------------------------------------------------------
  // Each event keeps the invariant

  lemma RequestKeepsGood(s: Controller, req: ReqId, path: Option<seq<Relay>>, draw: Draw)
    requires Good(s) && req !in Tracked(s)
    ensures Good(Request(s, req, path, draw).0)
  {
    RequestTracked(s, req, path, draw);
  }

  lemma AckKeepsGood(s: Controller, slot: nat, id: CircId)
    requires Good(s) && slot < |s.inFlight| && !IsPending(s.waiting, id)
    ensures Good(Ack(s, slot, id))
  {
    var t := Ack(s, slot, id);
    AckAppends(s, slot, id);
    SpliceBuildReqs(s.inFlight, slot);
    assert PendingReqs(t.waiting) == PendingReqs(s.waiting) + [s.inFlight[slot].req];
    assert Tracked(t) == Tracked(s);
  }

  lemma RejectKeepsGood(s: Controller, slot: nat)
    requires Good(s) && slot < |s.inFlight|
    ensures Good(Reject(s, slot))
  {
    SpliceBuildReqs(s.inFlight, slot);
    assert Tracked(Reject(s, slot)) == Tracked(s) - multiset{s.inFlight[slot].req};
  }

  lemma RemovedBeforeResolvedAppend(e: seq<Effect>, x: Effect)
    requires RemovedBeforeResolved(e)
    requires x.Resolved? ==> !IsPending(x.seen, x.circuit.id)
    ensures RemovedBeforeResolved(e + [x])
  {
    forall i | 0 <= i < |e| + 1 && (e + [x])[i].Resolved?
      ensures !IsPending((e + [x])[i].seen, (e + [x])[i].circuit.id)
    {
      if i < |e| { assert (e + [x])[i] == e[i]; }
    }
  }

  /** Moving a deferred from a table row to the fired ones keeps the tracked deferreds. */
  lemma ResolveTracked(s: Controller, k: nat, c: Circuit, t: Controller)
    requires k < |s.waiting|
    requires t.waiting == Splice(s.waiting, k) && t.inFlight == s.inFlight
    requires t.effects == s.effects + [Resolved(s.waiting[k].req, c, t.waiting)]
    ensures Tracked(t) == Tracked(s)
  {
    var x := s.waiting[k].req;
    SpliceReqs(s.waiting, k);
    ResolvedReqsAppend(s.effects, Resolved(x, c, t.waiting));
    var m := multiset(PendingReqs(s.waiting));
    assert multiset(PendingReqs(t.waiting)) == m - multiset{x};
    assert multiset(ResolvedReqs(t.effects)) == multiset(ResolvedReqs(s.effects)) + multiset{x};
    assert (m - multiset{x}) + multiset{x} == m;
  }

  lemma BuiltKeepsGood(s: Controller, c: Circuit)
    requires Good(s)
    ensures Good(Built(s, c))
  {
    if c.purpose == GENERAL && IsPending(s.waiting, c.id) {
      var k := FirstIndex(s.waiting, c.id);
      var t := Built(s, c);
      BuiltResolves(s, c, k);
      ResolveTracked(s, k, c, t);
      RemovedBeforeResolvedAppend(s.effects, Resolved(s.waiting[k].req, c, t.waiting));
    }
  }

  lemma UniqueWithout(m: multiset<ReqId>, x: ReqId)
    requires Unique(m) && x in m
    ensures Unique(m - multiset{x}) && x !in m - multiset{x}
  {
  }

  /** Taking a row out of the table drops its deferred from the tracked ones. */
  lemma DropTracked(s: Controller, k: nat, s1: Controller)
    requires k < |s.waiting|
    requires s1 == s.(waiting := Splice(s.waiting, k))
    ensures Tracked(s1) == Tracked(s) - multiset{s.waiting[k].req}
    ensures s.waiting[k].req in Tracked(s)
  {
    SpliceReqs(s.waiting, k);
  }

  lemma FailedKeepsGood(s: Controller, c: Circuit, draw: Draw)
    requires Good(s)
    ensures Good(Failed(s, c, draw).0)
  {
    if IsPending(s.waiting, c.id) {
      var k := LastIndex(s.waiting, c.id);
      var x := s.waiting[k].req;
      RemoveAt(s.waiting, k);
      SpliceIds(s.waiting, k);
      var s1 := s.(waiting := Splice(s.waiting, k));
      assert Failed(s, c, draw).0 == Request(s1, x, None, draw).0;
      DropTracked(s, k, s1);
      UniqueWithout(Tracked(s), x);
      RequestKeepsGood(s1, x, None, draw);
    }
  }

  lemma StepKeepsGood(s: Controller, e: Event)
    requires Good(s) && Allowed(s, e)
    ensures Good(Apply(s, e))
  {
    match e
    case RequestEvent(req, path, draw) => RequestKeepsGood(s, req, path, draw);
    case AckEvent(slot, id) => AckKeepsGood(s, slot, id);
    case RejectEvent(slot) => RejectKeepsGood(s, slot);
    case ExtendEvent(_, _) =>
    case BuiltEvent(c) => BuiltKeepsGood(s, c);
    case FailedEvent(c, draw) => FailedKeepsGood(s, c, draw);
  }

  /** Every allowed run keeps the invariant. */
  lemma {:induction false} RunKeepsGood(s: Controller, es: seq<Event>)
    requires Good(s) && AllowedRun(s, es)
    ensures Good(Run(s, es))
    decreases |es|
  {
    if es != [] {
      StepKeepsGood(s, es[0]);
      RunKeepsGood(Apply(s, es[0]), es[1..]);
    }
  }

  /** From a fresh controller, over any allowed run, each deferred is fired at most once, and each
      is fired only after the row for its circuit has left the table. */
  lemma ResolvedAtMostOnce(pool: seq<Relay>, guards: seq<Relay>, routers: seq<Relay>, es: seq<Event>)
    requires AllowedRun(Init(pool, guards, routers), es)
    ensures var t := Run(Init(pool, guards, routers), es);
      (forall r :: multiset(ResolvedReqs(t.effects))[r] <= 1) && RemovedBeforeResolved(t.effects)
  {
    var s := Init(pool, guards, routers);
    assert Tracked(s) == multiset{};
    RunKeepsGood(s, es);
    var t := Run(s, es);
    forall r ensures multiset(ResolvedReqs(t.effects))[r] <= 1 {
      assert multiset(ResolvedReqs(t.effects))[r] <= Tracked(t)[r];
    }
  }
}
