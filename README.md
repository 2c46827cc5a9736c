# CustomCircuit: the circuit-build controller of ooni-probe's Tor helper

This project models the circuit-build controller in `ooni/utils/onion.py`: the class
`CustomCircuit`. A caller asks it for a circuit and hands it a Twisted Deferred. The controller
picks a three-hop path, or takes the one the caller gave, and sends a `build_circuit` command to the
Tor daemon.

When the daemon acknowledges the command with a circuit id, the pair (circuit id, deferred) is
appended to `waiting_circuits`. Tor's circuit events then drive the table:

- `circuit_built` on a GENERAL circuit removes the row and fires the deferred with the circuit.
- `circuit_failed` removes the row and requests a new build for the same deferred, with a freshly
  selected path.
- `circuit_extend` only logs.

Path selection prefers the seeded relay pool `state.relays`: it pops three relays, so the path is the
pool's last three relays, last one first. When the pool is empty it falls back to one random entry
guard and two random routers.

The project has three files:

- `circuit_model.dfy` (module `CircuitModel`) defines the state as a value (`Controller`) and one
  function per operation. It proves what each operation does to the table, the relay pool, the
  outstanding build commands and the log of effects.
- `custom_circuit.dfy` (module `CustomCircuitClass`) is the class itself. Its fields are updated in
  place, and its methods keep the source's loops: the search in `waiting_on`, the walk over the live
  list in `circuit_built`, the last-match search in `circuit_failed`, and the three `pop()`s. Each
  method is proved to produce exactly the state the matching `CircuitModel` function gives.
- `circuit_trace.dfy` (module `CircuitTrace`) covers whole runs. A run is any sequence of requests,
  daemon answers and circuit events. A run is allowed when three conditions hold:
  - each request brings a deferred that is not currently tracked, that is, not waiting for a
    circuit, not waiting for the daemon's answer, and not already fired;
  - each answer of the daemon refers to a build command that is still unanswered;
  - the daemon never acknowledges a command with the id of a circuit that is still pending.

  The theorem is that, over any allowed run, no deferred is fired twice, and every deferred is
  fired only after its row has left the table.

Modelling choices:

- **Deferreds.** A deferred is represented by its identity (`ReqId`). Firing it is recorded as a
  `Resolved` effect, and that effect carries the table as the callback sees it. This makes "removed
  before resolved" a checkable statement.
- **Build commands.** `state.build_circuit(path)` is recorded twice: as an `Issued` effect, and as an
  entry in `inFlight`, the commands the daemon has not answered yet.
- **The daemon's answers.** The success callback (`AppendWaiting.__call__`) becomes `Acknowledge`.
  The errback (`log.err`) becomes `BuildRejected`.
- **Randomness.** Each `random.choice` is a parameter, a drawn index (`Draw`). The model covers any
  choice, not the distribution.
- **The pool test.** `state.relays_remaining()` is defined outside this file. It is taken to be the
  number of relays in `state.relays`.
- **The Tor state object.** `state.entry_guards` and `state.routers` are dictionaries in the source.
  Only their values are used, so the model takes them as sequences.

Behaviour of the code that the model keeps and that a reader may not expect:

- **Short paths.** A caller path of fewer than three hops fails a Python `assert`
  (`PathTooShort`). No build command is issued.
- **Small pools.** `relays_remaining() > 0` is tested, but three relays are popped. A pool holding
  one or two relays is therefore emptied and then `pop()` raises `IndexError`; no build is issued.
  When this happens inside `circuit_failed`, the row is already gone, so that caller's deferred
  never fires.
- **No purpose check in `circuit_failed`.** Unlike the other two handlers, it acts on pending
  circuits of any purpose.
- **Unknown failed circuits.** `circuit_failed` ignores a circuit that is not pending. It does not
  fail loudly. Its "Expected to find circuit." exception cannot be reached once `waiting_on` has
  answered true; `CircuitFailed` proves that.
- **No teardown or retry bound.** Nothing cancels outstanding requests when the session ends. The
  retry on failure is unbounded.

## Model

| member | source | states |
|---|---|---|
| CustomCircuitClass.CustomCircuit.constructor | ooni/utils/onion.py:244-247 | The table starts empty, with nothing issued or fired; the pool, guards and routers are the state's, and `relays` is stored as given |
| CustomCircuitClass.CustomCircuit.WaitingOn | ooni/utils/onion.py:249-253 | The loop answers true exactly when some row carries the circuit's id; nothing is modified |
| CustomCircuitClass.CustomCircuit.CircuitExtend | ooni/utils/onion.py:255-260 | No state changes; it logs exactly for a GENERAL circuit that is pending |
| CustomCircuitClass.CustomCircuit.CircuitBuilt | ooni/utils/onion.py:262-271 | The walk over the live list, with removal during iteration, yields exactly `Built` of the old state; it keeps ids distinct |
| CustomCircuitClass.CustomCircuit.CircuitFailed | ooni/utils/onion.py:273-285 | The last-match loop always finds a row for a pending circuit; the handler yields exactly `Failed` of the old state, retry included |
| CustomCircuitClass.CustomCircuit.RequestCircuitBuild | ooni/utils/onion.py:297-310 | The three `pop()`s, the random fallback and the caller-path check yield exactly `Request` of the old state, with the raised error as result |
| CustomCircuitClass.CustomCircuit.Acknowledge | ooni/utils/onion.py:318-326 | The answered command's deferred is appended with the daemon's circuit id; the result is `Ack` of the old state, with ids kept distinct |
| CustomCircuitClass.CustomCircuit.BuildRejected | ooni/utils/onion.py:328-330 | An errback answer drops the command: no row is added, this answer fires nothing, and the deferred is no longer tracked; the result is `Reject` of the old state |
| CircuitModel.Init | ooni/utils/onion.py:244-247 | A new controller has an empty table, no unanswered build command and nothing issued or fired |
| CircuitModel.PopThree | ooni/utils/onion.py:299-301 | Three `pop()`s succeed exactly when the pool holds three relays or more; the path is the last three in pop order, and pushing it back reversed restores the pool; otherwise `IndexError` leaves the pool empty |
| CircuitModel.SelectPath | ooni/utils/onion.py:298-309 | Every selected path has at least three hops. A caller path is used as given, or fails the length assertion, and the pool is untouched. A non-empty pool is popped. An empty pool gives one entry guard and two routers, or fails exactly when there are no entry guards or no routers; the guard draw comes first, so the error is about the missing guards when both are missing |
| CircuitModel.Request | ooni/utils/onion.py:297-330 | The result and the new pool are those of path selection; no row is added; on success exactly one build command is issued, for the selected path, carrying the deferred; on error nothing is issued |
| CircuitModel.Ack | ooni/utils/onion.py:318-326 | One row (the daemon's id, the answered command's deferred) is appended after the unchanged earlier rows; exactly the answered command leaves the unanswered ones; nothing is fired |
| CircuitModel.Reject | ooni/utils/onion.py:328-330 | The errback removes exactly the answered command from the unanswered ones; the table, the pool and the effects are unchanged |
| CircuitModel.Built | ooni/utils/onion.py:262-271 | The pool and the unanswered commands are unchanged; at most one effect is appended; with distinct ids, ids stay distinct and a GENERAL circuit is no longer pending afterwards |
| CircuitModel.Failed | ooni/utils/onion.py:273-285 | A retry happens exactly when the circuit is pending; at most one effect is appended, and it is a build command: nothing is fired |
| CircuitModel.Remove | ooni/utils/onion.py:270 | `list.remove` drops the first occurrence of the row and nothing else: the result is the table without position `IndexOf`, the first index holding the row, and the multiset loses exactly that row |
| CircuitModel.IndexOf | ooni/utils/onion.py:270 | The position `list.remove` drops: it holds the row, and no earlier position does |
| CircuitModel.FirstIndex | ooni/utils/onion.py:268-269 | The row the loop of circuit_built meets first: it carries the id, and no earlier row does |
| CircuitModel.LastIndex | ooni/utils/onion.py:276-279 | The row the loop of circuit_failed keeps: it carries the id, and no later row does |
| CircuitModel.RemoveAt | ooni/utils/onion.py:283 | With distinct ids, `list.remove` of a row removes exactly that position; the other rows stay in order |
| CircuitModel.SpliceIds | ooni/utils/onion.py:270 | After a row is removed, ids stay distinct and exactly the other ids remain pending |
| CircuitModel.RemoveRowIds | ooni/utils/onion.py:270 | With distinct ids, `list.remove` of a row keeps ids distinct, and the removed row's id is no longer pending |
| CircuitModel.Choose | ooni/utils/onion.py:303-305 | A random choice returns an element of the sequence drawn from, and an in-range draw picks exactly that element |
| CircuitModel.ShortPathRejected | ooni/utils/onion.py:308-309 | A caller path shorter than three hops raises and changes nothing |
| CircuitModel.ExplicitPathUsed | ooni/utils/onion.py:307-310 | A caller path of three hops or more is used as given, and the pool is untouched |
| CircuitModel.PoolPathPopsLastThree | ooni/utils/onion.py:299-301 | With three or more relays, the path is the pool's last three in pop order: pushing it back reversed restores the pool, which shrank by exactly three |
| CircuitModel.SmallPoolDrained | ooni/utils/onion.py:299-301 | A pool with one or two relays is emptied by the pops; `IndexError` is raised and nothing is issued |
| CircuitModel.FallbackPath | ooni/utils/onion.py:302-306 | With an empty pool, the path is one entry guard followed by two routers |
| CircuitModel.FallbackWithoutRelays | ooni/utils/onion.py:302-305 | With an empty pool and no guards or no routers, random.choice raises and nothing changes |
| CircuitModel.AckAppends | ooni/utils/onion.py:326 | After an acknowledgement the circuit is pending, and a fresh id keeps ids distinct |
| CircuitModel.BuiltIgnored | ooni/utils/onion.py:264-265 | circuit_built on a non-GENERAL or non-pending circuit changes nothing and fires nothing |
| CircuitModel.BuiltResolves | ooni/utils/onion.py:268-271 | On a pending GENERAL circuit: only its row is removed, the others stay in order, and its deferred is fired once with the circuit; the table the callback sees no longer holds the circuit |
| CircuitModel.BuiltTwice | ooni/utils/onion.py:268-271 | A duplicate "built" notification fires nothing more: handling it twice equals handling it once |
| CircuitModel.FailedIgnored | ooni/utils/onion.py:274 | circuit_failed on a circuit that is not pending changes nothing and issues no build |
| CircuitModel.FailedRetries | ooni/utils/onion.py:276-285 | On a pending circuit of any purpose: exactly its row is removed; at most one command is issued, with a freshly selected path and the same deferred; no deferred is fired |
| CircuitTrace.RequestKeepsGood | ooni/utils/onion.py:297-330 | A request with a new deferred keeps the run invariant |
| CircuitTrace.AckKeepsGood | ooni/utils/onion.py:318-326 | An acknowledgement with a fresh circuit id keeps the run invariant |
| CircuitTrace.RejectKeepsGood | ooni/utils/onion.py:328-330 | A rejected build keeps the run invariant |
| CircuitTrace.BuiltKeepsGood | ooni/utils/onion.py:262-271 | circuit_built keeps the run invariant: it moves a deferred from the table to the fired ones |
| CircuitTrace.FailedKeepsGood | ooni/utils/onion.py:273-285 | circuit_failed keeps the run invariant: it moves the deferred from the table back to a new build command, or drops it |
| CircuitTrace.RunKeepsGood | ooni/utils/onion.py:246-330 | Every allowed run keeps three facts: distinct circuit ids, every known deferred in exactly one place, and every firing after its row's removal |
| CircuitTrace.ResolvedAtMostOnce | ooni/utils/onion.py:262-285 | From a fresh controller, over any allowed run, no deferred is fired twice, and each is fired only after its row has left the table |

## Left out

- `start_tor`, `setup_done`, `setup_fail`, `state_complete` and `updates` are not modelled. They are process spawning, reactor and TCP endpoint plumbing, and logging.
- `write_torrc` and `delete_files_or_dirs` are not modelled. They are filesystem I/O.
- `singleton_semaphore` is not modelled. It is concurrency gating with a DeferredSemaphore.
- `check_circuit_route` is not modelled. It refers to undefined names and only dumps state.
- Log message formatting is left out, including the `'->'.join` of the path.
- Hops are modelled as strings, so the `'->'.join` at `ooni/utils/onion.py:311-312` never raises. The fallback path takes its hops from `state.entry_guards` and `state.routers`, whose values are router objects. With router objects the join would raise `TypeError` before `build_circuit` is reached, and no build would be issued; the model issues the build (`FallbackPath`).
- The distribution of `random.choice` is left out. The drawn index is a parameter.
- The Tor state object behind `state.build_circuit`, `state.relays_remaining`, `state.entry_guards` and `state.routers` is not part of this model.
- Deferred callback chaining is recorded only as the effects described above.
- The code that runs inside a fired callback is not modelled. The table it would observe is recorded in the `Resolved` effect.
- The `type(path) is list` assertion is not modelled, because paths are sequences by type.
- A deferred of `None` is not modelled. In `circuit_failed` it would reach the "Expected to find circuit." exception.
- CustomCircuitClass.CustomCircuit.CircuitBuilt requires distinct circuit ids, and the contract does not describe the other case. With a repeated id, each matching row the loop meets is removed and its deferred fired. The removal makes the loop skip the row right after it, so a matching row directly after another one is not fired and stays in the table. One circuit reaches several callers only when the matching rows are not adjacent. Meeting the same Deferred a second time raises `AlreadyCalledError`.
- CustomCircuitClass.CustomCircuit.CircuitFailed requires distinct circuit ids. With a repeated id, `list.remove` of the last match may remove an earlier equal row instead; the contract does not describe that case.
- CustomCircuitClass.CustomCircuit.Acknowledge requires that the daemon's circuit id is not already pending. This assumes Tor does not reuse the id of a live circuit.
- CircuitTrace.ResolvedAtMostOnce assumes each request brings a deferred that is not currently tracked. A deferred dropped by a rejection or by a failed retry may be requested again.
- Cancelling outstanding requests on session teardown is not modelled, because the code has no such step.
- A bound on retries is not modelled. The code retries without limit.
