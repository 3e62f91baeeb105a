# Load balancer visualizer — a Dafny model

The client of this repository is a React page that sends requests to an
nginx load balancer in front of five API servers and animates how they are
distributed. Two parts of it hold the logic this project models:

- **`App`** (`wrappers.dfy`, `app.dfy`) keeps the response log and the
  per-server counters. Each settled request becomes a log entry. A reply
  is recorded under the server that answered it, or under "Unknown" when
  the reply names none. A failure becomes an error entry counted under
  "Error". The log is newest-first and holds at most 50 entries.
  `clearResponses` empties both the log and the counters.
- **`LoadBalancerVisualizer`** (`visualizer.dfy`) replays the successful
  responses as packets. A novel newest response joins the client backlog;
  an id equal to the last one ingested is skipped. When the single
  in-flight slot is free, the backlog head enters it. It travels first to
  the balancer and then to its target server, where it joins the tail of
  that server's queue. Every idle server with a non-empty queue takes the
  head of that queue. The server then stays busy for `6000 / weight`
  milliseconds. A server's weight can be set to any integer from 1 to 10.

The state that React keeps in `useState` hooks and refs becomes the fields
of the classes `App.AppState` and `Visualizer.Simulation`. Each handler or
effect becomes a method whose contract ties the new state to a pure step
function. The properties are proved about those functions: the novelty
filter, FIFO queues, what a drain pass does, conservation of packets, and
the service time.

## Model

| member | source | states |
|---|---|---|
| App.ApiName | client/src/App.jsx:17 | the name is never empty; a present, non-empty `servedBy` is kept, anything else becomes "Unknown" |
| App.Logged | client/src/App.jsx:28 | the new entry comes first, the earlier entries follow in order, and the length is min(old length + 1, 50) |
| App.Counted | client/src/App.jsx:31-34 | the key is added if missing; its count becomes the old count (0 when absent) plus one; other counters are unchanged |
| App.TotalCounted | client/src/App.jsx:31-34 | counting one response raises the sum of all counters by exactly one |
| App.AppState.constructor | client/src/App.jsx:8-10 | the log and the counters start empty |
| App.AppState.SendRequest | client/src/App.jsx:12-53 | a reply is logged as its success entry (`SuccessRecord`: its message, its server name, the timestamp and the id, not an error) and counted under its server name; a failure is logged as the error entry (`FailureRecord`: the fixed text, the name "Error", the timestamp and the id, an error) and counted under "Error"; the counters always sum to the number of responses received, and the log holds min(received, 50) entries |
| App.AppState.ClearResponses | client/src/App.jsx:64-67 | the log and the counters are both empty afterwards |
| Visualizer.WithWeight | client/src/components/custom/LoadBalancerVisualizer.jsx:83-85 | same length and order; only the servers with that id get the new weight; ids, captions and colours are unchanged |
| Visualizer.WeightChanged | client/src/components/custom/LoadBalancerVisualizer.jsx:80-87 | a value that `AcceptsWeight` rejects (NaN, or outside 1..10) changes nothing; the set of ids, distinct ids, and weights within 1..10 are all kept |
| Visualizer.ButtonPress | client/src/components/custom/LoadBalancerVisualizer.jsx:403-423 | the - and + buttons move the pressed server's weight by one if the result stays in 1..10, and otherwise leave it; every other server is unchanged and all weights stay in 1..10 |
| Visualizer.ColorOf | client/src/components/custom/LoadBalancerVisualizer.jsx:103-105 | the colour is never empty; an unknown server gets "bg-gray-500"; otherwise the result is the colour of the first server with that id, or the grey fallback when that colour is empty |
| Visualizer.ServiceTime | client/src/components/custom/LoadBalancerVisualizer.jsx:133 | the service time is positive, and service time times weight is 6000 |
| Visualizer.ServiceTimeDecreasing | client/src/components/custom/LoadBalancerVisualizer.jsx:133 | a larger weight gives a strictly shorter service time |
| Visualizer.IngestStepNewest | client/src/components/custom/LoadBalancerVisualizer.jsx:89-110 | one run of the ingestion effect (`IngestStep`) reads only the newest response; when it is novel (`IsNovel`: present, not an error, id not the last ingested) one item is appended carrying its id, its server name as the target and `ColorOf` that name, the old backlog is kept and the register moves to that id; otherwise nothing changes |
| Visualizer.IngestOne | client/src/components/custom/LoadBalancerVisualizer.jsx:89-110 | a response is appended to the backlog exactly when it is novel (present, not an error, id differs from the last ingested); it then becomes the last ingested id |
| Visualizer.SquashedStep | client/src/components/custom/LoadBalancerVisualizer.jsx:92-97 | when the register holds the last success id, the novelty test agrees with extending the repeat-free id sequence |
| Visualizer.IngestFeedSquashes | client/src/components/custom/LoadBalancerVisualizer.jsx:89-110 | from an empty backlog and a null register, any series of arrivals ingests exactly the non-error ids with immediate repetitions dropped, and the register ends at the last non-error id |
| Visualizer.DedupExample | client/src/components/custom/LoadBalancerVisualizer.jsx:92-97 | arrivals A, A, B, A ingest as A, B, A |
| Visualizer.Enqueued | client/src/components/custom/LoadBalancerVisualizer.jsx:151-154 | the item joins the tail of its target's queue, which is created when missing; other queues are unchanged; the queued items grow by exactly that item |
| Visualizer.QueuedItemsUpdate | client/src/components/custom/LoadBalancerVisualizer.jsx:127-130 | replacing one queue changes the queued items by the difference between the old and the new queue |
| Visualizer.QueuedItemsPop | client/src/components/custom/LoadBalancerVisualizer.jsx:127-130 | taking the head off one queue removes exactly that item from the queued items |
| Visualizer.VisitLocal | client/src/components/custom/LoadBalancerVisualizer.jsx:121-142 | one `forEach` iteration (`Visit`): a ready server (`Ready`: not busy, queue present and non-empty) loses its queue head, becomes busy and starts one service with that head and 6000 / weight; a server that is not ready changes nothing; no other queue or busy flag is touched, earlier services are kept, and the items stay conserved |
| Visualizer.Drained | client/src/components/custom/LoadBalancerVisualizer.jsx:126-130 | same keys; each ready server's old queue is its old head followed by its new queue (FIFO: the head leaves); every other queue is unchanged |
| Visualizer.RunPass | client/src/components/custom/LoadBalancerVisualizer.jsx:121-143 | the `forEach` loop computes exactly the drain pass `DrainPass`, which applies `Visit` to the servers in list order |
| Visualizer.DrainPassPointwise | client/src/components/custom/LoadBalancerVisualizer.jsx:121-143 | with distinct ids, a pass leaves all keys, drops the head of each ready server's queue, leaves every other queue, and adds exactly the ready servers to the busy set |
| Visualizer.DrainPassMatches | client/src/components/custom/LoadBalancerVisualizer.jsx:120-144 | the pass's queues are `Drained` and its busy set is the old one plus the ready servers |
| Visualizer.StartsSound | client/src/components/custom/LoadBalancerVisualizer.jsx:121-141 | the services started are for exactly the ready servers, one each; each takes the head of its queue from before the pass and lasts 6000 / weight for the server's current weight |
| Visualizer.DrainConserves | client/src/components/custom/LoadBalancerVisualizer.jsx:126-131 | the items still queued plus the items taken into service are the items queued before the pass |
| Visualizer.NoneReadyFixed | client/src/components/custom/LoadBalancerVisualizer.jsx:126 | a pass with no ready server changes nothing and starts nothing |
| Visualizer.DrainIdempotent | client/src/components/custom/LoadBalancerVisualizer.jsx:120-144 | right after a pass no server is ready, so a second pass starts nothing and changes nothing |
| Visualizer.InitialFlowEmpty | client/src/components/custom/LoadBalancerVisualizer.jsx:48-56 | the pipeline at mount holds no item |
| Visualizer.InitialConsistent | client/src/components/custom/LoadBalancerVisualizer.jsx:50-78 | at mount each of the five listed servers has exactly one queue and no other queue exists, all queues are empty, ids are distinct and the weights are 1, 2, 1, 3, 1 |
| Visualizer.IngestAdds | client/src/components/custom/LoadBalancerVisualizer.jsx:98-107 | ingestion adds to the pipeline exactly the new tail of the backlog; nothing already in flight is lost or duplicated |
| Visualizer.Admitted | client/src/components/custom/LoadBalancerVisualizer.jsx:112-118 | admission keeps the items in the pipeline and never touches the server queues |
| Visualizer.PhaseCompleted | client/src/components/custom/LoadBalancerVisualizer.jsx:146-157 | a completed leg keeps the items in the pipeline and never touches the backlog |
| Visualizer.DrainTakes | client/src/components/custom/LoadBalancerVisualizer.jsx:126-133 | the pipeline after a pass plus the items taken into service is the pipeline before it |
| Visualizer.Simulation.constructor | client/src/components/custom/LoadBalancerVisualizer.jsx:48-78 | empty backlog and slot, one empty queue for each of the five servers, no busy server, the initial weights, and a null register |
| Visualizer.Simulation.WeightChange | client/src/components/custom/LoadBalancerVisualizer.jsx:80-87 | only the server list changes, as `WeightChanged` says, and the invariant is kept |
| Visualizer.Simulation.Ingest | client/src/components/custom/LoadBalancerVisualizer.jsx:89-110 | only the backlog and the register change, as one step of the novelty filter |
| Visualizer.Simulation.Admit | client/src/components/custom/LoadBalancerVisualizer.jsx:112-118 | only the backlog and the slot change: the backlog head enters the free slot on its first leg |
| Visualizer.Simulation.PhaseComplete | client/src/components/custom/LoadBalancerVisualizer.jsx:146-157 | only the slot and the queues change: the first leg becomes the second, and the second moves the packet into its target's queue |
| Visualizer.Simulation.Drain | client/src/components/custom/LoadBalancerVisualizer.jsx:120-144 | only the queues and the busy set change: ready servers lose their queue head and become busy; the services started are returned |
| Visualizer.Simulation.ServiceComplete | client/src/components/custom/LoadBalancerVisualizer.jsx:135-141 | only the busy flag of that server is cleared |

## Left out

- Rendering, layout, SVG geometry, the `framer-motion` animations and the
  mobile-width hook have no logic to model.
- React effects and timers are explicit method calls. The end of an
  animation leg is a call to `PhaseComplete`. A service timer firing is a
  call to `ServiceComplete`. When these run relative to each other is not
  modelled.
- React's batching of state updates within one effect is modelled as
  sequential updates. In the drain effect every server reads the
  snapshot taken at the start, while the update functions apply to the
  latest value. Given distinct server ids the two agree; `DrainPassMatches`
  proves this.
- `fetch`, `res.json()`, `Date.now()` and `toLocaleTimeString()` are
  inputs: the outcome, the id and the timestamp are parameters of
  `SendRequest`.
- `sendMultipleRequests` is a loop of awaits and delays around
  `sendRequest` and adds no state of its own.
- The `loading` flag only controls the buttons and the timing.
- `parseInt` is an input: `WeightChange` takes its result as
  `Option<int>`, with `None` standing for NaN.
- The `phase` tag that the source leaves on a packet it enqueues is
  dropped; queues hold the request's id, target and colour.
- The components StatsDashboard, ResponseLog and ControlPanel only display
  state, and the server-side `app.js` is not part of this model.
- JavaScript objects used as maps are modelled as Dafny maps. Keys that
  a plain object inherits from `Object.prototype`, such as "constructor"
  or "__proto__", are not treated specially. In the source such a server
  name would make `prev[apiName] || 0` start from an inherited value
  instead of 0, and `prev[target] || []` spread a non-iterable value. The
  model counts and enqueues such names like any other. Server names come
  from the servers' configuration or are "Unknown", so the core never
  meets such a key.
- Conservation of packets is proved for each pure step function
  (`Admitted`, `PhaseCompleted`, `IngestAdds`, `DrainTakes`). It is not a
  ghost-tallied invariant of the `Simulation` class.
