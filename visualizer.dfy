/** The request-flow simulation of `LoadBalancerVisualizer`
    (client/src/components/custom/LoadBalancerVisualizer.jsx), without its
    rendering.  Requests that the page has received are replayed as
    packets: a client backlog feeds a single-slot pipeline that carries one
    packet to the balancer and then to its target server, where it joins
    that server's FIFO queue; every idle server takes the head of its queue
    and stays busy for 6000 / weight milliseconds.

    The React effects and handlers are the methods of `Simulation`; the
    animation and timer completions that drive them are explicit calls
    (`PhaseComplete`, `ServiceComplete`). */
module Visualizer {
  import opened Wrappers
  import opened App

  /** `6000` in `6000 / node.weight`, in milliseconds. */
  const BaseServiceTime: real := 6000.0
  /** The colour of a packet whose target is not a known server. */
  const FallbackColor := "bg-gray-500"
  /** The largest weight `handleWeightChange` accepts. */
  const MaxWeight := 10

  /** A backend server as the visualizer lists it (`caption` is the
      source's `label`, a reserved word here). */
  datatype Node = Node(id: string, caption: string, color: string, weight: int)

  /** A request being replayed: the response's id, the server that served
      it, and the colour it is drawn in. */
  datatype Item = Item(id: int, targetApi: string, color: string)

  /** The two legs a packet travels: client to balancer, balancer to server. */
  datatype Phase = ToLoadBalancer | ToApi

  /** The occupant of the single in-flight slot. */
  datatype Packet = Packet(item: Item, phase: Phase)

  /** A service started by the drain: the timer that will fire
      `ServiceComplete(nodeId)` after `duration` milliseconds. */
  datatype Service = Service(nodeId: string, item: Item, duration: real)

  /** The ingestion state: the client backlog and the last ingested id
      (`lastProcessedIdRef.current`, `None` being its initial `null`). */
  datatype Intake = Intake(backlog: seq<Item>, last: Option<int>)

  /** The five servers the page starts with. */
  function InitialNodes(): seq<Node> {
    [ Node("API Server 1", "Server 1", "bg-red-500", 1),
      Node("API Server 2", "Server 2", "bg-teal-500", 2),
      Node("API Server 3", "Server 3", "bg-sky-500", 1),
      Node("API Server 4", "Server 4", "bg-emerald-500", 3),
      Node("API Server 5", "Server 5", "bg-yellow-500", 1) ]
  }

  /** The initial queues: one empty queue per initial server. */
  function InitialQueues(): map<string, seq<Item>> {
    map["API Server 1" := [], "API Server 2" := [], "API Server 3" := [],
        "API Server 4" := [], "API Server 5" := []]
  }

  /** The list of servers and the queues agree at mount: each listed
      server has exactly one queue, the queues are all empty, ids are
      distinct and the weights 1, 2, 1, 3, 1 are in range. */
  lemma InitialConsistent()
    ensures DistinctIds(InitialNodes()) && WeightsInRange(InitialNodes())
    ensures Ids(InitialNodes()) == InitialQueues().Keys
    ensures forall k :: k in InitialQueues() ==> InitialQueues()[k] == []
    ensures forall i :: 0 <= i < |InitialNodes()| ==> InitialNodes()[i].weight == [1, 2, 1, 3, 1][i]
  {
    InitialIds();
    InitialDistinct();
  }

  lemma InitialIds()
    ensures Ids(InitialNodes()) == InitialQueues().Keys
  {
    var ns := InitialNodes();
    assert ns[0].id in Ids(ns) && ns[1].id in Ids(ns) && ns[2].id in Ids(ns)
        && ns[3].id in Ids(ns) && ns[4].id in Ids(ns);
    assert InitialQueues().Keys == {"API Server 1", "API Server 2", "API Server 3", "API Server 4", "API Server 5"};
  }

  lemma InitialDistinct()
    ensures DistinctIds(InitialNodes())
  {
    var ns := InitialNodes();
    forall i, j | 0 <= i < j < |ns| ensures ns[i].id != ns[j].id {
      assert ns[i].id[11] != ns[j].id[11];
    }
  }

  // ---------------------------------------------------------------------
  // Servers and weights

  function Ids(nodes: seq<Node>): set<string> {
    set i | 0 <= i < |nodes| :: nodes[i].id
  }

  predicate DistinctIds(nodes: seq<Node>) {
    forall i, j :: 0 <= i < j < |nodes| ==> nodes[i].id != nodes[j].id
  }

  predicate WeightsInRange(nodes: seq<Node>) {
    forall i :: 0 <= i < |nodes| ==> 1 <= nodes[i].weight <= MaxWeight
  }

  /** The check in `handleWeightChange`: the parsed value (`None` for NaN)
      is an integer in 1..10. */
  predicate AcceptsWeight(parsed: Option<int>) {
    parsed.Some? && parsed.value > 0 && parsed.value <= MaxWeight
  }

  /** `prev.map(node => node.id === id ? {...node, weight: w} : node)`. */
  function WithWeight(nodes: seq<Node>, id: string, w: int): (r: seq<Node>)
    ensures |r| == |nodes|
    ensures forall i :: 0 <= i < |r| ==>
      && r[i].id == nodes[i].id && r[i].caption == nodes[i].caption && r[i].color == nodes[i].color
      && r[i].weight == (if nodes[i].id == id then w else nodes[i].weight)
  {
    if nodes == [] then []
    else
      var n := nodes[0];
      [if n.id == id then n.(weight := w) else n] + WithWeight(nodes[1..], id, w)
  }

  /** What `handleWeightChange(id, newWeight)` does to the server list,
      given the value `parseInt` made of `newWeight`. */
  function WeightChanged(nodes: seq<Node>, id: string, parsed: Option<int>): (r: seq<Node>)
    ensures !AcceptsWeight(parsed) ==> r == nodes
    ensures Ids(r) == Ids(nodes)
    ensures DistinctIds(nodes) ==> DistinctIds(r)
    ensures WeightsInRange(nodes) ==> WeightsInRange(r)
  {
    if AcceptsWeight(parsed) then WithWeight(nodes, id, parsed.value) else nodes
  }

  /** The - and + buttons call `handleWeightChange(node.id, node.weight - 1)`
      and `(node.id, node.weight + 1)`: the pressed server's weight moves by
      one unless that would leave 1..10, in which case nothing changes, and
      every weight stays in 1..10. */
  lemma {:induction false} ButtonPress(nodes: seq<Node>, k: nat, delta: int)
    requires DistinctIds(nodes) && WeightsInRange(nodes)
    requires k < |nodes| && (delta == 1 || delta == -1)
    ensures var r := WeightChanged(nodes, nodes[k].id, Some(nodes[k].weight + delta));
      && WeightsInRange(r)
      && r[k].weight == (if 1 <= nodes[k].weight + delta <= MaxWeight then nodes[k].weight + delta else nodes[k].weight)
      && forall i :: 0 <= i < |nodes| && i != k ==> r[i] == nodes[i]
  {
    var w := nodes[k].weight + delta;
    if AcceptsWeight(Some(w)) {
      var r := WithWeight(nodes, nodes[k].id, w);
      forall i | 0 <= i < |nodes| && i != k
        ensures r[i] == nodes[i]
      {
        assert nodes[i].id != nodes[k].id by {
          if i < k { assert nodes[i].id != nodes[k].id; } else { assert nodes[k].id != nodes[i].id; }
        }
      }
    }
  }

  /** `nodes.find(n => n.id === apiName)?.color || "bg-gray-500"`: the
      colour of the first server with that id, or grey when there is none
      or its colour is empty. */
  function ColorOf(nodes: seq<Node>, apiName: string): (c: string)
    ensures c != ""
    ensures apiName !in Ids(nodes) ==> c == FallbackColor
    ensures forall i :: 0 <= i < |nodes| && nodes[i].id == apiName && apiName !in Ids(nodes[..i]) ==>
      c == (if nodes[i].color != "" then nodes[i].color else FallbackColor)
  {
    if nodes == [] then FallbackColor
    else if nodes[0].id == apiName then (if nodes[0].color != "" then nodes[0].color else FallbackColor)
    else
      var c := ColorOf(nodes[1..], apiName);
      assert forall i :: 1 <= i <= |nodes| ==> Ids(nodes[1..][..i - 1]) <= Ids(nodes[..i]) by {
        forall i | 1 <= i <= |nodes|
          ensures Ids(nodes[1..][..i - 1]) <= Ids(nodes[..i])
        {
          forall x | x in Ids(nodes[1..][..i - 1]) ensures x in Ids(nodes[..i]) {
            var j :| 0 <= j < i - 1 && nodes[1..][..i - 1][j].id == x;
            assert nodes[..i][j + 1].id == x;
          }
        }
      }
      c
  }

  /** The time, in milliseconds, a server of this weight spends on one
      request: `6000 / weight`. */
  function ServiceTime(weight: int): (t: real)
    requires weight > 0
    ensures t > 0.0 && t * (weight as real) == BaseServiceTime
  {
    BaseServiceTime / (weight as real)
  }

  /** A heavier server is strictly faster. */
  lemma ServiceTimeDecreasing(lighter: int, heavier: int)
    requires 0 < lighter < heavier
    ensures ServiceTime(heavier) < ServiceTime(lighter)
  {
    FixedProductDecreasing(ServiceTime(lighter), ServiceTime(heavier), lighter as real, heavier as real);
  }

  /** Two positive factorisations of one product: the larger second factor
      goes with the smaller first one. */
  lemma FixedProductDecreasing(tl: real, th: real, l: real, h: real)
    requires 0.0 < l < h && tl > 0.0 && th > 0.0 && th * h == tl * l
    ensures th < tl
  {
    assert tl * l < tl * h;
    assert th >= tl ==> th * h >= tl * h;
  }

  // ---------------------------------------------------------------------
  // Ingestion

  /** The condition of the ingestion effect: the newest response exists,
      is not an error, and its id is not the last one ingested. */
  predicate IsNovel(responses: seq<Response>, last: Option<int>) {
    |responses| > 0 && !responses[0].isError && last != Some(responses[0].id)
  }

  /** One run of the ingestion effect over the current `responses`
      (newest first). */
  function IngestStep(s: Intake, responses: seq<Response>, nodes: seq<Node>): Intake {
    if IsNovel(responses, s.last) then
      var latest := responses[0];
      Intake(s.backlog + [Item(latest.id, latest.apiName, ColorOf(nodes, latest.apiName))], Some(latest.id))
    else s
  }

  /** One run of the ingestion effect reads only the newest response.
      When it is novel, the backlog keeps its old contents and gains one
      item carrying that response's id, its server name as the target and
      that server's colour, and the register moves to its id; otherwise
      nothing changes. */
  lemma IngestStepNewest(s: Intake, responses: seq<Response>, nodes: seq<Node>)
    ensures var r := IngestStep(s, responses, nodes);
      && (responses != [] ==> r == IngestStep(s, [responses[0]], nodes))
      && (!IsNovel(responses, s.last) ==> r == s)
      && (IsNovel(responses, s.last) ==>
            var latest := responses[0];
            && |r.backlog| == |s.backlog| + 1
            && r.backlog[..|s.backlog|] == s.backlog
            && r.backlog[|s.backlog|].id == latest.id
            && r.backlog[|s.backlog|].targetApi == latest.apiName
            && r.backlog[|s.backlog|].color == ColorOf(nodes, latest.apiName)
            && r.last == Some(latest.id))
  {
    if IsNovel(responses, s.last) {
      var r := IngestStep(s, responses, nodes);
      assert r.backlog[..|s.backlog|] == s.backlog;
    }
  }

  /** The ids of a backlog, in order. */
  function ItemIds(items: seq<Item>): seq<int> {
    seq(|items|, i requires 0 <= i < |items| => items[i].id)
  }

  /** Replays a feed of arrivals: each element is the newest response at
      one run of the ingestion effect, in the order they ran. */
  function IngestFeed(s: Intake, feed: seq<Response>, nodes: seq<Node>): Intake
    decreases |feed|
  {
    if feed == [] then s
    else IngestStep(IngestFeed(s, feed[..|feed| - 1], nodes), [feed[|feed| - 1]], nodes)
  }

  /** The ids of the non-error responses of a feed, in order. */
  function SuccessIds(feed: seq<Response>): seq<int>
    decreases |feed|
  {
    if feed == [] then []
    else
      var x := feed[|feed| - 1];
      SuccessIds(feed[..|feed| - 1]) + (if x.isError then [] else [x.id])
  }

  /** `ids` with every element that equals its predecessor removed. */
  function Squash(ids: seq<int>): seq<int>
    decreases |ids|
  {
    if |ids| <= 1 then ids
    else if ids[|ids| - 1] == ids[|ids| - 2] then Squash(ids[..|ids| - 1])
    else Squash(ids[..|ids| - 1]) + [ids[|ids| - 1]]
  }

  /** Appending an id to a squashed sequence adds it unless it repeats the
      last one. */
  lemma SquashSnoc(ids: seq<int>, v: int)
    ensures Squash(ids + [v]) == Squash(ids) + (if ids != [] && ids[|ids| - 1] == v then [] else [v])
  {
    var ids' := ids + [v];
    assert ids'[..|ids'| - 1] == ids;
  }

  /** One arrival: it is ingested exactly when it is novel, and then it
      becomes the last ingested id. */
  lemma IngestOne(prev: Intake, x: Response, nodes: seq<Node>)
    ensures var r := IngestStep(prev, [x], nodes);
      && ItemIds(r.backlog) == ItemIds(prev.backlog) + (if IsNovel([x], prev.last) then [x.id] else [])
      && r.last == (if IsNovel([x], prev.last) then Some(x.id) else prev.last)
  {
    if IsNovel([x], prev.last) {
      var item := Item(x.id, x.apiName, ColorOf(nodes, x.apiName));
      assert ItemIds(prev.backlog + [item]) == ItemIds(prev.backlog) + [x.id];
    }
  }

  /** The single-slot novelty filter.  Starting from an empty backlog and a
      null register, a feed ingests exactly the ids of its non-error
      responses with immediate repetitions dropped, and the register ends
      at the last non-error id. */
  lemma {:induction false} IngestFeedSquashes(feed: seq<Response>, nodes: seq<Node>)
    ensures var r := IngestFeed(Intake([], None), feed, nodes);
      && ItemIds(r.backlog) == Squash(SuccessIds(feed))
      && r.last == (if SuccessIds(feed) == [] then None else Some(SuccessIds(feed)[|SuccessIds(feed)| - 1]))
    decreases |feed|
  {
    if feed != [] {
      var init, x := feed[..|feed| - 1], feed[|feed| - 1];
      IngestFeedSquashes(init, nodes);
      var prev := IngestFeed(Intake([], None), init, nodes);
      var ids := SuccessIds(init);
      IngestOne(prev, x, nodes);
      assert IngestFeed(Intake([], None), feed, nodes) == IngestStep(prev, [x], nodes);
      assert SuccessIds(feed) == ids + (if x.isError then [] else [x.id]);
      SquashedStep(ids, x, prev.last);
    }
  }

  /** The filter's step on id sequences: if `last` holds the last success
      id so far, the next response is novel exactly when its id extends the
      squashed sequence. */
  lemma SquashedStep(ids: seq<int>, x: Response, last: Option<int>)
    requires last == (if ids == [] then None else Some(ids[|ids| - 1]))
    ensures var ids', novel := ids + (if x.isError then [] else [x.id]), IsNovel([x], last);
      && Squash(ids) + (if novel then [x.id] else []) == Squash(ids')
      && (if novel then Some(x.id) else last) == (if ids' == [] then None else Some(ids'[|ids'| - 1]))
  {
    if !x.isError {
      var ids' := ids + [x.id];
      SquashSnoc(ids, x.id);
      assert ids'[|ids'| - 1] == x.id;
      assert IsNovel([x], last) <==> !(ids != [] && ids[|ids| - 1] == x.id);
    } else {
      assert ids + [] == ids;
    }
  }

  /** Four arrivals with ids A, A, B, A ingest as A, B, A: the second A is
      dropped because it follows an A, the last one is kept because it
      follows a B. */
  lemma DedupExample(a: Response, b: Response, nodes: seq<Node>)
    requires !a.isError && !b.isError && a.id != b.id
    ensures ItemIds(IngestFeed(Intake([], None), [a, a, b, a], nodes).backlog) == [a.id, b.id, a.id]
  {
    var feed := [a, a, b, a];
    assert feed[..3] == [a, a, b] && [a, a, b][..2] == [a, a] && [a, a][..1] == [a] && [a][..0] == [];
    var s0 := Intake([], None);
    var s1 := IngestStep(s0, [a], nodes);
    var s2 := IngestStep(s1, [a], nodes);
    var s3 := IngestStep(s2, [b], nodes);
    assert IngestFeed(s0, [a], nodes) == s1;
    assert IngestFeed(s0, [a, a], nodes) == s2;
    assert IngestFeed(s0, [a, a, b], nodes) == s3;
    assert IngestFeed(s0, feed, nodes) == IngestStep(s3, [a], nodes);
    IngestOne(s0, a, nodes);
    IngestOne(s1, a, nodes);
    IngestOne(s2, b, nodes);
    IngestOne(s3, a, nodes);
  }

  // ---------------------------------------------------------------------
  // Server queues

  /** `{...prev, [target]: [...(prev[target] || []), p]}`: the item joins the
      tail of its target's queue, which is created when absent. */
  function Enqueued(queues: map<string, seq<Item>>, target: string, p: Item): (r: map<string, seq<Item>>)
    ensures r.Keys == queues.Keys + {target}
    ensures r[target] == (if target in queues then queues[target] else []) + [p]
    ensures forall k :: k in queues && k != target ==> r[k] == queues[k]
    ensures QueuedItems(r) == QueuedItems(queues) + multiset{p}
  {
    var q := if target in queues then queues[target] else [];
    QueuedItemsUpdate(queues, target, q + [p]);
    var r := queues[target := q + [p]];
    MultisetCancel(QueuedItems(r), QueuedItems(queues) + multiset{p}, multiset(q));
    r
  }

  /** Moving `t` from one part of a whole to another keeps the whole. */
  lemma MultisetMove<T>(rest: multiset<T>, from: multiset<T>, from': multiset<T>, to: multiset<T>, t: multiset<T>)
    requires from' + t == from
    ensures rest + from' + (to + t) == rest + from + to
  {
    forall x ensures (rest + from' + (to + t))[x] == (rest + from + to)[x] {
      assert (from' + t)[x] == from[x];
    }
  }

  lemma MultisetCancel<T>(a: multiset<T>, b: multiset<T>, c: multiset<T>)
    requires a + c == b + c
    ensures a == b
  {
    forall x ensures a[x] == b[x] {
      assert (a + c)[x] == (b + c)[x];
    }
  }

  /** Everything waiting in any server queue. */
  ghost function QueuedItems(queues: map<string, seq<Item>>): multiset<Item>
    decreases queues.Keys
  {
    if queues.Keys == {} then multiset{}
    else
      var k :| k in queues.Keys;
      multiset(queues[k]) + QueuedItems(queues - {k})
  }

  /** Any queue can be counted first. */
  lemma {:induction false} QueuedItemsWithout(queues: map<string, seq<Item>>, k: string)
    requires k in queues
    ensures QueuedItems(queues) == multiset(queues[k]) + QueuedItems(queues - {k})
    decreases queues.Keys
  {
    var j :| j in queues.Keys && QueuedItems(queues) == multiset(queues[j]) + QueuedItems(queues - {j});
    if j != k {
      assert queues - {j} - {k} == queues - {k} - {j};
      QueuedItemsWithout(queues - {j}, k);
      QueuedItemsWithout(queues - {k}, j);
    }
  }

  /** Replacing one queue changes the queued items by exactly the
      difference between the old queue (empty when absent) and the new. */
  lemma QueuedItemsUpdate(queues: map<string, seq<Item>>, k: string, q: seq<Item>)
    ensures QueuedItems(queues[k := q]) + multiset(if k in queues then queues[k] else [])
         == QueuedItems(queues) + multiset(q)
  {
    var m := queues[k := q];
    QueuedItemsWithout(m, k);
    assert m - {k} == queues - {k};
    if k in queues {
      QueuedItemsWithout(queues, k);
    } else {
      assert queues - {k} == queues;
    }
  }

  /** Maps whose queues are all empty hold nothing. */
  lemma {:induction false} QueuedItemsEmpty(queues: map<string, seq<Item>>)
    requires forall k :: k in queues ==> queues[k] == []
    ensures QueuedItems(queues) == multiset{}
    decreases queues.Keys
  {
    if queues.Keys != {} {
      var k :| k in queues.Keys;
      QueuedItemsWithout(queues, k);
      QueuedItemsEmpty(queues - {k});
    }
  }

  /** Taking the head off one queue takes exactly that item out of the
      queued items. */
  lemma QueuedItemsPop(before: map<string, seq<Item>>, k: string, after: map<string, seq<Item>>)
    requires k in before && |before[k]| > 0 && after == before[k := before[k][1..]]
    ensures QueuedItems(after) + multiset{before[k][0]} == QueuedItems(before)
  {
    var q := before[k];
    assert q == [q[0]] + q[1..];
    QueuedItemsUpdate(before, k, q[1..]);
    MultisetCancel(QueuedItems(after) + multiset{q[0]}, QueuedItems(before), multiset(q[1..]));
  }

  // ---------------------------------------------------------------------
  // Draining

  /** The drain condition for one server: `!isBusy && queue && queue.length > 0`. */
  predicate Ready(queues: map<string, seq<Item>>, busy: set<string>, id: string) {
    id !in busy && id in queues && |queues[id]| > 0
  }

  /** The servers among `nodes` that the drain finds ready. */
  function ReadyIds(queues: map<string, seq<Item>>, busy: set<string>, nodes: seq<Node>): set<string> {
    set k | k in Ids(nodes) && Ready(queues, busy, k)
  }

  /** The queues after one drain pass: every ready server's queue has lost
      its head, every other queue is as it was. */
  function Drained(queues: map<string, seq<Item>>, busy: set<string>, nodes: seq<Node>): (r: map<string, seq<Item>>)
    ensures r.Keys == queues.Keys
    ensures forall k :: k in ReadyIds(queues, busy, nodes) ==> queues[k] == [queues[k][0]] + r[k]
    ensures forall k :: k in queues && k !in ReadyIds(queues, busy, nodes) ==> r[k] == queues[k]
  {
    map k | k in queues :: if k in ReadyIds(queues, busy, nodes) then queues[k][1..] else queues[k]
  }

  /** The weight of server `id` (0 when there is none). */
  function WeightOf(nodes: seq<Node>, id: string): int
    decreases |nodes|
  {
    if nodes == [] then 0
    else if nodes[|nodes| - 1].id == id then nodes[|nodes| - 1].weight
    else WeightOf(nodes[..|nodes| - 1], id)
  }

  function StartedIds(started: seq<Service>): set<string> {
    set s | s in started :: s.nodeId
  }

  /** The items a list of services took out of the queues. */
  ghost function ServedItems(started: seq<Service>): multiset<Item>
    decreases |started|
  {
    if started == [] then multiset{}
    else ServedItems(started[..|started| - 1]) + multiset{started[|started| - 1].item}
  }

  /** What a drain pass carries from one server to the next: the queues,
      the busy set and the services started so far. */
  datatype Pass = Pass(queues: map<string, seq<Item>>, busy: set<string>, started: seq<Service>)

  /** One server's turn: when it is ready it takes the head of its queue,
      becomes busy and starts a service of `6000 / weight`. */
  function Visit(p: Pass, n: Node): Pass
    requires 1 <= n.weight
  {
    if Ready(p.queues, p.busy, n.id) then
      Pass(p.queues[n.id := p.queues[n.id][1..]], p.busy + {n.id},
           p.started + [Service(n.id, p.queues[n.id][0], ServiceTime(n.weight))])
    else p
  }

  /** One server's turn touches only that server's queue and busy flag,
      starts at most one service, for that server, and moves the item it
      takes from the queues into that service. */
  lemma VisitLocal(p: Pass, n: Node)
    requires 1 <= n.weight
    ensures var r := Visit(p, n);
      && r.queues.Keys == p.queues.Keys
      && (forall k :: k in p.queues && k != n.id ==> r.queues[k] == p.queues[k])
      && (forall k :: k != n.id ==> (k in r.busy <==> k in p.busy))
      && r.started[..|p.started|] == p.started
      && (Ready(p.queues, p.busy, n.id) ==>
            && |r.started| == |p.started| + 1
            && r.started[|p.started|] == Service(n.id, p.queues[n.id][0], ServiceTime(n.weight))
            && p.queues[n.id] == [p.queues[n.id][0]] + r.queues[n.id]
            && n.id in r.busy)
      && (!Ready(p.queues, p.busy, n.id) ==> r == p)
      && QueuedItems(r.queues) + ServedItems(r.started) == QueuedItems(p.queues) + ServedItems(p.started)
  {
    var r := Visit(p, n);
    if Ready(p.queues, p.busy, n.id) {
      QueuedItemsPop(p.queues, n.id, r.queues);
      assert r.started[..|r.started| - 1] == p.started;
      assert p.queues[n.id] == [p.queues[n.id][0]] + r.queues[n.id];
    } else {
      assert r.started[..|p.started|] == p.started;
    }
  }

  /** A drain pass: `nodes.forEach` visiting the servers in list order. */
  function DrainPass(queues: map<string, seq<Item>>, busy: set<string>, nodes: seq<Node>): Pass
    requires WeightsInRange(nodes)
    decreases |nodes|
  {
    if nodes == [] then Pass(queues, busy, [])
    else Visit(DrainPass(queues, busy, nodes[..|nodes| - 1]), nodes[|nodes| - 1])
  }

  lemma IdsSnoc(nodes: seq<Node>, i: nat)
    requires i < |nodes|
    ensures Ids(nodes[..i + 1]) == Ids(nodes[..i]) + {nodes[i].id}
  {
    var a, b := nodes[..i + 1], nodes[..i];
    forall x | x in Ids(a) ensures x in Ids(b) + {nodes[i].id} {
      var j :| 0 <= j < |a| && a[j].id == x;
      if j < i { assert b[j].id == x; }
    }
    forall x | x in Ids(b) + {nodes[i].id} ensures x in Ids(a) {
      if x == nodes[i].id {
        assert a[i].id == x;
      } else {
        var j :| 0 <= j < |b| && b[j].id == x;
        assert a[j].id == x;
      }
    }
  }

  /** Splitting off the last server: it is new (ids are distinct), and it
      is among the ready ones exactly when it is ready. */
  lemma ReadyIdsSnoc(queues: map<string, seq<Item>>, busy: set<string>, nodes: seq<Node>)
    requires DistinctIds(nodes) && nodes != []
    ensures var n, init := nodes[|nodes| - 1], nodes[..|nodes| - 1];
      && n.id !in Ids(init)
      && Ids(nodes) == Ids(init) + {n.id}
      && ReadyIds(queues, busy, nodes)
         == ReadyIds(queues, busy, init) + (if Ready(queues, busy, n.id) then {n.id} else {})
  {
    var i := |nodes| - 1;
    IdsSnoc(nodes, i);
    assert nodes[..i + 1] == nodes;
  }

  /** The `nodes.forEach` loop of the drain effect, on the queues and
      busy set it was given. */
  method RunPass(queues0: map<string, seq<Item>>, busy0: set<string>, nodes: seq<Node>) returns (p: Pass)
    requires WeightsInRange(nodes)
    ensures p == DrainPass(queues0, busy0, nodes)
  {
    var queues, busy, started := queues0, busy0, [];
    var i := 0;
    while i < |nodes|
      invariant 0 <= i <= |nodes|
      invariant Pass(queues, busy, started) == DrainPass(queues0, busy0, nodes[..i])
    {
      var node := nodes[i];
      assert nodes[..i + 1][..i] == nodes[..i];
      if Ready(queues, busy, node.id) {
        started := started + [Service(node.id, queues[node.id][0], ServiceTime(node.weight))];
        queues := queues[node.id := queues[node.id][1..]];
        busy := busy + {node.id};
      }
      i := i + 1;
    }
    assert nodes[..i] == nodes;
    p := Pass(queues, busy, started);
  }

  /** The pass, server by server: with distinct ids a server visited late
      is ready exactly when it was ready before the pass began, so the
      ready servers lose their queue head and become busy, and nothing else
      changes. */
  lemma {:induction false} DrainPassPointwise(queues: map<string, seq<Item>>, busy: set<string>, nodes: seq<Node>)
    requires DistinctIds(nodes) && WeightsInRange(nodes)
    ensures var p, ready := DrainPass(queues, busy, nodes), ReadyIds(queues, busy, nodes);
      && p.queues.Keys == queues.Keys
      && (forall k :: k in queues ==> p.queues[k] == if k in ready then queues[k][1..] else queues[k])
      && p.busy == busy + ready
    decreases |nodes|
  {
    if nodes != [] {
      var n, init := nodes[|nodes| - 1], nodes[..|nodes| - 1];
      ReadyIdsSnoc(queues, busy, nodes);
      DrainPassPointwise(queues, busy, init);
    }
  }

  /** A pass leaves the queues as `Drained` says and adds exactly the
      ready servers to the busy set. */
  lemma DrainPassMatches(queues: map<string, seq<Item>>, busy: set<string>, nodes: seq<Node>)
    requires DistinctIds(nodes) && WeightsInRange(nodes)
    ensures var p := DrainPass(queues, busy, nodes);
      && p.queues == Drained(queues, busy, nodes)
      && p.busy == busy + ReadyIds(queues, busy, nodes)
  {
    DrainPassPointwise(queues, busy, nodes);
  }

  /** Each service a pass starts belongs to a ready server, takes the head
      of that server's queue as it stood before the pass and lasts
      `6000 / weight` for that server's current weight; every ready server
      gets exactly one. */
  lemma {:induction false} StartsSound(queues: map<string, seq<Item>>, busy: set<string>, nodes: seq<Node>)
    requires DistinctIds(nodes) && WeightsInRange(nodes)
    ensures var r := DrainPass(queues, busy, nodes).started;
      && StartedIds(r) == ReadyIds(queues, busy, nodes)
      && (forall i, j :: 0 <= i < j < |r| ==> r[i].nodeId != r[j].nodeId)
      && (forall s :: s in r ==>
            && Ready(queues, busy, s.nodeId)
            && s.item == queues[s.nodeId][0]
            && WeightOf(nodes, s.nodeId) > 0
            && s.duration == ServiceTime(WeightOf(nodes, s.nodeId)))
    decreases |nodes|
  {
    if nodes != [] {
      var n, init := nodes[|nodes| - 1], nodes[..|nodes| - 1];
      ReadyIdsSnoc(queues, busy, nodes);
      StartsSound(queues, busy, init);
      DrainPassPointwise(queues, busy, init);
      var p0 := DrainPass(queues, busy, init);
      var r0 := p0.started;
      var r := DrainPass(queues, busy, nodes).started;
      assert n.id !in ReadyIds(queues, busy, init);
      forall s | s in r0 ensures WeightOf(nodes, s.nodeId) == WeightOf(init, s.nodeId) {
        assert s.nodeId in Ids(init);
      }
      if Ready(queues, busy, n.id) {
        var x := Service(n.id, queues[n.id][0], ServiceTime(n.weight));
        assert r == r0 + [x];
        assert StartedIds(r) == StartedIds(r0) + {n.id};
        forall i, j | 0 <= i < j < |r| ensures r[i].nodeId != r[j].nodeId {
          if j == |r0| {
            assert r[i] in r0;
          } else {
            assert r[i] == r0[i] && r[j] == r0[j];
          }
        }
      } else {
        assert r == r0;
      }
    }
  }

  /** A pass moves items from the queues to the servers without loss or
      duplication: what stays queued plus what was taken is what was
      queued. */
  lemma {:induction false} DrainConserves(queues: map<string, seq<Item>>, busy: set<string>, nodes: seq<Node>)
    requires WeightsInRange(nodes)
    ensures var p := DrainPass(queues, busy, nodes);
      QueuedItems(p.queues) + ServedItems(p.started) == QueuedItems(queues)
    decreases |nodes|
  {
    if nodes != [] {
      var n, init := nodes[|nodes| - 1], nodes[..|nodes| - 1];
      DrainConserves(queues, busy, init);
      var p0 := DrainPass(queues, busy, init);
      var p := DrainPass(queues, busy, nodes);
      if Ready(p0.queues, p0.busy, n.id) {
        QueuedItemsPop(p0.queues, n.id, p.queues);
        assert p.started[..|p.started| - 1] == p0.started;
      }
    }
  }

  /** A pass in which no server is ready changes nothing and starts nothing. */
  lemma {:induction false} NoneReadyFixed(queues: map<string, seq<Item>>, busy: set<string>, nodes: seq<Node>)
    requires WeightsInRange(nodes)
    requires forall i :: 0 <= i < |nodes| ==> !Ready(queues, busy, nodes[i].id)
    ensures DrainPass(queues, busy, nodes) == Pass(queues, busy, [])
    decreases |nodes|
  {
    if nodes != [] {
      NoneReadyFixed(queues, busy, nodes[..|nodes| - 1]);
    }
  }

  /** Drain is idempotent: right after a pass no server is ready, so a
      second pass starts nothing and changes no queue. */
  lemma DrainIdempotent(queues: map<string, seq<Item>>, busy: set<string>, nodes: seq<Node>)
    requires DistinctIds(nodes) && WeightsInRange(nodes)
    ensures var p := DrainPass(queues, busy, nodes);
      && ReadyIds(p.queues, p.busy, nodes) == {}
      && DrainPass(p.queues, p.busy, nodes) == Pass(p.queues, p.busy, [])
  {
    var p := DrainPass(queues, busy, nodes);
    DrainPassMatches(queues, busy, nodes);
    forall i | 0 <= i < |nodes| ensures !Ready(p.queues, p.busy, nodes[i].id) {
      var k := nodes[i].id;
      assert k in Ids(nodes);
      if k !in ReadyIds(queues, busy, nodes) && k in queues {
        assert p.queues[k] == queues[k];
      }
    }
    NoneReadyFixed(p.queues, p.busy, nodes);
  }

  // ---------------------------------------------------------------------
  // The packet pipeline

  /** The packets between arrival and service: the client backlog, the
      single in-flight slot and the server queues. */
  datatype Flow = Flow(backlog: seq<Item>, slot: Option<Packet>, queues: map<string, seq<Item>>)

  /** The item in the in-flight slot, if any. */
  function SlotItems(slot: Option<Packet>): multiset<Item> {
    if slot.Some? then multiset{slot.value.item} else multiset{}
  }

  /** Every item the pipeline holds. */
  ghost function InFlight(f: Flow): multiset<Item> {
    multiset(f.backlog) + SlotItems(f.slot) + QueuedItems(f.queues)
  }

  /** The pipeline at mount holds nothing. */
  lemma InitialFlowEmpty()
    ensures InFlight(Flow([], None, InitialQueues())) == multiset{}
  {
    QueuedItemsEmpty(InitialQueues());
  }

  /** The items ingestion adds to the pipeline are exactly the new tail of
      the backlog: nothing already in flight is lost or duplicated. */
  lemma IngestAdds(f: Flow, last: Option<int>, responses: seq<Response>, nodes: seq<Node>)
    ensures var s := IngestStep(Intake(f.backlog, last), responses, nodes);
      InFlight(f.(backlog := s.backlog)) == InFlight(f) + multiset(s.backlog[|f.backlog|..])
  {
    var b := IngestStep(Intake(f.backlog, last), responses, nodes).backlog;
    var t := b[|f.backlog|..];
    assert b == f.backlog + t;
    var rest := SlotItems(f.slot) + QueuedItems(f.queues);
    forall x ensures (multiset(b) + SlotItems(f.slot) + QueuedItems(f.queues))[x]
                  == (multiset(f.backlog) + SlotItems(f.slot) + QueuedItems(f.queues) + multiset(t))[x]
    {
      assert multiset(b)[x] == multiset(f.backlog)[x] + multiset(t)[x];
    }
  }

  /** The admission effect: when the slot is empty and the backlog is not,
      the backlog head moves into the slot on its first leg. */
  function Admitted(f: Flow): (r: Flow)
    ensures InFlight(r) == InFlight(f)
    ensures r.queues == f.queues
  {
    if f.slot.None? && |f.backlog| > 0 then
      var r := Flow(f.backlog[1..], Some(Packet(f.backlog[0], ToLoadBalancer)), f.queues);
      assert f.backlog == [f.backlog[0]] + f.backlog[1..];
      assert multiset(f.backlog) == multiset(r.backlog) + SlotItems(r.slot);
      r
    else f
  }

  /** `handlePhaseComplete`, fired when a leg's animation ends: the first
      leg turns into the second; the second hands the packet to the tail of
      its target's queue and empties the slot. */
  function PhaseCompleted(f: Flow): (r: Flow)
    ensures InFlight(r) == InFlight(f)
    ensures r.backlog == f.backlog
  {
    match f.slot
    case None => f
    case Some(p) =>
      if p.phase == ToLoadBalancer then f.(slot := Some(p.(phase := ToApi)))
      else
        var r := Flow(f.backlog, None, Enqueued(f.queues, p.item.targetApi, p.item));
        assert SlotItems(f.slot) + QueuedItems(f.queues) == SlotItems(r.slot) + QueuedItems(r.queues);
        r
  }

  /** A drain pass moves the heads it takes out of the pipeline and into
      the services it starts. */
  lemma DrainTakes(f: Flow, busy: set<string>, nodes: seq<Node>)
    requires WeightsInRange(nodes)
    ensures var p := DrainPass(f.queues, busy, nodes);
      InFlight(f.(queues := p.queues)) + ServedItems(p.started) == InFlight(f)
  {
    var p := DrainPass(f.queues, busy, nodes);
    DrainConserves(f.queues, busy, nodes);
    MultisetMove(multiset(f.backlog) + SlotItems(f.slot), QueuedItems(f.queues), QueuedItems(p.queues),
                 multiset{}, ServedItems(p.started));
    assert multiset{} + ServedItems(p.started) == ServedItems(p.started);
  }

  // ---------------------------------------------------------------------
  // The simulation

  /** The visualizer's simulation state. */
  class Simulation {
    var clientQueue: seq<Item>
    var activePacket: Option<Packet>
    var serverQueues: map<string, seq<Item>>
    var processingNodes: set<string>
    var nodes: seq<Node>
    var lastProcessedId: Option<int>

    /** The packets drawn on the page. */
    ghost function Pipeline(): Flow
      reads this
    {
      Flow(clientQueue, activePacket, serverQueues)
    }

    /** Server ids are distinct, weights stay in 1..10 and only known
        servers are busy. */
    ghost predicate Valid()
      reads this
    {
      && DistinctIds(nodes)
      && WeightsInRange(nodes)
      && processingNodes <= Ids(nodes)
    }

    /** The state at mount: nothing received, five idle servers with empty
        queues. */
    constructor ()
      ensures Valid()
      ensures Pipeline() == Flow([], None, InitialQueues())
      ensures processingNodes == {} && nodes == InitialNodes() && lastProcessedId == None
    {
      clientQueue := [];
      activePacket := None;
      serverQueues := InitialQueues();
      processingNodes := {};
      nodes := InitialNodes();
      lastProcessedId := None;
    }

    /** `handleWeightChange(id, newWeight)`, given `parseInt(newWeight)`:
        only the weight of server `id` changes, and only for a value in
        1..10.  Nothing else changes, so services already started keep the
        duration computed when they started. */
    method WeightChange(id: string, parsed: Option<int>)
      requires Valid()
      modifies this`nodes
      ensures Valid()
      ensures nodes == WeightChanged(old(nodes), id, parsed)
    {
      if AcceptsWeight(parsed) {
        nodes := WithWeight(nodes, id, parsed.value);
      }
    }

    /** The ingestion effect, run with the current `responses` (newest
        first): a novel, non-error newest response is appended to the
        backlog and becomes the last ingested id. */
    method Ingest(responses: seq<Response>)
      requires Valid()
      modifies this`clientQueue, this`lastProcessedId
      ensures Valid()
      ensures Intake(clientQueue, lastProcessedId)
           == IngestStep(Intake(old(clientQueue), old(lastProcessedId)), responses, nodes)
    {
      if IsNovel(responses, lastProcessedId) {
        var latest := responses[0];
        lastProcessedId := Some(latest.id);
        clientQueue := clientQueue + [Item(latest.id, latest.apiName, ColorOf(nodes, latest.apiName))];
      }
    }

    /** The admission effect. */
    method Admit()
      requires Valid()
      modifies this`clientQueue, this`activePacket
      ensures Valid()
      ensures Pipeline() == Admitted(old(Pipeline()))
    {
      if activePacket == None && |clientQueue| > 0 {
        var next := clientQueue[0];
        clientQueue := clientQueue[1..];
        activePacket := Some(Packet(next, ToLoadBalancer));
      }
    }

    /** `handlePhaseComplete`. */
    method PhaseComplete()
      requires Valid()
      modifies this`activePacket, this`serverQueues
      ensures Valid()
      ensures Pipeline() == PhaseCompleted(old(Pipeline()))
    {
      match activePacket {
        case None =>
        case Some(p) =>
          if p.phase == ToLoadBalancer {
            activePacket := Some(p.(phase := ToApi));
          } else {
            serverQueues := Enqueued(serverQueues, p.item.targetApi, p.item);
            activePacket := None;
          }
      }
    }

    /** The drain effect: every server that is idle and has a non-empty
        queue takes its head and becomes busy; the others are untouched,
        and queues of ids that are not servers are never drained.  The
        result lists the timers started. */
    method Drain() returns (started: seq<Service>)
      requires Valid()
      modifies this`serverQueues, this`processingNodes
      ensures Valid()
      ensures Pass(serverQueues, processingNodes, started) == DrainPass(old(serverQueues), old(processingNodes), nodes)
      ensures serverQueues == Drained(old(serverQueues), old(processingNodes), nodes)
      ensures processingNodes == old(processingNodes) + ReadyIds(old(serverQueues), old(processingNodes), nodes)
    {
      var p := RunPass(serverQueues, processingNodes, nodes);
      DrainPassMatches(serverQueues, processingNodes, nodes);
      serverQueues, processingNodes, started := p.queues, p.busy, p.started;
    }

    /** The service timer of server `id` fires: only its busy flag is
        cleared. */
    method ServiceComplete(id: string)
      requires Valid()
      modifies this`processingNodes
      ensures Valid()
      ensures processingNodes == old(processingNodes) - {id}
    {
      processingNodes := processingNodes - {id};
    }
  }
}
