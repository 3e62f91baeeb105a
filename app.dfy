/** The state updates of the top-level `App` component (client/src/App.jsx):
    the newest-first response log, capped at 50 entries, and the map that
    counts responses per serving API.  The HTTP request itself, the clock
    and the time-of-day formatting are inputs. */
module App {
  import opened Wrappers

  /** The log keeps at most this many responses. */
  const MaxResponses: nat := 50
  /** Name recorded when the reply does not say which server answered. */
  const UnknownApi := "Unknown"
  /** Name recorded, and counted, when the request fails. */
  const ErrorApi := "Error"
  const ErrorText := "Error: Could not reach load balancer"

  /** One entry of the response log. */
  datatype Response = Response(text: string, apiName: string, timestamp: string, id: int, isError: bool)

  /** The decoded JSON body of a successful reply. */
  datatype Reply = Reply(message: string, servedBy: Option<string>)

  /** What `fetch` followed by `res.json()` produced: a reply, or an exception. */
  datatype Outcome = Served(reply: Reply) | Unreachable

  function Min(a: int, b: int): int {
    if a <= b then a else b
  }

  /** `data.servedBy || "Unknown"`: a missing or empty name becomes "Unknown". */
  function ApiName(servedBy: Option<string>): (name: string)
    ensures name != ""
    ensures servedBy.Some? && servedBy.value != "" ==> name == servedBy.value
    ensures servedBy.None? || servedBy.value == "" ==> name == UnknownApi
  {
    match servedBy
    case Some(s) => if s != "" then s else UnknownApi
    case None => UnknownApi
  }

  /** The entry logged for a reply. */
  function SuccessRecord(reply: Reply, timestamp: string, id: int): Response {
    Response(reply.message, ApiName(reply.servedBy), timestamp, id, false)
  }

  /** The entry logged when the request fails. */
  function FailureRecord(timestamp: string, id: int): Response {
    Response(ErrorText, ErrorApi, timestamp, id, true)
  }

  /** `[r, ...log].slice(0, 50)`: the new entry goes first, the oldest
      entries beyond the cap fall off the end. */
  function Logged(log: seq<Response>, r: Response): (log': seq<Response>)
    ensures |log'| == Min(|log| + 1, MaxResponses)
    ensures log'[0] == r
    ensures forall i :: 0 < i < |log'| ==> log'[i] == log[i - 1]
  {
    var prepended := [r] + log;
    if |prepended| <= MaxResponses then prepended else prepended[..MaxResponses]
  }

  /** `{...stats, [key]: (stats[key] || 0) + 1}`. */
  function Counted(stats: map<string, nat>, key: string): (stats': map<string, nat>)
    ensures stats'.Keys == stats.Keys + {key}
    ensures stats'[key] == (if key in stats then stats[key] else 0) + 1
    ensures forall k :: k in stats && k != key ==> stats'[k] == stats[k]
  {
    stats[key := (if key in stats then stats[key] else 0) + 1]
  }

  /** The sum of all counters. */
  ghost function Total(stats: map<string, nat>): nat
    decreases stats.Keys
  {
    if stats.Keys == {} then 0
    else
      var k :| k in stats.Keys;
      stats[k] + Total(stats - {k})
  }

  /** Any key can be taken out first: the sum does not depend on the order. */
  lemma {:induction false} TotalWithout(stats: map<string, nat>, k: string)
    requires k in stats
    ensures Total(stats) == stats[k] + Total(stats - {k})
    decreases stats.Keys
  {
    var j :| j in stats.Keys && Total(stats) == stats[j] + Total(stats - {j});
    if j != k {
      assert stats - {j} - {k} == stats - {k} - {j};
      TotalWithout(stats - {j}, k);
      TotalWithout(stats - {k}, j);
    }
  }

  /** Counting a response raises the sum of the counters by exactly one. */
  lemma TotalCounted(stats: map<string, nat>, key: string)
    ensures Total(Counted(stats, key)) == Total(stats) + 1
  {
    var c := Counted(stats, key);
    TotalWithout(c, key);
    assert c - {key} == stats - {key};
    if key in stats {
      TotalWithout(stats, key);
    } else {
      assert stats - {key} == stats;
    }
  }

  /** The state `App` keeps: the log and the per-API counters.  The ghost
      `received` counts the responses since the last clear. */
  class AppState {
    var responses: seq<Response>
    var apiStats: map<string, nat>
    ghost var received: nat

    /** The counters add up to the number of responses received, and the log
        holds the newest of them, never more than the cap. */
    ghost predicate Valid()
      reads this
    {
      && Total(apiStats) == received
      && |responses| == Min(received, MaxResponses)
    }

    constructor ()
      ensures Valid()
      ensures responses == [] && apiStats == map[] && received == 0
    {
      responses := [];
      apiStats := map[];
      received := 0;
    }

    /** `sendRequest` once the request has settled.  A reply is logged under
        its server's name and counted there; a failure is logged as an
        error record and counted under "Error". */
    method SendRequest(outcome: Outcome, timestamp: string, id: int)
      requires Valid()
      modifies this
      ensures Valid() && received == old(received) + 1
      ensures outcome.Served? ==>
        && responses == Logged(old(responses), SuccessRecord(outcome.reply, timestamp, id))
        && apiStats == Counted(old(apiStats), ApiName(outcome.reply.servedBy))
      ensures outcome.Unreachable? ==>
        && responses == Logged(old(responses), FailureRecord(timestamp, id))
        && apiStats == Counted(old(apiStats), ErrorApi)
    {
      var record, name;
      match outcome {
        case Served(reply) =>
          name := ApiName(reply.servedBy);
          record := SuccessRecord(reply, timestamp, id);
        case Unreachable =>
          name := ErrorApi;
          record := FailureRecord(timestamp, id);
      }
      TotalCounted(apiStats, name);
      responses := Logged(responses, record);
      apiStats := Counted(apiStats, name);
      received := received + 1;
    }

    /** `clearResponses`: both the log and the counters become empty. */
    method ClearResponses()
      modifies this
      ensures Valid()
      ensures responses == [] && apiStats == map[] && received == 0
    {
      responses := [];
      apiStats := map[];
      received := 0;
    }
  }
}
