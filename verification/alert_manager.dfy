/** `AlertManager` (ccres_api/services/grafana_api/alert_manager.py): alert groups are
    queued with their folder and pushed one by one, each after a request creating its
    folder. The fetched rules are kept for the caller and never consulted. */
module AlertManager {
  import opened Wrappers
  import opened Json
  import opened Exceptions
  import opened AcceptableCodes
  import opened Http

  /** A queued entry `{folder: [group]}`: `add_alert` always builds a one-key dictionary
      holding a one-element list, so the two inner loops of `push` visit exactly this pair. */
  datatype Queued = Queued(folder: string, group: Json)

  /** `fetched` is `fetched_json`, `queue` is `_alerts`. */
  datatype Manager = Manager(url: string, fetched: Json, queue: seq<Queued>)

  const DefaultFolder := "Alerts"

  function RulesEndpoint(url: string): string {
    url + "/ruler/grafana/api/v1/rules"
  }

  function FoldersEndpoint(url: string): string {
    url + "/folders"
  }

  /** The dictionary `add_alert` appends. */
  function EntryJson(e: Queued): Json {
    Single(e.folder, JArr([e.group]))
  }

  /** `__init__`: the rules are fetched first; the queue starts empty. */
  function New(url: string, res: Response): (r: Result<Manager, Error>)
    ensures r.Ok? <==> IsAcceptable(res.status)
    ensures r.Err? ==> r.error.HttpError? && r.error.status == res.status
    ensures r.Ok? ==> r.value.url == url && r.value.fetched == res.body && r.value.queue == []
  {
    var body :- CheckFetch(res);
    Ok(Manager(url, body, []))
  }

  /** `fetch`: only the fetched document changes. */
  function Fetch(m: Manager, res: Response): (r: Result<Manager, Error>)
    ensures r.Ok? <==> IsAcceptable(res.status)
    ensures r.Err? ==> r.error.HttpError? && r.error.status == res.status
    ensures r.Ok? ==> r.value.fetched == res.body && r.value.queue == m.queue && r.value.url == m.url
  {
    var body :- CheckFetch(res);
    Ok(m.(fetched := body))
  }

  /** `add_alert`: a missing folder is `"Alerts"`; `group` is the group's JSON (an
      `AlertGroup` contributes its `to_json_data()`). */
  function AddAlert(m: Manager, group: Json, folder: Option<string>): (r: Manager)
    ensures |r.queue| == |m.queue| + 1 && r.queue[..|m.queue|] == m.queue
    ensures r.queue[|m.queue|].group == group
    ensures r.queue[|m.queue|].folder == if folder.Some? then folder.value else DefaultFolder
    ensures r.fetched == m.fetched && r.url == m.url
  {
    var f := if folder.None? then DefaultFolder else folder.value;
    m.(queue := m.queue + [Queued(f, group)])
  }

  /** The two requests one entry costs: create its folder, then post its group there. */
  function EntryRequests(url: string, e: Queued): seq<Request> {
    [POST(FoldersEndpoint(url), Single("title", JStr(e.folder))), POST(RulesEndpoint(url) + "/" + e.folder, e.group)]
  }

  /** The requests of a run over `q` that sends every entry. */
  function Requests(url: string, q: seq<Queued>): (r: seq<Request>)
    ensures |r| == 2 * |q|
    decreases |q|
  {
    if |q| == 0 then [] else Requests(url, q[..|q| - 1]) + EntryRequests(url, q[|q| - 1])
  }

  /** Entry `k` is the folder request `2k` followed by the group request `2k + 1`. */
  lemma {:induction false} RequestsAt(url: string, q: seq<Queued>, k: nat)
    requires k < |q|
    ensures Requests(url, q)[2 * k] == POST(FoldersEndpoint(url), Single("title", JStr(q[k].folder)))
    ensures Requests(url, q)[2 * k + 1] == POST(RulesEndpoint(url) + "/" + q[k].folder, q[k].group)
  {
    var n := |q| - 1;
    if k < n {
      RequestsAt(url, q[..n], k);
      assert q[..n][k] == q[k];
    }
  }

  /** The response to entry `k`'s group request; the folder request's is never read. */
  function GroupResponse(net: Network, k: nat): Response {
    net(2 * k + 1)
  }

  /** The first `n` group requests were all accepted. */
  predicate AcceptedUpTo(net: Network, n: nat) {
    forall k: nat :: k < n ==> IsAcceptable(GroupResponse(net, k).status)
  }

  /** Sending one more entry appends its two requests. */
  lemma RequestsStep(url: string, q: seq<Queued>, k: nat)
    requires k < |q|
    ensures Requests(url, q[..k + 1]) == Requests(url, q[..k]) + EntryRequests(url, q[k])
  {
    assert q[..k + 1][..k] == q[..k] && q[..k + 1][k] == q[k];
  }

  /** A refused group before the end of the queue means the queue was not all accepted. */
  lemma RefusedAt(net: Network, k: nat, n: nat)
    requires k < n && !IsAcceptable(GroupResponse(net, k).status)
    ensures !AcceptedUpTo(net, n)
  {
  }

  /** `push` over the answers `net`: it returns the requests sent and, when every group was
      accepted, one response per entry in queue order; the first group refused raises, and
      nothing after it is sent. The queue is left as it is, so pushing again sends it all again. */
  method Push(m: Manager, net: Network) returns (sent: seq<Request>, r: Result<seq<Response>, Error>)
    ensures r.Ok? <==> AcceptedUpTo(net, |m.queue|)
    ensures r.Ok? ==> && sent == Requests(m.url, m.queue)
                      && |r.value| == |m.queue|
                      && forall k :: 0 <= k < |m.queue| ==> r.value[k] == GroupResponse(net, k)
    ensures r.Err? ==> exists k :: && 0 <= k < |m.queue| && AcceptedUpTo(net, k)
                                   && !IsAcceptable(GroupResponse(net, k).status)
                                   && sent == Requests(m.url, m.queue[..k + 1])
                                   && r.error == HttpError(GroupResponse(net, k).status, StatusLine(GroupResponse(net, k)))
  {
    var responses: seq<Response> := [];
    sent := [];
    for k := 0 to |m.queue|
      invariant sent == Requests(m.url, m.queue[..k])
      invariant AcceptedUpTo(net, k)
      invariant |responses| == k
      invariant forall j :: 0 <= j < k ==> responses[j] == GroupResponse(net, j)
    {
      RequestsStep(m.url, m.queue, k);
      sent := sent + EntryRequests(m.url, m.queue[k]);
      var res := net(2 * k + 1);
      if !IsAcceptable(res.status) {
        RefusedAt(net, k, |m.queue|);
        return sent, Err(HttpError(res.status, StatusLine(res)));
      }
      responses := responses + [res];
    }
    assert m.queue[..|m.queue|] == m.queue;
    r := Ok(responses);
  }
}
