/** `FolderManager` (ccres_api/services/grafana_api/folder_manager.py): folders are queued
    as dictionaries and posted one by one, stopping at the first refusal. */
module FolderManager {
  import opened Wrappers
  import opened Dict
  import opened Json
  import opened Exceptions
  import opened AcceptableCodes
  import opened Http
  import ContactAddons

  /** `fetched` is `fetched_json`, `queue` is `_folders`. */
  datatype Manager = Manager(url: string, fetched: Json, queue: seq<Json>)

  /** The argument of `add_folder`: a `Folder` or a plain dictionary. */
  datatype FolderArg = TypedFolder(folder: ContactAddons.Folder) | RawFolder(dict: Json)

  function Endpoint(url: string): string {
    url + "/folders/"
  }

  function FolderDict(a: FolderArg): Json {
    match a
    case TypedFolder(f) => ContactAddons.FolderJson(f)
    case RawFolder(d) => d
  }

  /** `__init__`: the folders are fetched first; the queue starts empty. */
  function New(url: string, res: Response): (r: Result<Manager, Error>)
    ensures r.Ok? <==> IsAcceptable(res.status)
    ensures r.Err? ==> r.error.HttpError? && r.error.status == res.status
    ensures r.Ok? ==> r.value.url == url && r.value.fetched == res.body && r.value.queue == []
  {
    var body :- CheckFetch(res);
    Ok(Manager(url, body, []))
  }

  /** `fetch`: only the fetched document changes. */
  function Fetch(m: Manager, res: Response): (r: Result<Manager, Error>)
    ensures r.Ok? <==> IsAcceptable(res.status)
    ensures r.Err? ==> r.error.HttpError? && r.error.status == res.status
    ensures r.Ok? ==> r.value.fetched == res.body && r.value.queue == m.queue && r.value.url == m.url
  {
    var body :- CheckFetch(res);
    Ok(m.(fetched := body))
  }

  /** `add_folder`. */
  function AddFolder(m: Manager, a: FolderArg): Manager {
    m.(queue := m.queue + [FolderDict(a)])
  }

  /** Exactly one dictionary is queued, after the others; a `Folder` is queued as its
      serialization: `title` is its name and `uid` is there exactly when it is set. */
  lemma AddFolderSpec(m: Manager, a: FolderArg)
    ensures var r := AddFolder(m, a);
      && |r.queue| == |m.queue| + 1 && r.queue[..|m.queue|] == m.queue
      && r.fetched == m.fetched && r.url == m.url
      && (a.RawFolder? ==> r.queue[|m.queue|] == a.dict)
      && (a.TypedFolder? ==>
            && r.queue[|m.queue|].JObj?
            && Get(r.queue[|m.queue|].fields, "title") == Some(JStr(a.folder.name))
            && (HasKey(r.queue[|m.queue|].fields, "uid") <==> a.folder.uid.Some?))
  {
    var r := AddFolder(m, a);
    assert r.queue[..|m.queue|] == m.queue;
    if a.TypedFolder? {
      ContactAddons.FolderJsonSpec(a.folder);
    }
  }

  /** The requests of a run that posts every queued folder, in queue order. */
  function Requests(url: string, q: seq<Json>): (r: seq<Request>)
    ensures |r| == |q|
    ensures forall k :: 0 <= k < |q| ==> r[k] == POST(Endpoint(url), q[k])
  {
    seq(|q|, k requires 0 <= k < |q| => POST(Endpoint(url), q[k]))
  }

  /** The first `n` posts were all accepted. */
  predicate AcceptedUpTo(net: Network, n: nat) {
    forall k: nat :: k < n ==> IsAcceptable(net(k).status)
  }

  /** `push` over the answers `net`: it returns the requests sent and, when every folder
      was accepted, their responses in queue order; the first refusal raises and nothing
      after it is posted. The queue is left as it is. */
  method Push(m: Manager, net: Network) returns (sent: seq<Request>, r: Result<seq<Response>, Error>)
    ensures r.Ok? <==> AcceptedUpTo(net, |m.queue|)
    ensures r.Ok? ==> && sent == Requests(m.url, m.queue)
                      && |r.value| == |m.queue|
                      && forall k :: 0 <= k < |m.queue| ==> r.value[k] == net(k)
    ensures r.Err? ==> exists k :: && 0 <= k < |m.queue| && AcceptedUpTo(net, k) && !IsAcceptable(net(k).status)
                                   && sent == Requests(m.url, m.queue[..k + 1])
                                   && r.error == HttpError(net(k).status, StatusLine(net(k)))
  {
    var responses: seq<Response> := [];
    sent := [];
    for k := 0 to |m.queue|
      invariant sent == Requests(m.url, m.queue[..k])
      invariant AcceptedUpTo(net, k)
      invariant responses == seq(k, j requires 0 <= j < k => net(j))
    {
      sent := sent + [POST(Endpoint(m.url), m.queue[k])];
      assert sent == Requests(m.url, m.queue[..k + 1]);
      var res := net(k);
      if !IsAcceptable(res.status) {
        assert !AcceptedUpTo(net, |m.queue|);
        return sent, Err(HttpError(res.status, StatusLine(res)));
      }
      responses := responses + [res];
    }
    assert m.queue[..|m.queue|] == m.queue;
    r := Ok(responses);
  }

  /** 409 ("already created") and 412 ("created by someone else") are accepted, so a push
      whose folders all exist already succeeds. */
  lemma ExistingFoldersAccepted(net: Network, n: nat)
    requires forall k: nat :: k < n ==> net(k).status == 409 || net(k).status == 412
    ensures AcceptedUpTo(net, n)
  {
    forall k: nat | k < n
      ensures IsAcceptable(net(k).status)
    {
      AcceptableExactly(net(k).status);
    }
  }
}
