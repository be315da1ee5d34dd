/** The status codes the Grafana clients treat as success
    (`AcceptableCodes` in grafana_api/base.py). */
module AcceptableCodes {

  /** The enumeration's members, in declaration order. */
  datatype Code = OK | POSTACCEPTED | EXISTS | CREATED

  function Value(c: Code): int {
    match c
    case OK => 200            // Ok
    case POSTACCEPTED => 202
    case EXISTS => 409        // already created
    case CREATED => 412       // created by someone else
  }

  const Members: seq<Code> := [OK, POSTACCEPTED, EXISTS, CREATED]

  /** `AcceptableCodes.list()`: the value of every member, in declaration order. */
  function List(): (r: seq<int>)
    ensures r == [200, 202, 409, 412]
    ensures forall i, j :: 0 <= i < j < |r| ==> r[i] != r[j]
  {
    seq(|Members|, i requires 0 <= i < |Members| => Value(Members[i]))
  }

  predicate IsAcceptable(status: int) {
    status in List()
  }

  /** A status is acceptable exactly when it is 200, 202, 409 or 412. */
  lemma AcceptableExactly(status: int)
    ensures IsAcceptable(status) <==> status == 200 || status == 202 || status == 409 || status == 412
  {
    assert List() == [200, 202, 409, 412];
  }

  /** No two members share a value, so none of them is an alias. */
  lemma NoAliases(a: Code, b: Code)
    ensures Value(a) == Value(b) ==> a == b
  {
  }
}

/** Requests sent to Grafana and the responses that come back. The network is
    abstract: a response is whatever the caller supplies. */
module Http {
  import opened Wrappers
  import opened Strings
  import opened Exceptions
  import opened Json
  import opened AcceptableCodes

  datatype Request = GET(url: string) | POST(url: string, body: Json)

  /** `content` is the text Python renders for the raw body; `body` is `res.json()`. */
  datatype Response = Response(status: int, content: string, body: Json)

  /** The responses to a run of requests: `net(k)` answers the k-th request sent. */
  type Network = nat -> Response

  const FetchPrefix := "Unable to get the current configuration\n"
  const ContactHint := "\nMaybe the contact point does not exist ?"

  /** `f"[{res.status_code}] : {res.content}"` */
  function StatusLine(res: Response): string {
    "[" + IntToString(res.status) + "] : " + res.content
  }

  /** The status check every `fetch` performs before decoding the body. */
  function CheckFetch(res: Response): (r: Result<Json, Error>)
    ensures r.Ok? <==> IsAcceptable(res.status)
    ensures r.Ok? ==> r.value == res.body
    ensures r.Err? ==> r.error.HttpError? && r.error.status == res.status
  {
    if IsAcceptable(res.status) then Ok(res.body)
    else Err(HttpError(res.status, FetchPrefix + StatusLine(res)))
  }

  /** The status check after a POST; `hint` adds the contact-point hint on a 400. */
  function CheckPost(res: Response, hint: bool): (r: Result<Response, Error>)
    ensures r.Ok? <==> IsAcceptable(res.status)
    ensures r.Ok? ==> r.value == res
    ensures r.Err? ==> r.error.HttpError? && r.error.status == res.status
  {
    if IsAcceptable(res.status) then Ok(res)
    else if hint && res.status == 400 then Err(HttpError(res.status, StatusLine(res) + ContactHint))
    else Err(HttpError(res.status, StatusLine(res)))
  }
}
