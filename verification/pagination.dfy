/**
 The pagination loop of `fetch_paginated_data.py`, with the HTTP layer
 replaced by a response oracle: `replies[i]` is what the server answers to the
 script's request number `i` (counting from 0). The loop is a state machine
 over (accumulated items, page token, page count), bounded by `MaxPages`.
 */
module Pagination {
  import opened Json
  import opened Outcomes

  /** The script's safety limit on the number of requests. */
  const MaxPages: nat := 20

  /** A response body as read from the connection. */
  datatype Body =
    | Decoded(v: Value)   // valid UTF-8 holding valid JSON
    | Malformed           // `json.loads` raises JSONDecodeError
    | Unreadable          // reading or UTF-8 decoding the body raises

  /** What one HTTP request comes back with. */
  datatype Response =
    | Reply(status: int, body: Body)
    | NetworkError        // URLError: DNS failure, refused connection, timeout

  /** The query of one request: the page size, and a page token when the
      previous page returned one. URL, headers and timeout are fixed. */
  datatype Request = Request(pageSize: Value, token: Option<Value>)

  /** The requests the script issues, in order, and how it ends. */
  datatype Run = Run(requests: seq<Request>, outcome: Outcome)

  /** How the script treats one response: a page contributing `items` and
      announcing the token `next`, or an abort of the whole run. */
  datatype PageStep = Page(items: seq<Value>, next: Value) | Abort(error: Error)

  /** The items `response_data.get("list", [])` contributes: the array when
      the field holds one, nothing when it is missing or holds anything else. */
  function ListItems(fields: map<string, Value>): seq<Value>
  {
    match Get(fields, "list", Arr([]))
    case Arr(items) => items
    case _ => []
  }

  function Classify(r: Response): (s: PageStep)
    ensures s.Page? <==>
      r.Reply? && 200 <= r.status < 300 && r.body.Decoded? && r.body.v.Obj?
    ensures r.NetworkError? ==> s == Abort(NetworkFailure)
    ensures r.Reply? && !(200 <= r.status < 300) ==> s == Abort(HttpStatus(r.status))
    ensures r.Reply? && 200 <= r.status < 300 && r.body.Malformed? ==> s == Abort(ResponseNotJson)
    // an unreadable body, or one that decodes to something other than an object
    ensures r.Reply? && 200 <= r.status < 300 && !r.body.Malformed? && !(r.body.Decoded? && r.body.v.Obj?) ==>
      s == Abort(Unexpected)
    ensures s.Page? ==>
      var fields := r.body.v.fields;
      && (("list" in fields && fields["list"].Arr?) ==> s.items == fields["list"].items)
      && (!("list" in fields && fields["list"].Arr?) ==> s.items == [])
      && ("nextPageToken" in fields ==> s.next == fields["nextPageToken"])
      && ("nextPageToken" !in fields ==> s.next == Null)
  {
    match r
    case NetworkError => Abort(NetworkFailure)
    case Reply(status, body) =>
      if status < 200 || status >= 300 then Abort(HttpStatus(status))
      else
        match body
        case Unreadable => Abort(Unexpected)
        case Malformed => Abort(ResponseNotJson)
        case Decoded(v) =>
          match v
          case Obj(fields) => Page(ListItems(fields), Get(fields, "nextPageToken", Null))
          // `.get` on a list, string, number, boolean or null raises AttributeError
          case _ => Abort(Unexpected)
  }

  /** The reply is a page that announces a further page. */
  predicate Continues(r: Response)
  {
    Classify(r).Page? && Truthy(Classify(r).next)
  }

  /** The token a reply hands to the next request (null for an abort). */
  function NextToken(r: Response): Value
  {
    match Classify(r)
    case Page(_, next) => next
    case Abort(_) => Null
  }

  /** The items a reply contributes (none for an abort). */
  function PageItems(r: Response): seq<Value>
  {
    match Classify(r)
    case Page(items, _) => items
    case Abort(_) => []
  }

  /** Reference definition: the concatenation, in order, of the items of
      replies `lo` up to (not including) `hi`. */
  function Gathered(replies: seq<Response>, lo: nat, hi: nat): seq<Value>
    requires lo <= hi <= |replies|
    decreases hi - lo
  {
    if lo == hi then [] else PageItems(replies[lo]) + Gathered(replies, lo + 1, hi)
  }

  /** Gathering one more reply appends its items at the end. */
  lemma {:induction false} GatheredAppend(replies: seq<Response>, lo: nat, hi: nat)
    requires lo <= hi < |replies|
    ensures Gathered(replies, lo, hi + 1) == Gathered(replies, lo, hi) + PageItems(replies[hi])
    decreases hi - lo
  {
    if lo < hi {
      GatheredAppend(replies, lo + 1, hi);
    }
  }

  /** The request the loop builds from the current token. */
  function MakeRequest(pageSize: Value, token: Value): Request
  {
    Request(pageSize, if Truthy(token) then Some(token) else None)
  }

  /** The loop from page `count` on, with `token` the last token received,
      `acc` the items gathered so far and `sent` the requests issued so far. */
  function Loop(pageSize: Value, replies: seq<Response>, count: nat, token: Value,
                acc: seq<Value>, sent: seq<Request>): Run
    requires count <= MaxPages <= |replies|
    decreases MaxPages - count
  {
    if count == MaxPages then
      // cap reached: logged as an error, but the partial list is printed
      Run(sent, Success(acc))
    else
      var requests := sent + [MakeRequest(pageSize, token)];
      match Classify(replies[count])
      case Abort(e) => Run(requests, Failure(e))
      case Page(items, next) =>
        if !Truthy(next) then Run(requests, Success(acc + items))
        else Loop(pageSize, replies, count + 1, next, acc + items, requests)
  }

  lemma {:induction false} LoopRequests(pageSize: Value, replies: seq<Response>, count: nat,
                                        token: Value, acc: seq<Value>, sent: seq<Request>)
    requires count <= MaxPages <= |replies|
    requires |sent| == count
    ensures var reqs := Loop(pageSize, replies, count, token, acc, sent).requests;
      && count <= |reqs| <= MaxPages
      && reqs[..count] == sent
      && (forall j :: count <= j < |reqs| ==> reqs[j].pageSize == pageSize)
      && (count < |reqs| ==> reqs[count] == MakeRequest(pageSize, token))
      && (forall j :: count < j < |reqs| ==> reqs[j].token == Some(NextToken(replies[j - 1])))
    decreases MaxPages - count
  {
    if count < MaxPages {
      var requests := sent + [MakeRequest(pageSize, token)];
      match Classify(replies[count])
      case Abort(e) =>
      case Page(items, next) =>
        if Truthy(next) {
          LoopRequests(pageSize, replies, count + 1, next, acc + items, requests);
          var reqs := Loop(pageSize, replies, count + 1, next, acc + items, requests).requests;
          assert reqs[..count + 1] == requests;
          assert reqs[..count] == requests[..count];
          assert reqs[count] == requests[count];
        }
    }
  }

  lemma {:induction false} LoopStops(pageSize: Value, replies: seq<Response>, count: nat,
                                     token: Value, acc: seq<Value>, sent: seq<Request>)
    requires count <= MaxPages <= |replies|
    requires |sent| == count
    ensures var n := |Loop(pageSize, replies, count, token, acc, sent).requests|;
      && n <= MaxPages
      && (count < MaxPages ==> count < n)
      && (forall j :: count <= j < n - 1 ==> Continues(replies[j]))
      && (n < MaxPages ==> count < n && !Continues(replies[n - 1]))
    decreases MaxPages - count
  {
    if count < MaxPages {
      match Classify(replies[count])
      case Abort(e) =>
      case Page(items, next) =>
        if Truthy(next) {
          LoopStops(pageSize, replies, count + 1, next, acc + items, sent + [MakeRequest(pageSize, token)]);
        }
    }
  }

  lemma {:induction false} LoopOutcome(pageSize: Value, replies: seq<Response>, count: nat,
                                       token: Value, acc: seq<Value>, sent: seq<Request>)
    requires count <= MaxPages <= |replies|
    requires |sent| == count
    ensures var run := Loop(pageSize, replies, count, token, acc, sent);
      var n := |run.requests|;
      && count <= n <= MaxPages
      && (count < n && Classify(replies[n - 1]).Abort? ==>
            run.outcome == Failure(Classify(replies[n - 1]).error))
      && (!(count < n && Classify(replies[n - 1]).Abort?) ==>
            run.outcome == Success(acc + Gathered(replies, count, n)))
    decreases MaxPages - count
  {
    if count < MaxPages {
      match Classify(replies[count])
      case Abort(e) =>
      case Page(items, next) =>
        if Truthy(next) {
          LoopOutcome(pageSize, replies, count + 1, next, acc + items, sent + [MakeRequest(pageSize, token)]);
        }
    }
  }

  /** The loop as the script runs it: no token, nothing gathered, no request
      sent yet. */
  function Paginate(pageSize: Value, replies: seq<Response>): (r: Run)
    requires MaxPages <= |replies|
    // at most 20 requests, each with the same page size
    ensures 1 <= |r.requests| <= MaxPages
    ensures forall j :: 0 <= j < |r.requests| ==> r.requests[j].pageSize == pageSize
    // the first request has no token; every later one carries the previous reply's token
    ensures r.requests[0].token == None
    ensures forall j :: 0 < j < |r.requests| ==> r.requests[j].token == Some(NextToken(replies[j - 1]))
    // every reply but the last announced a further page; the last one did not, or the cap was hit
    ensures forall j :: 0 <= j < |r.requests| - 1 ==> Continues(replies[j])
    ensures |r.requests| < MaxPages ==> !Continues(replies[|r.requests| - 1])
  {
    LoopRequests(pageSize, replies, 0, Null, [], []);
    LoopStops(pageSize, replies, 0, Null, [], []);
    Loop(pageSize, replies, 0, Null, [], [])
  }

  /** A failing reply aborts the run with its error; otherwise the run
      succeeds with the items of all pages fetched, concatenated in order. */
  lemma PaginateOutcome(pageSize: Value, replies: seq<Response>)
    requires MaxPages <= |replies|
    ensures var r := Paginate(pageSize, replies);
      var last := Classify(replies[|r.requests| - 1]);
      && (r.outcome.Failure? <==> last.Abort?)
      && (last.Abort? ==> r.outcome == Failure(last.error))
      && (!last.Abort? ==> r.outcome == Success(Gathered(replies, 0, |r.requests|)))
  {
    LoopOutcome(pageSize, replies, 0, Null, [], []);
  }

  /** If every one of the first 20 replies announces a further page, the run
      stops after 20 requests and still succeeds with what it gathered. */
  lemma CapIsSoftFailure(pageSize: Value, replies: seq<Response>)
    requires MaxPages <= |replies|
    requires forall j :: 0 <= j < MaxPages ==> Continues(replies[j])
    ensures |Paginate(pageSize, replies).requests| == MaxPages
    ensures Paginate(pageSize, replies).outcome == Success(Gathered(replies, 0, MaxPages))
  {
    var n := |Paginate(pageSize, replies).requests|;
    assert Continues(replies[n - 1]);
    PaginateOutcome(pageSize, replies);
  }

  /** The loop as the script writes it: a `while` over the page count that
      leaves early on a falsy token or on a failure. */
  method FetchPages(pageSize: Value, replies: seq<Response>) returns (requests: seq<Request>, outcome: Outcome)
    requires MaxPages <= |replies|
    ensures Run(requests, outcome) == Paginate(pageSize, replies)
  {
    var combined: seq<Value> := [];
    var nextToken := Null;
    var pageCount: nat := 0;
    requests := [];
    while pageCount < MaxPages
      invariant pageCount <= MaxPages
      invariant |requests| == pageCount
      // the loop's own state: the items of the pages so far, the last token, and no stop yet
      invariant combined == Gathered(replies, 0, pageCount)
      invariant pageCount == 0 ==> nextToken == Null
      invariant pageCount > 0 ==> nextToken == NextToken(replies[pageCount - 1])
      invariant forall j :: 0 <= j < pageCount ==> Continues(replies[j])
      invariant Loop(pageSize, replies, pageCount, nextToken, combined, requests) == Paginate(pageSize, replies)
      decreases MaxPages - pageCount
    {
      var request := MakeRequest(pageSize, nextToken);
      var reply := replies[pageCount];
      GatheredAppend(replies, 0, pageCount);
      pageCount := pageCount + 1;
      requests := requests + [request];
      match Classify(reply)
      case Abort(e) =>
        // `sys.exit(1)`: nothing further is requested
        outcome := Failure(e);
        return;
      case Page(items, next) =>
        assert PageItems(reply) == items && NextToken(reply) == next;
        combined := combined + items;
        nextToken := next;
        if !Truthy(nextToken) {
          outcome := Success(combined);
          return;
        }
        assert Continues(reply);
        forall j | 0 <= j < pageCount
          ensures Continues(replies[j])
        {
          if j == pageCount - 1 {
            assert replies[j] == reply;
          }
        }
    }
    // the `while ... else` branch: cap reached, the partial list is still printed
    outcome := Success(combined);
  }
}
