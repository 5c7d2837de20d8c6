/**
 The whole of `main()` in `fetch_paginated_data.py`: the input checks, in the
 order the script makes them, then page-size normalisation, then the
 pagination loop.
 */
module Fetch {
  import opened Json
  import opened Outcomes
  import opened PageSize
  import opened Pagination

  /** Standard input: either reading it raised, or its text together with
      what `json.loads` makes of it (`None` for a JSONDecodeError). */
  datatype Stdin = ReadFailed | Text(raw: string, decoded: Option<Value>)

  /** The three input fields, as `input_data.get` returns them. */
  datatype Config = Config(urlBase: Value, token: Value, pageSize: Value)

  /** Either the checks let the run proceed, or they end it with `outcome`. */
  datatype Gate = Proceed(config: Config) | Stop(outcome: Outcome)

  /** The fields of the decoded input object, when there is one. */
  predicate HasInputObject(stdin: Stdin)
  {
    stdin.Text? && |stdin.raw| > 0 && stdin.decoded.Some? && stdin.decoded.value.Obj?
  }

  function InputFields(stdin: Stdin): map<string, Value>
    requires HasInputObject(stdin)
  {
    stdin.decoded.value.fields
  }

  /** The input checks: empty input, JSON decoding, `api_url_base`, then
      `api_token`, each ending the run in a fixed way. */
  function CheckInput(stdin: Stdin): (g: Gate)
    ensures stdin.ReadFailed? ==> g == Stop(Failure(StdinUnreadable))
    // empty input wins over every other check, decoding included
    ensures stdin.Text? && |stdin.raw| == 0 ==> g == Stop(Success([]))
    ensures stdin.Text? && |stdin.raw| > 0 && stdin.decoded.None? ==> g == Stop(Failure(InputNotJson))
    // a decoded value that is not an object makes `.get` raise outside any handler
    ensures stdin.Text? && |stdin.raw| > 0 && stdin.decoded.Some? && !stdin.decoded.value.Obj? ==>
      g == Stop(Crash)
    // a falsy URL ends the run successfully, whatever the token
    ensures HasInputObject(stdin) && !Truthy(Get(InputFields(stdin), "api_url_base", Null)) ==>
      g == Stop(Success([]))
    ensures (HasInputObject(stdin) && Truthy(Get(InputFields(stdin), "api_url_base", Null))
             && !Truthy(Get(InputFields(stdin), "api_token", Null))) ==>
      g == Stop(Failure(MissingToken))
    ensures g.Proceed? <==>
      HasInputObject(stdin)
      && Truthy(Get(InputFields(stdin), "api_url_base", Null))
      && Truthy(Get(InputFields(stdin), "api_token", Null))
    ensures g.Proceed? ==>
      g.config == Config(InputFields(stdin)["api_url_base"], InputFields(stdin)["api_token"],
                         Get(InputFields(stdin), "page_size", DefaultPageSize))
  {
    match stdin
    case ReadFailed => Stop(Failure(StdinUnreadable))
    case Text(raw, decoded) =>
      if |raw| == 0 then Stop(Success([]))
      else
        match decoded
        case None => Stop(Failure(InputNotJson))
        case Some(v) =>
          match v
          case Obj(fields) =>
            var urlBase := Get(fields, "api_url_base", Null);
            var token := Get(fields, "api_token", Null);
            var pageSize := Get(fields, "page_size", DefaultPageSize);
            if !Truthy(urlBase) then Stop(Success([]))
            else if !Truthy(token) then Stop(Failure(MissingToken))
            else Proceed(Config(urlBase, token, pageSize))
          case _ => Stop(Crash)
  }

  /** One run of the script against standard input `stdin` and a server that
      answers request `i` with `replies[i]`. */
  function Main(stdin: Stdin, replies: seq<Response>): (r: Run)
    requires MaxPages <= |replies|
    // a request is issued only once every input check has passed
    ensures |r.requests| > 0 <==>
      CheckInput(stdin).Proceed? && Normalise(CheckInput(stdin).config.pageSize).Some?
    ensures !CheckInput(stdin).Proceed? ==> r == Run([], CheckInput(stdin).outcome)
    // a page size `int()` cannot take at all is an uncaught TypeError
    ensures CheckInput(stdin).Proceed? && Normalise(CheckInput(stdin).config.pageSize).None? ==>
      r == Run([], Crash)
    // every request carries one and the same page size in [10, 100]
    ensures |r.requests| > 0 ==>
      r.requests[0].pageSize == Normalise(CheckInput(stdin).config.pageSize).value
    ensures forall j :: 0 <= j < |r.requests| ==>
      Acceptable(r.requests[j].pageSize) && r.requests[j].pageSize == r.requests[0].pageSize
    ensures |r.requests| <= MaxPages
    // a crash happens only before any request (a lone-surrogate page token, which
    // would crash the query encoding later, is not a representable string)
    ensures r.outcome.Crash? ==> r.requests == []
    // once every check has passed, the run is the pagination loop at the effective page size
    ensures CheckInput(stdin).Proceed? && Normalise(CheckInput(stdin).config.pageSize).Some? ==>
      r == Paginate(Normalise(CheckInput(stdin).config.pageSize).value, replies)
  {
    match CheckInput(stdin)
    case Stop(o) => Run([], o)
    case Proceed(config) =>
      match Normalise(config.pageSize)
      case None => Run([], Crash)
      case Some(pageSize) =>
        var run := Paginate(pageSize, replies);
        PaginateOutcome(pageSize, replies);
        run
  }

  /** The script exits with status 1 exactly when an input check ends the run
      with an error or a crash (standard input that is not a JSON object), the
      page size raises a TypeError, or the last reply it fetched failed; every
      other run, the page-cap one included, exits with 0. */
  lemma ExitStatus(stdin: Stdin, replies: seq<Response>)
    requires MaxPages <= |replies|
    ensures var r := Main(stdin, replies);
      ExitCode(r.outcome) == 1 <==>
        || (!CheckInput(stdin).Proceed? && !CheckInput(stdin).outcome.Success?)
        || (CheckInput(stdin).Proceed? && Normalise(CheckInput(stdin).config.pageSize).None?)
        || (|r.requests| > 0 && Classify(replies[|r.requests| - 1]).Abort?)
  {
    var g := CheckInput(stdin);
    if g.Proceed? && Normalise(g.config.pageSize).Some? {
      PaginateOutcome(Normalise(g.config.pageSize).value, replies);
    }
  }

  /** Reaching the page cap is not a failure: a run that passes every check
      and meets 20 replies that each announce a further page issues 20
      requests and exits with status 0, printing the items of those pages. */
  lemma CapRunExitsZero(stdin: Stdin, replies: seq<Response>)
    requires MaxPages <= |replies|
    requires CheckInput(stdin).Proceed? && Normalise(CheckInput(stdin).config.pageSize).Some?
    requires forall j :: 0 <= j < MaxPages ==> Continues(replies[j])
    ensures |Main(stdin, replies).requests| == MaxPages
    ensures ExitCode(Main(stdin, replies).outcome) == 0
    ensures Main(stdin, replies).outcome == Success(Gathered(replies, 0, MaxPages))
  {
    CapIsSoftFailure(Normalise(CheckInput(stdin).config.pageSize).value, replies);
  }

  /** A stdin object with the given URL and token and no `page_size`. */
  function InputWith(urlBase: string, token: string): Stdin
  {
    Text("{\"api_url_base\": \"" + urlBase + "\", \"api_token\": \"" + token + "\"}",
         Some(Obj(map["api_url_base" := Str(urlBase), "api_token" := Str(token)])))
  }

  /** An OK reply whose body is the object `{"list": items, "nextPageToken": next}`. */
  function PageReply(items: seq<Value>, next: Value): Response
  {
    Reply(200, Decoded(Obj(map["list" := Arr(items), "nextPageToken" := next])))
  }

  /** Two pages, `[1, 2]` with token "t" and then `[3]` with a null token:
      the second request carries "t" and the result is `[1, 2, 3]`. */
  lemma TwoPageScenario(replies: seq<Response>)
    requires MaxPages <= |replies|
    requires replies[0] == PageReply([Num(1), Num(2)], Str("t"))
    requires replies[1] == PageReply([Num(3)], Null)
    ensures Main(InputWith("https://api", "secret"), replies) ==
      Run([Request(DefaultPageSize, None), Request(DefaultPageSize, Some(Str("t")))],
          Success([Num(1), Num(2), Num(3)]))
  {
  }

  /** A 403 on the first request aborts with that status after one request. */
  lemma ForbiddenScenario(replies: seq<Response>, body: Body)
    requires MaxPages <= |replies|
    requires replies[0] == Reply(403, body)
    ensures Main(InputWith("https://api", "secret"), replies) ==
      Run([Request(DefaultPageSize, None)], Failure(HttpStatus(403)))
  {
  }

  /** A page size of "5" is below the range: the request asks for "100". */
  lemma SmallPageSizeScenario(replies: seq<Response>)
    requires MaxPages <= |replies|
    ensures var stdin :=
        Text("{\"api_url_base\": \"https://api\", \"api_token\": \"secret\", \"page_size\": \"5\"}",
             Some(Obj(map["api_url_base" := Str("https://api"), "api_token" := Str("secret"),
                          "page_size" := Str("5")])));
      Main(stdin, replies).requests[0].pageSize == Str("100")
  {
  }
}
