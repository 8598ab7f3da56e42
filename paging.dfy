/** The retrieval loop of `CwpApi.get_all` (generate.py:52-91) as a pure state
    machine. The HTTP exchanges are replaced by data: each GET is answered by
    the next `Response` of a script, and the n-th call to the authentication
    endpoint is answered by `auth(n)`. `Step` is one turn of the `while` loop,
    `Run` the whole loop; the class in module Cwp is proved to compute `Run`. */
module Paging {
  import opened Json

  const PAGE_SIZE: nat := 50
  const RETRY_LIMIT: nat := 10
  const OK: int := 200
  const UNAUTHORIZED: int := 401

  /** The status code and decoded body of one GET. */
  datatype Response = Response(status: int, body: Body)

  /** The status code and decoded body of one POST to `/authenticate`. */
  datatype AuthReply = AuthReply(status: int, body: Body)

  /** The exceptions that escape `get_all`: authentication refused (line 41),
      a reply without a readable "token" (line 44), a body that is not JSON
      re-decoded at line 87 outside the `try` that catches only TypeError. */
  datatype Error = AuthRejected | TokenUnreadable | BodyNotJson

  datatype Result<+T> = Ok(value: T) | Err(error: Error)

  /** One GET as sent: the URL, the Authorization header, the query offset
      (the query also holds `limit` = PAGE_SIZE and the caller's keys). */
  datatype Request = Request(url: string, authorization: string, offset: int)

  function Bearer(token: string): string {
    "Bearer " + token
  }

  /** `_get_token` (generate.py:40-44) given the server's reply: fails unless
      the status is 200 and the body is an object whose "token" is a string. */
  function TokenOf(reply: AuthReply): (r: Result<string>)
    ensures reply.status != OK ==> r == Err(AuthRejected)
    ensures r.Ok? <==> reply.status == OK && reply.body.Parsed? && reply.body.value.Obj?
                       && Get(reply.body.value.entries, "token").Str?
  {
    if reply.status != OK then Err(AuthRejected)
    else match reply.body
      case Parsed(Obj(es)) =>
        (match Get(es, "token")
         case Str(t) => Ok(t)
         case _ => Err(TokenUnreadable))
      case _ => Err(TokenUnreadable)
  }

  /** The token installed is the one the reply's body holds under "token". */
  lemma TokenFromBody(reply: AuthReply)
    requires TokenOf(reply).Ok?
    ensures ("token", Str(TokenOf(reply).value)) in reply.body.value.entries
  {
    GetIsLookup(reply.body.value.entries, "token");
  }

  /** `result_count` (generate.py:69-72): `len` of the decoded body, 0 when
      decoding fails or the body has no length. */
  function PageCount(body: Body): nat {
    match body
    case Undecodable => 0
    case Parsed(v) => match Len(v) case Some(n) => n case None => 0
  }

  /** What `results += r.json()` adds for a decodable body (nothing when the
      body is not iterable and the TypeError is swallowed). */
  function Carried(body: Body): (xs: seq<Json>)
    ensures body.Parsed? ==> |xs| == PageCount(body)
  {
    match body
    case Undecodable => []
    case Parsed(v) => match Iter(v) case Some(ys) => ys case None => []
  }

  /** Everything a sequence of responses adds to `results`, in order. */
  function Appends(rs: seq<Response>): seq<Json> {
    if rs == [] then [] else Carried(rs[0].body) + Appends(rs[1..])
  }

  /** The state of `get_all`: the session (`self.token`, and the number of
      authentication calls made), `params["offset"]`, the locals `retries`,
      `finished`, `results`, and the requests sent so far. */
  datatype Loop = Loop(url: string, token: string, authCount: nat, offset: int,
                       retries: nat, finished: bool, results: seq<Json>,
                       sent: seq<Request>)

  /** The state on entry to the loop (generate.py:53-62). */
  function Start(url: string, token: string, authCount: nat): Loop {
    Loop(url, token, authCount, 0, 0, false, [], [])
  }

  /** The loop condition at generate.py:64. */
  predicate Running(s: Loop) {
    !s.finished && s.retries < RETRY_LIMIT
  }

  datatype StepOut = Next(state: Loop) | Abort(state: Loop, error: Error)

  /** `results += r.json()` (generate.py:86-89). */
  function Collect(s: Loop, body: Body): (r: StepOut)
    ensures body.Undecodable? <==> r.Abort?
    ensures r.state == s.(results := s.results + Carried(body))
  {
    match body
    case Undecodable => Abort(s, BodyNotJson)
    case Parsed(_) => Next(s.(results := s.results + Carried(body)))
  }

  /** One turn of the loop (generate.py:65-89) answered by `resp`. */
  function Step(s: Loop, resp: Response, auth: nat -> AuthReply): (r: StepOut)
    // the request goes out at the current offset with the current token
    ensures r.state.sent == s.sent + [Request(s.url, Bearer(s.token), s.offset)]
    ensures r.state.url == s.url
    ensures r.Next? ==> r.state.results == s.results + Carried(resp.body)
    ensures r.Abort? ==> r.state.results == s.results
    // 401: one authentication call; the offset, retries and finished stay
    ensures resp.status == UNAUTHORIZED ==>
              && r.state.authCount == s.authCount + 1
              && r.state.offset == s.offset && r.state.retries == s.retries
              && r.state.finished == s.finished
              && r.state.token == (match TokenOf(auth(s.authCount))
                                   case Ok(t) => t case Err(_) => s.token)
              && (TokenOf(auth(s.authCount)).Err? ==> r == Abort(r.state, TokenOf(auth(s.authCount)).error))
    ensures resp.status != UNAUTHORIZED ==>
              r.state.authCount == s.authCount && r.state.token == s.token
    // any other error: one more retry, same offset
    ensures resp.status != UNAUTHORIZED && resp.status != OK ==>
              && r.state.retries == s.retries + 1 && r.state.offset == s.offset
              && r.state.finished == s.finished
    // 200: retries reset; empty page finishes, otherwise the offset advances
    ensures resp.status == OK ==>
              && r.state.retries == 0
              && r.state.finished == (s.finished || PageCount(resp.body) == 0)
              && r.state.offset == s.offset + (if PageCount(resp.body) == 0 then 0 else PAGE_SIZE)
    ensures r.Abort? <==> resp.body.Undecodable? ||
                          (resp.status == UNAUTHORIZED && TokenOf(auth(s.authCount)).Err?)
  {
    var s1 := s.(sent := s.sent + [Request(s.url, Bearer(s.token), s.offset)]);
    var count := PageCount(resp.body);
    if resp.status == UNAUTHORIZED then
      var s2 := s1.(authCount := s.authCount + 1);
      match TokenOf(auth(s.authCount))
      case Err(e) => Abort(s2, e)
      case Ok(t) => Collect(s2.(token := t), resp.body)
    else if resp.status != OK then
      Collect(s1.(retries := s.retries + 1), resp.body)
    else if count == 0 then
      Collect(s1.(retries := 0, finished := true), resp.body)
    else
      Collect(s1.(retries := 0, offset := s.offset + PAGE_SIZE), resp.body)
  }

  /** The turns of `Step` one case at a time, each with the exact state it
      leaves before `results += r.json()`; `GetAll` follows these cases
      branch by branch. */

  /** A 401 whose re-authentication issues a token: the new token is
      installed, one call is counted, offset and retries stay. */
  lemma RefreshStep(s: Loop, r: Response, auth: nat -> AuthReply)
    requires r.status == UNAUTHORIZED && TokenOf(auth(s.authCount)).Ok?
    ensures Step(s, r, auth) ==
      Collect(s.(token := TokenOf(auth(s.authCount)).value, authCount := s.authCount + 1,
                 sent := s.sent + [Request(s.url, Bearer(s.token), s.offset)]), r.body)
  {
  }

  /** A 401 whose re-authentication fails raises that failure, after the
      call was counted. */
  lemma RefreshFailsStep(s: Loop, r: Response, auth: nat -> AuthReply)
    requires r.status == UNAUTHORIZED && TokenOf(auth(s.authCount)).Err?
    ensures Step(s, r, auth) ==
      Abort(s.(authCount := s.authCount + 1,
               sent := s.sent + [Request(s.url, Bearer(s.token), s.offset)]),
            TokenOf(auth(s.authCount)).error)
  {
  }

  /** An error status other than 401: one more retry at the same offset. */
  lemma RetryStep(s: Loop, r: Response, auth: nat -> AuthReply)
    requires r.status != UNAUTHORIZED && r.status != OK
    ensures Step(s, r, auth) ==
      Collect(s.(retries := s.retries + 1,
                 sent := s.sent + [Request(s.url, Bearer(s.token), s.offset)]), r.body)
  {
  }

  /** A 200 with a zero count finishes the loop. */
  lemma EmptyPageStep(s: Loop, r: Response, auth: nat -> AuthReply)
    requires r.status == OK && PageCount(r.body) == 0
    ensures Step(s, r, auth) ==
      Collect(s.(retries := 0, finished := true,
                 sent := s.sent + [Request(s.url, Bearer(s.token), s.offset)]), r.body)
  {
  }

  /** A 200 with a non-zero count moves on to the next page. */
  lemma PageStep(s: Loop, r: Response, auth: nat -> AuthReply)
    requires r.status == OK && PageCount(r.body) != 0
    ensures Step(s, r, auth) ==
      Collect(s.(retries := 0, offset := s.offset + PAGE_SIZE,
                 sent := s.sent + [Request(s.url, Bearer(s.token), s.offset)]), r.body)
  {
  }

  /** Why the loop stopped: its condition failed, an exception escaped, or
      the script ran out of responses while the loop would go on. */
  datatype Stop = Done | Failed(error: Error) | ScriptEnded

  datatype Final = Final(state: Loop, stop: Stop)

  /** The whole loop on a script of responses. */
  function Run(s: Loop, script: seq<Response>, auth: nat -> AuthReply): (r: Final)
    decreases |script|
    ensures r.state.url == s.url
    ensures |s.sent| <= |r.state.sent| <= |s.sent| + |script|
    ensures r.state.sent[..|s.sent|] == s.sent
    ensures r.stop.Done? ==> !Running(r.state)
    ensures r.stop.Done? && Running(s) ==> |r.state.sent| > |s.sent|
    ensures r.stop.ScriptEnded? ==> Running(r.state) && |r.state.sent| == |s.sent| + |script|
    ensures r.stop.Failed? ==> |r.state.sent| > |s.sent|
  {
    if !Running(s) then Final(s, Done)
    else if script == [] then Final(s, ScriptEnded)
    else match Step(s, script[0], auth)
      case Abort(s', e) => Final(s', Failed(e))
      case Next(s') => Run(s', script[1..], auth)
  }

  /** A turn that does not raise hands the rest of the script to the loop. */
  lemma RunNext(s: Loop, script: seq<Response>, auth: nat -> AuthReply)
    requires Running(s) && script != [] && Step(s, script[0], auth).Next?
    ensures Run(s, script, auth) == Run(Step(s, script[0], auth).state, script[1..], auth)
  {
  }

  /** The value `get_all` hands back, as the model sees it. */
  datatype Outcome = Returned(results: seq<Json>) | Raised(error: Error) | Unanswered(results: seq<Json>)

  function Report(f: Final): Outcome {
    match f.stop
    case Done => Returned(f.state.results)
    case Failed(e) => Raised(e)
    case ScriptEnded => Unanswered(f.state.results)
  }

  /** The caller's params after `params["offset"] = offset` and
      `params["limit"] = PAGE_SIZE` (generate.py:57-58, 85). */
  function Query(params: map<string, Json>, offset: int): (q: map<string, Json>)
    ensures q.Keys == params.Keys + {"offset", "limit"}
    ensures q["offset"] == Num(offset) && q["limit"] == Num(PAGE_SIZE as int)
    ensures forall k :: k in params && k != "offset" && k != "limit" ==> q[k] == params[k]
  {
    params["offset" := Num(offset)]["limit" := Num(PAGE_SIZE as int)]
  }

  /** `params["offset"] += PAGE_SIZE` (generate.py:85) moves the query to the
      next page and touches nothing else. */
  lemma QueryAdvance(params: map<string, Json>, offset: int)
    ensures Query(params, offset)["offset"] == Num(offset)
    ensures Query(params, offset)["offset" := Num(offset + PAGE_SIZE)] == Query(params, offset + PAGE_SIZE)
  {
    var q := Query(params, offset)["offset" := Num(offset + PAGE_SIZE)];
    assert q.Keys == Query(params, offset + PAGE_SIZE).Keys;
  }
}
