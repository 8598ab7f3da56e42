/** The API client of generate.py:21-91 as a class whose methods update its
    fields in place: `self.token` is replaced on every authentication, and
    `get_all` mutates the caller's params dict. */
module Cwp {
  import opened Json
  import opened Paging

  /** A caller-owned query-parameter dict, passed by reference. */
  class Params {
    var entries: map<string, Json>

    constructor (entries: map<string, Json>)
      ensures this.entries == entries
    {
      this.entries := entries;
    }
  }

  class CwpApi {
    const endpoint: string
    const user: string
    const password: string
    /** The authentication server: its reply to the n-th POST to
        `{endpoint}/authenticate` with these credentials. */
    const authServer: nat -> AuthReply
    var token: string
    /** How many authentication calls this client has made. */
    var authCount: nat
    /** Every GET this client has sent, in order. */
    ghost var requests: seq<Request>

    /** generate.py:22-27, before the first authentication. */
    constructor (endpoint: string, user: string, password: string, authServer: nat -> AuthReply)
      ensures this.endpoint == endpoint && this.user == user && this.password == password
      ensures this.authServer == authServer
      ensures token == "" && authCount == 0 && requests == []
    {
      this.endpoint := endpoint;
      this.user := user;
      this.password := password;
      this.authServer := authServer;
      token := "";
      authCount := 0;
      requests := [];
    }

    /** `_get_token` (generate.py:35-44): one authentication call; the token
        is replaced only when the reply carries one, otherwise the call fails. */
    method GetToken() returns (err: Option<Error>)
      modifies this`token, this`authCount
      ensures authCount == old(authCount) + 1
      ensures TokenOf(authServer(old(authCount))).Ok? ==>
                err == None && token == TokenOf(authServer(old(authCount))).value
      ensures TokenOf(authServer(old(authCount))).Err? ==>
                err == Some(TokenOf(authServer(old(authCount))).error) && token == old(token)
    {
      var reply := authServer(authCount);
      authCount := authCount + 1;
      if reply.status != OK {
        return Some(AuthRejected);
      }
      match reply.body {
        case Parsed(Obj(es)) =>
          var t := Get(es, "token");
          if t.Str? {
            token := t.s;
            err := None;
          } else {
            err := Some(TokenUnreadable);
          }
        case _ =>
          err := Some(TokenUnreadable);
      }
    }

    /** `CwpApi(endpoint, user, password)` (generate.py:22-33): construction
        authenticates once; `err` is the exception the constructor raises. */
    static method Connect(endpoint: string, user: string, password: string,
                          authServer: nat -> AuthReply)
      returns (api: CwpApi, err: Option<Error>)
      ensures fresh(api)
      ensures api.endpoint == endpoint && api.authServer == authServer
      ensures api.authCount == 1 && api.requests == []
      ensures err == None <==> TokenOf(authServer(0)).Ok?
      ensures err == None ==> api.token == TokenOf(authServer(0)).value
    {
      api := new CwpApi(endpoint, user, password, authServer);
      err := api.GetToken();
    }

    /** `get_all(api_path, params)` (generate.py:52-91), each GET answered by
        the next response of `script`. It computes `Run` from `Start`; what
        it leaves in the session and in `params` is the final state of `Run`. */
    method GetAll(apiPath: string, params: Params, script: seq<Response>)
      returns (outcome: Outcome)
      modifies this`token, this`authCount, this`requests, params
      ensures var f := Run(Start(endpoint + "/" + apiPath, old(token), old(authCount)), script, authServer);
              && outcome == Report(f)
              && token == f.state.token && authCount == f.state.authCount
              && requests == old(requests) + f.state.sent
              && params.entries == Query(old(params.entries), f.state.offset)
    {
      ghost var base := params.entries;
      params.entries := params.entries["offset" := Num(0)];
      params.entries := params.entries["limit" := Num(PAGE_SIZE as int)];
      var url := endpoint + "/" + apiPath;
      var retries: nat := 0;
      var finished := false;
      var results: seq<Json> := [];
      var headers := map["Authorization" := Bearer(token)];

      ghost var offset := 0;
      ghost var sent: seq<Request> := [];
      ghost var final := Run(Start(url, token, authCount), script, authServer);
      var i := 0;
      while !finished && retries < RETRY_LIMIT && i < |script|
        invariant 0 <= i <= |script|
        invariant params.entries == Query(base, offset)
        invariant headers == map["Authorization" := Bearer(token)]
        invariant requests == old(requests) + sent
        invariant Run(Loop(url, token, authCount, offset, retries, finished, results, sent),
                      script[i..], authServer) == final
        decreases |script| - i
      {
        ghost var s := Loop(url, token, authCount, offset, retries, finished, results, sent);
        assert script[i..][0] == script[i] && script[i..][1..] == script[i + 1..];
        ghost var step := Step(s, script[i], authServer);

        var r := script[i];
        // the GET of generate.py:65-67; the log is this client's earlier
        // requests followed by this call's
        var request := Request(url, headers["Authorization"], offset);
        sent := sent + [request];
        requests := old(requests) + sent;
        var raised;
        retries, finished, results, headers, raised := Turn(r, params, base, s, retries, finished, results, headers);
        if raised.Some? {
          return Raised(raised.value);
        }
        offset := step.state.offset;
        assert step.state == Loop(url, token, authCount, offset, retries, finished, results, sent);
        RunNext(s, script[i..], authServer);
        i := i + 1;
      }
      if !finished && retries < RETRY_LIMIT {
        outcome := Unanswered(results);
      } else {
        outcome := Returned(results);
      }
    }

    /** The body of the `get_all` loop after the GET (generate.py:69-89):
        counting the page, dispatching on the status, `results += r.json()`.
        `s` is the loop state before the turn; the turn is `Step`. */
    method Turn(r: Response, params: Params, ghost base: map<string, Json>, ghost s: Loop,
                retries: nat, finished: bool, results: seq<Json>, headers: map<string, string>)
      returns (retries': nat, finished': bool, results': seq<Json>,
               headers': map<string, string>, raised: Option<Error>)
      modifies this`token, this`authCount, params
      requires s.token == token && s.authCount == authCount
      requires s.retries == retries && s.finished == finished && s.results == results
      requires params.entries == Query(base, s.offset)
      requires headers == map["Authorization" := Bearer(token)]
      ensures var st := Step(s, r, authServer);
              && (raised.Some? <==> st.Abort?)
              && (raised.Some? ==> raised.value == st.error)
              && token == st.state.token && authCount == st.state.authCount
              && params.entries == Query(base, st.state.offset)
              && (raised.None? ==>
                    && retries' == st.state.retries && finished' == st.state.finished
                    && results' == st.state.results
                    && headers' == map["Authorization" := Bearer(token)])
    {
      retries', finished', results', headers' := retries, finished, results, headers;
      var resultCount := PageCount(r.body);
      if r.status == UNAUTHORIZED {
        if TokenOf(authServer(authCount)).Ok? {
          RefreshStep(s, r, authServer);
        } else {
          RefreshFailsStep(s, r, authServer);
        }
        var err := GetToken();
        if err.Some? {
          return retries', finished', results', headers', err;
        }
        headers' := map["Authorization" := Bearer(token)];
      } else if r.status != OK {
        RetryStep(s, r, authServer);
        retries' := retries + 1;
      } else {
        retries' := 0;
        if resultCount == 0 {
          EmptyPageStep(s, r, authServer);
          finished' := true;
        } else {
          PageStep(s, r, authServer);
          QueryAdvance(base, s.offset);
          var current := params.entries["offset"];
          params.entries := params.entries["offset" := Num(current.n + PAGE_SIZE)];
        }
      }
      match r.body {
        case Undecodable =>
          raised := Some(BodyNotJson);
        case Parsed(_) =>
          // `results += r.json()`; a TypeError adds nothing
          results' := results + Carried(r.body);
          raised := None;
      }
    }
  }
}
