/** What `get_all` (generate.py:52-91) promises, proved of `Paging.Run`:
    where the offset can be, what a 401 or an error response does to the
    loop, when the loop stops, and what ends up in `results`. */
module PagingProofs {
  import opened Json
  import opened Paging

  /** Concatenation regroups; stated once so that proofs about the loop can
      regroup `results` without searching for it. */
  lemma AppendAssoc<T>(a: seq<T>, b: seq<T>, c: seq<T>)
    ensures (a + b) + c == a + (b + c)
  {
  }

  function Last<T>(s: seq<T>): T
    requires s != []
  {
    s[|s| - 1]
  }

  /** The pages of a run laid end to end. */
  function Concat(pages: seq<seq<Json>>): seq<Json> {
    if pages == [] then [] else pages[0] + Concat(pages[1..])
  }

  /** Invariant of the loop: the offset is a non-negative multiple of
      PAGE_SIZE, never behind any request sent, and equal to the offset of the
      last request unless that request was a non-empty page just counted. */
  ghost predicate Aligned(s: Loop) {
    && s.offset >= 0 && s.offset % PAGE_SIZE == 0
    && s.retries <= RETRY_LIMIT
    && (forall i :: 0 <= i < |s.sent| ==>
          s.sent[i].offset % PAGE_SIZE == 0 && 0 <= s.sent[i].offset <= s.offset)
    && (forall i, j :: 0 <= i <= j < |s.sent| ==> s.sent[i].offset <= s.sent[j].offset)
    && (s.sent != [] ==>
          || s.offset == Last(s.sent).offset
          || (s.offset == Last(s.sent).offset + PAGE_SIZE && s.retries == 0 && !s.finished))
  }

  lemma StepKeepsAligned(s: Loop, resp: Response, auth: nat -> AuthReply)
    requires Aligned(s) && Running(s)
    ensures Aligned(Step(s, resp, auth).state)
  {
    if resp.status == UNAUTHORIZED {
      if TokenOf(auth(s.authCount)).Ok? {
        RefreshStep(s, resp, auth);
      } else {
        RefreshFailsStep(s, resp, auth);
      }
    } else if resp.status != OK {
      RetryStep(s, resp, auth);
    } else if PageCount(resp.body) == 0 {
      EmptyPageStep(s, resp, auth);
    } else {
      PageStep(s, resp, auth);
    }
    SendKeepsAligned(s, Step(s, resp, auth).state);
  }

  /** Sending a request at the current offset, then staying there or moving
      one page on with a fresh retry budget, keeps the invariant. */
  lemma SendKeepsAligned(s: Loop, t: Loop)
    requires Aligned(s)
    requires t.sent == s.sent + [Request(s.url, Bearer(s.token), s.offset)]
    requires t.retries <= RETRY_LIMIT
    requires t.offset == s.offset || (t.offset == s.offset + PAGE_SIZE && t.retries == 0 && !t.finished)
    ensures Aligned(t)
  {
    assert Last(t.sent).offset == s.offset;
    forall i | 0 <= i < |t.sent|
      ensures t.sent[i].offset % PAGE_SIZE == 0 && 0 <= t.sent[i].offset <= s.offset
    {
      if i < |s.sent| { assert t.sent[i] == s.sent[i]; }
    }
    forall i, j | 0 <= i <= j < |t.sent|
      ensures t.sent[i].offset <= t.sent[j].offset
    {
      if j < |s.sent| { assert t.sent[i] == s.sent[i] && t.sent[j] == s.sent[j]; }
    }
  }


  lemma {:induction false} RunKeepsAligned(s: Loop, script: seq<Response>, auth: nat -> AuthReply)
    requires Aligned(s)
    ensures Aligned(Run(s, script, auth).state)
    decreases |script|
  {
    if Running(s) && script != [] {
      StepKeepsAligned(s, script[0], auth);
      if Step(s, script[0], auth).Next? {
        RunKeepsAligned(Step(s, script[0], auth).state, script[1..], auth);
      }
    }
  }

  /** From the start of `get_all`: the first request is at offset 0, every
      request's offset is a multiple of PAGE_SIZE and they never go back, and
      when the loop ends normally `params["offset"]` is the last offset
      requested. */
  lemma OffsetsArePages(url: string, token: string, n: nat, script: seq<Response>,
                        auth: nat -> AuthReply)
    ensures var f := Run(Start(url, token, n), script, auth);
      && Aligned(f.state)
      && (f.state.sent != [] ==> f.state.sent[0] == Request(url, Bearer(token), 0))
      && (f.stop.Done? ==> f.state.sent != [] && f.state.offset == Last(f.state.sent).offset)
  {
    var s := Start(url, token, n);
    RunKeepsAligned(s, script, auth);
    if script != [] {
      var st := Step(s, script[0], auth);
      if st.Next? {
        var f := Run(st.state, script[1..], auth);
        assert f.state.sent[..1] == [Request(url, Bearer(token), 0)];
      }
    }
  }

  /** `results += r.json()` runs for every response answered, whatever its
      status: when the loop ends without raising, the results are everything
      the consumed bodies carry, in order. */
  lemma {:induction false} RunCollectsEveryBody(s: Loop, script: seq<Response>, auth: nat -> AuthReply)
    requires !Run(s, script, auth).stop.Failed?
    ensures var f := Run(s, script, auth);
      f.state.results == s.results + Appends(script[..|f.state.sent| - |s.sent|])
    decreases |script|
  {
    if Running(s) && script != [] {
      var st := Step(s, script[0], auth);
      assert st.Next?;
      var f := Run(st.state, script[1..], auth);
      RunCollectsEveryBody(st.state, script[1..], auth);
      AppendsOfPrefix(script, |f.state.sent| - |s.sent|);
      AppendAssoc(s.results, Carried(script[0].body), Appends(script[1..][..|f.state.sent| - |s.sent| - 1]));
    }
  }

  /** When a turn raises, the results hold what the bodies before it carry:
      the body of the response whose turn raised is not added. */
  lemma {:induction false} RaisingKeepsEarlierBodies(s: Loop, script: seq<Response>, auth: nat -> AuthReply)
    requires Run(s, script, auth).stop.Failed?
    ensures var f := Run(s, script, auth);
      f.state.results == s.results + Appends(script[..|f.state.sent| - |s.sent| - 1])
    decreases |script|
  {
    var st := Step(s, script[0], auth);
    if st.Next? {
      var f := Run(st.state, script[1..], auth);
      RaisingKeepsEarlierBodies(st.state, script[1..], auth);
      AppendsOfPrefix(script, |f.state.sent| - |s.sent| - 1);
      AppendAssoc(s.results, Carried(script[0].body), Appends(script[1..][..|f.state.sent| - |s.sent| - 2]));
    }
  }

  /** A prefix of the script splits into its first response and the rest. */
  lemma AppendsOfPrefix(rs: seq<Response>, n: nat)
    requires 1 <= n <= |rs|
    ensures Appends(rs[..n]) == Carried(rs[0].body) + Appends(rs[1..][..n - 1])
  {
    assert rs[..n][0] == rs[0];
    assert rs[..n][1..] == rs[1..][..n - 1];
  }

  /** Bodies that carry nothing add nothing. */
  lemma {:induction false} AppendsOfEmptyBodies(rs: seq<Response>)
    requires forall i :: 0 <= i < |rs| ==> rs[i].body.Parsed? && PageCount(rs[i].body) == 0
    ensures Appends(rs) == []
  {
    if rs != [] {
      AppendsOfEmptyBodies(rs[1..]);
    }
  }

  /** The loop is finished only by a 200 whose page counts 0, and only by the
      first such response. */
  lemma {:induction false} FinishedMeansEmptyPage(s: Loop, script: seq<Response>, auth: nat -> AuthReply)
    requires Running(s)
    ensures var f := Run(s, script, auth);
      f.state.finished ==> FirstEmptyPageAt(script, |f.state.sent| - |s.sent|)
    decreases |script|
  {
    if script != [] {
      var st := Step(s, script[0], auth);
      if EmptyPage(script[0]) {
        EmptyPageStep(s, script[0], auth);
        assert Run(s, script, auth).state == st.state;
        assert |st.state.sent| - |s.sent| == 1;
      } else if st.Next? && Running(st.state) {
        RunNext(s, script, auth);
        FinishedMeansEmptyPage(st.state, script[1..], auth);
        var f := Run(st.state, script[1..], auth);
        var m := |f.state.sent| - |st.state.sent|;
        assert |f.state.sent| - |s.sent| == m + 1;
        if f.state.finished {
          FirstEmptyPageShift(script, m);
        }
      }
    }
  }

  /** A 200 whose count is 0: the response that sets `finished`. */
  predicate EmptyPage(r: Response) {
    r.status == OK && PageCount(r.body) == 0
  }

  /** The n-th response is the first empty page of the script. */
  predicate FirstEmptyPageAt(script: seq<Response>, n: int) {
    && 1 <= n <= |script|
    && EmptyPage(script[n - 1])
    && forall i :: 0 <= i < n - 1 ==> !EmptyPage(script[i])
  }

  /** Behind a response that is not an empty page, the first empty page of
      the rest is the first of the whole script, one position later. */
  lemma FirstEmptyPageShift(script: seq<Response>, m: int)
    requires script != [] && !EmptyPage(script[0]) && FirstEmptyPageAt(script[1..], m)
    ensures FirstEmptyPageAt(script, m + 1)
  {
    assert script[m] == script[1..][m - 1];
    forall i | 0 <= i < m
      ensures !EmptyPage(script[i])
    {
      if i > 0 { assert script[i] == script[1..][i - 1]; }
    }
  }


  /** A response that is neither 200 nor 401 (with a decodable body). */
  predicate ServerError(r: Response) {
    r.status != OK && r.status != UNAUTHORIZED && r.body.Parsed?
  }

  /** Errors consume the retry budget: from a running state with `retries`
      already used, RETRY_LIMIT - retries consecutive errors end the loop
      normally, each retried at the same offset with the same token. */
  lemma {:induction false} ErrorsExhaustRetries(s: Loop, script: seq<Response>, auth: nat -> AuthReply)
    requires Running(s)
    requires RETRY_LIMIT - s.retries <= |script|
    requires forall i :: 0 <= i < RETRY_LIMIT - s.retries ==> ServerError(script[i])
    ensures var f := Run(s, script, auth);
            var k := RETRY_LIMIT - s.retries;
      && f.stop == Done && f.state.retries == RETRY_LIMIT && !f.state.finished
      && f.state.offset == s.offset && f.state.token == s.token && f.state.authCount == s.authCount
      && |f.state.sent| == |s.sent| + k
      && (forall i :: |s.sent| <= i < |f.state.sent| ==>
            f.state.sent[i] == Request(s.url, Bearer(s.token), s.offset))
      && f.state.results == s.results + Appends(script[..k])
    decreases RETRY_LIMIT - s.retries
  {
    var k := RETRY_LIMIT - s.retries;
    var s' := Step(s, script[0], auth).state;
    assert script[..k][0] == script[0];
    if s'.retries < RETRY_LIMIT {
      forall i | 0 <= i < RETRY_LIMIT - s'.retries ensures ServerError(script[1..][i]) {
        assert script[1..][i] == script[i + 1];
      }
      ErrorsExhaustRetries(s', script[1..], auth);
      assert script[..k][1..] == script[1..][..k - 1];
      AppendAssoc(s.results, Carried(script[0].body), Appends(script[1..][..k - 1]));
      var f := Run(s', script[1..], auth);
      assert f.state.sent[..|s'.sent|] == s'.sent;
      forall i | |s.sent| <= i < |f.state.sent|
        ensures f.state.sent[i] == Request(s.url, Bearer(s.token), s.offset)
      {
        if i == |s.sent| { assert f.state.sent[i] == s'.sent[i]; }
      }
    } else {
      assert script[..k] == [script[0]];
    }
  }

  /** If every response is an error, the loop makes exactly RETRY_LIMIT
      requests, all at offset 0, and returns without raising; the results are
      what those error bodies carry, so none when they carry nothing. */
  lemma AllServerErrors(url: string, token: string, n: nat, script: seq<Response>,
                        auth: nat -> AuthReply)
    requires RETRY_LIMIT <= |script|
    requires forall i :: 0 <= i < RETRY_LIMIT ==> ServerError(script[i])
    ensures var f := Run(Start(url, token, n), script, auth);
      && f.stop == Done
      && |f.state.sent| == RETRY_LIMIT
      && (forall i :: 0 <= i < RETRY_LIMIT ==> f.state.sent[i] == Request(url, Bearer(token), 0))
      && f.state.results == Appends(script[..RETRY_LIMIT])
      && ((forall i :: 0 <= i < RETRY_LIMIT ==> PageCount(script[i].body) == 0) ==> f.state.results == [])
  {
    ErrorsExhaustRetries(Start(url, token, n), script, auth);
    if forall i :: 0 <= i < RETRY_LIMIT ==> PageCount(script[i].body) == 0 {
      AppendsOfEmptyBodies(script[..RETRY_LIMIT]);
    }
  }

  /** Pages laid out as 200 responses with list bodies. */
  ghost predicate PagesThenEmpty(pages: seq<seq<Json>>, script: seq<Response>) {
    && |pages| < |script|
    && (forall i :: 0 <= i < |pages| ==>
          pages[i] != [] && script[i] == Response(OK, Parsed(Arr(pages[i]))))
    && script[|pages|].status == OK && script[|pages|].body.Parsed?
    && PageCount(script[|pages|].body) == 0
  }

  /** A non-empty page moves the loop on by one page with the same token
      and no retry spent, and the rest of the script continues from there. */
  lemma PageTurn(s: Loop, script: seq<Response>, auth: nat -> AuthReply)
    requires Running(s) && script != []
    requires script[0].status == OK && script[0].body.Parsed? && PageCount(script[0].body) != 0
    ensures Run(s, script, auth)
            == Run(s.(retries := 0, offset := s.offset + PAGE_SIZE,
                      sent := s.sent + [Request(s.url, Bearer(s.token), s.offset)],
                      results := s.results + Carried(script[0].body)),
                   script[1..], auth)
  {
    PageStep(s, script[0], auth);
    RunNext(s, script, auth);
  }

  /** When every response is a 200, the result is the non-empty pages before
      the first empty one, in order; one request per page plus one for the
      empty page; nothing after it. */
  lemma {:induction false} PagesThenEnd(s: Loop, pages: seq<seq<Json>>, script: seq<Response>,
                                        auth: nat -> AuthReply)
    requires Running(s)
    requires PagesThenEmpty(pages, script)
    ensures var f := Run(s, script, auth);
      && f.stop == Done && f.state.finished && f.state.retries == 0
      && f.state.results == s.results + Concat(pages)
      && f.state.offset == s.offset + PAGE_SIZE * |pages|
      && f.state.token == s.token && f.state.authCount == s.authCount
      && |f.state.sent| == |s.sent| + |pages| + 1
    decreases |pages|
  {
    if pages == [] {
      EmptyPageStep(s, script[0], auth);
      assert Carried(script[0].body) == [];
    } else {
      assert script[0] == Response(OK, Parsed(Arr(pages[0])));
      PageTurn(s, script, auth);
      var request := Request(s.url, Bearer(s.token), s.offset);
      var s' := s.(retries := 0, offset := s.offset + PAGE_SIZE, sent := s.sent + [request],
                   results := s.results + pages[0]);
      PagesThenEmptyTail(pages, script);
      PagesThenEnd(s', pages[1..], script[1..], auth);
      AppendAssoc(s.results, pages[0], Concat(pages[1..]));
    }
  }

  /** The pages after the first are laid out the same way in the rest of
      the script. */
  lemma PagesThenEmptyTail(pages: seq<seq<Json>>, script: seq<Response>)
    requires pages != [] && PagesThenEmpty(pages, script)
    ensures PagesThenEmpty(pages[1..], script[1..])
  {
    forall i | 0 <= i < |pages| - 1
      ensures pages[1..][i] != [] && script[1..][i] == Response(OK, Parsed(Arr(pages[1..][i])))
    {
      assert script[1..][i] == script[i + 1];
    }
    assert script[1..][|pages| - 1] == script[|pages|];
  }

  /** The GETs of `k` consecutive pages from `offset`: one each, PAGE_SIZE
      apart, all with the same URL and token. */
  function Paged(url: string, token: string, offset: int, k: nat): (r: seq<Request>)
    ensures |r| == k
    decreases k
  {
    if k == 0 then []
    else [Request(url, Bearer(token), offset)] + Paged(url, token, offset + PAGE_SIZE, k - 1)
  }

  /** One page more is one request more, in front. */
  lemma PagedCons(url: string, token: string, offset: int, k: nat)
    ensures Paged(url, token, offset, k + 1)
            == [Request(url, Bearer(token), offset)] + Paged(url, token, offset + PAGE_SIZE, k)
  {
  }

  /** The i-th of those requests asks for offset `offset + PAGE_SIZE * i`. */
  lemma {:induction false} PagedAt(url: string, token: string, offset: int, k: nat, i: nat)
    requires i < k
    ensures Paged(url, token, offset, k)[i] == Request(url, Bearer(token), offset + PAGE_SIZE * i)
    decreases k
  {
    if i > 0 {
      PagedAt(url, token, offset + PAGE_SIZE, k - 1, i - 1);
      assert offset + PAGE_SIZE + PAGE_SIZE * (i - 1) == offset + PAGE_SIZE * i;
    }
  }

  /** The requests after a non-empty page: its own, then those of the rest. */
  lemma PageThenRequests(s: Loop, script: seq<Response>, auth: nat -> AuthReply, k: nat)
    requires Running(s) && script != []
    requires script[0].status == OK && script[0].body.Parsed? && PageCount(script[0].body) != 0
    requires var request := Request(s.url, Bearer(s.token), s.offset);
      Run(s.(retries := 0, offset := s.offset + PAGE_SIZE, sent := s.sent + [request],
             results := s.results + Carried(script[0].body)), script[1..], auth).state.sent
      == (s.sent + [request]) + Paged(s.url, s.token, s.offset + PAGE_SIZE, k)
    ensures Run(s, script, auth).state.sent == s.sent + Paged(s.url, s.token, s.offset, k + 1)
  {
    var request := Request(s.url, Bearer(s.token), s.offset);
    PageTurn(s, script, auth);
    PagedCons(s.url, s.token, s.offset, k);
    AppendAssoc(s.sent, [request], Paged(s.url, s.token, s.offset + PAGE_SIZE, k));
  }

  /** An empty page ends the loop after its own GET. */
  lemma LastPageRequested(s: Loop, script: seq<Response>, auth: nat -> AuthReply)
    requires Running(s) && script != []
    requires script[0].status == OK && script[0].body.Parsed? && PageCount(script[0].body) == 0
    ensures Run(s, script, auth).state.sent == s.sent + [Request(s.url, Bearer(s.token), s.offset)]
  {
    EmptyPageStep(s, script[0], auth);
    var s' := Step(s, script[0], auth).state;
    assert s'.finished;
    RunNext(s, script, auth);
  }

  /** With list pages before an empty page, the loop sends one GET per page
      and one for the empty page, at consecutive multiples of PAGE_SIZE with
      the same token, after the requests already sent. */
  lemma {:induction false} PagesRequested(s: Loop, pages: seq<seq<Json>>, script: seq<Response>,
                                          auth: nat -> AuthReply)
    requires Running(s)
    requires PagesThenEmpty(pages, script)
    ensures Run(s, script, auth).state.sent
            == s.sent + Paged(s.url, s.token, s.offset, |pages| + 1)
    decreases |pages|
  {
    var request := Request(s.url, Bearer(s.token), s.offset);
    if pages == [] {
      LastPageRequested(s, script, auth);
      assert Paged(s.url, s.token, s.offset, 1) == [request];
    } else {
      assert script[0] == Response(OK, Parsed(Arr(pages[0])));
      var s' := s.(retries := 0, offset := s.offset + PAGE_SIZE, sent := s.sent + [request],
                   results := s.results + Carried(script[0].body));
      PagesThenEmptyTail(pages, script);
      PagesRequested(s', pages[1..], script[1..], auth);
      PageThenRequests(s, script, auth, |pages|);
    }
  }

  /** Page size 50: pages of 50 and 3 records then an empty page give 53
      records from three requests at offsets 0, 50 and 100. */
  lemma {:induction false} ThreePages(url: string, token: string, n: nat, p1: seq<Json>, p2: seq<Json>,
                   script: seq<Response>, auth: nat -> AuthReply)
    requires |p1| == 50 && |p2| == 3
    requires |script| == 3 && script[0] == Response(OK, Parsed(Arr(p1)))
    requires script[1] == Response(OK, Parsed(Arr(p2))) && script[2] == Response(OK, Parsed(Arr([])))
    ensures var f := Run(Start(url, token, n), script, auth);
      && f.stop == Done && f.state.results == p1 + p2 && |f.state.results| == 53
      && |f.state.sent| == 3
      && f.state.sent[0].offset == 0 && f.state.sent[1].offset == 50 && f.state.sent[2].offset == 100
  {
    PagesThenEnd(Start(url, token, n), [p1, p2], script, auth);
    PagesRequested(Start(url, token, n), [p1, p2], script, auth);
    assert Concat([p1, p2]) == p1 + p2 by {
      assert [p1, p2][1..] == [p2];
      assert [p2][1..] == [];
      assert Concat([p2]) == p2 + Concat([]);
    }
    assert [] + Paged(url, token, 0, 3) == Paged(url, token, 0, 3);
    PagedAt(url, token, 0, 3, 0);
    PagedAt(url, token, 0, 3, 1);
    PagedAt(url, token, 0, 3, 2);
  }

  /** The loop state after the responses `rs` have been answered in turn,
      up to the first turn that raises. */
  function Steps(s: Loop, rs: seq<Response>, auth: nat -> AuthReply): StepOut
    decreases |rs|
  {
    if rs == [] then Next(s)
    else match Step(s, rs[0], auth)
      case Abort(s', e) => Abort(s', e)
      case Next(s') => Steps(s', rs[1..], auth)
  }

  /** The token of the i-th request of a run of 401s starting in `s`: the
      session's token for the first, then the one the previous
      re-authentication issued. */
  function TokenBefore(s: Loop, auth: nat -> AuthReply, i: nat): string {
    if i == 0 then s.token else Issued(auth, s.authCount + i - 1)
  }

  /** The token the n-th authentication call issues, if any. */
  function Issued(auth: nat -> AuthReply, n: nat): string {
    match TokenOf(auth(n))
    case Ok(t) => t
    case Err(_) => ""
  }

  /** Every response of `rs` is a 401 with a decodable body, and the
      re-authentications they trigger, starting with call number `n`, each
      issue a token. */
  ghost predicate Refreshed(n: nat, rs: seq<Response>, auth: nat -> AuthReply) {
    forall i :: 0 <= i < |rs| ==>
      rs[i].status == UNAUTHORIZED && rs[i].body.Parsed? && TokenOf(auth(n + i)).Ok?
  }

  /** The first 401 of such a run refreshes, and the rest is a run of the
      same kind starting at the next authentication call. */
  lemma RefreshedTail(n: nat, rs: seq<Response>, auth: nat -> AuthReply)
    requires rs != [] && Refreshed(n, rs, auth)
    ensures rs[0].status == UNAUTHORIZED && rs[0].body.Parsed? && TokenOf(auth(n)).Ok?
    ensures Refreshed(n + 1, rs[1..], auth)
  {
    assert rs[0].status == UNAUTHORIZED && TokenOf(auth(n + 0)).Ok?;
    forall i | 0 <= i < |rs| - 1
      ensures rs[1..][i].status == UNAUTHORIZED && rs[1..][i].body.Parsed?
              && TokenOf(auth(n + 1 + i)).Ok?
    {
      assert rs[1..][i] == rs[i + 1];
      assert n + 1 + i == n + (i + 1);
    }
  }

  /** Token numbering seen from the state after one refresh. */
  lemma TokenBeforeShift(s: Loop, s1: Loop, auth: nat -> AuthReply, j: nat)
    requires TokenOf(auth(s.authCount)).Ok?
    requires s1.authCount == s.authCount + 1 && s1.token == TokenOf(auth(s.authCount)).value
    ensures TokenBefore(s1, auth, j) == TokenBefore(s, auth, j + 1)
  {
    if j > 0 {
      var m: nat := s.authCount + j;
      assert s1.authCount + j - 1 == m;
      assert Issued(auth, s1.authCount + j - 1) == Issued(auth, m);
    }
  }

  /** A run of 401s whose re-authentications succeed is retry-neutral: each
      refreshes the token and neither the offset nor the retry count moves. */
  lemma {:induction false} UnauthorizedKeepsCursor(s: Loop, rs: seq<Response>, auth: nat -> AuthReply)
    requires Refreshed(s.authCount, rs, auth)
    ensures Steps(s, rs, auth).Next?
    ensures var t := Steps(s, rs, auth).state;
      && t.url == s.url && t.offset == s.offset && t.retries == s.retries && t.finished == s.finished
      && t.authCount == s.authCount + |rs|
      && t.token == TokenBefore(s, auth, |rs|)
      && |t.sent| == |s.sent| + |rs|
      && t.results == s.results + Appends(rs)
    decreases |rs|
  {
    if rs != [] {
      RefreshedTail(s.authCount, rs, auth);
      RefreshStep(s, rs[0], auth);
      var s1 := Step(s, rs[0], auth).state;
      UnauthorizedKeepsCursor(s1, rs[1..], auth);
      var t := Steps(s1, rs[1..], auth).state;
      assert Steps(s, rs, auth).state == t;
      TokenBeforeShift(s, s1, auth, |rs| - 1);
      AppendAssoc(s.results, Carried(rs[0].body), Appends(rs[1..]));
    }
  }

  /** The GETs of a run of `k` 401s whose re-authentications succeed,
      starting with authentication call `n`: the same offset each time, the
      first with `token`, each later one with the token the previous call
      issued. */
  function Resent(url: string, token: string, offset: int, auth: nat -> AuthReply,
                  n: nat, k: nat): (r: seq<Request>)
    ensures |r| == k
    decreases k
  {
    if k == 0 then []
    else [Request(url, Bearer(token), offset)] + Resent(url, Issued(auth, n), offset, auth, n + 1, k - 1)
  }

  /** The i-th of those requests asks for the same offset, with `token` if
      it is the first and otherwise with the token of call `n + i - 1`. */
  lemma {:induction false} ResentAt(url: string, token: string, offset: int, auth: nat -> AuthReply,
                                    n: nat, k: nat, i: nat)
    requires i < k
    ensures Resent(url, token, offset, auth, n, k)[i]
            == Request(url, Bearer(if i == 0 then token else Issued(auth, n + i - 1)), offset)
    decreases k
  {
    if i > 0 {
      ResentAt(url, Issued(auth, n), offset, auth, n + 1, k - 1, i - 1);
      if i > 1 {
        assert n + 1 + (i - 1) - 1 == n + i - 1;
      }
    }
  }

  /** One refresh more is one request more, in front. */
  lemma ResentCons(url: string, token: string, offset: int, auth: nat -> AuthReply, n: nat, k: nat)
    ensures Resent(url, token, offset, auth, n, k + 1)
            == [Request(url, Bearer(token), offset)] + Resent(url, Issued(auth, n), offset, auth, n + 1, k)
  {
  }

  /** The requests after a 401 whose re-authentication succeeds: its own,
      then those of the rest of the run. */
  lemma RefreshThenRequests(s: Loop, rs: seq<Response>, auth: nat -> AuthReply)
    requires rs != [] && rs[0].status == UNAUTHORIZED && rs[0].body.Parsed?
    requires TokenOf(auth(s.authCount)).Ok?
    requires var s1 := s.(token := Issued(auth, s.authCount), authCount := s.authCount + 1,
                          sent := s.sent + [Request(s.url, Bearer(s.token), s.offset)],
                          results := s.results + Carried(rs[0].body));
      && Steps(s1, rs[1..], auth).Next?
      && Steps(s1, rs[1..], auth).state.sent
         == s1.sent + Resent(s.url, Issued(auth, s.authCount), s.offset, auth, s.authCount + 1, |rs| - 1)
    ensures Steps(s, rs, auth).Next?
    ensures Steps(s, rs, auth).state.sent
            == s.sent + Resent(s.url, s.token, s.offset, auth, s.authCount, |rs|)
  {
    var request := Request(s.url, Bearer(s.token), s.offset);
    var rest := Resent(s.url, Issued(auth, s.authCount), s.offset, auth, s.authCount + 1, |rs| - 1);
    RefreshStep(s, rs[0], auth);
    var s1 := Step(s, rs[0], auth).state;
    assert Steps(s, rs, auth) == Steps(s1, rs[1..], auth);
    ResentCons(s.url, s.token, s.offset, auth, s.authCount, |rs| - 1);
    AppendAssoc(s.sent, [request], rest);
  }

  /** In such a run the same offset is requested again each time, with the
      token the previous re-authentication issued, after the requests
      already sent. */
  lemma {:induction false} UnauthorizedResends(s: Loop, rs: seq<Response>, auth: nat -> AuthReply)
    requires Refreshed(s.authCount, rs, auth)
    ensures Steps(s, rs, auth).Next?
    ensures Steps(s, rs, auth).state.sent
            == s.sent + Resent(s.url, s.token, s.offset, auth, s.authCount, |rs|)
    decreases |rs|
  {
    if rs == [] {
      assert s.sent + [] == s.sent;
    } else {
      RefreshedTail(s.authCount, rs, auth);
      var s1 := s.(token := Issued(auth, s.authCount), authCount := s.authCount + 1,
                   sent := s.sent + [Request(s.url, Bearer(s.token), s.offset)],
                   results := s.results + Carried(rs[0].body));
      UnauthorizedResends(s1, rs[1..], auth);
      RefreshThenRequests(s, rs, auth);
    }
  }

  /** After such a run of 401s the loop goes on exactly as it would from the
      state they leave: they cost no retry and skip no page. */
  lemma {:induction false} RunAfterRefreshes(s: Loop, script: seq<Response>, k: nat, auth: nat -> AuthReply)
    requires Running(s) && k <= |script| && Refreshed(s.authCount, script[..k], auth)
    ensures Steps(s, script[..k], auth).Next?
    ensures Run(s, script, auth) == Run(Steps(s, script[..k], auth).state, script[k..], auth)
    decreases k
  {
    if k > 0 {
      RefreshedTail(s.authCount, script[..k], auth);
      assert script[..k][0] == script[0];
      RefreshStep(s, script[0], auth);
      var s1 := Step(s, script[0], auth).state;
      assert script[..k][1..] == script[1..][..k - 1];
      assert script[1..][k - 1..] == script[k..];
      RunAfterRefreshes(s1, script[1..], k - 1, auth);
    }
  }

  /** A 401 first, re-authentication, then a page of 10 records and an empty
      page: 10 records, one more authentication call, and requests at
      offsets 0, 0 and 50, the retried one carrying the new token. */
  lemma {:induction false} RefreshThenPages(url: string, token: string, n: nat, page: seq<Json>,
                         script: seq<Response>, auth: nat -> AuthReply)
    requires |page| == 10
    requires TokenOf(auth(n)).Ok?
    requires |script| == 3 && script[0] == Response(UNAUTHORIZED, Parsed(Null))
    requires script[1] == Response(OK, Parsed(Arr(page))) && script[2] == Response(OK, Parsed(Arr([])))
    ensures var f := Run(Start(url, token, n), script, auth);
            var renewed := TokenOf(auth(n)).value;
      && f.stop == Done && f.state.results == page
      && f.state.authCount == n + 1 && f.state.token == renewed
      && f.state.sent == [Request(url, Bearer(token), 0), Request(url, Bearer(renewed), 0),
                          Request(url, Bearer(renewed), 50)]
  {
    var s := Start(url, token, n);
    var renewed := TokenOf(auth(n)).value;
    RefreshStep(s, script[0], auth);
    var t := Step(s, script[0], auth).state;
    assert t.sent == [Request(url, Bearer(token), 0)] && t.results == [] && t.token == renewed;
    RunNext(s, script, auth);
    assert script[1..][0] == script[1] && script[1..][1] == script[2];
    assert PagesThenEmpty([page], script[1..]);
    PagesThenEnd(t, [page], script[1..], auth);
    PagesRequested(t, [page], script[1..], auth);
    assert Concat([page]) == page by { assert [page][1..] == []; }
    PagedAt(url, renewed, 0, 2, 0);
    PagedAt(url, renewed, 0, 2, 1);
    assert Paged(url, renewed, 0, 2) == [Request(url, Bearer(renewed), 0), Request(url, Bearer(renewed), 50)];
  }
}
