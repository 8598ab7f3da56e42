# cwp_custom_csv: the paginated fetch loop and the CSV row builder

`generate.py` pulls hosts and containers out of a token-authenticated,
offset-paginated REST API (`CwpApi.get_all`) and flattens each record into a
CSV row by walking a key path per column. This project models those two
pieces and proves what they do.

- `json.dfy` (module `Json`): decoded JSON values, Python truthiness, `dict.get`,
  and what `len(v)` and `list += v` do with each kind of value. A dict's
  length is its key count and iterating it gives its keys. A string's length
  is its character count and iterating it gives one-character strings.
  `None`, booleans and numbers raise `TypeError`.
- `paging.dfy` (module `Paging`): one turn of the `get_all` loop as `Step`,
  and the whole loop as `Run`, both pure. A scripted sequence of responses
  (status code plus decoded or undecodable body) stands in for the GETs. A
  function from call number to reply stands in for the authentication server.
- `cwp.dfy` (module `Cwp`): the client as a class. `token` and `authCount`
  are fields, and a ghost log records the requests sent. `GetAll` mutates the
  caller's `Params` object in place and is proved to compute `Paging.Run`:
  its outcome, the final token, the requests sent and the final params. The
  loop body after the GET is the method `Turn`, proved to do one `Step`.
- `paging_proofs.dfy` (module `PagingProofs`): the loop's properties. These
  cover offset alignment, 401 neutrality, retry exhaustion, concatenation of
  pages, termination on the first empty page, and bodies appended whatever
  their status. Two worked scenarios are included.
- `export.dfy` (module `Export`): the `reduce` fold that extracts a field,
  the header, the row-building loop and the row-writing loop.

Behaviour of generate.py that the model keeps, though a reader might expect otherwise:

- A 200 whose body is `null`, a number or a boolean counts as an empty page.
  It finishes the loop rather than costing a retry (generate.py:69-72, 82-83).
- An undecodable body counts as 0 at line 70, but line 87 decodes it again
  outside any handler for decode errors, so `get_all` raises. On a 200 this
  happens after `finished` was set.
- The bodies of 401 and error responses are appended to the results too
  (generate.py:86-89). "Every request fails" therefore gives an empty result
  only when those bodies carry nothing.
- Field extraction raises (`AttributeError`) when a step reaches a truthy
  value that is not a dict, such as a path running past a non-empty string.
  It does not yield `None` there (generate.py:139).

## Model

| member | source | states |
|---|---|---|
| Json.GetIsLookup | generate.py:139 | `d.get(key)`: a key absent from the dict gives `None`, a present key gives a value stored under it |
| Json.Iter | generate.py:69-72 | what `+=` appends exists exactly when `len` is defined, and has exactly `len` elements |
| Paging.TokenOf | generate.py:40-44 | re-authentication fails unless the reply is a 200 whose object body holds a string `token`; a non-200 is the "unable to authenticate" error |
| Paging.TokenFromBody | generate.py:44 | the token installed is the string stored under `token` in the reply body |
| Paging.Carried | generate.py:69-72 | for a decodable body, what `results += r.json()` adds has exactly `result_count` elements |
| Paging.Collect | generate.py:86-89 | an undecodable body raises, and only it does; otherwise the body's elements are appended to the results |
| Paging.Step | generate.py:64-89 | one turn: the request goes out at the current offset with the current bearer token; a 401 makes one authentication call and keeps offset, retries and finished; another non-200 adds a retry at the same offset; a 200 resets retries and finishes on a zero count, else advances the offset by PAGE_SIZE; the turn raises exactly on an undecodable body or a failed re-authentication |
| Paging.Run | generate.py:64-91 | the loop sends at most one request per response and keeps the earlier log; a normal exit has `finished` set or the retry budget used up and sends at least one request from a running state; a raise follows at least one request |
| Paging.RefreshStep | generate.py:74-76 | helper, one branch of `Step`: a 401 whose re-authentication succeeds installs the new token, counts one call, and moves neither offset, retries nor `finished` |
| Paging.RefreshFailsStep | generate.py:74-76 | helper, one branch of `Step`: a 401 whose re-authentication fails counts the call, keeps the old token, and raises that failure |
| Paging.RetryStep | generate.py:77-79 | helper, one branch of `Step`: another non-200 spends one retry and keeps the offset and token |
| Paging.EmptyPageStep | generate.py:80-83 | helper, one branch of `Step`: a 200 with zero count resets retries and finishes the loop, at the same offset |
| Paging.PageStep | generate.py:80-85 | helper, one branch of `Step`: a 200 with a non-zero count resets retries and advances the offset by PAGE_SIZE |
| Paging.RunNext | generate.py:64-89 | helper, one unfolding of `Run`: a turn that does not raise hands the rest of the responses to the same loop |
| Paging.Query | generate.py:57-58 | the caller's params afterwards hold `offset` and `limit` = PAGE_SIZE, and every other key is unchanged |
| Paging.QueryAdvance | generate.py:85 | `params["offset"] += PAGE_SIZE` on the params of offset o gives the params of offset o + PAGE_SIZE |
| Cwp.CwpApi.constructor | generate.py:22-27 | a new client has an empty token and has made no authentication call |
| Cwp.CwpApi.GetToken | generate.py:35-44 | one authentication call; the token is replaced by the issued token, or left alone with the error returned |
| Cwp.CwpApi.Connect | generate.py:22-33 | constructing the client authenticates once; it fails exactly when that reply issues no token |
| Cwp.CwpApi.GetAll | generate.py:52-91 | the loop computes `Run` from offset 0, no retries and no results; the outcome, the session's token and call count, the requests sent and the caller's mutated params are those of `Run`'s final state |
| Cwp.CwpApi.Turn | generate.py:69-89 | one pass of the loop body after the GET does what `Step` does: it raises exactly when `Step` aborts, and leaves token, call count, retries, `finished`, results and params as in `Step`'s state |
| PagingProofs.StepKeepsAligned | generate.py:74-85 | one turn keeps the offset a non-negative multiple of PAGE_SIZE, never behind a request, and equal to the last request's offset unless a non-empty page was just counted |
| PagingProofs.SendKeepsAligned | generate.py:65-85 | sending a request at the current offset, then staying there or moving one page on with retries reset, keeps that invariant |
| PagingProofs.RunKeepsAligned | generate.py:64-89 | the whole loop keeps that invariant |
| PagingProofs.OffsetsArePages | generate.py:57-58 | from the start, the first request is at offset 0, offsets are multiples of PAGE_SIZE that never go back, and after a normal exit `params["offset"]` is the last offset requested |
| PagingProofs.RunCollectsEveryBody | generate.py:86-89 | when the loop exits normally, the results are exactly what every answered body carries, in order, whatever its status |
| PagingProofs.RaisingKeepsEarlierBodies | generate.py:86-89 | when a turn raises, the results are what the bodies before it carried |
| PagingProofs.AppendsOfEmptyBodies | generate.py:86-89 | decodable bodies with zero count add nothing |
| PagingProofs.FinishedMeansEmptyPage | generate.py:82-83 | the loop is finished only by a 200 whose count is 0, and only by the first such response |
| PagingProofs.ErrorsExhaustRetries | generate.py:77-81 | consecutive errors with a decodable body from a running state end the loop normally after exactly the remaining retry budget, all at the same offset and token |
| PagingProofs.AllServerErrors | generate.py:64 | if every response is an error with a decodable body, exactly RETRY_LIMIT requests are made, all at offset 0; the loop returns without raising, and with no results when the error bodies carry nothing |
| PagingProofs.PageTurn | generate.py:80-89 | a non-empty 200 page moves the loop one page on, with no retry spent and its elements appended, and the loop goes on from there |
| PagingProofs.LastPageRequested | generate.py:80-83 | an empty 200 page ends the loop after its own request |
| PagingProofs.PagesThenEnd | generate.py:64-89 | with 200 list pages before an empty 200, the loop ends normally with the pages concatenated in order, the offset PAGE_SIZE per page further on, the same token, and one request per page plus one; nothing after the empty page is requested |
| PagingProofs.PagedAt | generate.py:85 | the i-th request of consecutive pages from offset o asks for offset o + PAGE_SIZE·i with the same token |
| PagingProofs.PagesRequested | generate.py:64-85 | with such a script, the requests sent are the earlier ones followed by one per page and one for the empty page, at consecutive multiples of PAGE_SIZE, all with the same token |
| PagingProofs.ThreePages | generate.py:82-85 | pages of 50 and 3 records, then an empty page: 53 records from three requests at offsets 0, 50 and 100 |
| PagingProofs.UnauthorizedKeepsCursor | generate.py:74-76 | a run of 401s with successful refreshes keeps offset, retries and `finished`, makes one authentication call each, ends with the last issued token, and appends every body |
| PagingProofs.ResentAt | generate.py:65-76 | in such a run the i-th request asks for the same offset, the first with the session token and each later one with the token the previous authentication call issued |
| PagingProofs.UnauthorizedResends | generate.py:65-76 | such a run sends exactly those requests, after the ones already sent |
| PagingProofs.RunAfterRefreshes | generate.py:64-76 | after such a run of 401s the loop continues exactly as from the state they leave, so no retry is spent and no page is skipped |
| PagingProofs.RefreshThenPages | generate.py:74-76 | a 401, a page of 10 records and an empty page give those 10 records and one extra authentication; requests go to offsets 0, 0 and 50, and the retried request carries the new token |
| Export.Lookup | generate.py:139 | a falsy value gives `None`; a truthy dict gives `d.get(key)`; a truthy non-dict raises; a raise propagates |
| Export.Extract | generate.py:138-142 | an empty path yields the record itself |
| Export.FoldAppend | generate.py:138-142 | folding over `p + q` is folding over `p`, then over `q` |
| Export.ExtractSnoc | generate.py:138-142 | one more key is one more lookup on the value reached so far |
| Export.NoGetStays | generate.py:138-142 | once raised, the fold stays raised |
| Export.FalsyYieldsNull | generate.py:139 | from a falsy value, every further step gives `None` |
| Export.ExtractAfterFalsy | generate.py:139 | once a prefix of the path yields a falsy value, every longer path yields `None` |
| Export.MissingFirstKey | generate.py:139 | a key missing from the record gives `None`, however long the rest of the path |
| Export.RaisesIffStuck | generate.py:138-142 | extraction raises exactly when some prefix of the path reaches a truthy non-dict |
| Export.MissingCloudMetadata | generate.py:118 | `{"info": {"name": "nginx"}}` with path info/cloudMetadata/provider yields `None` |
| Export.PathThroughStringRaises | generate.py:139 | the same record with path info/name/provider raises |
| Export.Header | generate.py:131 | the header has one entry per field: the aliases in declaration order |
| Export.RowOf | generate.py:135-143 | a row has exactly one cell per field, in field order, each the field's extracted value; otherwise the first raising field is reported and every earlier field extracted |
| Export.BuildRow | generate.py:135-143 | the append loop builds exactly `RowOf` |
| Export.RowsOf | generate.py:134-144 | one row per record, in order, up to the first record whose row raises |
| Export.TableOf | generate.py:129-144 | the header is the aliases; every written row has as many cells as the header has aliases; the table is short exactly when some record raised |
| Export.WriteTable | generate.py:131-144 | the writing loop hands the writer exactly `TableOf` |
| Export.RowsOfPrefix | generate.py:134-144 | when the first i records give rows and record i raises, exactly i rows are written |

## Left out

- HTTP itself (`requests.post`, `requests.get`, generate.py:37-39, 47-49): GETs are answered from a script of responses, and authentications by a function of the call number. URL building is modelled; TLS verification is not.
- Transport failures (connection refused, DNS, timeouts): `requests` raises them and `get_all` does not catch them. The model has no such response.
- `time.sleep(5)` (generate.py:78): timing only.
- Environment variables, TLS-warning suppression and the static `output_map` (generate.py:10-18, 27-31, 94-122): configuration. The loop over `output_map` in the main block is therefore not modelled; each export is `GetAll` followed by `WriteTable`.
- CSV quoting, escaping and the rendering of `None` as an empty cell (generate.py:129-132, 144): the model stops at the header and rows handed to `csv.writer`.
- JSON decoding: a body is already decoded, or marked undecodable. Numbers are integers only. Floats matter here only for truthiness, where `0.0` is falsy like `0`.
- Json.Get: takes the first entry with the key. A decoded dict has distinct keys, so this is the value Python holds.
- Paging.TokenOf: a `token` that is not a string is treated as unreadable. The source stores any value and formats it into the header with `str()`.
- Cwp.CwpApi.GetAll: the `params={}` default is one dict shared by every call that omits the argument. The model has callers pass a `Params` object, and that sharing is a caller passing the same object twice. Lines 57-58 reset `offset` and `limit` on each call.
- Cwp.CwpApi.GetAll: when the script runs out while the loop would go on, the outcome is `Unanswered`. A real server always answers, so this outcome is an artefact of scripting. Termination is by the length of the script: the source loop would not end with a server that keeps returning non-empty pages, nor with one that keeps answering 401 while re-authentication keeps succeeding, since a 401 spends no retry (`PagingProofs.UnauthorizedKeepsCursor`).
