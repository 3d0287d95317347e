# Remix studio client: realtime channel and transport rules

This project models, in Dafny, the two pieces of sequential logic under the
studio's upload-and-process flow of the remix front end:

- **The realtime channel client** (`realtime_channel.dfy`, module
  `RealtimeChannel`), from `src/lib/websocket-client.ts`. The class
  `WebSocketClient` has these fields:
  - whether a socket exists;
  - the `isConnected` flag;
  - the failed-attempt counter `reconnectAttempts`, with the ceiling 5;
  - the listener registry `eventListeners`, a map from event kind to an ordered list of callbacks;
  - the log of `join_job` messages sent on the socket;
  - a ghost field for the state of the pending `connect()` promise.

  Each socket.io event the client handles (`connect`, `disconnect`,
  `connect_error`) is a method. Each method is specified by a pure transition
  function `Handle` on a `ChannelState` value. `Run` folds `Handle` over a
  sequence of events. Lemmas about `Run` describe how the connect promise ends.
- **The transport client rules** (`transport.dfy`, module `Transport`), from
  `src/lib/api-client.ts`. These are pure functions:
  - the URL builders;
  - the request each fetch operation sends;
  - the `error || fallback` rule for rejected replies;
  - the health verdict;
  - the status range and progress percentage of the XHR upload.

  The network is a parameter. Each operation receives the reply it got (or the
  failure of the call) and yields the request it sent and the outcome of its
  promise.

Behaviour of the code that the model keeps, although a reader might expect
otherwise:

- The connect promise is rejected when the counter *reaches* 5 (`>=`), that is
  on the fifth `connect_error`, not after it exceeds 5.
- `connect()` never resets the counter. Only a `connect` event does. After one
  `connect()` has been rejected, the next is rejected by its first
  `connect_error` (`RetryAfterGivingUpFailsAtOnce`).
- `disconnect()` without a socket changes nothing. It does not clear the
  listeners. It never resets the counter.
- `healthCheck` does not look at the HTTP status. A decoded body whose
  `status` is `"healthy"` gives `true` even on an error status.
- On a non-ok reply whose body is not JSON, the fetch-based operations reject
  with the parse error rather than the fallback message. In `uploadWithProgress`
  the `JSON.parse` calls run inside the XHR `load` listener, outside the
  promise executor, so a body that is not JSON throws out of the listener and
  the promise never settles. The model leaves decoding out (see below).

The upload percentage `Math.round(loaded / total * 100)` is modelled over
integers as `(200 * loaded + total) / (2 * total)`. That is round-half-up of
the exact value `100 * loaded / total`. It is an integer stand-in for the
floating-point expression, which can differ from it by one at exact half-way
points (see below). When
`total` is 0, JavaScript computes NaN or Infinity; the model reports no
percentage (`None`) in that case.

## Model

| member | source | states |
|---|---|---|
| `RealtimeChannel.WebSocketClient.constructor` | src/lib/websocket-client.ts:11-21 | a new client has no socket, is not connected, has counter 0, an empty registry and has sent nothing |
| `RealtimeChannel.WebSocketClient.Connect` | src/lib/websocket-client.ts:23-38 | with a socket present and connected, resolves at once and leaves every field unchanged; otherwise opens a socket with a pending promise and keeps the flag, counter and registry |
| `RealtimeChannel.Open` | src/lib/websocket-client.ts:32-38 | opening a socket sets a pending promise and leaves the connected flag and counter as they were |
| `RealtimeChannel.WebSocketClient.OnConnect` | src/lib/websocket-client.ts:40-45 | after a `connect` event the client is connected, the counter is 0, and a pending promise is resolved |
| `RealtimeChannel.WebSocketClient.OnDisconnect` | src/lib/websocket-client.ts:47-50 | a `disconnect` event clears only the connected flag; socket, counter, registry and promise are untouched |
| `RealtimeChannel.WebSocketClient.OnConnectError` | src/lib/websocket-client.ts:52-59 | each `connect_error` adds exactly 1 to the counter; reject is called iff the counter has reached 5 |
| `RealtimeChannel.Handle` | src/lib/websocket-client.ts:40-59 | the effect of each socket event: connect sets the flag and zeroes the counter; disconnect only clears the flag; connect_error counts and rejects a pending promise at 5; a settled promise never changes |
| `RealtimeChannel.SettledIsFinal` | src/lib/websocket-client.ts:44-57 | once the connect promise is resolved or rejected, no sequence of later socket events changes it |
| `RealtimeChannel.PromiseOutcome` | src/lib/websocket-client.ts:40-59 | a pending connect promise is rejected iff, before the first `connect` event, at least one error arrives and the counter reaches 5; else it is resolved iff a `connect` event arrives; else it stays pending |
| `RealtimeChannel.RejectedOnFifthError` | src/lib/websocket-client.ts:52-59 | from a fresh counter, n consecutive errors leave the promise pending for n < 5 and rejected for n >= 5 |
| `RealtimeChannel.RunErrorsCounts` | src/lib/websocket-client.ts:54 | n consecutive errors raise the counter by exactly n |
| `RealtimeChannel.RetryAfterGivingUpFailsAtOnce` | src/lib/websocket-client.ts:23-59 | because connect() keeps the counter, a connect() after a rejected one is rejected by its first `connect_error` |
| `RealtimeChannel.WebSocketClient.Disconnect` | src/lib/websocket-client.ts:83-91 | with a socket: no socket, not connected, empty registry; without one: nothing changes, listeners are kept; the counter is never reset |
| `RealtimeChannel.WebSocketClient.JoinJob` | src/lib/websocket-client.ts:93-100 | appends exactly one `join_job` with the given id iff a socket is present and connected; otherwise nothing is sent or queued |
| `RealtimeChannel.JoinBeforeConnectIsDropped` | src/lib/websocket-client.ts:93-100 | a join issued before the connection is up is not replayed once it is: only the join issued after connecting is sent |
| `RealtimeChannel.WebSocketClient.On` | src/lib/websocket-client.ts:102-107 | the event's list becomes its old list (empty if absent) plus the callback; every other event's list is unchanged |
| `RealtimeChannel.WebSocketClient.Off` | src/lib/websocket-client.ts:109-117 | removes the first registration of the callback from the event's list; a no-op when the event or the callback is absent |
| `RealtimeChannel.IndexOf` | src/lib/websocket-client.ts:112 | -1 iff the callback is absent; otherwise a position holding it with no earlier occurrence |
| `RealtimeChannel.RemoveFirst` | src/lib/websocket-client.ts:112-115 | when the callback occurs, the result is the list with its first occurrence cut out and the rest in order (hence one copy fewer, multiset difference); unchanged otherwise |
| `RealtimeChannel.RemoveFirstKeepsLaterCopy` | src/lib/websocket-client.ts:112-115 | off(a) on [a, b, a] leaves [b, a], so after on(a), on(b), on(a), off(a) the callbacks run as b, a |
| `RealtimeChannel.OffUndoesOn` | src/lib/websocket-client.ts:102-117 | off after on of a callback not yet registered restores the list |
| `RealtimeChannel.OffRemovesOneRegistration` | src/lib/websocket-client.ts:109-117 | a callback registered twice is still registered after one off |
| `RealtimeChannel.Throwing` | src/lib/websocket-client.ts:122-128 | the callbacks that threw are exactly the invoked ones in the throwing set |
| `RealtimeChannel.WebSocketClient.Emit` | src/lib/websocket-client.ts:119-130 | invokes every callback registered for the event exactly once, in registration order, whichever of them throw; nothing when no list is registered |
| `RealtimeChannel.WebSocketClient.IsConnected` | src/lib/websocket-client.ts:132-134 | reports the flag that the connect handler sets and the disconnect handler and disconnect() clear |
| `Transport.GetDownloadUrl` | src/lib/api-client.ts:111-113 | the URL lies under base + `/api/result/` and the job id is read back from it |
| `Transport.GetDownloadUrlInjective` | src/lib/api-client.ts:111-113 | distinct job ids give distinct download URLs for one client |
| `Transport.GetAudioUrl` | src/lib/api-client.ts:118-120 | the URL lies under base + `/api/audio/` and the file name is read back from it |
| `Transport.GetAudioUrlInjective` | src/lib/api-client.ts:118-120 | distinct file names give distinct audio URLs for one client |
| `Transport.ResourceOfEndpoint` | src/lib/api-client.ts:111-120 | reading a resource back from base + path + resource gives the resource |
| `Transport.ErrorMessage` | src/lib/api-client.ts:65 | the body's `error` when it is truthy, else the fallback; never empty when the fallback is not |
| `Transport.CheckReply` | src/lib/api-client.ts:63-68 | a reply resolves with its payload iff its status is 200-299; otherwise it rejects with the `error || fallback` message; a failed fetch rejects with fetch's own error |
| `Transport.HealthCheck` | src/lib/api-client.ts:40-49 | GET base + `/health`; true iff the body decodes and its `status` is "healthy"; unreachable or undecodable gives false, never a rejection |
| `Transport.UploadAudio` | src/lib/api-client.ts:54-69 | POST base + `/api/upload-audio` with the file in form field "file"; outcome by the reply rule with fallback 'Upload failed' |
| `Transport.ProcessAudio` | src/lib/api-client.ts:74-92 | POST base + `/api/process-audio` whose body carries exactly the given file_id and prompt; fallback 'Processing failed' |
| `Transport.GetJobStatus` | src/lib/api-client.ts:97-106 | GET under base + `/api/status/` from which the job id is read back; fallback 'Failed to get status' |
| `Transport.DownloadResult` | src/lib/api-client.ts:125-134 | GET exactly the URL getDownloadUrl gives for the job; fallback 'Download failed' |
| `Transport.RejectionMessages` | src/lib/api-client.ts:63-131 | on a non-ok status each operation rejects with the body's truthy `error`, else with its own fixed fallback |
| `Transport.RoundedPercentage` | src/lib/api-client.ts:164 | the result p satisfies p <= 100*loaded/total + 1/2 < p + 1: the nearest integer, halves up |
| `Transport.PercentageAtMostHundred` | src/lib/api-client.ts:164 | when loaded <= total the percentage is at most 100 |
| `Transport.PercentageOfWhole` | src/lib/api-client.ts:164 | when loaded == total the percentage is exactly 100 |
| `Transport.PercentageMonotone` | src/lib/api-client.ts:164 | the percentage is non-decreasing in loaded |
| `Transport.ProgressReport` | src/lib/api-client.ts:159-167 | reports iff the length is computable and a callback is given, with the event's loaded and total; the percentage exists iff total > 0 and is then RoundedPercentage(loaded, total), at most 100 when loaded <= total and is 100 when loaded == total |
| `Transport.Reports` | src/lib/api-client.ts:159-167 | without a callback, or when no event's length is computable, nothing is reported; with a callback and computable lengths, the k-th report is the listener's report of the k-th event |
| `Transport.SteadyReports` | src/lib/api-client.ts:159-167 | for an upload of known length every event is reported, in order, with its own figures |
| `Transport.ProgressNonDecreasing` | src/lib/api-client.ts:159-167 | the percentages reported for one upload never decrease and end at 100 when everything is sent |
| `Transport.TenUnitScenario` | src/lib/api-client.ts:164 | 3, 7 and 10 of 10 units sent are reported as 30, 70 and 100 |
| `Transport.UploadWithProgress` | src/lib/api-client.ts:169-180 | resolves iff the load status is in 200-299; other statuses reject with `error` or 'Upload failed'; a transport error rejects with 'Network error during upload' |
| `Transport.UploadPathsAgree` | src/lib/api-client.ts:169-176 | given the same status and body, the XHR upload and uploadAudio resolve or reject alike |
| `Transport.UploadWithProgressRequest` | src/lib/api-client.ts:182 | the XHR request is the request uploadAudio sends from the default client |
| `Transport.UploadWithProgressIgnoresClient` | src/lib/api-client.ts:182 | the XHR upload targets `API_BASE_URL`: for a client with another base URL its target differs from that client's upload URL |

## Left out

- The socket.io library: transport selection, the 5000 ms handshake timeout, `reconnectionDelay` and its own automatic reconnection (src/lib/websocket-client.ts:32-38). Its events are the inputs of OnConnect, OnDisconnect and OnConnectError, and nothing restricts when they arrive.
- Abandoned sockets: `connect()` while a socket exists but is not connected replaces the socket without closing it. The old socket's handlers still update the same fields, and the model's handlers do too. Only the promise of the latest `connect()` is tracked; the still-pending promises of earlier calls are not. Socket events carry no socket identity in the model, so a `connect` or `connect_error` from an abandoned socket settles the model's single promise, whereas in the source each handler can settle only the promise of the connect() call that created its socket (src/lib/websocket-client.ts:44, 57). PromiseOutcome and the lemmas beside it therefore describe the events of the latest socket only.
- The payloads of the server events `connected`, `job_update`, `joined_job` and `error`. Emit only says which callbacks run and which threw. Callbacks are ids, and a callback cannot change the registry while it is being dispatched.
- The network calls (`fetch`, `XMLHttpRequest`, `FormData`, `response.blob()`). Each becomes a parameter: a reply with a status, the body's `error` field and the decoded payload, or a failure of the call.
- JSON decoding. This includes the parse error with which the fetch-based operations reject when a non-ok body is not JSON (src/lib/api-client.ts:64, 87, 101, 129), and the exception thrown out of the XHR `load` listener when its body is not JSON (src/lib/api-client.ts:171, 173), which leaves the `uploadWithProgress` promise pending forever. A truthy `error` field that is not a string is also left out.
- RoundedPercentage: the float arithmetic of the percentage is replaced by the integer formula above, which can be 1 higher than `Math.round(loaded / total * 100)` at exact half-way points where the double product falls just below .5 (23 of 40 gives 57.49999999999999, so 57 against the model's 58; 29 of 200 gives 14 against 15). A `loaded` larger than `total` is allowed and simply reads above 100.
- Console logging throughout both files.
- The job-session logic that merges `job_update` events into step lists and strips emoji for deduplication. Neither websocket-client.ts nor api-client.ts implements it, so it is not modelled.
- The presentation components (audio player, pages, cover colour extraction, text shimmer). They hold no logic that the flow depends on.
