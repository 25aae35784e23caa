# hello-gke Kubernetes client, modelled in Dafny

This project models the authenticated API client of the hello-gke repository:

- the **credential transport** (`kubernetes/auth.go`), a round tripper that copies
  every outbound request, sets HTTP Basic authorization on the copy and hands the
  copy to the next transport, leaving the caller's request untouched;
- the **client** (`kubernetes/client.go`), which composes its endpoint from the
  configured base URL at construction, and lists the pods of the default namespace
  through a fixed sequence of checks: build the request, execute it, read the body,
  close the body, require status 200, decode.

Files:

- `outcomes.dfy` (`Outcomes`): `Option` and `Result`.
- `http.dfy` (`Http`): the parts of `net/http` the core touches. `Header` is a class
  holding a map from key to a slice of values; each slice is an `array<string>`,
  because a Go slice is a reference and the deep copy is about not sharing them.
  `Request` is a class whose `header` field refers to a `Header`. `SetBasicAuth`
  updates the header in place. `Snapshot` gives the value a request holds.
- `config.dfy` (`KubeConfig`): the configuration, as a value.
- `auth.dfy` (`Auth`): `AuthTransport`, `NewAuthTransport`, `CloneRequest` (the
  shallow struct copy and the loop that copies each slice), `RoundTrip`, and
  `Authorized`, the definition of the request a transport forwards.
- `client.dfy` (`KubeClient`): `NewClient`, the pods URL, `ListPods` (the listing as
  a function of what the libraries do, with the steps it takes) and `GetPods` (the
  listing as the code runs it, with early returns, proved equal to `ListPods`).

The libraries the core calls are parameters, not code: `url.Parse` with
`URL.String()` is `parse: string -> Result<string, string>`; the base64 encoder
inside `SetBasicAuth` is `base64: string -> string`; the validity check of
`http.NewRequest` is `newRequest`; the default transport reached through
`ctxhttp.Do` is `exchange: RequestValue -> Result<Response, string>`; `json.Unmarshal`
is `unmarshal`. A `Response` carries its status and the outcome of reading its
whole body. The closing of the body is recorded in a ghost trace of steps.

Two details of the code the model keeps:

- `strings.TrimSuffix` removes one trailing slash only, so a base URL ending in
  `//` keeps one (`DoubleSlashExample`, `OnlyOneSlashTrimmed`).
- `GetPods` wraps whatever `ctxhttp.Do` returns, a context cancellation included,
  as "failed to make request", so the model has one `RequestFailed` error whose
  cause is whatever the exchange reports.

## Model

| member | source | states |
|---|---|---|
| Auth.NewAuthTransport | kubernetes/auth.go:13-18 | the transport holds exactly the configured username and password; it is a value of two strings, so it keeps no reference to the configuration |
| Http.Request.Copy | kubernetes/auth.go:32-33 | the shallow copy has every field of the original, the header reference included |
| Http.Header.constructor | kubernetes/auth.go:35 | the new header table is empty |
| Auth.CopySlice | kubernetes/auth.go:37 | a copied slice is a new array holding the same strings in the same order |
| Auth.CloneRequest | kubernetes/auth.go:28-40 | the clone and its header table are new objects, and every slice in the table is new; no slice is shared with the original or between two keys; the clone has the original's method, URL and body; its table has the same keys, each with the same strings in the same order |
| Http.Request.SetBasicAuth | kubernetes/auth.go:23 | in place, the Authorization entry becomes the single value `"Basic " + base64(username ":" password)`, replacing any earlier values; every other entry and field is kept |
| Http.Header.Set | kubernetes/auth.go:23 | the key's values are replaced by a new one-element slice; the other keys keep their slices |
| Http.BasicCredential | kubernetes/auth.go:23 | the credential is `"Basic "` followed by the encoding of `username ":" password` (section 2 of RFC 7617) |
| Auth.Authorized | kubernetes/auth.go:22-23 | the forwarded request has the caller's method, URL and body, every header key of the caller's with the same values, and Authorization holding exactly the one Basic credential |
| Auth.RoundTrip | kubernetes/auth.go:21-26 | the caller's request, its header table and its slices are unchanged; the request handed on is `Authorized` of the caller's; the next transport's result, response or error, is returned as it is |
| KubeClient.NewClient | kubernetes/client.go:43-53 | construction fails exactly when parsing fails, with the base URL and the cause, and then yields no client; otherwise the endpoint is the parsed URL less one trailing slash if it has one, followed by `/api/v1`, and the transport holds the configured credentials |
| KubeClient.TrimSuffix | kubernetes/client.go:50 | the result is a prefix of the input; with the suffix present, putting it back gives the input; without it, the input is returned as it is |
| KubeClient.EndpointRecoversBase | kubernetes/client.go:50 | the endpoint ends with `/api/v1`; removing it and putting back the one slash, if there was one, gives the parsed URL again |
| KubeClient.OnlyOneSlashTrimmed | kubernetes/client.go:50 | a URL ending in two slashes loses one and keeps the other |
| KubeClient.TrailingSlashExample | kubernetes/client.go:43-53 | `http://host:1234/` gives the endpoint `http://host:1234/api/v1` |
| KubeClient.DoubleSlashExample | kubernetes/client.go:50 | `http://host//` gives the endpoint `http://host//api/v1` |
| KubeClient.UnparsableURLExample | kubernetes/client.go:44-47 | a base URL that does not parse gives a construction error carrying that URL and the cause |
| KubeClient.PodsURLFromConfig | kubernetes/client.go:19-20 | the listing targets the trimmed base URL followed by `/api/v1/namespaces/default/pods` |
| KubeClient.PodsURL | kubernetes/client.go:57 | the listing URL is the endpoint followed by exactly `/namespaces/default/pods` |
| Http.Request.constructor | kubernetes/client.go:60 | a new request has the given method and URL, no body and an empty header table |
| KubeClient.SentRequest | kubernetes/client.go:57-64 | what the credential transport hands to the default transport is a GET of the endpoint followed by `/namespaces/default/pods`, with no body and Authorization as its only header |
| KubeClient.ListPods | kubernetes/client.go:56-83 | the steps are a prefix of build, execute, read, close, check status, decode; a body that is read is closed, right after the read and before any check; it is closed exactly when a response was obtained; decoding is attempted only on status 200; success takes every step |
| KubeClient.BodyClosedExactlyOnce | kubernetes/client.go:69-70 | once a response exists its body is closed exactly once, on every exit path; without a response nothing is closed |
| KubeClient.BuildFailureReported | kubernetes/client.go:60-63 | a request `http.NewRequest` refuses gives `RequestNotCreated` with the URL and the cause, after the build step only |
| KubeClient.ExecuteFailureReported | kubernetes/client.go:64-67 | a failed exchange gives `RequestFailed` with the URL and the cause, after build and execute only, so no body is read or closed |
| KubeClient.ReadFailureOutranksStatus | kubernetes/client.go:69-76 | a body read failure gives `BodyReadFailed` with the URL and cause, whatever the status, after reading and closing the body |
| KubeClient.NonOkStatusFails | kubernetes/client.go:74-76 | any status other than 200 is an error carrying the status, the URL and the body, whatever the body holds; the steps stop at the status check and nothing is decoded |
| KubeClient.DecodeFailureReported | kubernetes/client.go:78-81 | a status-200 body that does not decode gives `DecodeFailed` with the decoder's cause, after every step |
| KubeClient.SuccessIsDecodedItems | kubernetes/client.go:78-82 | the listing succeeds exactly when every step succeeds, and then returns the decoded items in their order |
| KubeClient.GetPods | kubernetes/client.go:56-83 | the step-by-step listing reports exactly the error `ListPods` decides, with no pods, or exactly its items, and takes exactly its steps |

## Left out

- The auxiliary message service (`msgsrv/main.go`): an HTTP handler around JSON
  decoding and the wall clock, with no state.
- Network execution: the default transport and `ctxhttp.Do` are the `exchange`
  parameter; their cancellation and deadline behaviour (timing, concurrency) is
  represented only by the outcome they report. `http.Client` error wrapping and
  redirects are part of that outcome.
- `url.Parse` and `URL.String()` normalisation, the base64 encoder, the validity
  rules of `http.NewRequest` and `json.Unmarshal` are function parameters; their
  internals are not modelled.
- `api.Pod` and `api.PodList` are not part of this model beyond a pod as opaque
  raw bytes and a list as its items; the other fields of a list are ignored.
- Header key canonicalisation: `Authorization` is the literal key.
- The exact text of the formatted errors: each error is a constructor carrying the
  URL, status, body or cause the message includes (the status error's trailing
  `%v` of a nil error is not kept).
- `http.Request` fields other than method, URL, body and header, and `httpClient`
  (`kubernetes/client.go:36-40`): the client holds the credential transport
  itself rather than an `http.Client` around it.
- The request body is held by value, so sharing the body reader between the
  original and the shallow copy is not observable; nor is closing the response
  body beyond the recorded step, and the error `Close` returns is ignored as in
  the code.
- Auth.CopySlice: `append([]string(nil), s...)` yields a nil slice for an empty
  one; the model allocates an empty array instead, so freshness also holds there.
- Concurrency: two round trips through one transport cannot interfere because the
  transport is a value and `RoundTrip` changes nothing that existed before it; two
  calls running at the same time are not modelled.
