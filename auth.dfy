/** The credential transport: a round tripper that sends a copy of every
    request with HTTP Basic authorization, leaving the caller's request as it
    was. */
module Auth {
  import opened Outcomes
  import opened Http
  import opened KubeConfig

  /** An AuthTransport holds the credentials and nothing else. */
  datatype AuthTransport = AuthTransport(username: string, password: string)

  function NewAuthTransport(cfg: Config): (t: AuthTransport)
    ensures t.username == cfg.username && t.password == cfg.password
  {
    AuthTransport(cfg.username, cfg.password)
  }

  /** The request a transport forwards for a caller's request r: r with its
      Authorization entry replaced by the single Basic credential. */
  function Authorized(r: RequestValue, t: AuthTransport, base64: string -> string): (f: RequestValue)
    ensures f.verb == r.verb && f.url == r.url && f.body == r.body
    ensures f.header.Keys == r.header.Keys + {Authorization}
    ensures f.header[Authorization] == [BasicCredential(t.username, t.password, base64)]
    ensures forall k :: k in r.header && k != Authorization ==> f.header[k] == r.header[k]
  {
    r.(header := r.header[Authorization := [BasicCredential(t.username, t.password, base64)]])
  }

  /** cloneRequest: a shallow copy of the request and a deep copy of its
      header, each slice copied into a new one. */
  method CloneRequest(req: Request) returns (req2: Request)
    ensures fresh(req2) && fresh(req2.header) && fresh(req2.header.Slices())
    ensures req2.verb == req.verb && req2.url == req.url && req2.body == req.body
    ensures req2.header.Contents() == req.header.Contents()
    ensures req2.header.Unaliased()
    ensures req2 != req && req2.header != req.header && req2.header.Slices() !! req.header.Slices()
  {
    // shallow copy of the struct
    req2 := new Request.Copy(req);
    // deep copy of the header
    var h := new Header();
    req2.header := h;
    var src := req.header.slots;
    var pending := src.Keys;
    while pending != {}
      invariant pending <= src.Keys && h.slots.Keys == src.Keys - pending
      invariant forall k :: k in h.slots ==> fresh(h.slots[k]) && h.slots[k][..] == src[k][..]
      invariant h.Unaliased()
      modifies h
      decreases pending
    {
      var k :| k in pending;
      var s := src[k];
      var copy := CopySlice(s);
      h.slots := h.slots[k := copy];
      pending := pending - {k};
    }
  }

  /** append([]string(nil), s...): a new slice holding the strings of s. */
  method CopySlice(s: array<string>) returns (c: array<string>)
    ensures fresh(c) && c[..] == s[..]
  {
    c := new string[s.Length](i requires 0 <= i < s.Length reads s => s[i]);
  }

  /** RoundTrip: clone, set the credential on the clone, hand the clone to
      the next transport and return whatever it returns. The caller's request,
      its header and its slices are left as they were. */
  method RoundTrip(t: AuthTransport, req: Request, base64: string -> string,
                   next: RequestValue -> Result<Response, string>)
    returns (res: Result<Response, string>, ghost sent: RequestValue)
    ensures unchanged(req, req.header) && unchanged(req.header.Slices())
    ensures sent == Authorized(Snapshot(req), t, base64)
    ensures res == next(sent)
  {
    var req2 := CloneRequest(req);
    req2.SetBasicAuth(t.username, t.password, base64);
    var forwarded := Snapshot(req2);
    res := next(forwarded);
    sent := forwarded;
  }
}
