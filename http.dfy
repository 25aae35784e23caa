/** The parts of the standard library's net/http package that the client and
    the credential transport touch: the mutable header table, the request
    struct, SetBasicAuth and the shape of a response. */
module Http {
  import opened Outcomes

  newtype byte = x: int | 0 <= x < 0x100

  /** The header key SetBasicAuth writes; key canonicalisation is not modelled. */
  const Authorization := "Authorization"

  /** An http.Header: a table from key to a slice of values. A slice is a
      reference in Go, so each value is an array here. */
  class Header {
    var slots: map<string, array<string>>

    /** The slices the table refers to. */
    ghost function Slices(): set<array<string>>
      reads this
    {
      slots.Values
    }

    /** The value of the table: every key with the strings its slice holds. */
    function Contents(): (m: map<string, seq<string>>)
      reads this, Slices()
      ensures m.Keys == slots.Keys
    {
      map k | k in slots :: slots[k][..]
    }

    /** No two keys share one slice. */
    ghost predicate Unaliased()
      reads this
    {
      forall k, k' :: k in slots && k' in slots && k != k' ==> slots[k] != slots[k']
    }

    /** make(http.Header, n): an empty table (the size hint has no effect on contents). */
    constructor ()
      ensures slots == map[]
    {
      slots := map[];
    }

    /** Header.Set: replaces every value under key by a fresh one-element slice. */
    method Set(key: string, value: string)
      modifies this
      ensures key in slots && fresh(slots[key])
      ensures forall k :: k in old(slots) && k != key ==> k in slots && slots[k] == old(slots[k])
      ensures slots.Keys == old(slots.Keys) + {key}
      ensures Contents() == old(Contents())[key := [value]]
      ensures old(Unaliased()) ==> Unaliased()
    {
      ghost var before := Contents();
      var slice := new string[1] [value];
      slots := slots[key := slice];
      // the other slices are untouched, so their strings are too
      assert Contents().Keys == before[key := [value]].Keys;
      assert forall k :: k in slots ==> Contents()[k] == before[key := [value]][k];
    }
  }

  /** The fields of an http.Request this model keeps; the header is a
      reference to a Header. */
  class Request {
    var verb: string  // Request.Method
    var url: string
    var body: seq<byte>
    var header: Header

    /** http.NewRequest with a nil body, once the method and URL are accepted. */
    constructor (verb: string, url: string)
      ensures this.verb == verb && this.url == url && body == []
      ensures fresh(header) && header.slots == map[]
    {
      this.verb := verb;
      this.url := url;
      body := [];
      header := new Header();
    }

    /** `*req2 = *req`: a copy of every field, the header reference included. */
    constructor Copy(other: Request)
      ensures verb == other.verb && url == other.url && body == other.body
      ensures header == other.header
    {
      verb := other.verb;
      url := other.url;
      body := other.body;
      header := other.header;
    }

    /** Request.SetBasicAuth: sets the Authorization entry of this request's
        header, in place, to the Basic credential. */
    method SetBasicAuth(username: string, password: string, base64: string -> string)
      modifies header
      ensures header == old(header) && header.slots.Keys == old(header.slots.Keys) + {Authorization}
      ensures header.Contents() == old(header.Contents())[Authorization := [BasicCredential(username, password, base64)]]
      ensures Snapshot(this) == old(Snapshot(this)).(header := old(Snapshot(this)).header[Authorization := [BasicCredential(username, password, base64)]])
      ensures old(header.Unaliased()) ==> header.Unaliased()
    {
      header.Set(Authorization, BasicCredential(username, password, base64));
    }
  }

  /** What a request holds, as a value: what a transport receives. */
  datatype RequestValue = RequestValue(verb: string, url: string, body: seq<byte>, header: map<string, seq<string>>)

  function Snapshot(r: Request): RequestValue
    reads r, r.header, r.header.Slices()
  {
    RequestValue(r.verb, r.url, r.body, r.header.Contents())
  }

  /** An HTTP response as the client sees it: the status code and what
      reading the whole body yields (its bytes, or the cause of the failure). */
  datatype Response = Response(statusCode: int, body: Result<seq<byte>, string>)

  /** The Basic credential of section 2 of RFC 7617: "Basic " followed by the
      base64 (section 4 of RFC 4648) of user-id ":" password. The encoder is
      a parameter. */
  function BasicCredential(username: string, password: string, base64: string -> string): (c: string)
    ensures |c| >= 6 && c[..6] == "Basic " && c[6..] == base64(username + ":" + password)
  {
    "Basic " + base64(username + ":" + password)
  }
}
