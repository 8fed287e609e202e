/** What the pages hand to `fetch` and what they read back, with the network itself
    left outside: a request is the URL and headers it would be sent with, a response
    is its status code. */
module WebApi {
  import opened JsText

  /** A `fetch` call that is issued, with the URL and the headers it carries. */
  datatype Fetch = Fetch(url: string, headers: map<string, string>)

  /** `response.ok`. */
  predicate IsOk(status: nat) {
    200 <= status <= 299
  }

  /** The generic failure text `HTTP error! status: N`. */
  function StatusError(status: nat): (msg: string)
    ensures |msg| > 20 && msg[..20] == "HTTP error! status: "
    ensures ParseInt(msg[20..]) == Some(status)
  {
    var msg := "HTTP error! status: " + NatToString(status);
    assert msg[20..] == NatToString(status);
    ParseIntOfNatToString(status);
    msg
  }

  /** `{ 'Content-Type': 'application/json', ...options.headers }`: the caller's headers
      win over the default content type. */
  function JsonHeaders(optionHeaders: map<string, string>): (h: map<string, string>)
    ensures h.Keys == optionHeaders.Keys + {"Content-Type"}
    ensures forall k :: k in optionHeaders ==> h[k] == optionHeaders[k]
    ensures "Content-Type" !in optionHeaders ==> h["Content-Type"] == "application/json"
  {
    map["Content-Type" := "application/json"] + optionHeaders
  }
}
