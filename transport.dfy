/**
 * Request decoding and webhook validation of mhook/transport.go.
 *
 * Library calls the file makes are parameters here: the JSON decoders
 * (`json.Unmarshal` into one webhook or into a list), `net.SplitHostPort`,
 * the request body read, and the authentication found in the request context.
 */
module MhookTransport {
  import opened Results
  import opened Webhooks

  const ClientIDHeader: string := "X-Xmidt-Client-Id"

  /** `defaultWebhookExpiration`: five minutes. */
  const DefaultWebhookExpiration: int := 5 * Minute

  const ObfuscatedSecret: string := "<obfuscated>"

  const ErrInvalidURL: Error := StatusError(StatusBadRequest, "invalid Config URL")
  const ErrInvalidEvents: Error := StatusError(StatusBadRequest, "invalid events")
  const ErrEmptyList: Error := StatusError(StatusBadRequest, "no webhooks in request data list")

  /** The device matcher a webhook without one gets: match anything. */
  const MatchAnything: seq<string> := [".*"]

  /** The token a request was authenticated with: its type and its principal. */
  datatype Token = Token(tokenType: string, principal: string)

  /** The result of `net.SplitHostPort`. */
  datatype HostPort = HostPort(host: string, port: string)

  type SplitHostPort = string -> Result<HostPort, Error>

  datatype GetAllWebhooksRequest = GetAllWebhooksRequest(owner: string)
  datatype AddWebhookRequest = AddWebhookRequest(owner: string, webhook: Webhook)

  // ---------------------------------------------------------------- TrimSpace

  /** The characters Go's `unicode.IsSpace` accepts. */
  predicate IsSpace(c: char)
  {
    || c == '\t' || c == '\n' || c == '\U{0B}' || c == '\U{0C}' || c == '\r' || c == ' '
    || c == '\U{85}' || c == '\U{A0}' || c == '\U{1680}'
    || ('\U{2000}' <= c <= '\U{200A}')
    || c == '\U{2028}' || c == '\U{2029}' || c == '\U{202F}' || c == '\U{205F}' || c == '\U{3000}'
  }

  function TrimLeft(s: string): string
  {
    if s != [] && IsSpace(s[0]) then TrimLeft(s[1..]) else s
  }

  function TrimRight(s: string): string
  {
    if s != [] && IsSpace(s[|s| - 1]) then TrimRight(s[..|s| - 1]) else s
  }

  /** `strings.TrimSpace`: drop leading and trailing white space. */
  function TrimSpace(s: string): string
  {
    TrimRight(TrimLeft(s))
  }

  /** A string trims to nothing exactly when every character in it is white space. */
  lemma {:induction false} TrimSpaceEmpty(s: string)
    ensures TrimSpace(s) == [] <==> forall i :: 0 <= i < |s| ==> IsSpace(s[i])
  {
    TrimLeftEmpty(s);
    TrimRightEmptyOnlyIfEmpty(TrimLeft(s));
  }

  lemma {:induction false} TrimLeftEmpty(s: string)
    ensures TrimLeft(s) == [] <==> forall i :: 0 <= i < |s| ==> IsSpace(s[i])
    ensures TrimLeft(s) != [] ==> !IsSpace(TrimLeft(s)[0])
  {
    if s != [] && IsSpace(s[0]) {
      TrimLeftEmpty(s[1..]);
      assert forall i :: 1 <= i < |s| ==> s[i] == s[1..][i - 1];
    }
  }

  lemma {:induction false} TrimRightEmptyOnlyIfEmpty(s: string)
    requires s != [] ==> !IsSpace(s[0])
    ensures TrimRight(s) == [] <==> s == []
  {
    if s != [] && IsSpace(s[|s| - 1]) {
      assert |s| > 1;
      TrimRightEmptyOnlyIfEmpty(s[..|s| - 1]);
    }
  }

  // ---------------------------------------------------------------- getOwner

  /** `r.Header.Get(name)`: the header's value, or "" when it is absent. */
  function HeaderGet(headers: map<string, string>, name: string): string
  {
    if name in headers then headers[name] else ""
  }

  /**
   * `getOwner`: the principal of a "jwt" or "basic" token, nothing for any
   * other token type, and the client-id header when the request carries no
   * authentication at all.
   */
  function GetOwner(auth: Option<Token>, headers: map<string, string>): (owner: string)
    ensures auth.Some? && auth.value.tokenType in {"jwt", "basic"} ==> owner == auth.value.principal
    ensures auth.Some? && auth.value.tokenType !in {"jwt", "basic"} ==> owner == ""
    ensures auth.None? ==> owner == HeaderGet(headers, ClientIDHeader)
  {
    match auth
    case Some(token) =>
      if token.tokenType == "jwt" then token.principal
      else if token.tokenType == "basic" then token.principal
      else ""
    case None => HeaderGet(headers, ClientIDHeader)
  }

  /** An authenticated request's owner never depends on its headers. */
  lemma AuthenticatedOwnerIgnoresHeaders(token: Token, h1: map<string, string>, h2: map<string, string>)
    ensures GetOwner(Some(token), h1) == GetOwner(Some(token), h2)
  {
  }

  /** `decodeGetAllWebhooksRequest`: the request names the owner `getOwner` finds. */
  function DecodeGetAllWebhooksRequest(auth: Option<Token>, headers: map<string, string>): (r: GetAllWebhooksRequest)
    ensures r.owner == GetOwner(auth, headers)
  {
    GetAllWebhooksRequest(GetOwner(auth, headers))
  }

  // ---------------------------------------------------------------- getFirstFromList

  /**
   * `getFirstFromList`: decode the payload as a list of webhooks and take
   * the first; a decoding error is passed on and an empty list is a 400.
   */
  function GetFirstFromList(payload: seq<bv8>, decodeList: seq<bv8> -> Result<seq<Webhook>, Error>): (r: Result<Webhook, Error>)
    ensures decodeList(payload).Failure? ==> r == Failure(decodeList(payload).error)
    ensures decodeList(payload).Success? && decodeList(payload).value == [] ==> r == Failure(ErrEmptyList)
    ensures decodeList(payload).Success? && decodeList(payload).value != [] ==>
              r == Success(decodeList(payload).value[0])
  {
    match decodeList(payload)
    case Failure(e) => Failure(e)
    case Success(webhooks) =>
      if |webhooks| < 1 then Failure(ErrEmptyList) else Success(webhooks[0])
  }

  // ---------------------------------------------------------------- obfuscateSecrets

  /** The webhook with its secret replaced and nothing else changed. */
  function Obfuscated(w: Webhook): (o: Webhook)
    ensures o.config.secret == ObfuscatedSecret
    ensures o.(config := o.config.(secret := w.config.secret)) == w
  {
    w.(config := w.config.(secret := ObfuscatedSecret))
  }

  /** `obfuscateSecrets`: overwrite the secret of every element, in place. */
  method ObfuscateSecrets(webhooks: array<Webhook>)
    modifies webhooks
    ensures forall i :: 0 <= i < webhooks.Length ==> webhooks[i] == Obfuscated(old(webhooks[i]))
  {
    for i := 0 to webhooks.Length
      invariant forall k :: 0 <= k < i ==> webhooks[k] == Obfuscated(old(webhooks[k]))
      invariant forall k :: i <= k < webhooks.Length ==> webhooks[k] == old(webhooks[k])
    {
      webhooks[i] := Obfuscated(webhooks[i]);
    }
  }

  // ---------------------------------------------------------------- validateWebhook

  /** The origin's host is looked up only when the webhook has no address and the request has an origin. */
  predicate NeedsOriginHost(w: Webhook, origin: string)
  {
    w.address == "" && origin != ""
  }

  /** The conditions under which `validateWebhook` returns no error. */
  predicate Acceptable(w: Webhook, origin: string, split: SplitHostPort)
  {
    && TrimSpace(w.config.url) != ""
    && |w.events| != 0
    && !(NeedsOriginHost(w, origin) && split(origin).Failure?)
  }

  /**
   * `validateWebhook`: check the URL and the events, then fill in the device
   * matcher, the address and the expiry of the webhook.  The Go function
   * updates the webhook through its pointer; `r.0` is the webhook after the
   * updates, which is also what a failed host split leaves behind (the
   * matcher is already filled in by then), and `r.1` is the error returned.
   */
  function Validated(w: Webhook, origin: string, split: SplitHostPort): (r: (Webhook, Option<Error>))
    ensures r.1.None? <==> Acceptable(w, origin, split)
    ensures TrimSpace(w.config.url) == "" ==> r == (w, Some(ErrInvalidURL))
    ensures TrimSpace(w.config.url) != "" && |w.events| == 0 ==> r == (w, Some(ErrInvalidEvents))
    ensures TrimSpace(w.config.url) != "" && |w.events| != 0 ==>
              && r.0.matcher.deviceID == (if w.matcher.deviceID == [] then MatchAnything else w.matcher.deviceID)
              && (NeedsOriginHost(w, origin) && split(origin).Failure? ==> r.1 == Some(split(origin).error) && r.0.address == w.address)
              && (NeedsOriginHost(w, origin) && split(origin).Success? ==> r.0.address == split(origin).value.host)
              && (!NeedsOriginHost(w, origin) ==> r.0.address == w.address)
    ensures r.1.None? ==> r.0.duration == DefaultWebhookExpiration
    ensures r.1.Some? ==> r.0.duration == w.duration
    ensures r.0.config == w.config && r.0.events == w.events && r.0.failureURL == w.failureURL && r.0.until == w.until
  {
    if TrimSpace(w.config.url) == "" then (w, Some(ErrInvalidURL))
    else if |w.events| == 0 then (w, Some(ErrInvalidEvents))
    else
      var matched := if |w.matcher.deviceID| == 0 then w.(matcher := w.matcher.(deviceID := MatchAnything)) else w;
      if matched.address == "" && origin != "" then
        match split(origin)
        case Failure(e) => (matched, Some(e))
        case Success(hostPort) => (matched.(address := hostPort.host, duration := DefaultWebhookExpiration), None)
      else
        (matched.(duration := DefaultWebhookExpiration), None)
  }

  /** The step-by-step updates of `validateWebhook`, proved to agree with `Validated`. */
  method ValidateWebhook(w: Webhook, origin: string, split: SplitHostPort) returns (v: Webhook, err: Option<Error>)
    ensures (v, err) == Validated(w, origin, split)
  {
    v := w;
    if TrimSpace(v.config.url) == "" {
      return v, Some(ErrInvalidURL);
    }
    if |v.events| == 0 {
      return v, Some(ErrInvalidEvents);
    }
    if |v.matcher.deviceID| == 0 {
      v := v.(matcher := v.matcher.(deviceID := MatchAnything));
    }
    if v.address == "" && origin != "" {
      var hostPort := split(origin);
      if hostPort.Failure? {
        return v, Some(hostPort.error);
      }
      v := v.(address := hostPort.value.host);
    }
    v := v.(duration := DefaultWebhookExpiration);
    return v, None;
  }

  /**
   * The request built from a decoded webhook: validation's error, or the
   * validated webhook under the resolved owner.
   */
  function Accepted(w: Webhook, origin: string, split: SplitHostPort, auth: Option<Token>, headers: map<string, string>): (r: Result<AddWebhookRequest, Error>)
    ensures r.Success? <==> Acceptable(w, origin, split)
    ensures r.Failure? ==> Validated(w, origin, split).1 == Some(r.error)
    ensures r.Success? ==> r.value == AddWebhookRequest(GetOwner(auth, headers), Validated(w, origin, split).0)
  {
    var (validated, err) := Validated(w, origin, split);
    if err.Some? then Failure(err.value) else Success(AddWebhookRequest(GetOwner(auth, headers), validated))
  }

  // ---------------------------------------------------------------- decodeAddWebhookRequest

  /**
   * `decodeAddWebhookRequest`: read the body, decode it as one webhook or,
   * failing that, as a list whose first element is taken, validate the
   * webhook against the request's remote address and attach the owner.
   */
  method DecodeAddWebhookRequest(
    body: Result<seq<bv8>, Error>,
    decodeOne: seq<bv8> -> Result<Webhook, Error>,
    decodeList: seq<bv8> -> Result<seq<Webhook>, Error>,
    remoteAddr: string,
    split: SplitHostPort,
    auth: Option<Token>,
    headers: map<string, string>)
    returns (r: Result<AddWebhookRequest, Error>)
    ensures body.Failure? ==> r == Failure(body.error)
    ensures body.Success? && decodeOne(body.value).Failure? && GetFirstFromList(body.value, decodeList).Failure? ==>
              r == Failure(GetFirstFromList(body.value, decodeList).error)
    ensures body.Success? && decodeOne(body.value).Success? ==>
              r == Accepted(decodeOne(body.value).value, remoteAddr, split, auth, headers)
    ensures body.Success? && decodeOne(body.value).Failure? && GetFirstFromList(body.value, decodeList).Success? ==>
              r == Accepted(GetFirstFromList(body.value, decodeList).value, remoteAddr, split, auth, headers)
    ensures r.Success? ==>
              && r.value.owner == GetOwner(auth, headers)
              && r.value.webhook.duration == DefaultWebhookExpiration
              && r.value.webhook.matcher.deviceID != []
              && r.value.webhook.events != []
              && TrimSpace(r.value.webhook.config.url) != ""
  {
    if body.Failure? {
      return Failure(body.error);
    }
    var payload := body.value;
    var webhook: Webhook;
    var decoded := decodeOne(payload);
    if decoded.Success? {
      webhook := decoded.value;
    } else {
      var first := GetFirstFromList(payload, decodeList);
      if first.Failure? {
        return Failure(first.error);
      }
      webhook := first.value;
    }
    var validated, err := ValidateWebhook(webhook, remoteAddr, split);
    if err.Some? {
      return Failure(err.value);
    }
    return Success(AddWebhookRequest(GetOwner(auth, headers), validated));
  }
}
