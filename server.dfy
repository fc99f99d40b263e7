/**
 * The admission decision of hookHandler (server.go:14-58): the size limit, the secret check, the
 * decoding of the body into an event and the `urlparams` entry written into it before Execute is
 * started on it.
 */
module Server {
  import opened Wrappers
  import opened Json
  import Webhook

  newtype byte = x: int | 0 <= x < 256

  /** The largest declared body length a hook accepts. */
  const MaxContentLength: int := 16384

  /** The key under which the router's parameters are stored in the event. */
  const UrlParamsKey: string := "urlparams"

  const StatusOK: int := 200
  const StatusForbidden: int := 403
  const StatusRequestEntityTooLarge: int := 413

  /**
   * What hookHandler reads of a request. A header that is absent reads as the empty string; a
   * content length of -1 means the length is unknown.
   */
  datatype Request = Request(contentLength: int, body: seq<byte>, gitlabEvent: string, gitlabToken: string)

  /** Event decoding (NewEvent), which is not part of this model: bytes and event type to an event or an error. */
  type Decoder = (seq<byte>, string) -> Result<Event, string>

  /** Why a request was turned away, or the event Execute is started on. */
  datatype Decision =
    | TooLarge
    | MissingToken
    | BadToken(token: string)
    | Undecodable(error: string)
    | Dispatch(event: Event)

  /** The router's parameters as the event holds them. */
  function ParamsValue(params: map<string, string>): (v: Value)
    ensures v.JObject? && v.fields.Keys == params.Keys
    ensures forall k | k in params :: v.fields[k] == JString(params[k])
  {
    JObject(map k | k in params :: JString(params[k]))
  }

  /** The guards of hookHandler in source order, as a decision. */
  function Decide(req: Request, params: map<string, string>, secret: string, decode: Decoder): (d: Decision)
    ensures d.TooLarge? <==> req.contentLength > MaxContentLength
    ensures d.Dispatch? ==> secret == "" || req.gitlabToken == secret
  {
    if req.contentLength > MaxContentLength then TooLarge
    else if secret != "" && req.gitlabToken == "" then MissingToken
    else if secret != "" && req.gitlabToken != secret then BadToken(req.gitlabToken)
    else match decode(req.body, req.gitlabEvent)
      case Err(m) => Undecodable(m)
      case Ok(event) => Dispatch(event[UrlParamsKey := ParamsValue(params)])
  }

  /** The status code written for a decision; nothing written means 200. */
  function StatusOf(d: Decision): (code: int)
    ensures code == StatusRequestEntityTooLarge <==> d.TooLarge?
    ensures code == StatusForbidden <==> d.MissingToken? || d.BadToken?
    ensures code == StatusOK <==> d.Undecodable? || d.Dispatch?
  {
    match d
    case TooLarge => StatusRequestEntityTooLarge
    case MissingToken => StatusForbidden
    case BadToken(_) => StatusForbidden
    case _ => StatusOK
  }

  /**
   * hookHandler (server.go:14-58): the status it writes and the event it starts Execute on, if
   * any, as Decide says.
   */
  method HookHandler(req: Request, params: map<string, string>, secret: string, decode: Decoder)
    returns (status: int, execute: Option<Event>)
    ensures status == StatusOf(Decide(req, params, secret, decode))
    ensures execute.Some? <==> Decide(req, params, secret, decode).Dispatch?
    ensures execute.Some? ==> execute.value == Decide(req, params, secret, decode).event
  {
    status := StatusOK;
    execute := None;
    if req.contentLength > MaxContentLength {
      status := StatusRequestEntityTooLarge;
      return;
    }
    if secret != "" {
      if req.gitlabToken != "" {
        var token := req.gitlabToken;
        if token != secret {
          status := StatusForbidden;
          return;
        }
      } else {
        status := StatusForbidden;
        return;
      }
    }
    var decoded := decode(req.body, req.gitlabEvent);
    if decoded.Err? {
      return;
    }
    var event := decoded.value;
    event := event[UrlParamsKey := ParamsValue(params)];
    execute := Some(event);
  }

  /**
   * Execute is started exactly when the declared length is within the limit, the token check
   * passes (no secret, or a token equal to it) and the body decodes.
   */
  lemma DispatchIff(req: Request, params: map<string, string>, secret: string, decode: Decoder)
    ensures Decide(req, params, secret, decode).Dispatch? <==>
      && req.contentLength <= MaxContentLength
      && (secret == "" || req.gitlabToken == secret)
      && decode(req.body, req.gitlabEvent).Ok?
  {
  }

  /**
   * The event Execute sees is the decoded event with `urlparams` set to the router's parameters
   * and every other entry as decoded.
   */
  lemma DispatchedEvent(req: Request, params: map<string, string>, secret: string, decode: Decoder)
    requires Decide(req, params, secret, decode).Dispatch?
    ensures var e := Decide(req, params, secret, decode).event;
      var decoded := decode(req.body, req.gitlabEvent).value;
      && e.Keys == decoded.Keys + {UrlParamsKey}
      && e[UrlParamsKey] == ParamsValue(params)
      && forall k | k in decoded && k != UrlParamsKey :: e[k] == decoded[k]
  {
  }

  /**
   * A declared length over the limit is answered 413 before anything else, whatever the token;
   * exactly the limit, and an unknown length with a body of any size, pass the size check.
   */
  lemma SizeLimit(req: Request, params: map<string, string>, secret: string, decode: Decoder)
    ensures req.contentLength > MaxContentLength ==>
      Decide(req, params, secret, decode) == TooLarge &&
      StatusOf(Decide(req, params, secret, decode)) == StatusRequestEntityTooLarge
    ensures req.contentLength == MaxContentLength || req.contentLength == -1 ==>
      !Decide(req, params, secret, decode).TooLarge?
  {
  }

  /** With no secret the token is never looked at: any two tokens get the same decision. */
  lemma NoSecretNoCheck(req: Request, token: string, params: map<string, string>, decode: Decoder)
    ensures Decide(req, params, "", decode) == Decide(req.(gitlabToken := token), params, "", decode)
  {
  }

  /**
   * With a secret, a request within the size limit and without a token, or with a different
   * token, is answered 403 and Execute is not started; the matching token passes on to decoding.
   */
  lemma SecretEnforced(req: Request, params: map<string, string>, secret: string, decode: Decoder)
    requires secret != "" && req.contentLength <= MaxContentLength
    ensures req.gitlabToken == "" ==> Decide(req, params, secret, decode) == MissingToken
    ensures req.gitlabToken != secret ==>
      StatusOf(Decide(req, params, secret, decode)) == StatusForbidden &&
      !Decide(req, params, secret, decode).Dispatch?
    ensures req.gitlabToken == secret ==>
      Decide(req, params, secret, decode) == Decide(req, params, "", decode)
  {
  }

  /** A body that does not decode gets the default 200 and Execute is not started. */
  lemma UndecodableNotDispatched(req: Request, params: map<string, string>, secret: string, decode: Decoder)
    requires req.contentLength <= MaxContentLength && (secret == "" || req.gitlabToken == secret)
    requires decode(req.body, req.gitlabEvent).Err?
    ensures Decide(req, params, secret, decode) == Undecodable(decode(req.body, req.gitlabEvent).error)
    ensures StatusOf(Decide(req, params, secret, decode)) == StatusOK
  {
  }

  /**
   * A hook whose secret is `none` in its file accepts any token, or none, even when the server
   * has a secret: loading turns its secret into the empty one (webhook.go:243-244).
   */
  lemma NoneSecretAcceptsAnyToken(req: Request, token: string, params: map<string, string>,
                                  serverSecret: string, decode: Decoder)
    ensures var secret := Webhook.DefaultedSecret(Webhook.NoSecret, serverSecret);
      Decide(req, params, secret, decode) == Decide(req.(gitlabToken := token), params, secret, decode)
  {
    NoSecretNoCheck(req, token, params, decode);
  }

  /**
   * A hook without a secret of its own inherits the server's: when the server has one, a request
   * without a token is refused.
   */
  lemma InheritedSecretEnforced(req: Request, params: map<string, string>, serverSecret: string, decode: Decoder)
    requires serverSecret != "" && req.contentLength <= MaxContentLength && req.gitlabToken == ""
    ensures Decide(req, params, Webhook.DefaultedSecret("", serverSecret), decode) == MissingToken
  {
  }
}
