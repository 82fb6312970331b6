/** internal/router/middleware/middleware.go: a handler stack built by
    Chain, and what each of the four middlewares does to a request before
    handing it on. */
module Middleware {
  import opened Wrappers
  import opened Strings
  import opened Http

  /** The four middlewares. */
  datatype Layer = Logger | Recover | ContentTypeJSON | JWTAuth

  /** An http.Handler built from the router's routeRequest by wrapping it in
      middlewares, outermost first. */
  datatype Handler = RouteRequest | Wrap(layer: Layer, next: Handler)

  /** The layers a request passes through, outermost first. */
  function Layers(h: Handler): seq<Layer> {
    match h
    case RouteRequest => []
    case Wrap(layer, next) => [layer] + Layers(next)
  }

  /** `s` back to front. */
  function Reversed(s: seq<Layer>): (r: seq<Layer>)
    ensures |r| == |s|
    ensures forall i :: 0 <= i < |s| ==> r[i] == s[|s| - 1 - i]
    decreases |s|
  {
    if |s| == 0 then [] else [s[|s| - 1]] + Reversed(s[..|s| - 1])
  }

  /** A stack is determined by its layers. */
  lemma {:induction false} LayersDetermine(a: Handler, b: Handler)
    requires Layers(a) == Layers(b)
    ensures a == b
  {
    match a
    case RouteRequest =>
    case Wrap(layer, next) =>
      assert b.Wrap?;
      assert Layers(b) == [b.layer] + Layers(b.next);
      assert Layers(a)[0] == layer && Layers(a)[1..] == Layers(next);
      assert Layers(b)[1..] == Layers(b.next);
      LayersDetermine(next, b.next);
  }

  /** Chain(h, m1, ..., mn) == mn(...(m1(h))): each middleware wraps the
      handler built so far, so the last one listed is the outermost and runs
      first. */
  method Chain(h: Handler, middlewares: seq<Layer>) returns (r: Handler)
    ensures Layers(r) == Reversed(middlewares) + Layers(h)
    ensures middlewares == [] ==> r == h
  {
    r := h;
    for i := 0 to |middlewares|
      invariant Layers(r) == Reversed(middlewares[..i]) + Layers(h)
      invariant i == 0 ==> r == h
    {
      assert middlewares[..i + 1][..i] == middlewares[..i];
      r := Wrap(middlewares[i], r);
    }
    assert middlewares[..|middlewares|] == middlewares;
  }

  // ---------------------------------------------------------------------
  // JWTAuth.

  /** What jwt.Service.ValidateToken reports for a token: its claims' user
      id, or one of its two errors. */
  datatype Validation = TokenValid(userId: string) | TokenExpired | TokenInvalid

  /** JWTAuth's verdict on a request. */
  datatype AuthOutcome = Allow(userId: string) | Deny(message: string)

  /** The token of a "Bearer <token>" header: the header split at spaces
      must give exactly two pieces, the first "Bearer". */
  function BearerToken(header: string): (r: Option<string>)
    ensures r.Some? ==> ' ' !in r.value
  {
    var parts := Split(header, ' ');
    if |parts| == 2 && parts[0] == "Bearer" then Some(parts[1]) else None
  }

  /** A header yields a token only when it is "Bearer ", then that token. */
  lemma BearerTokenSound(header: string)
    requires BearerToken(header).Some?
    ensures header == "Bearer " + BearerToken(header).value
  {
    var parts := Split(header, ' ');
    JoinSplit(header, ' ');
    assert Join(parts, ' ') == parts[0] + [' '] + Join(parts[1..], ' ');
    assert parts[1..] == [parts[1]];
  }

  /** Every space-free token is found in its "Bearer " header. */
  lemma BearerTokenComplete(token: string)
    requires ' ' !in token
    ensures BearerToken("Bearer " + token) == Some(token)
  {
    assert "Bearer " + token == "Bearer" + [' '] + token;
    SplitAfterPiece("Bearer", ' ', token);
    SplitWithoutSeparator(token, ' ');
  }

  /** The headers JWTAuth accepts are exactly "Bearer " followed by a
      space-free token: a lower-case scheme, a doubled space or a token with
      a space in it are all refused. */
  lemma BearerTokenShape(header: string)
    ensures BearerToken(header).Some? <==> HasPrefix(header, "Bearer ") && ' ' !in header[7..]
    ensures BearerToken(header).Some? ==> BearerToken(header).value == header[7..]
  {
    if BearerToken(header).Some? {
      BearerTokenSound(header);
      assert header[7..] == BearerToken(header).value;
    }
    if HasPrefix(header, "Bearer ") && ' ' !in header[7..] {
      assert header == "Bearer " + header[7..];
      BearerTokenComplete(header[7..]);
    }
  }

  /** JWTAuth's checks, in order: a header is present, it has the Bearer
      form, and the token validates. Only a valid token lets the request
      through, carrying the token's user id. */
  function Authenticate(header: string, validate: string -> Validation): (r: AuthOutcome)
    ensures r.Allow? <==> BearerToken(header).Some? && validate(BearerToken(header).value).TokenValid?
    ensures r.Allow? ==> r.userId == validate(BearerToken(header).value).userId
    ensures header == "" ==> r == Deny("Authorization header is required")
    ensures header != "" && BearerToken(header).None? ==> r == Deny("Invalid authorization format")
    ensures BearerToken(header).Some? && validate(BearerToken(header).value).TokenExpired? ==>
      r == Deny("Token expired")
    ensures BearerToken(header).Some? && validate(BearerToken(header).value).TokenInvalid? ==>
      r == Deny("Invalid token")
  {
    if header == "" then Deny("Authorization header is required")
    else match BearerToken(header)
      case None => Deny("Invalid authorization format")
      case Some(token) =>
        match validate(token)
        case TokenValid(userId) => Allow(userId)
        case TokenExpired => Deny("Token expired")
        case TokenInvalid => Deny("Invalid token")
  }

  /** A "Bearer " header is judged by its token alone. */
  lemma AuthenticateBearer(token: string, validate: string -> Validation)
    requires ' ' !in token
    ensures Authenticate("Bearer " + token, validate) ==
      match validate(token)
      case TokenValid(userId) => Allow(userId)
      case TokenExpired => Deny("Token expired")
      case TokenInvalid => Deny("Invalid token")
  {
    BearerTokenComplete(token);
  }

  // ---------------------------------------------------------------------
  // One layer.

  /** What a layer does with a request: stop it with a response, or pass it
      on with the Content-Type header as it now stands. */
  datatype Effect = Stop(response: Response) | Pass(contentType: Option<string>)

  /** Logger and Recover pass every request on unchanged; ContentTypeJSON
      sets the JSON Content-Type and passes it on; JWTAuth stops with a 401
      unless the token is valid. */
  function Apply(layer: Layer, req: Request, validate: string -> Validation, contentType: Option<string>): (r: Effect)
    ensures r.Stop? <==> layer == JWTAuth && Authenticate(req.authorization, validate).Deny?
    ensures r.Stop? ==> r.response == Error(Authenticate(req.authorization, validate).message, StatusUnauthorized)
    ensures r.Pass? ==> r.contentType == (if layer == ContentTypeJSON then Some(Json) else contentType)
  {
    match layer
    case Logger => Pass(contentType)
    case Recover => Pass(contentType)
    case ContentTypeJSON => Pass(Some(Json))
    case JWTAuth =>
      match Authenticate(req.authorization, validate)
      case Deny(message) => Stop(Error(message, StatusUnauthorized))
      case Allow(_) => Pass(contentType)
  }
}
