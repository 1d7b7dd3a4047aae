/** Request authentication: the bearer-token header check that guards the
    API, and the admin-only gate behind it. JWT verification is outside
    the model; its verdict is a parameter. */
module AuthMiddleware {
  import opened Wrappers
  import Strings
  import Response

  /** The token in an `Authorization` header: splitting on single spaces
      must give exactly "Bearer" and one more piece. This is stricter than
      the bearer syntax of section 2.1 of RFC 6750, which allows several
      spaces. */
  function ParseBearer(header: string): (r: Option<string>)
    ensures r.Some? <==> |Strings.Split(header, ' ')| == 2 && Strings.Split(header, ' ')[0] == "Bearer"
    ensures r.Some? ==> r.value == Strings.Split(header, ' ')[1] && ' ' !in r.value
  {
    var parts := Strings.Split(header, ' ');
    if |parts| != 2 || parts[0] != "Bearer" then None else Some(parts[1])
  }

  /** `"Bearer " + token` parses back to the token, whenever the token has
      no space in it... */
  lemma BearerRoundTrip(token: string)
    requires ' ' !in token
    ensures ParseBearer("Bearer " + token) == Some(token)
  {
    assert "Bearer " + token == "Bearer" + [' '] + token;
    Strings.SplitAppend("Bearer", token, ' ');
    Strings.SplitNoSep(token, ' ');
  }

  /** ...and every header that parses is of that form. */
  lemma BearerOnlyForm(header: string)
    requires ParseBearer(header).Some?
    ensures header == "Bearer " + ParseBearer(header).value
  {
    Strings.JoinSplit(header, ' ');
    var parts := Strings.Split(header, ' ');
    assert parts == [parts[0], parts[1]];
    assert Strings.Join(parts, ' ') == parts[0] + [' '] + parts[1] by {
      assert parts[1..] == [parts[1]];
      assert Strings.Join([parts[1]], ' ') == parts[1];
    }
  }

  /** A doubled space after the scheme is refused, whatever follows it. */
  lemma DoubleSpaceRefused(token: string)
    ensures ParseBearer("Bearer  " + token) == None
  {
    var tail := [' '] + token;
    assert "Bearer  " + token == "Bearer" + [' '] + tail;
    Strings.SplitAppend("Bearer", tail, ' ');
    assert tail == [] + [' '] + token;
    Strings.SplitAppend([], token, ' ');
  }

  datatype Claims = Claims(userId: string, nickname: string, isAdmin: bool)

  /** What JWT verification reports for a token. */
  datatype TokenCheck = Verified(claims: Claims) | Expired | Malformed

  /** The keys the middleware puts into the request context. */
  datatype RequestContext = RequestContext(userId: Option<string>, nickname: Option<string>, isAdmin: Option<bool>)

  const EmptyContext := RequestContext(None, None, None)

  /** Either the chain continues with this context, or it is aborted with
      this reply. */
  datatype Outcome = Next(ctx: RequestContext) | Abort(reply: Response.Reply<()>)

  /** `Auth`. */
  function Auth(header: string, verify: string -> TokenCheck, ctx: RequestContext): (r: Outcome)
    ensures header == "" ==> r == Abort(Response.Unauthorized("No authorization header"))
    ensures header != "" && ParseBearer(header).None? ==> r == Abort(Response.Unauthorized("Invalid authorization format"))
    ensures r.Next? <==> ParseBearer(header).Some? && verify(ParseBearer(header).value).Verified?
    ensures r.Next? ==>
      var c := verify(ParseBearer(header).value).claims;
      r.ctx == ctx.(userId := Some(c.userId), nickname := Some(c.nickname), isAdmin := Some(c.isAdmin))
    ensures header != "" && ParseBearer(header).Some? && verify(ParseBearer(header).value).Expired? ==>
      r == Abort(Response.Unauthorized("Token has expired"))
    ensures header != "" && ParseBearer(header).Some? && verify(ParseBearer(header).value).Malformed? ==>
      r == Abort(Response.Unauthorized("Invalid token"))
  {
    if header == "" then Abort(Response.Unauthorized("No authorization header"))
    else
      var token := ParseBearer(header);
      if token.None? then Abort(Response.Unauthorized("Invalid authorization format"))
      else
        match verify(token.value)
        case Expired => Abort(Response.Unauthorized("Token has expired"))
        case Malformed => Abort(Response.Unauthorized("Invalid token"))
        case Verified(c) => Next(ctx.(userId := Some(c.userId), nickname := Some(c.nickname), isAdmin := Some(c.isAdmin)))
  }

  /** `AdminOnly`. */
  function AdminOnly(ctx: RequestContext): (r: Outcome)
    ensures r.Next? <==> ctx.isAdmin == Some(true)
    ensures r.Next? ==> r.ctx == ctx
    ensures r.Abort? ==> r.reply == Response.Forbidden("Admin access required")
  {
    if ctx.isAdmin.None? || !ctx.isAdmin.value then Abort(Response.Forbidden("Admin access required")) else Next(ctx)
  }

  /** Behind `Auth`, `AdminOnly` lets through exactly the tokens whose claims
      say admin. */
  lemma AdminBehindAuth(header: string, verify: string -> TokenCheck)
    requires Auth(header, verify, EmptyContext).Next?
    ensures AdminOnly(Auth(header, verify, EmptyContext).ctx).Next? <==> verify(ParseBearer(header).value).claims.isAdmin
  {
  }
}
