/** The message endpoints: query-string defaulting for the history and the
    sender's avatar for a new message. */
module MessageHandlerRules {
  import opened Wrappers
  import opened Schema
  import Response
  import Strings
  import U = UserRules
  import MR = MessageRules

  /** The `limit` query value: the parsed integer when it is one and
      positive, the default 50 otherwise (a missing value reads as ""). */
  function ParseLimit(l: string): (n: int)
    ensures n > 0
    ensures Strings.Atoi(l).Some? && Strings.Atoi(l).value > 0 ==> n == Strings.Atoi(l).value
    ensures !(Strings.Atoi(l).Some? && Strings.Atoi(l).value > 0) ==> n == MR.DefaultLimit
  {
    var parsed := Strings.Atoi(l);
    if l != "" && parsed.Some? && parsed.value > 0 then parsed.value else MR.DefaultLimit
  }

  /** The `offset` query value: the parsed integer when it is one and not
      negative, 0 otherwise. */
  function ParseOffset(o: string): (n: int)
    ensures n >= 0
    ensures Strings.Atoi(o).Some? && Strings.Atoi(o).value >= 0 ==> n == Strings.Atoi(o).value
    ensures !(Strings.Atoi(o).Some? && Strings.Atoi(o).value >= 0) ==> n == 0
  {
    var parsed := Strings.Atoi(o);
    if o != "" && parsed.Some? && parsed.value >= 0 then parsed.value else 0
  }

  /** A client that writes its page size and offset in decimal gets exactly
      those values back, and a zero or negative limit falls back to 50. */
  lemma QueryValuesRoundTrip(limit: int, offset: int)
    requires Strings.MinInt64 <= limit <= Strings.MaxInt64 && 0 <= offset <= Strings.MaxInt64
    ensures limit > 0 ==> ParseLimit(Strings.Itoa(limit)) == limit
    ensures limit <= 0 ==> ParseLimit(Strings.Itoa(limit)) == MR.DefaultLimit
    ensures ParseOffset(Strings.Itoa(offset)) == offset
  {
    Strings.AtoiItoa(limit);
    Strings.AtoiItoa(offset);
  }

  /** `GetMessages`. */
  function GetMessages(t: Tables, sessionId: string, limit: string, offset: string)
    : (r: Response.Reply<seq<MR.MessageResponse>>)
    ensures sessionId == "" ==> r == Response.BadRequest("Session ID is required")
    ensures sessionId != "" ==>
      var page := MR.GetBySessionId(t, sessionId, ParseLimit(limit), ParseOffset(offset));
      r == if page.Ok? then Response.Success(page.value) else Response.InternalError("Failed to get messages")
    ensures r.status == 200 ==> r.data.Some? && |r.data.value| <= ParseLimit(limit)
  {
    if sessionId == "" then Response.BadRequest("Session ID is required")
    else
      var page := MR.GetBySessionId(t, sessionId, ParseLimit(limit), ParseOffset(offset));
      if page.Ok? then Response.Success(page.value) else Response.InternalError("Failed to get messages")
  }

  /** Without a limit a history page holds at most fifty messages. */
  lemma DefaultPageSize(t: Tables, sessionId: string, offset: string)
    requires GetMessages(t, sessionId, "", offset).status == 200
    ensures |GetMessages(t, sessionId, "", offset).data.value| <= 50
  {
  }

  /** The avatar stamped on a new message: the sender's, or "" when the
      sender cannot be found. */
  function SenderAvatar(us: seq<UserRow>, userId: string): (a: string)
    ensures U.FindUser(us, userId).None? ==> a == ""
    ensures U.FindUser(us, userId).Some? ==> a == us[U.FindUser(us, userId).value].avatar
  {
    var u := U.GetByUuid(us, userId);
    if u.Ok? then u.value.avatar else ""
  }

  /** `SendMessage`. */
  function SendMessage(t: Tables, userId: string, nickname: string, bind: Response.Bind<MR.CreateRequest>,
                       suffix: string, now: int): (r: (Tables, Response.Reply<MR.MessageResponse>))
    requires |suffix| == 11
    ensures bind.BindFailed? ==> r == (t, Response.BadRequest("Invalid request: " + bind.reason))
    ensures bind.Bound? ==>
      var (t1, m) := MR.Create(t, userId, nickname, SenderAvatar(t.users, userId), bind.value, suffix, now);
      r == (t1, if m.Ok? then Response.Created(MR.ToResponse(m.value)) else Response.InternalError("Failed to send message"))
  {
    if bind.BindFailed? then (t, Response.BadRequest("Invalid request: " + bind.reason))
    else
      var (t1, m) := MR.Create(t, userId, nickname, SenderAvatar(t.users, userId), bind.value, suffix, now);
      (t1, if m.Ok? then Response.Created(MR.ToResponse(m.value)) else Response.InternalError("Failed to send message"))
  }

  /** A sender with no user row still sends: the message is stored with an
      empty avatar. */
  lemma UnknownSenderStillSends(t: Tables, userId: string, nickname: string, req: MR.CreateRequest,
                                suffix: string, now: int)
    requires |suffix| == 11
    requires U.FindUser(t.users, userId).None?
    requires MR.FindMessage(t.messages, ['M'] + suffix).None?
    ensures var (t1, r) := SendMessage(t, userId, nickname, Response.Bound(req), suffix, now);
            r.status == 201 && r.data.Some? && r.data.value.sendAvatar == "" && r.data.value.sendId == userId
            && |t1.messages| == |t.messages| + 1
  {
  }
}

/** The message endpoints as methods over the database. */
module MessageHandler {
  import opened Wrappers
  import opened Schema
  import Response
  import Strings
  import R = MessageHandlerRules
  import U = UserRules
  import MR = MessageRules
  import MessageService

  /** `GetMessages`: limit and offset start at their defaults and are
      replaced only by a value that parses and is in range. */
  method GetMessages(db: Db, sessionId: string, limitParam: string, offsetParam: string)
    returns (reply: Response.Reply<seq<MR.MessageResponse>>)
    ensures reply == R.GetMessages(db.State(), sessionId, limitParam, offsetParam)
  {
    if sessionId == "" {
      return Response.BadRequest("Session ID is required");
    }
    var limit := 50;
    var offset := 0;
    if limitParam != "" {
      var parsed := Strings.Atoi(limitParam);
      if parsed.Some? && parsed.value > 0 {
        limit := parsed.value;
      }
    }
    if offsetParam != "" {
      var parsed := Strings.Atoi(offsetParam);
      if parsed.Some? && parsed.value >= 0 {
        offset := parsed.value;
      }
    }
    assert limit == R.ParseLimit(limitParam) && offset == R.ParseOffset(offsetParam);
    var messages := MessageService.GetBySessionId(db, sessionId, limit, offset);
    if messages.Err? {
      return Response.InternalError("Failed to get messages");
    }
    return Response.Success(messages.value);
  }

  /** `SendMessage`: the avatar starts empty and is replaced by the
      sender's when the lookup succeeds. */
  method SendMessage(db: Db, userId: string, nickname: string, bind: Response.Bind<MR.CreateRequest>,
                     suffix: string, now: int) returns (reply: Response.Reply<MR.MessageResponse>)
    requires |suffix| == 11
    modifies db
    ensures (db.State(), reply) == R.SendMessage(old(db.State()), userId, nickname, bind, suffix, now)
  {
    if bind.BindFailed? {
      return Response.BadRequest("Invalid request: " + bind.reason);
    }
    var avatar := "";
    var u := U.GetByUuid(db.users, userId);
    if u.Ok? {
      avatar := u.value.avatar;
    }
    var msg := MessageService.Create(db, userId, nickname, avatar, bind.value, suffix, now);
    if msg.Err? {
      return Response.InternalError("Failed to send message");
    }
    return Response.Created(MR.ToResponse(msg.value));
  }
}
