/** Chat messages: storing a message, the summary text that the session
    list shows for it, the paged history of a conversation, and read
    receipts. */
module MessageRules {
  import opened Wrappers
  import opened Schema
  import Seqs
  import SR = SessionRules

  /** The session-list text for a message: a fixed label for voice, image
      and video-call messages, the file name for files, and the content
      itself for text and for any other type. */
  function DisplayContent(msgType: int, content: string, fileName: string): (r: string)
    ensures msgType == MessageTypeVoice ==> r == "[Voice message]"
    ensures msgType == MessageTypeFile ==> r == "[File: " + fileName + "]"
    ensures msgType == MessageTypeImage ==> r == "[Image]"
    ensures msgType == MessageTypeVideoCall ==> r == "[Video call]"
    ensures !(MessageTypeVoice <= msgType <= MessageTypeVideoCall) ==> r == content
  {
    match msgType
    case 1 => "[Voice message]"
    case 2 => "[File: " + fileName + "]"
    case 3 => "[Image]"
    case 4 => "[Video call]"
    case _ => content
  }

  /** Media messages never leak their content into the session list: the
      text shown depends only on the type and, for files, the file name. */
  lemma DisplayIgnoresMediaContent(msgType: int, c1: string, c2: string, fileName: string)
    requires MessageTypeVoice <= msgType <= MessageTypeVideoCall
    ensures DisplayContent(msgType, c1, fileName) == DisplayContent(msgType, c2, fileName)
    ensures DisplayContent(msgType, c1, fileName)[0] == '['
  {
  }

  datatype CreateRequest = CreateRequest(
    sessionId: string, receiveId: string, msgType: int, content: string, url: string,
    fileType: string, fileName: string, fileSize: int)

  datatype MessageError = SessionNotFound | DbError

  function FindMessage(ms: seq<MessageRow>, uuid: string): (k: Option<nat>)
    ensures k.Some? ==> k.value < |ms| && ms[k.value].uuid == uuid
    ensures k.None? <==> forall j :: 0 <= j < |ms| ==> ms[j].uuid != uuid
  {
    if ms == [] then None
    else if ms[0].uuid == uuid then Some(0)
    else
      var k := FindMessage(ms[1..], uuid);
      if k.Some? then Some(k.value + 1) else None
  }

  /** `Create`: the new row is stored with status "sent", then the
      session's last message becomes the display text. */
  function Create(t: Tables, userId: string, nickname: string, avatar: string, req: CreateRequest,
                  suffix: string, now: int): (r: (Tables, Result<MessageRow, MessageError>))
    requires |suffix| == 11
    ensures r.1.Ok? ==>
      var m := r.1.value;
      IsGeneratedId(m.uuid, 'M') && m.status == MessageStatusSent
      && m.sessionId == req.sessionId && m.sendId == userId && m.sendName == nickname && m.sendAvatar == avatar
      && m.receiveId == req.receiveId && m.msgType == req.msgType && m.content == req.content
      && r.0 == t.(messages := t.messages + [m],
                   sessions := SR.UpdateLastMessage(t.sessions, req.sessionId,
                                                    DisplayContent(req.msgType, req.content, req.fileName), now))
    ensures r.1.Ok? ==>
      var m := r.1.value;
      m.uuid == ['M'] + suffix && m.url == req.url && m.fileType == req.fileType
      && m.fileName == req.fileName && m.fileSize == req.fileSize && m.avData == ""
    ensures r.1.Err? <==> FindMessage(t.messages, ['M'] + suffix).Some?
    ensures r.1.Err? ==> r == (t, Err(DbError))
  {
    var m := MessageRow(['M'] + suffix, req.sessionId, req.msgType, req.content, req.url, userId, nickname, avatar,
                        req.receiveId, req.fileType, req.fileName, req.fileSize, MessageStatusSent, "");
    if FindMessage(t.messages, m.uuid).Some? then (t, Err(DbError))
    else
      var display := DisplayContent(req.msgType, req.content, req.fileName);
      (t.(messages := t.messages + [m], sessions := SR.UpdateLastMessage(t.sessions, req.sessionId, display, now)), Ok(m))
  }

  /** The page size used when the caller gives none. */
  const DefaultLimit := 50

  function EffectiveLimit(limit: int): (r: int)
    ensures r > 0
    ensures limit > 0 ==> r == limit
    ensures limit <= 0 ==> r == DefaultLimit
  {
    if limit <= 0 then DefaultLimit else limit
  }

  predicate Between(m: MessageRow, a: string, b: string) {
    (m.sendId == a && m.receiveId == b) || (m.sendId == b && m.receiveId == a)
  }

  /** The messages exchanged between two users, either way, in stored
      (creation) order. */
  function Conversation(ms: seq<MessageRow>, a: string, b: string): (r: seq<MessageRow>)
    ensures forall i :: 0 <= i < |r| ==> r[i] in ms && Between(r[i], a, b)
    ensures forall i :: 0 <= i < |ms| && Between(ms[i], a, b) ==> ms[i] in r
  {
    if ms == [] then []
    else (if Between(ms[0], a, b) then [ms[0]] else []) + Conversation(ms[1..], a, b)
  }

  /** The conversation does not depend on which side asks. */
  lemma {:induction false} ConversationSymmetric(ms: seq<MessageRow>, a: string, b: string)
    ensures Conversation(ms, a, b) == Conversation(ms, b, a)
  {
    if ms != [] {
      ConversationSymmetric(ms[1..], a, b);
    }
  }

  /** SQL `LIMIT limit OFFSET offset` (an offset that is not positive is
      not emitted). */
  function Page<T>(s: seq<T>, limit: nat, offset: int): (r: seq<T>)
    ensures |r| <= limit
    ensures var skip := if offset > 0 then offset else 0;
            forall i :: 0 <= i < |r| ==> skip + i < |s| && r[i] == s[skip + i]
    ensures var skip := if offset > 0 then offset else 0;
            |r| == (if skip >= |s| then 0 else if |s| - skip < limit then |s| - skip else limit)
  {
    var skip := if offset > 0 then offset else 0;
    var rest := if skip >= |s| then [] else s[skip..];
    if |rest| < limit then rest else rest[..limit]
  }

  datatype MessageResponse = MessageResponse(
    uuid: string, sessionId: string, msgType: int, content: string, url: string,
    sendId: string, sendName: string, sendAvatar: string, receiveId: string,
    fileType: string, fileName: string, fileSize: int, status: int)

  function ToResponse(m: MessageRow): MessageResponse {
    MessageResponse(m.uuid, m.sessionId, m.msgType, m.content, m.url, m.sendId, m.sendName, m.sendAvatar,
                    m.receiveId, m.fileType, m.fileName, m.fileSize, m.status)
  }

  function ToResponses(ms: seq<MessageRow>): (r: seq<MessageResponse>)
    ensures |r| == |ms|
    ensures forall i :: 0 <= i < |ms| ==> r[i] == ToResponse(ms[i])
  {
    if ms == [] then [] else [ToResponse(ms[0])] + ToResponses(ms[1..])
  }

  /** The newest-first page that the query returns. */
  function QueryPage(t: Tables, s: SessionRow, limit: int, offset: int): seq<MessageRow> {
    Page(Seqs.Reverse(Conversation(t.messages, s.sendId, s.receiveId)), EffectiveLimit(limit), offset)
  }

  /** `GetBySessionID`: the page, turned back into chronological order. */
  function GetBySessionId(t: Tables, sessionId: string, limit: int, offset: int)
    : (r: Result<seq<MessageResponse>, MessageError>)
    ensures r.Err? <==> SR.GetByUuid(t.sessions, sessionId).Err?
    ensures r.Err? ==> r.error == SessionNotFound
    ensures r.Ok? ==> |r.value| <= EffectiveLimit(limit)
    ensures r.Ok? ==>
      var page := QueryPage(t, SR.GetByUuid(t.sessions, sessionId).value, limit, offset);
      r.value == ToResponses(Seqs.Reverse(page))
  {
    var s := SR.GetByUuid(t.sessions, sessionId);
    if s.Err? then Err(SessionNotFound)
    else Ok(ToResponses(Seqs.Reverse(QueryPage(t, s.value, limit, offset))))
  }

  lemma {:induction false} ReverseReverse<T>(s: seq<T>)
    ensures Seqs.Reverse(Seqs.Reverse(s)) == s
  {
    var r := Seqs.Reverse(Seqs.Reverse(s));
    assert |r| == |s|;
    forall i | 0 <= i < |s|
      ensures r[i] == s[i]
    {
      assert r[i] == Seqs.Reverse(s)[|s| - 1 - i];
    }
  }

  /** The first page (the default offset) is the latest `limit` messages of
      the conversation, oldest of them first. */
  lemma FirstPageIsLatest(t: Tables, sessionId: string, limit: int)
    requires SR.GetByUuid(t.sessions, sessionId).Ok?
    ensures var s := SR.GetByUuid(t.sessions, sessionId).value;
            var c := Conversation(t.messages, s.sendId, s.receiveId);
            var n := if |c| < EffectiveLimit(limit) then |c| else EffectiveLimit(limit);
            GetBySessionId(t, sessionId, limit, 0) == Ok(ToResponses(c[|c| - n..]))
  {
    var s := SR.GetByUuid(t.sessions, sessionId).value;
    var c := Conversation(t.messages, s.sendId, s.receiveId);
    var page := QueryPage(t, s, limit, 0);
    assert page == Page(Seqs.Reverse(c), EffectiveLimit(limit), 0);
    LatestPage(c, EffectiveLimit(limit));
    assert GetBySessionId(t, sessionId, limit, 0) == Ok(ToResponses(Seqs.Reverse(page)));
  }

  /** Reading the first `limit` of the reversed sequence and reversing them
      back gives its last `limit` elements in their order. */
  lemma LatestPage<T>(c: seq<T>, limit: nat)
    ensures var n := if |c| < limit then |c| else limit;
            Seqs.Reverse(Page(Seqs.Reverse(c), limit, 0)) == c[|c| - n..]
  {
    var n := if |c| < limit then |c| else limit;
    FirstPage(Seqs.Reverse(c), limit);
    ReverseOfFront(c, n);
  }

  /** With no offset a page is the first `limit` elements. */
  lemma FirstPage<T>(s: seq<T>, limit: nat)
    ensures Page(s, limit, 0) == s[..if |s| < limit then |s| else limit]
  {
  }

  /** The front `n` of the reversal, reversed back, is the last `n`. */
  lemma ReverseOfFront<T>(c: seq<T>, n: nat)
    requires n <= |c|
    ensures Seqs.Reverse(Seqs.Reverse(c)[..n]) == c[|c| - n..]
  {
    var back := Seqs.Reverse(Seqs.Reverse(c)[..n]);
    var last := c[|c| - n..];
    forall i | 0 <= i < n
      ensures back[i] == last[i]
    {
      ReverseOfFrontAt(c, n, i);
    }
  }

  lemma ReverseOfFrontAt<T>(c: seq<T>, n: nat, i: nat)
    requires i < n <= |c|
    ensures Seqs.Reverse(Seqs.Reverse(c)[..n])[i] == c[|c| - n + i]
  {
    var r := Seqs.Reverse(c);
    assert Seqs.Reverse(r[..n])[i] == r[..n][n - 1 - i] == r[n - 1 - i];
  }

  predicate Unread(m: MessageRow) {
    m.status < MessageStatusRead
  }

  /** The rows `MarkAllAsRead` touches. */
  predicate UnreadInSession(m: MessageRow, sessionId: string, userId: string) {
    m.sessionId == sessionId && m.receiveId == userId && Unread(m)
  }

  function MarkRead(ms: seq<MessageRow>, sessionId: string, userId: string): (r: seq<MessageRow>)
    ensures |r| == |ms|
    ensures forall i :: 0 <= i < |ms| ==>
      r[i] == (if UnreadInSession(ms[i], sessionId, userId) then ms[i].(status := MessageStatusRead) else ms[i])
  {
    if ms == [] then []
    else [if UnreadInSession(ms[0], sessionId, userId) then ms[0].(status := MessageStatusRead) else ms[0]]
         + MarkRead(ms[1..], sessionId, userId)
  }

  /** `MarkAsRead`: the message with that uuid becomes read. */
  function MarkAsRead(ms: seq<MessageRow>, uuid: string): (r: seq<MessageRow>)
    ensures |r| == |ms|
    ensures forall i :: 0 <= i < |ms| ==>
      r[i] == (if ms[i].uuid == uuid then ms[i].(status := MessageStatusRead) else ms[i])
  {
    if ms == [] then []
    else [if ms[0].uuid == uuid then ms[0].(status := MessageStatusRead) else ms[0]] + MarkAsRead(ms[1..], uuid)
  }

  /** `MarkAllAsRead`: fails on an unknown session; otherwise marks the
      session's unread messages to the caller read and zeroes the
      session's unread counter. */
  function MarkAllAsRead(t: Tables, sessionId: string, userId: string): (r: Result<Tables, MessageError>)
    ensures r.Err? <==> SR.GetByUuid(t.sessions, sessionId).Err?
    ensures r.Ok? ==> r.value == t.(messages := MarkRead(t.messages, sessionId, userId),
                                    sessions := SR.ClearUnread(t.sessions, sessionId))
    ensures r.Err? ==> r.error == SessionNotFound
  {
    var s := SR.GetByUuid(t.sessions, sessionId);
    if s.Err? then Err(SessionNotFound)
    else Ok(t.(messages := MarkRead(t.messages, sessionId, userId), sessions := SR.ClearUnread(t.sessions, s.value.uuid)))
  }

  predicate UnreadFor(m: MessageRow, userId: string) {
    m.receiveId == userId && Unread(m)
  }

  /** `GetUnreadCount`. */
  function UnreadCount(ms: seq<MessageRow>, userId: string): (n: nat)
    ensures n <= |ms|
    ensures n == 0 <==> forall i :: 0 <= i < |ms| ==> !UnreadFor(ms[i], userId)
  {
    if ms == [] then 0 else (if UnreadFor(ms[0], userId) then 1 else 0) + UnreadCount(ms[1..], userId)
  }

  /** The unread messages of one session to the caller. */
  function UnreadInSessionCount(ms: seq<MessageRow>, sessionId: string, userId: string): (n: nat)
    ensures n <= |ms|
  {
    if ms == [] then 0
    else (if UnreadInSession(ms[0], sessionId, userId) then 1 else 0) + UnreadInSessionCount(ms[1..], sessionId, userId)
  }

  /** Marking a session read lowers the caller's unread count by exactly
      that session's unread messages, and leaves none of them unread. */
  lemma {:induction false} MarkReadCount(ms: seq<MessageRow>, sessionId: string, userId: string)
    ensures UnreadCount(MarkRead(ms, sessionId, userId), userId)
            == UnreadCount(ms, userId) - UnreadInSessionCount(ms, sessionId, userId)
    ensures UnreadInSessionCount(MarkRead(ms, sessionId, userId), sessionId, userId) == 0
    ensures UnreadInSessionCount(ms, sessionId, userId) <= UnreadCount(ms, userId)
  {
    if ms != [] {
      MarkReadCount(ms[1..], sessionId, userId);
      assert MarkRead(ms, sessionId, userId)[1..] == MarkRead(ms[1..], sessionId, userId);
    }
  }

  /** Other users' counts are untouched. */
  lemma {:induction false} MarkReadOthers(ms: seq<MessageRow>, sessionId: string, userId: string, other: string)
    requires other != userId
    ensures UnreadCount(MarkRead(ms, sessionId, userId), other) == UnreadCount(ms, other)
  {
    if ms != [] {
      MarkReadOthers(ms[1..], sessionId, userId, other);
      assert MarkRead(ms, sessionId, userId)[1..] == MarkRead(ms[1..], sessionId, userId);
    }
  }
}

/** The message service's functions as methods over the shared database
    handle; `GetBySessionId` keeps Go's swap-from-both-ends reversal. */
module MessageService {
  import opened Wrappers
  import opened Schema
  import Seqs
  import SR = SessionRules
  import R = MessageRules

  method Create(db: Db, userId: string, nickname: string, avatar: string, req: R.CreateRequest,
                suffix: string, now: int) returns (r: Result<MessageRow, R.MessageError>)
    requires |suffix| == 11
    modifies db
    ensures (db.State(), r) == R.Create(old(db.State()), userId, nickname, avatar, req, suffix, now)
  {
    var msg := MessageRow(['M'] + suffix, req.sessionId, req.msgType, req.content, req.url, userId, nickname, avatar,
                          req.receiveId, req.fileType, req.fileName, req.fileSize, MessageStatusSent, "");
    if R.FindMessage(db.messages, msg.uuid).Some? {
      return Err(R.DbError);
    }
    db.messages := db.messages + [msg];
    var displayContent := req.content;
    if req.msgType == MessageTypeVoice {
      displayContent := "[Voice message]";
    } else if req.msgType == MessageTypeFile {
      displayContent := "[File: " + req.fileName + "]";
    } else if req.msgType == MessageTypeImage {
      displayContent := "[Image]";
    } else if req.msgType == MessageTypeVideoCall {
      displayContent := "[Video call]";
    }
    db.sessions := SR.UpdateLastMessage(db.sessions, req.sessionId, displayContent, now);
    return Ok(msg);
  }

  /** Swaps the ends towards the middle. */
  method ReverseInPlace<T>(a: array<T>)
    modifies a
    ensures a[..] == Seqs.Reverse(old(a[..]))
  {
    var i, j := 0, a.Length - 1;
    while i < j
      invariant 0 <= i <= a.Length && j == a.Length - 1 - i
      invariant i <= j + 1
      invariant forall k :: 0 <= k < i ==> a[k] == old(a[a.Length - 1 - k]) && a[a.Length - 1 - k] == old(a[k])
      invariant forall k :: i <= k <= j ==> a[k] == old(a[k])
    {
      a[i], a[j] := a[j], a[i];
      i, j := i + 1, j - 1;
    }
  }

  method GetBySessionId(db: Db, sessionId: string, limit: int, offset: int)
    returns (r: Result<seq<R.MessageResponse>, R.MessageError>)
    ensures r == R.GetBySessionId(db.State(), sessionId, limit, offset)
  {
    var lim := limit;
    if lim <= 0 {
      lim := 50;
    }
    var k := SR.FindSession(db.sessions, sessionId);
    if k.None? {
      return Err(R.SessionNotFound);
    }
    var sess := db.sessions[k.value];
    var messages := R.Page(Seqs.Reverse(R.Conversation(db.messages, sess.sendId, sess.receiveId)), lim, offset);
    assert messages == R.QueryPage(db.State(), sess, limit, offset);
    var result := ToResponseArray(messages);
    ReverseInPlace(result);
    ResponsesReverse(messages);
    return Ok(result[..]);
  }

  /** The response slice, filled by a loop. */
  method ToResponseArray(messages: seq<MessageRow>) returns (result: array<R.MessageResponse>)
    ensures fresh(result)
    ensures result[..] == R.ToResponses(messages)
  {
    result := new R.MessageResponse[|messages|](_ => R.MessageResponse("", "", 0, "", "", "", "", "", "", "", "", 0, 0));
    for i := 0 to |messages|
      invariant forall j :: 0 <= j < i ==> result[j] == R.ToResponse(messages[j])
    {
      result[i] := R.ToResponse(messages[i]);
    }
  }

  lemma ResponsesReverse(ms: seq<MessageRow>)
    ensures Seqs.Reverse(R.ToResponses(ms)) == R.ToResponses(Seqs.Reverse(ms))
  {
    var a := Seqs.Reverse(R.ToResponses(ms));
    var b := R.ToResponses(Seqs.Reverse(ms));
    assert |a| == |b|;
    forall i | 0 <= i < |a|
      ensures a[i] == b[i]
    {
      var j := |ms| - 1 - i;
      assert a[i] == R.ToResponses(ms)[j] == R.ToResponse(ms[j]);
      assert Seqs.Reverse(ms)[i] == ms[j];
      assert b[i] == R.ToResponse(ms[j]);
    }
    assert a == b;
  }

  method MarkAsRead(db: Db, uuid: string)
    modifies db
    ensures db.State() == old(db.State()).(messages := R.MarkAsRead(old(db.messages), uuid))
  {
    db.messages := R.MarkAsRead(db.messages, uuid);
  }

  method MarkAllAsRead(db: Db, sessionId: string, userId: string) returns (err: Option<R.MessageError>)
    modifies db
    ensures var r := R.MarkAllAsRead(old(db.State()), sessionId, userId);
            if r.Ok? then err.None? && db.State() == r.value else err == Some(r.error) && db.State() == old(db.State())
  {
    var s := SR.GetByUuid(db.sessions, sessionId);
    if s.Err? {
      return Some(R.SessionNotFound);
    }
    db.messages := R.MarkRead(db.messages, sessionId, userId);
    db.sessions := SR.ClearUnread(db.sessions, s.value.uuid);
    return None;
  }

  method GetUnreadCount(db: Db, userId: string) returns (count: nat)
    ensures count == R.UnreadCount(db.messages, userId)
  {
    count := R.UnreadCount(db.messages, userId);
  }
}
