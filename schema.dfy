/** The backend's tables. GORM and the SQL server are replaced by a `Db`
    object whose fields are the six tables, each a sequence of rows in
    primary-key order: `First` finds the earliest matching row, `Create`
    appends, and a `Where(...).Update(...)` rewrites every matching row.
    Soft-deleted rows are dropped, since no query can see them again. */
module Schema {
  import opened Wrappers

  // Contact.ContactType
  const ContactTypeUser := 0
  const ContactTypeGroup := 1

  // Contact.Status
  const ContactStatusNormal := 0
  const ContactStatusBlacklisted := 1
  const ContactStatusBlocked := 2
  const ContactStatusDeleted := 3
  const ContactStatusDeletedBy := 4
  const ContactStatusMuted := 5
  const ContactStatusLeftGroup := 6
  const ContactStatusKicked := 7

  // ContactApply.Status
  const ApplyStatusPending := 0
  const ApplyStatusApproved := 1
  const ApplyStatusRejected := 2
  const ApplyStatusBlacklisted := 3

  // Group.AddMode and Group.Status
  const GroupAddModeDirect := 0
  const GroupAddModeApproval := 1
  const GroupStatusActive := 0
  const GroupStatusDisabled := 1
  const GroupStatusDissolved := 2

  // Message.Type and Message.Status
  const MessageTypeText := 0
  const MessageTypeVoice := 1
  const MessageTypeFile := 2
  const MessageTypeImage := 3
  const MessageTypeVideoCall := 4
  const MessageStatusSent := 0
  const MessageStatusDelivered := 1
  const MessageStatusRead := 2

  // User.Status
  const UserStatusActive := 0
  const UserStatusDisabled := 1

  /** A generated public id: a one-letter prefix and the first eleven
      characters of a random UUID, which the model takes as a parameter. */
  predicate IsGeneratedId(id: string, prefix: char) {
    |id| == 12 && id[0] == prefix
  }

  /** `passwordHash` stands for the bcrypt hash; the timestamps that matter
      are clock readings passed in by the caller. */
  datatype UserRow = UserRow(
    uuid: string, nickname: string, email: string, passwordHash: string, avatar: string,
    gender: int, signature: string, birthday: string, isAdmin: bool, status: int,
    lastOnlineAt: Option<int>, lastOfflineAt: Option<int>)

  datatype GroupRow = GroupRow(
    uuid: string, name: string, notice: string, members: seq<string>, memberCnt: int,
    ownerId: string, addMode: int, avatar: string, status: int)

  datatype ContactRow = ContactRow(userId: string, contactId: string, contactType: int, status: int)

  datatype ApplyRow = ApplyRow(
    uuid: string, userId: string, contactId: string, contactType: int, status: int, message: string)

  datatype SessionRow = SessionRow(
    uuid: string, sendId: string, receiveId: string, receiveName: string, avatar: string,
    lastMessage: string, lastMessageAt: Option<int>, unreadCount: int)

  datatype MessageRow = MessageRow(
    uuid: string, sessionId: string, msgType: int, content: string, url: string,
    sendId: string, sendName: string, sendAvatar: string, receiveId: string,
    fileType: string, fileName: string, fileSize: int, status: int, avData: string)

  datatype Tables = Tables(
    users: seq<UserRow>, groups: seq<GroupRow>, contacts: seq<ContactRow>,
    applies: seq<ApplyRow>, sessions: seq<SessionRow>, messages: seq<MessageRow>)

  const EmptyTables := Tables([], [], [], [], [], [])

  /** The global `database.DB` handle. */
  class Db {
    var users: seq<UserRow>
    var groups: seq<GroupRow>
    var contacts: seq<ContactRow>
    var applies: seq<ApplyRow>
    var sessions: seq<SessionRow>
    var messages: seq<MessageRow>

    ghost function State(): Tables
      reads this
    {
      Tables(users, groups, contacts, applies, sessions, messages)
    }

    constructor()
      ensures State() == EmptyTables
    {
      users := [];
      groups := [];
      contacts := [];
      applies := [];
      sessions := [];
      messages := [];
    }
  }

  /** The Redis side of the backend, reduced to its string entries. */
  class KeyValueStore {
    var entries: map<string, string>

    constructor()
      ensures entries == map[]
    {
      entries := map[];
    }
  }

  /** Which contact rows a `Where` clause selects. */
  datatype ContactSelector =
    | ByPair(userId: string, contactId: string)      // user_id = ? AND contact_id = ?
    | GroupRowsOf(groupUuid: string)                  // contact_id = ? AND contact_type = group

  predicate Selects(sel: ContactSelector, c: ContactRow) {
    match sel
    case ByPair(u, k) => c.userId == u && c.contactId == k
    case GroupRowsOf(g) => c.contactId == g && c.contactType == ContactTypeGroup
  }

  /** `Model(&Contact{}).Where(sel).Update("status", status)`. */
  function SetContactStatus(cs: seq<ContactRow>, sel: ContactSelector, status: int): (r: seq<ContactRow>)
    ensures |r| == |cs|
    ensures forall i :: 0 <= i < |cs| && Selects(sel, cs[i]) ==> r[i] == cs[i].(status := status)
    ensures forall i :: 0 <= i < |cs| && !Selects(sel, cs[i]) ==> r[i] == cs[i]
  {
    if cs == [] then []
    else [if Selects(sel, cs[0]) then cs[0].(status := status) else cs[0]]
         + SetContactStatus(cs[1..], sel, status)
  }
}
