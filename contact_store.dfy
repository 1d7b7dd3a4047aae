/** The contact slice: the contact list, the pending friend requests and
    the last user search. The filters on accept, reject and delete read
    the `id` and `contact_uuid` fields of the records, which a record may
    lack; a missing field never equals the payload. */
module ContactStore {
  import opened Wrappers
  import AuthStore

  datatype Contact = Contact(contactUuid: Option<string>, uuid: string, nickname: string, status: int)

  datatype FriendRequest = FriendRequest(id: Option<int>, uuid: string, userId: string, message: string)

  /** `friendRequests.filter(r => r.id !== applyId)`. */
  function WithoutRequest(rs: seq<FriendRequest>, applyId: int): (r: seq<FriendRequest>)
    ensures |r| <= |rs|
    ensures forall i :: 0 <= i < |r| ==> r[i].id != Some(applyId) && r[i] in rs
    ensures forall i :: 0 <= i < |rs| && rs[i].id != Some(applyId) ==> rs[i] in r
  {
    if rs == [] then []
    else if rs[0].id != Some(applyId) then [rs[0]] + WithoutRequest(rs[1..], applyId)
    else WithoutRequest(rs[1..], applyId)
  }

  /** The filter works piece by piece, so the surviving requests keep their
      relative order. */
  lemma {:induction false} WithoutRequestAppend(a: seq<FriendRequest>, b: seq<FriendRequest>, applyId: int)
    ensures WithoutRequest(a + b, applyId) == WithoutRequest(a, applyId) + WithoutRequest(b, applyId)
  {
    if a == [] {
      assert a + b == b;
    } else {
      assert (a + b)[1..] == a[1..] + b;
      WithoutRequestAppend(a[1..], b, applyId);
    }
  }

  /** Only the matching requests go: without a match the list is unchanged. */
  lemma {:induction false} WithoutRequestNoMatch(rs: seq<FriendRequest>, applyId: int)
    requires forall i :: 0 <= i < |rs| ==> rs[i].id != Some(applyId)
    ensures WithoutRequest(rs, applyId) == rs
  {
    if rs != [] {
      WithoutRequestNoMatch(rs[1..], applyId);
    }
  }

  /** `contacts.filter(c => c.contact_uuid !== contactUuid)`. */
  function WithoutContact(cs: seq<Contact>, contactUuid: string): (r: seq<Contact>)
    ensures |r| <= |cs|
    ensures forall i :: 0 <= i < |r| ==> r[i].contactUuid != Some(contactUuid) && r[i] in cs
    ensures forall i :: 0 <= i < |cs| && cs[i].contactUuid != Some(contactUuid) ==> cs[i] in r
  {
    if cs == [] then []
    else if cs[0].contactUuid != Some(contactUuid) then [cs[0]] + WithoutContact(cs[1..], contactUuid)
    else WithoutContact(cs[1..], contactUuid)
  }

  lemma {:induction false} WithoutContactAppend(a: seq<Contact>, b: seq<Contact>, contactUuid: string)
    ensures WithoutContact(a + b, contactUuid) == WithoutContact(a, contactUuid) + WithoutContact(b, contactUuid)
  {
    if a == [] {
      assert a + b == b;
    } else {
      assert (a + b)[1..] == a[1..] + b;
      WithoutContactAppend(a[1..], b, contactUuid);
    }
  }

  lemma {:induction false} WithoutContactNoMatch(cs: seq<Contact>, contactUuid: string)
    requires forall i :: 0 <= i < |cs| ==> cs[i].contactUuid != Some(contactUuid)
    ensures WithoutContact(cs, contactUuid) == cs
  {
    if cs != [] {
      WithoutContactNoMatch(cs[1..], contactUuid);
    }
  }

  class ContactSlice {
    var contacts: seq<Contact>
    var friendRequests: seq<FriendRequest>
    var searchResults: seq<AuthStore.User>
    var isLoading: bool
    var error: Option<string>

    constructor()
      ensures contacts == [] && friendRequests == [] && searchResults == []
      ensures !isLoading && error.None?
    {
      contacts := [];
      friendRequests := [];
      searchResults := [];
      isLoading := false;
      error := None;
    }

    method ClearSearchResults()
      modifies this
      ensures searchResults == []
      ensures contacts == old(contacts) && friendRequests == old(friendRequests)
      ensures isLoading == old(isLoading) && error == old(error)
    {
      searchResults := [];
    }

    method ClearError()
      modifies this
      ensures error.None?
      ensures contacts == old(contacts) && friendRequests == old(friendRequests)
      ensures searchResults == old(searchResults) && isLoading == old(isLoading)
    {
      error := None;
    }

    /** `fetchContacts.pending`: the only pending case that also clears the
        error. */
    method FetchContactsPending()
      modifies this
      ensures isLoading && error.None?
      ensures contacts == old(contacts) && friendRequests == old(friendRequests)
      ensures searchResults == old(searchResults)
    {
      isLoading := true;
      error := None;
    }

    /** `fetchFriendRequests.pending` and `searchUsers.pending`. */
    method ListPending()
      modifies this
      ensures isLoading
      ensures contacts == old(contacts) && friendRequests == old(friendRequests)
      ensures searchResults == old(searchResults) && error == old(error)
    {
      isLoading := true;
    }

    method FetchContactsFulfilled(payload: seq<Contact>)
      modifies this
      ensures !isLoading && contacts == payload
      ensures friendRequests == old(friendRequests) && searchResults == old(searchResults)
      ensures error == old(error)
    {
      isLoading := false;
      contacts := payload;
    }

    method FetchFriendRequestsFulfilled(payload: seq<FriendRequest>)
      modifies this
      ensures !isLoading && friendRequests == payload
      ensures contacts == old(contacts) && searchResults == old(searchResults)
      ensures error == old(error)
    {
      isLoading := false;
      friendRequests := payload;
    }

    method SearchUsersFulfilled(payload: seq<AuthStore.User>)
      modifies this
      ensures !isLoading && searchResults == payload
      ensures contacts == old(contacts) && friendRequests == old(friendRequests)
      ensures error == old(error)
    {
      isLoading := false;
      searchResults := payload;
    }

    /** The rejected case of each of the three fetches. */
    method ListRejected(payload: string)
      modifies this
      ensures !isLoading && error == Some(payload)
      ensures contacts == old(contacts) && friendRequests == old(friendRequests)
      ensures searchResults == old(searchResults)
    {
      isLoading := false;
      error := Some(payload);
    }

    method SendFriendRequestFulfilled()
      modifies this
      ensures searchResults == []
      ensures contacts == old(contacts) && friendRequests == old(friendRequests)
      ensures isLoading == old(isLoading) && error == old(error)
    {
      searchResults := [];
    }

    /** `acceptFriendRequest.fulfilled` and `rejectFriendRequest.fulfilled`. */
    method RequestSettled(applyId: int)
      modifies this
      ensures friendRequests == WithoutRequest(old(friendRequests), applyId)
      ensures contacts == old(contacts) && searchResults == old(searchResults)
      ensures isLoading == old(isLoading) && error == old(error)
    {
      friendRequests := WithoutRequest(friendRequests, applyId);
    }

    method DeleteContactFulfilled(contactUuid: string)
      modifies this
      ensures contacts == WithoutContact(old(contacts), contactUuid)
      ensures friendRequests == old(friendRequests) && searchResults == old(searchResults)
      ensures isLoading == old(isLoading) && error == old(error)
    {
      contacts := WithoutContact(contacts, contactUuid);
    }
  }
}
