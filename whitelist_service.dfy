/** The whitelist service (services/whitelist/whitelist.go): maps the
    request and response shapes onto the whitelist store. */
module Whitelist {
  import opened Errors
  import opened Resources
  import UserOperations
  import WhitelistOperations

  /** The store-side shape of one requested user: only handle and email. */
  function Requested(u: WhitelistUser): (e: WhitelistEntry)
    ensures e.handle == u.handle && e.email == u.email
    ensures e.id == "" && e.transcript == "" && e.userRef == "" && e.createdAt == 0
  {
    WhitelistEntry("", "", "", u.handle, u.email, 0)
  }

  /** Builds one store entry per requested user, in request order. */
  method BuildWhitelistedUsers(users: seq<WhitelistUser>) returns (a: array<WhitelistEntry>)
    ensures fresh(a) && a.Length == |users|
    ensures forall i :: 0 <= i < |users| ==> a[i] == Requested(users[i])
  {
    a := new WhitelistEntry[|users|](_ => WhitelistEntry("", "", "", "", "", 0));
    for i := 0 to |users|
      invariant forall j :: 0 <= j < i ==> a[j] == Requested(users[j])
    {
      a[i] := Requested(users[i]);
    }
  }

  /** `AddUsersToTranscriptWhitelist`. */
  method AddUsersToTranscriptWhitelist(store: WhitelistOperations.WhitelistStore, users: UserOperations.UserStore,
                                       userID: string, transcriptID: string, request: seq<WhitelistUser>,
                                       uuid: nat -> string, now: nat -> Instant)
    returns (r: Outcome)
    modifies store
    ensures var k := WhitelistOperations.TranscriptKey(userID, transcriptID);
      var created := WhitelistOperations.NewEntries(WhitelistOperations.Resolver(users.docs), transcriptID, seq(|request|, i requires 0 <= i < |request| => Requested(request[i])), uuid, now);
      if created.Err? then r == Fail(created.error) && store.lists == old(store.lists)
      else if request == [] then r == Fail(WhitelistOperations.EmptyBatch) && store.lists == old(store.lists)
      else r == Pass && store.lists == old(store.lists)[k := old(store.Entries(k)) + created.value]
  {
    var whitelisted := BuildWhitelistedUsers(request);
    assert whitelisted[..] == seq(|request|, i requires 0 <= i < |request| => Requested(request[i]));
    r := store.AddTranscriptWhitelistedUsers(users, userID, transcriptID, whitelisted[..], uuid, now);
  }

  /** `RemoveUsersFromTranscriptWhitelist`: the handles and emails go to the
      store unchanged. */
  method RemoveUsersFromTranscriptWhitelist(store: WhitelistOperations.WhitelistStore, users: UserOperations.UserStore,
                                            userID: string, transcriptID: string, handles: seq<string>, emails: seq<string>)
    returns (r: Outcome)
    modifies store
    ensures var k := WhitelistOperations.TranscriptKey(userID, transcriptID);
      var removed := WhitelistOperations.HandleIds(users.docs, handles) + WhitelistOperations.EmailIds(users.docs, emails);
      var kept := WhitelistOperations.Without(old(store.Entries(k)), removed);
      if |old(store.Entries(k))| - |kept| == 0 then r == Fail(WhitelistOperations.EmptyBatch) && store.lists == old(store.lists)
      else r == Pass && store.lists == old(store.lists)[k := kept]
  {
    r := store.RemoveTranscriptWhitelistedUsers(users, userID, transcriptID, handles, emails);
  }

  /** The response for one entry: its own id and creation time, and the
      handle and email of the user it refers to as stored now. */
  function ResponseFor(entry: WhitelistEntry, users: seq<User>): (r: Result<WhitelistedUserResponse>)
    ensures r.Ok? <==> UserOperations.IndexOf(users, entry.userRef).Some?
    ensures r.Ok? ==> var u := users[UserOperations.IndexOf(users, entry.userRef).value];
      r.value == WhitelistedUserResponse(entry.id, u.handle, u.email, entry.createdAt)
  {
    var k := UserOperations.IndexOf(users, entry.userRef);
    if k.None? then Err(NotFound(UserOperations.UserPath(entry.userRef)))
    else Ok(WhitelistedUserResponse(entry.id, users[k.value].handle, users[k.value].email, entry.createdAt))
  }

  /** The listing: one response per entry in entry order, or the error of
      the first entry whose user cannot be read, and no partial list. */
  function Responses(entries: seq<WhitelistEntry>, users: seq<User>): (r: Result<seq<WhitelistedUserResponse>>)
    ensures r.Ok? <==> forall i :: 0 <= i < |entries| ==> ResponseFor(entries[i], users).Ok?
    ensures r.Ok? ==> (|r.value| == |entries| &&
      forall i :: 0 <= i < |entries| ==> r.value[i] == ResponseFor(entries[i], users).value)
  {
    if entries == [] then Ok([])
    else
      var n := |entries| - 1;
      var front := Responses(entries[..n], users);
      assert forall i :: 0 <= i < n ==> entries[..n][i] == entries[i];
      var last := ResponseFor(entries[n], users);
      if front.Err? then front
      else if last.Err? then Err(last.error)
      else Ok(front.value + [last.value])
  }

  /** `GetTranscriptWhitelist`: the responses for the store's newest-first
      listing. `ordered` is the listing the store returned; entries with
      equal creation times may come in any order. */
  method GetTranscriptWhitelist(store: WhitelistOperations.WhitelistStore, users: UserOperations.UserStore,
                                userID: string, transcriptID: string)
    returns (r: Result<seq<WhitelistedUserResponse>>, ghost ordered: seq<WhitelistEntry>)
    ensures WhitelistOperations.NewestFirstListing(ordered, store.Entries(WhitelistOperations.TranscriptKey(userID, transcriptID)))
    ensures r == Responses(ordered, users.docs)
  {
    var entries := store.GetTranscriptWhitelistedUsers(userID, transcriptID);
    ordered := entries;
    var responses := new WhitelistedUserResponse[|entries|](_ => WhitelistedUserResponse("", "", "", 0));
    for i := 0 to |entries|
      invariant Responses(entries[..i], users.docs) == Ok(responses[..i])
    {
      var k := UserOperations.IndexOf(users.docs, entries[i].userRef);
      if k.None? {
        FirstFailure(entries, users.docs, i);
        r := Err(NotFound(UserOperations.UserPath(entries[i].userRef)));
        return;
      }
      var user := users.docs[k.value];
      ResponsesStep(entries, users.docs, i);
      responses[i] := WhitelistedUserResponse(entries[i].id, user.handle, user.email, entries[i].createdAt);
      assert responses[..i + 1] == responses[..i] + [responses[i]];
    }
    assert entries[..|entries|] == entries;
    assert responses[..] == responses[..|entries|];
    r := Ok(responses[..]);
  }

  lemma ResponsesStep(entries: seq<WhitelistEntry>, users: seq<User>, i: nat)
    requires i < |entries| && Responses(entries[..i], users).Ok? && ResponseFor(entries[i], users).Ok?
    ensures Responses(entries[..i + 1], users) ==
      Ok(Responses(entries[..i], users).value + [ResponseFor(entries[i], users).value])
  {
    assert entries[..i + 1][..i] == entries[..i];
  }

  /** The listing fails with the error of the first unreadable user. */
  lemma {:induction false} FirstFailure(entries: seq<WhitelistEntry>, users: seq<User>, i: nat)
    requires i < |entries| && ResponseFor(entries[i], users).Err?
    requires Responses(entries[..i], users).Ok?
    ensures Responses(entries, users) == Err(ResponseFor(entries[i], users).error)
  {
    var n := |entries| - 1;
    var front := entries[..n];
    if i < n {
      assert Responses(front, users) == Err(ResponseFor(entries[i], users).error) by {
        assert front[..i] == entries[..i] && front[i] == entries[i];
        FirstFailure(front, users, i);
      }
    } else {
      assert front == entries[..i];
    }
  }

  /** `IsUserWhitelistedForTranscript`. */
  method IsUserWhitelistedForTranscript(store: WhitelistOperations.WhitelistStore, transcriptOwnerID: string,
                                        transcriptID: string, userID: string)
    returns (listed: bool)
    ensures listed <==> WhitelistOperations.Listed(store.Entries(WhitelistOperations.TranscriptKey(transcriptOwnerID, transcriptID)), userID)
  {
    listed := store.IsUserWhitelistedForTranscript(transcriptOwnerID, transcriptID, userID);
  }
}
