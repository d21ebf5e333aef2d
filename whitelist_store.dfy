/** Per-transcript whitelists
    (services/data/firestore/operations/transcriptWhitelistedUsers.go).
    Each transcript, named by its owner and id, has a collection of
    entries, held here in the order they were committed; the listing
    orders them newest first by creation time. Writes are collected in a
    batch that is committed at the end, so either all of them happen or
    none. */
module WhitelistOperations {
  import opened Errors
  import opened Resources
  import UserOperations
  import Sorting

  datatype TranscriptKey = TranscriptKey(owner: string, transcriptID: string)

  /** The document store refuses to commit a batch with no writes. */
  const EmptyBatch: Error := Failure("firestore: cannot commit empty WriteBatch")

  /** The order the document store returns the results of a query that
      names no order in: by document id, compared character by character.
      `a` comes no later than `b`. */
  predicate IdAtMost(a: string, b: string) {
    a == [] || (b != [] && (a[0] < b[0] || (a[0] == b[0] && IdAtMost(a[1..], b[1..]))))
  }

  lemma {:induction false} IdOrderTotal(a: string, b: string)
    ensures IdAtMost(a, b) || IdAtMost(b, a)
  {
    if a != [] && b != [] && a[0] == b[0] {
      IdOrderTotal(a[1..], b[1..]);
    }
  }

  lemma {:induction false} IdOrderReflexive(a: string)
    ensures IdAtMost(a, a)
  {
    if a != [] {
      IdOrderReflexive(a[1..]);
    }
  }

  lemma {:induction false} IdOrderTransitive(a: string, b: string, c: string)
    requires IdAtMost(a, b) && IdAtMost(b, c)
    ensures IdAtMost(a, c)
  {
    if a != [] && a[0] == b[0] && b[0] == c[0] {
      IdOrderTransitive(a[1..], b[1..], c[1..]);
    }
  }

  lemma {:induction false} IdOrderAntisymmetric(a: string, b: string)
    requires IdAtMost(a, b) && IdAtMost(b, a)
    ensures a == b
  {
    if a != [] {
      IdOrderAntisymmetric(a[1..], b[1..]);
      assert a == [a[0]] + a[1..] && b == [b[0]] + b[1..];
    }
  }

  lemma IdOrderBelow(a: string, b: string)
    requires IdAtMost(a, b)
    ensures forall c :: IdAtMost(b, c) ==> IdAtMost(a, c)
  {
    forall c | IdAtMost(b, c) ensures IdAtMost(a, c) {
      IdOrderTransitive(a, b, c);
    }
  }

  /** `findUserByHandle`: a one-result query on the handle, in no stated
      order, gives the matching user with the least document id. */
  function FindUserByHandle(users: seq<User>, handle: string): (r: Option<string>)
    ensures r.Some? <==> exists i :: 0 <= i < |users| && users[i].handle == handle
    ensures r.Some? ==> exists i :: 0 <= i < |users| && users[i].handle == handle && users[i].id == r.value
    ensures r.Some? ==> forall i :: 0 <= i < |users| && users[i].handle == handle ==> IdAtMost(r.value, users[i].id)
  {
    if users == [] then None
    else
      var rest := FindUserByHandle(users[1..], handle);
      assert forall i :: 0 < i < |users| ==> users[i] == users[1..][i - 1];
      if users[0].handle != handle then rest
      else if rest.Some? && !IdAtMost(users[0].id, rest.value) then
        IdOrderTotal(users[0].id, rest.value);
        rest
      else
        IdOrderReflexive(users[0].id);
        if rest.Some? then IdOrderBelow(users[0].id, rest.value); Some(users[0].id)
        else Some(users[0].id)
  }

  /** `findUserByEmail`: the matching user with the least document id. */
  function FindUserByEmail(users: seq<User>, email: string): (r: Option<string>)
    ensures r.Some? <==> exists i :: 0 <= i < |users| && users[i].email == email
    ensures r.Some? ==> exists i :: 0 <= i < |users| && users[i].email == email && users[i].id == r.value
    ensures r.Some? ==> forall i :: 0 <= i < |users| && users[i].email == email ==> IdAtMost(r.value, users[i].id)
  {
    if users == [] then None
    else
      var rest := FindUserByEmail(users[1..], email);
      assert forall i :: 0 < i < |users| ==> users[i] == users[1..][i - 1];
      if users[0].email != email then rest
      else if rest.Some? && !IdAtMost(users[0].id, rest.value) then
        IdOrderTotal(users[0].id, rest.value);
        rest
      else
        IdOrderReflexive(users[0].id);
        if rest.Some? then IdOrderBelow(users[0].id, rest.value); Some(users[0].id)
        else Some(users[0].id)
  }

  /** The user a handle resolves to does not depend on the order the
      users are stored in. */
  lemma HandleLookupIgnoresStoreOrder(users: seq<User>, shuffled: seq<User>, handle: string)
    requires multiset(users) == multiset(shuffled)
    ensures FindUserByHandle(users, handle) == FindUserByHandle(shuffled, handle)
  {
    var r, q := FindUserByHandle(users, handle), FindUserByHandle(shuffled, handle);
    forall i | 0 <= i < |users| ensures users[i] in multiset(shuffled) {
      assert users[i] in multiset(users);
    }
    forall i | 0 <= i < |shuffled| ensures shuffled[i] in multiset(users) {
      assert shuffled[i] in multiset(shuffled);
    }
    if r.Some? {
      var i :| 0 <= i < |users| && users[i].handle == handle && users[i].id == r.value;
      var j :| 0 <= j < |shuffled| && shuffled[j] == users[i];
      var k :| 0 <= k < |shuffled| && shuffled[k].handle == handle && shuffled[k].id == q.value;
      var m :| 0 <= m < |users| && users[m] == shuffled[k];
      IdOrderAntisymmetric(r.value, q.value);
    }
  }

  /** How one requested entry resolves: a non-empty handle takes
      precedence over the email. */
  function Resolve(users: seq<User>, request: WhitelistEntry): (r: Result<string>)
    ensures request.handle != "" ==>
      r == if FindUserByHandle(users, request.handle).Some? then Ok(FindUserByHandle(users, request.handle).value)
           else Err(Failure("user not found"))
    ensures request.handle == "" && request.email != "" ==>
      r == if FindUserByEmail(users, request.email).Some? then Ok(FindUserByEmail(users, request.email).value)
           else Err(Failure("user not found"))
    ensures request.handle == "" && request.email == "" ==> r == Err(Failure("either handle or email must be provided"))
  {
    var found :=
      if request.handle != "" then FindUserByHandle(users, request.handle)
      else if request.email != "" then FindUserByEmail(users, request.email)
      else None;
    if request.handle == "" && request.email == "" then Err(Failure("either handle or email must be provided"))
    else if found.None? then Err(Failure("user not found"))
    else Ok(found.value)
  }

  /** The resolution of requests against the stored users. */
  function Resolver(users: seq<User>): WhitelistEntry -> Result<string> {
    request => Resolve(users, request)
  }

  /** A requested entry as it is created: a fresh id, the transcript, the
      resolved user and the creation time; handle and email as requested. */
  function Completed(request: WhitelistEntry, id: string, transcriptID: string, userRef: string, now: Instant): WhitelistEntry
  {
    request.(id := id, createdAt := now, transcript := transcriptID, userRef := userRef)
  }

  /** The entries a batch of requests creates, in request order, or the
      first request's error. Entry `i` gets id `uuid(i)` and is stamped
      with `now(i)`, the clock as read when it is built. */
  function NewEntries(resolve: WhitelistEntry -> Result<string>, transcriptID: string, requests: seq<WhitelistEntry>,
                      uuid: nat -> string, now: nat -> Instant): (r: Result<seq<WhitelistEntry>>)
    ensures r.Ok? <==> AllResolve(resolve, requests)
    ensures r.Ok? ==> CompletedAll(resolve, transcriptID, requests, uuid, now, r.value)
  {
    if requests == [] then Ok([])
    else
      var n := |requests| - 1;
      var front := NewEntries(resolve, transcriptID, requests[..n], uuid, now);
      AllResolveSplit(resolve, requests);
      if front.Err? then front
      else
        var resolved := resolve(requests[n]);
        if resolved.Err? then Err(resolved.error)
        else
          var entries := front.value + [Completed(requests[n], uuid(n), transcriptID, resolved.value, now(n))];
          CompletedAllStep(resolve, transcriptID, requests, uuid, now, front.value);
          Ok(entries)
  }

  /** Every request of the batch resolves to a user. */
  predicate AllResolve(resolve: WhitelistEntry -> Result<string>, requests: seq<WhitelistEntry>) {
    forall i :: 0 <= i < |requests| ==> resolve(requests[i]).Ok?
  }

  /** `entries` holds one completed entry per request, in request order:
      entry `i` has id `uuid(i)`, creation time `now(i)` and the user
      request `i` resolves to. */
  predicate CompletedAll(resolve: WhitelistEntry -> Result<string>, transcriptID: string, requests: seq<WhitelistEntry>,
                         uuid: nat -> string, now: nat -> Instant, entries: seq<WhitelistEntry>) {
    && |entries| == |requests|
    && forall i :: 0 <= i < |requests| ==>
         resolve(requests[i]).Ok? &&
         entries[i] == Completed(requests[i], uuid(i), transcriptID, resolve(requests[i]).value, now(i))
  }

  lemma AllResolveSplit(resolve: WhitelistEntry -> Result<string>, requests: seq<WhitelistEntry>)
    requires requests != []
    ensures var n := |requests| - 1;
      AllResolve(resolve, requests) <==> AllResolve(resolve, requests[..n]) && resolve(requests[n]).Ok?
  {
    var n := |requests| - 1;
    assert forall i :: 0 <= i < n ==> requests[..n][i] == requests[i];
  }

  lemma CompletedAllStep(resolve: WhitelistEntry -> Result<string>, transcriptID: string, requests: seq<WhitelistEntry>,
                         uuid: nat -> string, now: nat -> Instant, front: seq<WhitelistEntry>)
    requires requests != []
    requires CompletedAll(resolve, transcriptID, requests[..|requests| - 1], uuid, now, front)
    requires resolve(requests[|requests| - 1]).Ok?
    ensures var n := |requests| - 1;
      CompletedAll(resolve, transcriptID, requests, uuid, now,
        front + [Completed(requests[n], uuid(n), transcriptID, resolve(requests[n]).value, now(n))])
  {
    var n := |requests| - 1;
    assert forall i :: 0 <= i < n ==> requests[..n][i] == requests[i];
  }

  /** The users the handles of a removal resolve to; handles naming no
      user are skipped. */
  function HandleIds(users: seq<User>, handles: seq<string>): set<string>
  {
    if handles == [] then {}
    else
      var n := |handles| - 1;
      var front := HandleIds(users, handles[..n]);
      var found := FindUserByHandle(users, handles[n]);
      if found.Some? then front + {found.value} else front
  }

  /** The users the emails of a removal resolve to. */
  function EmailIds(users: seq<User>, emails: seq<string>): set<string>
  {
    if emails == [] then {}
    else
      var n := |emails| - 1;
      var front := EmailIds(users, emails[..n]);
      var found := FindUserByEmail(users, emails[n]);
      if found.Some? then front + {found.value} else front
  }

  /** A user is removed exactly when one of the handles resolves to it. */
  lemma {:induction false} HandleIdsExact(users: seq<User>, handles: seq<string>, id: string)
    ensures id in HandleIds(users, handles) <==> exists i :: 0 <= i < |handles| && FindUserByHandle(users, handles[i]) == Some(id)
  {
    if handles != [] {
      var n := |handles| - 1;
      HandleIdsExact(users, handles[..n], id);
      assert forall i :: 0 <= i < n ==> handles[..n][i] == handles[i];
    }
  }

  /** A user is removed exactly when one of the emails resolves to it. */
  lemma {:induction false} EmailIdsExact(users: seq<User>, emails: seq<string>, id: string)
    ensures id in EmailIds(users, emails) <==> exists i :: 0 <= i < |emails| && FindUserByEmail(users, emails[i]) == Some(id)
  {
    if emails != [] {
      var n := |emails| - 1;
      EmailIdsExact(users, emails[..n], id);
      assert forall i :: 0 <= i < n ==> emails[..n][i] == emails[i];
    }
  }

  /** The entries that survive deleting every entry of a resolved user. */
  function Without(entries: seq<WhitelistEntry>, removed: set<string>): (r: seq<WhitelistEntry>)
    ensures forall e :: e in r <==> e in entries && e.userRef !in removed
    ensures |r| <= |entries|
  {
    if entries == [] then []
    else
      var front := Without(entries[..|entries| - 1], removed);
      var last := entries[|entries| - 1];
      assert entries == entries[..|entries| - 1] + [last];
      if last.userRef in removed then front else front + [last]
  }

  /** `IsUserWhitelistedForTranscript` as a predicate on one list. */
  predicate Listed(entries: seq<WhitelistEntry>, userID: string) {
    exists i :: 0 <= i < |entries| && entries[i].userRef == userID
  }

  /** After a removal no entry of a resolved user is left. */
  lemma RemovedUsersAreNotListed(entries: seq<WhitelistEntry>, removed: set<string>, userID: string)
    requires userID in removed
    ensures !Listed(Without(entries, removed), userID)
  {
    var r := Without(entries, removed);
    forall i | 0 <= i < |r| ensures r[i].userRef != userID {
      assert r[i] in r;
    }
  }

  /** Adding a resolved user makes that user listed. */
  lemma AddedUsersAreListed(entries: seq<WhitelistEntry>, added: seq<WhitelistEntry>, k: nat)
    requires k < |added|
    ensures Listed(entries + added, added[k].userRef)
  {
    assert (entries + added)[|entries| + k] == added[k];
  }

  // ---------------------------------------------------------------------
  // The listing: OrderBy("CreatedAt", Desc)

  function NewestKey(e: WhitelistEntry): int { -e.createdAt }

  /** `listing` holds exactly the stored entries, newest first; entries
      with equal creation times may come in any order. */
  predicate NewestFirstListing(listing: seq<WhitelistEntry>, entries: seq<WhitelistEntry>) {
    multiset(listing) == multiset(entries) && Sorting.SortedBy(listing, NewestKey)
  }

  /** `s` back to front. */
  function Reversed<T>(s: seq<T>): seq<T> {
    seq(|s|, i requires 0 <= i < |s| => s[|s| - 1 - i])
  }

  /** Every entry was created before `t`. */
  predicate OlderThan(entries: seq<WhitelistEntry>, t: Instant) {
    forall e :: e in entries ==> e.createdAt < t
  }

  /** A batch stamped by a clock that moves forward. */
  predicate StrictlyNewer(added: seq<WhitelistEntry>) {
    forall i, j :: 0 <= i < j < |added| ==> added[i].createdAt < added[j].createdAt
  }

  /** An entry newer than all the others is listed first, and the rest
      follow newest first. */
  lemma NewestComesFirst(listing: seq<WhitelistEntry>, entries: seq<WhitelistEntry>, x: WhitelistEntry)
    requires NewestFirstListing(listing, entries + [x])
    requires OlderThan(entries, x.createdAt)
    ensures listing != [] && listing[0] == x && NewestFirstListing(listing[1..], entries)
  {
    NewestIsHead(listing, entries, x);
    TailIsRest(listing, entries + [x]);
    assert multiset(entries + [x]) == multiset(entries) + multiset{x};
  }

  lemma NewestIsHead(listing: seq<WhitelistEntry>, entries: seq<WhitelistEntry>, x: WhitelistEntry)
    requires NewestFirstListing(listing, entries + [x])
    requires OlderThan(entries, x.createdAt)
    ensures listing != [] && listing[0] == x
  {
    assert x in multiset(entries + [x]);
    assert x in listing;
    var j :| 0 <= j < |listing| && listing[j] == x;
    if j > 0 {
      assert NewestKey(listing[0]) <= NewestKey(listing[j]);
    }
    assert listing[0] !in entries;
    assert listing[0] in multiset(entries + [x]);
  }

  /** Dropping the head of a listing leaves a listing of the rest. */
  lemma TailIsRest(listing: seq<WhitelistEntry>, entries: seq<WhitelistEntry>)
    requires listing != [] && NewestFirstListing(listing, entries)
    ensures multiset(listing[1..]) == multiset(entries) - multiset{listing[0]}
    ensures Sorting.SortedBy(listing[1..], NewestKey)
  {
    assert listing == [listing[0]] + listing[1..];
    assert multiset(listing) == multiset{listing[0]} + multiset(listing[1..]);
    var t := listing[1..];
    forall a, b | 0 <= a < b < |t| ensures NewestKey(t[a]) <= NewestKey(t[b]) {
      assert t[a] == listing[a + 1] && t[b] == listing[b + 1];
    }
  }

  /** When a batch stamped by a forward-moving clock is newer than every
      stored entry, the listing opens with the batch, last request first. */
  lemma {:induction false} NewerBatchListedFirst(listing: seq<WhitelistEntry>, entries: seq<WhitelistEntry>,
                                                 added: seq<WhitelistEntry>)
    requires NewestFirstListing(listing, entries + added)
    requires StrictlyNewer(added)
    requires added != [] ==> OlderThan(entries, added[0].createdAt)
    ensures |added| <= |listing| && listing[..|added|] == Reversed(added)
  {
    if added != [] {
      var n := |added| - 1;
      NewerBatchStep(listing, entries, added);
      NewerBatchListedFirst(listing[1..], entries, added[..n]);
      PrefixStep(listing, added);
    }
  }

  /** One step of the above: the last entry of the batch heads the listing,
      and the rest of the listing lists the rest. */
  lemma NewerBatchStep(listing: seq<WhitelistEntry>, entries: seq<WhitelistEntry>, added: seq<WhitelistEntry>)
    requires NewestFirstListing(listing, entries + added)
    requires StrictlyNewer(added)
    requires added != [] && OlderThan(entries, added[0].createdAt)
    ensures var n := |added| - 1;
      listing != [] && listing[0] == added[n] && NewestFirstListing(listing[1..], entries + added[..n]) &&
      StrictlyNewer(added[..n]) && (n > 0 ==> OlderThan(entries, added[..n][0].createdAt))
  {
    var n := |added| - 1;
    var front := added[..n];
    assert entries + added == (entries + front) + [added[n]];
    LastIsNewest(entries, added);
    NewestComesFirst(listing, entries + front, added[n]);
  }

  lemma PrefixStep(listing: seq<WhitelistEntry>, added: seq<WhitelistEntry>)
    requires added != [] && listing != [] && listing[0] == added[|added| - 1]
    requires |added| - 1 <= |listing[1..]| && listing[1..][..|added| - 1] == Reversed(added[..|added| - 1])
    ensures |added| <= |listing| && listing[..|added|] == Reversed(added)
  {
    var n := |added| - 1;
    forall i | 0 <= i < |added| ensures listing[..|added|][i] == Reversed(added)[i] {
      if i > 0 {
        assert listing[i] == listing[1..][..n][i - 1] == Reversed(added[..n])[i - 1];
      }
    }
  }

  /** The last entry of such a batch is newer than the stored entries and
      the rest of the batch. */
  lemma LastIsNewest(entries: seq<WhitelistEntry>, added: seq<WhitelistEntry>)
    requires added != [] && StrictlyNewer(added) && OlderThan(entries, added[0].createdAt)
    ensures OlderThan(entries + added[..|added| - 1], added[|added| - 1].createdAt)
  {
    var n := |added| - 1;
    forall e | e in entries + added[..n] ensures e.createdAt < added[n].createdAt {
      if e in added[..n] {
        var i :| 0 <= i < n && added[..n][i] == e;
      }
    }
  }

  /** After a batch is added with a clock that moves forward and reads
      later than every stored entry, every listing opens with the new
      entries, newest (last requested) first. */
  lemma ListingAfterAdd(resolve: WhitelistEntry -> Result<string>, transcriptID: string, requests: seq<WhitelistEntry>,
                        uuid: nat -> string, now: nat -> Instant, stored: seq<WhitelistEntry>, listing: seq<WhitelistEntry>)
    requires NewEntries(resolve, transcriptID, requests, uuid, now).Ok?
    requires forall i, j :: 0 <= i < j < |requests| ==> now(i) < now(j)
    requires OlderThan(stored, now(0))
    requires NewestFirstListing(listing, stored + NewEntries(resolve, transcriptID, requests, uuid, now).value)
    ensures var added := NewEntries(resolve, transcriptID, requests, uuid, now).value;
      |added| <= |listing| && listing[..|added|] == Reversed(added)
  {
    var added := NewEntries(resolve, transcriptID, requests, uuid, now).value;
    assert forall i :: 0 <= i < |added| ==> added[i].createdAt == now(i);
    NewerBatchListedFirst(listing, stored, added);
  }

  class WhitelistStore {
    var lists: map<TranscriptKey, seq<WhitelistEntry>>

    constructor ()
      ensures lists == map[]
    {
      lists := map[];
    }

    function Entries(k: TranscriptKey): seq<WhitelistEntry>
      reads this
    {
      if k in lists then lists[k] else []
    }

    /** `AddTranscriptWhitelistedUsers`: resolves every request; any error
        returns before the commit and nothing is added. No deduplication.
        `now(i)` is the clock as read for request `i`. */
    method AddTranscriptWhitelistedUsers(users: UserOperations.UserStore, userID: string, transcriptID: string,
                                         requests: seq<WhitelistEntry>, uuid: nat -> string, now: nat -> Instant)
      returns (r: Outcome)
      modifies this
      ensures var k := TranscriptKey(userID, transcriptID);
        var created := NewEntries(Resolver(users.docs), transcriptID, requests, uuid, now);
        if created.Err? then r == Fail(created.error) && lists == old(lists)
        else if requests == [] then r == Fail(EmptyBatch) && lists == old(lists)
        else r == Pass && lists == old(lists)[k := old(Entries(k)) + created.value]
    {
      var k := TranscriptKey(userID, transcriptID);
      var batch: seq<WhitelistEntry> := [];
      for i := 0 to |requests|
        invariant NewEntries(Resolver(users.docs), transcriptID, requests[..i], uuid, now) == Ok(batch)
      {
        assert requests[..i + 1][..i] == requests[..i];
        var request := requests[i];
        var found: Option<string>;
        if request.handle != "" {
          found := FindUserByHandle(users.docs, request.handle);
        } else if request.email != "" {
          found := FindUserByEmail(users.docs, request.email);
        } else {
          NewEntriesStopsAt(Resolver(users.docs), transcriptID, requests, uuid, now, i);
          return Fail(Failure("either handle or email must be provided"));
        }
        if found.None? {
          NewEntriesStopsAt(Resolver(users.docs), transcriptID, requests, uuid, now, i);
          return Fail(Failure("user not found"));
        }
        batch := batch + [Completed(request, uuid(i), transcriptID, found.value, now(i))];
      }
      assert requests[..|requests|] == requests;
      if |batch| == 0 {
        return Fail(EmptyBatch);
      }
      lists := lists[k := Entries(k) + batch];
      return Pass;
    }

    /** `RemoveTranscriptWhitelistedUsers`: deletes every entry whose user a
        handle or an email resolves to; unresolved ones are skipped. */
    method RemoveTranscriptWhitelistedUsers(users: UserOperations.UserStore, userID: string, transcriptID: string,
                                            handles: seq<string>, emails: seq<string>)
      returns (r: Outcome)
      modifies this
      ensures var k := TranscriptKey(userID, transcriptID);
        var removed := HandleIds(users.docs, handles) + EmailIds(users.docs, emails);
        var doomed := |old(Entries(k))| - |Without(old(Entries(k)), removed)|;
        if doomed == 0 then r == Fail(EmptyBatch) && lists == old(lists)
        else r == Pass && lists == old(lists)[k := Without(old(Entries(k)), removed)]
    {
      var k := TranscriptKey(userID, transcriptID);
      var fromHandles: set<string> := {};
      for i := 0 to |handles|
        invariant fromHandles == HandleIds(users.docs, handles[..i])
      {
        assert handles[..i + 1][..i] == handles[..i];
        var found := FindUserByHandle(users.docs, handles[i]);
        if found.Some? {
          fromHandles := fromHandles + {found.value};
        }
      }
      assert handles[..|handles|] == handles;
      var fromEmails: set<string> := {};
      for i := 0 to |emails|
        invariant fromEmails == EmailIds(users.docs, emails[..i])
      {
        assert emails[..i + 1][..i] == emails[..i];
        var found := FindUserByEmail(users.docs, emails[i]);
        if found.Some? {
          fromEmails := fromEmails + {found.value};
        }
      }
      assert emails[..|emails|] == emails;
      var removed := fromHandles + fromEmails;
      var kept := Without(Entries(k), removed);
      if |Entries(k)| - |kept| == 0 {
        return Fail(EmptyBatch);
      }
      lists := lists[k := kept];
      return Pass;
    }

    /** `GetTranscriptWhitelistedUsers`: the transcript's entries, newest
        first. */
    method GetTranscriptWhitelistedUsers(userID: string, transcriptID: string) returns (r: seq<WhitelistEntry>)
      ensures NewestFirstListing(r, Entries(TranscriptKey(userID, transcriptID)))
    {
      r := Sorting.SortByKey(Entries(TranscriptKey(userID, transcriptID)), NewestKey);
    }

    /** `IsUserWhitelistedForTranscript`: true exactly when an entry of the
        transcript's list refers to the user. */
    method IsUserWhitelistedForTranscript(transcriptOwnerID: string, transcriptID: string, userID: string)
      returns (listed: bool)
      ensures listed <==> Listed(Entries(TranscriptKey(transcriptOwnerID, transcriptID)), userID)
    {
      var entries := Entries(TranscriptKey(transcriptOwnerID, transcriptID));
      for i := 0 to |entries|
        invariant forall j :: 0 <= j < i ==> entries[j].userRef != userID
      {
        if entries[i].userRef == userID {
          return true;
        }
      }
      return false;
    }
  }

  /** When request `i` does not resolve but all before it do, the batch
      fails with request `i`'s error. */
  lemma {:induction false} NewEntriesStopsAt(resolve: WhitelistEntry -> Result<string>, transcriptID: string, requests: seq<WhitelistEntry>,
                                             uuid: nat -> string, now: nat -> Instant, i: nat)
    requires i < |requests| && resolve(requests[i]).Err?
    requires NewEntries(resolve, transcriptID, requests[..i], uuid, now).Ok?
    ensures NewEntries(resolve, transcriptID, requests, uuid, now) == Err(resolve(requests[i]).error)
  {
    var n := |requests| - 1;
    var front := requests[..n];
    if i < n {
      assert NewEntries(resolve, transcriptID, front, uuid, now) == Err(resolve(requests[i]).error) by {
        assert front[..i] == requests[..i] && front[i] == requests[i];
        NewEntriesStopsAt(resolve, transcriptID, front, uuid, now, i);
      }
      FailurePropagates(resolve, transcriptID, requests, uuid, now);
    } else {
      assert front == requests[..i];
      FailureAtLast(resolve, transcriptID, requests, uuid, now);
    }
  }

  /** A batch whose shorter batch fails fails with the same error. */
  lemma FailurePropagates(resolve: WhitelistEntry -> Result<string>, transcriptID: string, requests: seq<WhitelistEntry>,
                          uuid: nat -> string, now: nat -> Instant)
    requires requests != []
    requires NewEntries(resolve, transcriptID, requests[..|requests| - 1], uuid, now).Err?
    ensures NewEntries(resolve, transcriptID, requests, uuid, now)
         == NewEntries(resolve, transcriptID, requests[..|requests| - 1], uuid, now)
  {
  }

  /** A batch whose shorter batch succeeds fails with its last request's
      error when that one does not resolve. */
  lemma FailureAtLast(resolve: WhitelistEntry -> Result<string>, transcriptID: string, requests: seq<WhitelistEntry>,
                      uuid: nat -> string, now: nat -> Instant)
    requires requests != []
    requires NewEntries(resolve, transcriptID, requests[..|requests| - 1], uuid, now).Ok?
    requires resolve(requests[|requests| - 1]).Err?
    ensures NewEntries(resolve, transcriptID, requests, uuid, now) == Err(resolve(requests[|requests| - 1]).error)
  {
  }
}
