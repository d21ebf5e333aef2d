/** Transcript records: one per saved transcription, held under
    `users/<owner>/transcripts/<id>` (services/data/firestore/operations/transcripts.go).
    The store is one sequence over every user's records, the view a
    collection-group query sees; a record's owner is the user its path
    names. */
module TranscriptOperations {
  import opened Errors
  import opened Text
  import opened Resources
  import Sorting

  datatype StoredTranscript = StoredTranscript(owner: string, record: Transcript)

  function TranscriptPath(owner: string, id: string): string {
    "users/" + owner + "/transcripts/" + id
  }

  /** The records of `owner`, in store order. */
  function OwnedBy(docs: seq<StoredTranscript>, owner: string): (r: seq<Transcript>)
    ensures |r| <= |docs|
    ensures forall t :: t in r <==> exists i :: 0 <= i < |docs| && docs[i].owner == owner && docs[i].record == t
  {
    if docs == [] then []
    else
      var front := OwnedBy(docs[..|docs| - 1], owner);
      var last := docs[|docs| - 1];
      assert forall i :: 0 <= i < |docs| - 1 ==> docs[..|docs| - 1][i] == docs[i];
      if last.owner == owner then front + [last.record] else front
  }

  /** Saving a record of `owner` adds exactly that record to `owner`'s
      list and nothing to anyone else's. */
  lemma OwnedByAppend(docs: seq<StoredTranscript>, owner: string, t: Transcript, user: string)
    ensures OwnedBy(docs + [StoredTranscript(owner, t)], user) ==
      if user == owner then OwnedBy(docs, user) + [t] else OwnedBy(docs, user)
  {
    assert (docs + [StoredTranscript(owner, t)])[..|docs|] == docs;
  }

  /** The records created within `[start, end]`, both ends included. */
  function InWindow(ts: seq<Transcript>, start: Instant, end: Instant): (r: seq<Transcript>)
    ensures forall t :: t in r <==> t in ts && start <= t.createdAt <= end
  {
    if ts == [] then []
    else
      var front := InWindow(ts[..|ts| - 1], start, end);
      var last := ts[|ts| - 1];
      assert ts == ts[..|ts| - 1] + [last];
      if start <= last.createdAt <= end then front + [last] else front
  }

  function NewestKey(t: Transcript): int { -t.createdAt }

  /** Ordered by `CreatedAt`, newest first; records with equal timestamps
      may come in any order. */
  predicate NewestFirst(ts: seq<Transcript>) {
    Sorting.SortedBy(ts, NewestKey)
  }

  predicate IsNewestFirstOrder(ordered: seq<Transcript>, ts: seq<Transcript>) {
    multiset(ordered) == multiset(ts) && NewestFirst(ordered)
  }

  function Min(a: int, b: int): int { if a <= b then a else b }

  function NegativeOffsetError(): Error {
    Failure("rpc error: code = InvalidArgument desc = offset must be non-negative")
  }

  /** One page of `ordered`: `pageI * pageSize` records are skipped only
      when `pageI > 0`, and at most `pageSize` are kept only when
      `pageSize > 0`. A negative offset is refused by the store. */
  function Page(ordered: seq<Transcript>, pageI: int, pageSize: int): (r: Result<seq<Transcript>>)
    ensures r.Err? <==> pageI > 0 && pageSize < 0
    ensures r.Ok? && pageSize > 0 ==> |r.value| <= pageSize
    ensures r.Ok? && pageI <= 0 ==> r.value == ordered[..if pageSize > 0 then Min(pageSize, |ordered|) else |ordered|]
    ensures r.Ok? && pageI > 0 && pageSize > 0 ==>
      r.value == ordered[Min(pageI * pageSize, |ordered|)..Min((pageI + 1) * pageSize, |ordered|)]
  {
    var offset := if pageI > 0 then pageI * pageSize else 0;
    if offset < 0 then Err(NegativeOffsetError())
    else
      var rest := if offset >= |ordered| then [] else ordered[offset..];
      Ok(if pageSize > 0 && |rest| > pageSize then rest[..pageSize] else rest)
  }

  /** With a positive page size, record `k` of the ordered list is record
      `k % pageSize` of page `k / pageSize`. */
  lemma RecordOnItsPage(ordered: seq<Transcript>, pageSize: int, k: nat)
    requires pageSize > 0 && k < |ordered|
    ensures var p := Page(ordered, k / pageSize, pageSize);
      p.Ok? && k % pageSize < |p.value| && p.value[k % pageSize] == ordered[k]
  {
    var i := k / pageSize;
    var j := k % pageSize;
    DivisionBounds(k, pageSize);
    var lo := i * pageSize;
    assert lo + j == k && k < lo + pageSize;
    var p := Page(ordered, i, pageSize);
    if i > 0 {
      assert lo <= |ordered|;
      assert p.value == ordered[lo..Min(lo + pageSize, |ordered|)];
    } else {
      assert p.value == ordered[..Min(pageSize, |ordered|)];
    }
  }

  lemma DivisionBounds(k: nat, d: int)
    requires d > 0
    ensures k / d >= 0 && 0 <= k % d < d
    ensures k == (k / d) * d + k % d
    ensures (k / d + 1) * d == (k / d) * d + d
  {
  }

  /** The title a new transcript gets: `Transcript #` and a positive
      number. */
  function DefaultTitle(count: nat): (title: string)
    ensures |title| > 12 && HasPrefix(title, "Transcript #")
    ensures AllDigits(title[12..])
  {
    var title := "Transcript #" + NatToDecimal(count + 1);
    assert title[..12] == "Transcript #" && title[12..] == NatToDecimal(count + 1);
    title
  }

  /** Distinct counts give distinct default titles. */
  lemma DefaultTitlesDistinct(m: nat, n: nat)
    requires m != n
    ensures DefaultTitle(m) != DefaultTitle(n)
  {
    DecimalRoundTrip(m + 1);
    DecimalRoundTrip(n + 1);
    assert NatToDecimal(m + 1) == DefaultTitle(m)[12..];
    assert NatToDecimal(n + 1) == DefaultTitle(n)[12..];
  }

  /** The record `SaveTranscript` creates. */
  function NewTranscript(userID: string, sessionID: string, content: string, audioSeconds: int, freeSeconds: int,
                         inputTokens: int, outputTokens: int, count: nat, freshID: string, now: Instant): (t: Transcript)
    ensures t.id == freshID && t.userRef == userID && t.recordingSessionID == sessionID && t.content == content
    ensures t.tittle == DefaultTitle(count) && t.createdAt == now && !t.isPrivate
    ensures t.consumedInputAudioSeconds == audioSeconds && t.consumedFreeAudioSeconds == freeSeconds
    ensures t.consumedInputTokens == inputTokens && t.consumedOutputTokens == outputTokens
  {
    Transcript(freshID, userID, sessionID, DefaultTitle(count), content, audioSeconds, freeSeconds,
               inputTokens, outputTokens, now, false)
  }

  function IndexOf(docs: seq<StoredTranscript>, owner: string, id: string): (r: Option<nat>)
    ensures r.Some? ==> r.value < |docs| && docs[r.value].owner == owner && docs[r.value].record.id == id
    ensures r.None? ==> forall i :: 0 <= i < |docs| ==> !(docs[i].owner == owner && docs[i].record.id == id)
  {
    if docs == [] then None
    else if docs[|docs| - 1].owner == owner && docs[|docs| - 1].record.id == id then Some(|docs| - 1)
    else IndexOf(docs[..|docs| - 1], owner, id)
  }

  predicate UniqueKeys(docs: seq<StoredTranscript>) {
    forall i, j :: 0 <= i < j < |docs| ==>
      !(docs[i].owner == docs[j].owner && docs[i].record.id == docs[j].record.id)
  }

  /** The store after one record's fields are rewritten in place. */
  function WithRecord(docs: seq<StoredTranscript>, k: nat, t: Transcript): seq<StoredTranscript>
    requires k < |docs|
  {
    docs[k := StoredTranscript(docs[k].owner, t)]
  }

  datatype FoundTranscript = FoundTranscript(transcript: Transcript, ownerID: string)

  class TranscriptStore {
    var docs: seq<StoredTranscript>

    predicate Valid()
      reads this
    {
      UniqueKeys(docs)
    }

    constructor ()
      ensures docs == [] && Valid()
    {
      docs := [];
    }

    /** `countUserTranscripts`. */
    method CountUserTranscripts(userID: string) returns (n: nat)
      ensures n == |OwnedBy(docs, userID)|
    {
      n := 0;
      for i := 0 to |docs|
        invariant n == |OwnedBy(docs[..i], userID)|
      {
        assert docs[..i + 1][..i] == docs[..i];
        if docs[i].owner == userID {
          n := n + 1;
        }
      }
      assert docs[..|docs|] == docs;
    }

    /** `SaveTranscript`: numbers the default title after the user's
        existing records and creates the record under a fresh id. Counting
        can fail (`countError`); then nothing is created. */
    method SaveTranscript(userID: string, recordingSessionID: string, content: string,
                          consumedInputAudioSeconds: int, consumedFreeAudioSeconds: int,
                          consumedInputTokens: int, consumedOutputTokens: int,
                          freshID: string, now: Instant, countError: Option<Error>)
      returns (r: Result<Transcript>)
      requires Valid()
      modifies this
      ensures Valid()
      ensures countError.Some? ==>
        r == Err(Failure("failed to count existing transcripts: " + countError.value.Text())) && docs == old(docs)
      ensures countError.None? && old(IndexOf(docs, userID, freshID)).Some? ==>
        r == Err(AlreadyExists(TranscriptPath(userID, freshID))) && docs == old(docs)
      ensures countError.None? && old(IndexOf(docs, userID, freshID)).None? ==>
        var t := NewTranscript(userID, recordingSessionID, content, consumedInputAudioSeconds, consumedFreeAudioSeconds,
                               consumedInputTokens, consumedOutputTokens, |OwnedBy(old(docs), userID)|, freshID, now);
        r == Ok(t) && docs == old(docs) + [StoredTranscript(userID, t)]
    {
      if countError.Some? {
        return Err(Failure("failed to count existing transcripts: " + countError.value.Text()));
      }
      var count := CountUserTranscripts(userID);
      var t := NewTranscript(userID, recordingSessionID, content, consumedInputAudioSeconds, consumedFreeAudioSeconds,
                             consumedInputTokens, consumedOutputTokens, count, freshID, now);
      var k := IndexOf(docs, userID, freshID);
      if k.Some? {
        return Err(AlreadyExists(TranscriptPath(userID, freshID)));
      }
      docs := docs + [StoredTranscript(userID, t)];
      return Ok(t);
    }

    /** `GetUserTranscripts`: the user's records newest first, one page of
        them. `ordered` is the order the store yields. */
    method GetUserTranscripts(userID: string, pageI: int, pageSize: int)
      returns (r: Result<seq<Transcript>>, ghost ordered: seq<Transcript>)
      ensures IsNewestFirstOrder(ordered, OwnedBy(docs, userID))
      ensures r == Page(ordered, pageI, pageSize)
    {
      var owned := CollectOwned(userID);
      var sorted := Sorting.SortByKey(owned, NewestKey);
      ordered := sorted;
      var offset := if pageI > 0 then pageI * pageSize else 0;
      if offset < 0 {
        return Err(NegativeOffsetError()), ordered;
      }
      var rest := if offset >= |sorted| then [] else sorted[offset..];
      if pageSize > 0 && |rest| > pageSize {
        rest := rest[..pageSize];
      }
      return Ok(rest), ordered;
    }

    /** The user's records, in store order. */
    method CollectOwned(userID: string) returns (owned: seq<Transcript>)
      ensures owned == OwnedBy(docs, userID)
    {
      owned := [];
      for i := 0 to |docs|
        invariant owned == OwnedBy(docs[..i], userID)
      {
        assert docs[..i + 1][..i] == docs[..i];
        if docs[i].owner == userID {
          owned := owned + [docs[i].record];
        }
      }
      assert docs[..|docs|] == docs;
    }

    /** `GetTranscripts`: exactly the user's records created within
        `[start, end]`, newest first. */
    method GetTranscripts(userID: string, start: Instant, end: Instant) returns (r: seq<Transcript>)
      ensures IsNewestFirstOrder(r, InWindow(OwnedBy(docs, userID), start, end))
    {
      var owned := CollectOwned(userID);
      var matching: seq<Transcript> := [];
      for i := 0 to |owned|
        invariant matching == InWindow(owned[..i], start, end)
      {
        assert owned[..i + 1][..i] == owned[..i];
        if start <= owned[i].createdAt <= end {
          matching := matching + [owned[i]];
        }
      }
      assert owned[..|owned|] == owned;
      r := Sorting.SortByKey(matching, NewestKey);
    }

    /** `GetUserTranscript`: the record stored under (user, id). */
    method GetUserTranscript(userID: string, transcriptID: string) returns (r: Result<Transcript>)
      ensures var k := IndexOf(docs, userID, transcriptID);
        r == if k.Some? then Ok(docs[k.value].record)
             else Err(Failure("failed to get transcript: " + NotFound(TranscriptPath(userID, transcriptID)).Text()))
    {
      var k := IndexOf(docs, userID, transcriptID);
      if k.None? {
        return Err(Failure("failed to get transcript: " + NotFound(TranscriptPath(userID, transcriptID)).Text()));
      }
      return Ok(docs[k.value].record);
    }

    /** `UpdateTranscriptPrivacy`: rewrites `IsPrivate` of the stored
        record and nothing else; a missing record is an error. */
    method UpdateTranscriptPrivacy(userID: string, transcriptID: string, isPrivate: bool) returns (r: Outcome)
      requires Valid()
      modifies this
      ensures Valid()
      ensures var k := old(IndexOf(docs, userID, transcriptID));
        k.None? ==> r == Fail(Failure("failed to update transcript privacy: " + NotFound(TranscriptPath(userID, transcriptID)).Text()))
                    && docs == old(docs)
      ensures var k := old(IndexOf(docs, userID, transcriptID));
        k.Some? ==> r == Pass && docs == WithRecord(old(docs), k.value, old(docs[k.value].record).(isPrivate := isPrivate))
    {
      var k := IndexOf(docs, userID, transcriptID);
      if k.None? {
        return Fail(Failure("failed to update transcript privacy: " + NotFound(TranscriptPath(userID, transcriptID)).Text()));
      }
      docs := WithRecord(docs, k.value, docs[k.value].record.(isPrivate := isPrivate));
      return Pass;
    }

    /** `UpdateTranscriptTitle`: rewrites `Tittle` of the stored record and
        nothing else; a missing record is an error. */
    method UpdateTranscriptTitle(userID: string, transcriptID: string, title: string) returns (r: Outcome)
      requires Valid()
      modifies this
      ensures Valid()
      ensures var k := old(IndexOf(docs, userID, transcriptID));
        k.None? ==> r == Fail(Failure("failed to update transcript title: " + NotFound(TranscriptPath(userID, transcriptID)).Text()))
                    && docs == old(docs)
      ensures var k := old(IndexOf(docs, userID, transcriptID));
        k.Some? ==> r == Pass && docs == WithRecord(old(docs), k.value, old(docs[k.value].record).(tittle := title))
    {
      var k := IndexOf(docs, userID, transcriptID);
      if k.None? {
        return Fail(Failure("failed to update transcript title: " + NotFound(TranscriptPath(userID, transcriptID)).Text()));
      }
      docs := WithRecord(docs, k.value, docs[k.value].record.(tittle := title));
      return Pass;
    }

    /** `GetTranscriptByID`: a record with that id, whoever owns it, and its
        owner; "transcript not found" when there is none. */
    method GetTranscriptByID(transcriptID: string) returns (r: Result<FoundTranscript>)
      ensures r.Err? <==> forall i :: 0 <= i < |docs| ==> docs[i].record.id != transcriptID
      ensures r.Err? ==> r.error == Failure("transcript not found")
      ensures r.Ok? ==> exists i :: 0 <= i < |docs| && docs[i].record.id == transcriptID &&
                                    r.value == FoundTranscript(docs[i].record, docs[i].owner)
    {
      for i := 0 to |docs|
        invariant forall j :: 0 <= j < i ==> docs[j].record.id != transcriptID
      {
        if docs[i].record.id == transcriptID {
          return Ok(FoundTranscript(docs[i].record, docs[i].owner));
        }
      }
      return Err(Failure("transcript not found"));
    }
  }
}
