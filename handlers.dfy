/** The transcript handlers (api/handlers/transcripts.go) and their helpers
    (api/handlers/utils.go): what each request gets back and which store
    changes it makes. A reply is either the JSON error body, a transcript
    body, or a bare status. The identity provider, the temporary
    directory, the audio pipeline's collaborators and the generative
    engine are parameters. */
module Handlers {
  import opened Errors
  import opened Resources
  import opened Text
  import opened ApiErrors
  import opened Configurations
  import opened StripeSubscriptions
  import UserOperations
  import SubscriptionOperations
  import TranscriptOperations
  import WhitelistOperations
  import Whitelist
  import Users
  import Entitlement = Transcribe
  import Audio
  import Middlewares

  datatype Reply = ErrorReply(error: ApiError) | TranscriptReply(body: TranscriptionResponse) | StatusReply(code: int)
  {
    function Status(): int {
      match this
      case ErrorReply(e) => e.code
      case TranscriptReply(_) => StatusOK
      case StatusReply(c) => c
    }
  }

  function WriteJSONError(status: int, id: string, msg: string): Reply {
    ErrorReply(ApiError(status, id, msg))
  }

  // ---------------------------------------------------------------------
  // utils.go

  /** `transcriptToResponse`: the client's view of a transcript. */
  function TranscriptToResponse(t: Transcript): (r: TranscriptionResponse)
    ensures r.id == t.id && r.recordingSessionID == t.recordingSessionID && r.tittle == t.tittle
    ensures r.content == t.content && r.createdAt == t.createdAt
    ensures r.consumedInputAudioSeconds == t.consumedInputAudioSeconds
    ensures r.consumedFreeAudioSeconds == t.consumedFreeAudioSeconds
  {
    TranscriptionResponse(t.id, t.recordingSessionID, t.tittle, t.content,
                          t.consumedInputAudioSeconds, t.consumedFreeAudioSeconds, t.createdAt)
  }

  /** The response leaves out the token counts and the privacy flag. */
  lemma ResponseOmitsTokensAndPrivacy(t: Transcript, inputTokens: int, outputTokens: int, isPrivate: bool)
    ensures TranscriptToResponse(t.(consumedInputTokens := inputTokens, consumedOutputTokens := outputTokens,
                                    isPrivate := isPrivate)) == TranscriptToResponse(t)
  {
  }

  predicate IsSign(c: char) { c == '+' || c == '-' }

  /** `strconv.Atoi`: an optional sign and at least one decimal digit, with
      a value that fits in 64 bits. */
  function Atoi(s: string): (r: Result<int>)
    ensures r.Ok? ==> InInt64(r.value)
    ensures r.Ok? ==> s != [] && (IsSign(s[0]) || IsDigit(s[0])) && |s| >= (if IsSign(s[0]) then 2 else 1)
    ensures r.Ok? ==> AllDigits(if IsSign(s[0]) then s[1..] else s)
  {
    if s == [] then Err(Failure("strconv.Atoi: parsing \"\": invalid syntax"))
    else
      var digits := if IsSign(s[0]) then s[1..] else s;
      if digits == [] || !AllDigits(digits) then Err(Failure("strconv.Atoi: parsing \"" + s + "\": invalid syntax"))
      else
        var v: int := DecimalValue(digits);
        var n := if s[0] == '-' then -v else v;
        if !InInt64(n) then Err(Failure("strconv.Atoi: parsing \"" + s + "\": value out of range"))
        else Ok(n)
  }

  /** Every 64-bit integer printed in decimal reads back as itself. */
  lemma AtoiRoundTrip(n: int)
    requires InInt64(n)
    ensures Atoi(IntToDecimal(n)) == Ok(n)
  {
    var m: nat := if n < 0 then -n else n;
    var digits := NatToDecimal(m);
    DecimalRoundTrip(m);
    assert !IsSign(digits[0]);
    if n < 0 {
      var s := "-" + digits;
      assert s[1..] == digits;
    }
  }

  /** Neither the empty string nor a sign alone is a number. */
  lemma AtoiRejects()
    ensures Atoi("+").Err? && Atoi("-").Err? && Atoi("").Err?
  {
  }

  datatype ParamKind = PathParam | QueryParam

  /** What the two integer-parameter parsers return, and the error reply
      they write, if any. */
  datatype Parsed = Parsed(value: int, ok: bool, written: Option<Reply>)

  function KindName(kind: ParamKind): string {
    match kind
    case PathParam => "path"
    case QueryParam => "query"
  }

  function KindId(kind: ParamKind): string {
    match kind
    case PathParam => "PATH_PARAM"
    case QueryParam => "QUERY_PARAM"
  }

  /** The shared rule of `parsePathValueToInt` and `parseQueryParamToInt`. */
  function ParseIntParam(kind: ParamKind, value: string, key: string, mandatory: bool): (r: Parsed)
    // An empty value is "absent": an error is written only if the parameter is mandatory.
    ensures value == "" ==> r.value == 0 && !r.ok && (r.written.Some? <==> mandatory)
    ensures value == "" && mandatory ==>
      r.written == Some(WriteJSONError(StatusBadRequest, "MISSING_" + KindId(kind),
                                       "Missing required " + KindName(kind) + " parameter: " + key))
    // A value that is not an integer is always an error.
    ensures value != "" && Atoi(value).Err? ==>
      r == Parsed(0, false, Some(WriteJSONError(StatusBadRequest, "INVALID_" + KindId(kind),
                                                "Invalid integer value for " + KindName(kind) + " parameter: " + key)))
    // Success exactly for an integer, which is returned.
    ensures r.ok <==> value != "" && Atoi(value).Ok?
    ensures r.ok ==> r.value == Atoi(value).value && r.written.None?
  {
    if value == "" then
      Parsed(0, false, if mandatory then Some(WriteJSONError(StatusBadRequest, "MISSING_" + KindId(kind),
                                                             "Missing required " + KindName(kind) + " parameter: " + key))
                       else None)
    else
      var n := Atoi(value);
      if n.Err? then
        Parsed(0, false, Some(WriteJSONError(StatusBadRequest, "INVALID_" + KindId(kind),
                                             "Invalid integer value for " + KindName(kind) + " parameter: " + key)))
      else Parsed(n.value, true, None)
  }

  /** `parsePathValueToInt`. */
  function ParsePathValueToInt(value: string, key: string, mandatory: bool): (r: Parsed)
    ensures r.ok <==> value != "" && Atoi(value).Ok?
    ensures r.written.Some? ==> r.written.value.ErrorReply? && r.written.value.Status() == StatusBadRequest
    ensures value != "" && !r.ok ==> r.written.Some? && r.written.value.ErrorReply? && r.written.value.error.id == "INVALID_PATH_PARAM"
    ensures value == "" ==> (r.written.Some? <==> mandatory)
  {
    assert "INVALID_" + KindId(PathParam) == "INVALID_PATH_PARAM";
    ParseIntParam(PathParam, value, key, mandatory)
  }

  /** `parseQueryParamToInt`. */
  function ParseQueryParamToInt(value: string, key: string, mandatory: bool): (r: Parsed)
    ensures r.ok <==> value != "" && Atoi(value).Ok?
    ensures r.written.Some? ==> r.written.value.ErrorReply? && r.written.value.Status() == StatusBadRequest
    ensures value != "" && !r.ok ==> r.written.Some? && r.written.value.ErrorReply? && r.written.value.error.id == "INVALID_QUERY_PARAM"
    ensures value == "" ==> (r.written.Some? <==> mandatory)
  {
    assert "INVALID_" + KindId(QueryParam) == "INVALID_QUERY_PARAM";
    ParseIntParam(QueryParam, value, key, mandatory)
  }

  // ---------------------------------------------------------------------
  // GetTranscript

  /** The handler's own reading of the Authorization header: `Bearer ` is
      stripped only from a header longer than the prefix; any other header
      is taken whole as the token. */
  function BearerToken(authHeader: string): (token: string)
    ensures |authHeader| > 7 && authHeader[..7] == "Bearer " ==> "Bearer " + token == authHeader
    ensures !(|authHeader| > 7 && authHeader[..7] == "Bearer ") ==> token == authHeader
  {
    if |authHeader| > 7 && authHeader[..7] == "Bearer " then authHeader[7..] else authHeader
  }

  /** The caller's user id, or "" for an anonymous caller: a missing header
      and a token the provider rejects both count as anonymous.
      `getUserID` is the provider's token check. */
  function CallerID(authHeader: string, getUserID: string -> Result<string>): (uid: string)
    ensures authHeader == "" ==> uid == ""
    ensures authHeader != "" && getUserID(BearerToken(authHeader)).Err? ==> uid == ""
    ensures authHeader != "" && getUserID(BearerToken(authHeader)).Ok? ==> uid == getUserID(BearerToken(authHeader)).value
  {
    if authHeader == "" then ""
    else
      var id := getUserID(BearerToken(authHeader));
      if id.Ok? then id.value else ""
  }

  /** The reply of `GetTranscript` once the transcript is looked up:
      `listed` is the whitelist's answer for the caller. */
  function AccessReply(transcriptID: string, caller: string, found: Result<TranscriptOperations.FoundTranscript>,
                       listed: Result<bool>): (r: Reply)
    ensures transcriptID == "" ==> r == WriteJSONError(StatusBadRequest, "", "missing transcript id")
    ensures transcriptID != "" && found.Err? ==> r.Status() == StatusNotFound
    // The transcript is returned exactly when it is public, or the caller
    // is signed in and either owns it or is on its whitelist.
    ensures r.TranscriptReply? <==>
      transcriptID != "" && found.Ok? &&
      (!found.value.transcript.isPrivate ||
       (caller != "" && (caller == found.value.ownerID || listed == Ok(true))))
    ensures r.TranscriptReply? ==> r.body == TranscriptToResponse(found.value.transcript)
    ensures transcriptID != "" && found.Ok? && found.value.transcript.isPrivate ==>
      (caller == "" ==> r.Status() == StatusUnauthorized) &&
      (caller != "" && caller != found.value.ownerID && listed.Err? ==> r.Status() == StatusInternalServerError) &&
      (caller != "" && caller != found.value.ownerID && listed == Ok(false) ==> r.Status() == StatusForbidden)
  {
    if transcriptID == "" then WriteJSONError(StatusBadRequest, "", "missing transcript id")
    else if found.Err? then WriteJSONError(StatusNotFound, "", "Transcript not found: " + found.error.Text())
    else
      var t := found.value.transcript;
      if !t.isPrivate then TranscriptReply(TranscriptToResponse(t))
      else if caller == "" then WriteJSONError(StatusUnauthorized, "", "Authentication required to access private transcript")
      else if caller == found.value.ownerID then TranscriptReply(TranscriptToResponse(t))
      else if listed.Err? then WriteJSONError(StatusInternalServerError, "", "Failed to check whitelist: " + listed.error.Text())
      else if !listed.value then WriteJSONError(StatusForbidden, "", "Access denied")
      else TranscriptReply(TranscriptToResponse(t))
  }

  /** `GetTranscript`. `whitelistError` is a failure of the whitelist
      query; `found` is what the transcript lookup returned. */
  method GetTranscript(transcripts: TranscriptOperations.TranscriptStore, whitelist: WhitelistOperations.WhitelistStore,
                       transcriptID: string, authHeader: string, getUserID: string -> Result<string>,
                       whitelistError: Option<Error>)
    returns (reply: Reply, ghost found: Result<TranscriptOperations.FoundTranscript>)
    ensures transcriptID != "" ==>
      (found.Err? <==> forall i :: 0 <= i < |transcripts.docs| ==> transcripts.docs[i].record.id != transcriptID)
    ensures found.Ok? ==> exists i :: (0 <= i < |transcripts.docs| && transcripts.docs[i].record.id == transcriptID &&
      found.value == TranscriptOperations.FoundTranscript(transcripts.docs[i].record, transcripts.docs[i].owner))
    ensures var caller := CallerID(authHeader, getUserID);
      var listed := if whitelistError.Some? then Err(whitelistError.value)
                    else if found.Err? then Ok(false)
                    else Ok(WhitelistOperations.Listed(
                           whitelist.Entries(WhitelistOperations.TranscriptKey(found.value.ownerID, transcriptID)), caller));
      reply == AccessReply(transcriptID, caller, found, listed)
  {
    found := Err(Failure("transcript not found"));
    if transcriptID == "" {
      return WriteJSONError(StatusBadRequest, "", "missing transcript id"), found;
    }
    var userId := "";
    if authHeader != "" {
      var token := BearerToken(authHeader);
      var id := getUserID(token);
      if id.Ok? {
        userId := id.value;
      }
    }
    var lookup := transcripts.GetTranscriptByID(transcriptID);
    found := lookup;
    if lookup.Err? {
      return WriteJSONError(StatusNotFound, "", "Transcript not found: " + lookup.error.Text()), found;
    }
    var t := lookup.value.transcript;
    var ownerID := lookup.value.ownerID;
    if !t.isPrivate {
      return TranscriptReply(TranscriptToResponse(t)), found;
    }
    if userId == "" {
      return WriteJSONError(StatusUnauthorized, "", "Authentication required to access private transcript"), found;
    }
    if userId == ownerID {
      return TranscriptReply(TranscriptToResponse(t)), found;
    }
    if whitelistError.Some? {
      return WriteJSONError(StatusInternalServerError, "", "Failed to check whitelist: " + whitelistError.value.Text()), found;
    }
    var isWhitelisted := Whitelist.IsUserWhitelistedForTranscript(whitelist, ownerID, transcriptID, userId);
    if !isWhitelisted {
      return WriteJSONError(StatusForbidden, "", "Access denied"), found;
    }
    return TranscriptReply(TranscriptToResponse(t)), found;
  }

  /** The handler's token reading and the middleware's differ: a header of
      just the prefix is the token `Bearer ` here and the empty token
      there, and a header without the prefix is a token here and an error
      there. */
  lemma TokenReadingsDiffer()
    ensures Middlewares.GetAuthToken("Bearer ") == Ok("") && BearerToken("Bearer ") == "Bearer "
    ensures Middlewares.GetAuthToken("abc").Err? && BearerToken("abc") == "abc"
  {
    Middlewares.AuthTokenRoundTrip("");
  }

  // ---------------------------------------------------------------------
  // UpdateTranscriptVisibility and UpdateTranscriptTitle

  /** The privacy flag as `UpdateTranscriptVisibility` computes it: the
      `visible` parameter's truth, passed on as `isPrivate`. */
  function PrivacyFlagAsWritten(visibleStr: string): bool {
    visibleStr == "true"
  }

  /** As written, asking for a visible transcript makes it private, and a
      signed-out caller is then refused it. */
  lemma VisibleTrueHidesTranscript(t: Transcript, transcriptID: string, owner: string)
    requires transcriptID != ""
    ensures PrivacyFlagAsWritten("true")
    ensures var hidden := t.(isPrivate := PrivacyFlagAsWritten("true"));
      AccessReply(transcriptID, "", Ok(TranscriptOperations.FoundTranscript(hidden, owner)), Ok(false)).Status() == StatusUnauthorized
  {
  }

  /** The privacy flag the parameter's name and the handler's own error
      message ask for: private exactly when not asked to be visible. */
  function PrivacyFlag(visibleStr: string): (isPrivate: bool)
    ensures isPrivate <==> visibleStr != "true"
  {
    !(visibleStr == "true")
  }

  /** With the corrected flag, a transcript made visible is returned to
      any caller, signed in or not, and one made invisible is refused to
      signed-out callers. */
  lemma VisibleMeansReadableByAnyone(t: Transcript, transcriptID: string, owner: string, visibleStr: string,
                                     caller: string, listed: Result<bool>)
    requires transcriptID != ""
    ensures var updated := t.(isPrivate := PrivacyFlag(visibleStr));
      var r := AccessReply(transcriptID, caller, Ok(TranscriptOperations.FoundTranscript(updated, owner)), listed);
      (visibleStr == "true" ==> r == TranscriptReply(TranscriptToResponse(updated))) &&
      (visibleStr != "true" && caller == "" ==> r.Status() == StatusUnauthorized)
  {
  }

  /** `UpdateTranscriptVisibility` (with the corrected privacy flag). */
  method UpdateTranscriptVisibility(transcripts: TranscriptOperations.TranscriptStore, userID: string,
                                    transcriptID: string, visibleStr: string)
    returns (reply: Reply)
    requires transcripts.Valid()
    modifies transcripts
    ensures transcripts.Valid()
    ensures userID == "" ==> reply == WriteJSONError(StatusBadRequest, "", "missing user id") && transcripts.docs == old(transcripts.docs)
    ensures userID != "" && transcriptID == "" ==>
      reply == WriteJSONError(StatusBadRequest, "", "missing transcript id") && transcripts.docs == old(transcripts.docs)
    ensures userID != "" && transcriptID != "" && visibleStr == "" ==>
      reply == WriteJSONError(StatusBadRequest, "", "Missing the 'visible' query param") && transcripts.docs == old(transcripts.docs)
    ensures userID != "" && transcriptID != "" && visibleStr != "" ==>
      var k := old(TranscriptOperations.IndexOf(transcripts.docs, userID, transcriptID));
      (k.None? ==> reply.Status() == StatusInternalServerError && transcripts.docs == old(transcripts.docs)) &&
      (k.Some? ==> (reply == StatusReply(StatusOK) &&
         transcripts.docs == TranscriptOperations.WithRecord(old(transcripts.docs), k.value,
                               old(transcripts.docs[k.value].record).(isPrivate := PrivacyFlag(visibleStr)))))
  {
    if userID == "" {
      return WriteJSONError(StatusBadRequest, "", "missing user id");
    }
    if transcriptID == "" {
      return WriteJSONError(StatusBadRequest, "", "missing transcript id");
    }
    if visibleStr == "" {
      return WriteJSONError(StatusBadRequest, "", "Missing the 'visible' query param");
    }
    var r := transcripts.UpdateTranscriptPrivacy(userID, transcriptID, PrivacyFlag(visibleStr));
    if r.Fail? {
      return WriteJSONError(StatusInternalServerError, "", "Failed to make transcript public: " + r.error.Text());
    }
    return StatusReply(StatusOK);
  }

  /** `UpdateTranscriptTitle`: the new title comes in the `tittle` query
      parameter. */
  method UpdateTranscriptTitle(transcripts: TranscriptOperations.TranscriptStore, userID: string,
                               transcriptID: string, title: string)
    returns (reply: Reply)
    requires transcripts.Valid()
    modifies transcripts
    ensures transcripts.Valid()
    ensures userID == "" ==> reply == WriteJSONError(StatusBadRequest, "", "missing user id") && transcripts.docs == old(transcripts.docs)
    ensures userID != "" && transcriptID == "" ==>
      reply == WriteJSONError(StatusBadRequest, "", "missing transcript id") && transcripts.docs == old(transcripts.docs)
    ensures userID != "" && transcriptID != "" && title == "" ==>
      reply == WriteJSONError(StatusBadRequest, "", "Missing the 'title' query param") && transcripts.docs == old(transcripts.docs)
    ensures userID != "" && transcriptID != "" && title != "" ==>
      var k := old(TranscriptOperations.IndexOf(transcripts.docs, userID, transcriptID));
      (k.None? ==> reply.Status() == StatusInternalServerError && transcripts.docs == old(transcripts.docs)) &&
      (k.Some? ==> (reply == StatusReply(StatusOK) &&
         transcripts.docs == TranscriptOperations.WithRecord(old(transcripts.docs), k.value,
                               old(transcripts.docs[k.value].record).(tittle := title))))
  {
    if userID == "" {
      return WriteJSONError(StatusBadRequest, "", "missing user id");
    }
    if transcriptID == "" {
      return WriteJSONError(StatusBadRequest, "", "missing transcript id");
    }
    if title == "" {
      return WriteJSONError(StatusBadRequest, "", "Missing the 'title' query param");
    }
    var r := transcripts.UpdateTranscriptTitle(userID, transcriptID, title);
    if r.Fail? {
      return WriteJSONError(StatusInternalServerError, "", "Failed to update transcript title: " + r.error.Text());
    }
    return StatusReply(StatusOK);
  }

  // ---------------------------------------------------------------------
  // Transcribe

  /** What the generative engine returns: the transcript text and the
      token counts of the prompt and of the answer. */
  datatype EngineResponse = EngineResponse(text: string, promptTokens: int, candidatesTokens: int)

  /** The reply for a refused entitlement: the cap maps to 403 carrying its
      error id, every other refusal to 500. */
  function RefusalReply(e: Error): (r: Reply)
    ensures e == ExceededSubscriptionTranscriptionLimits ==>
      r.ErrorReply? && r.Status() == StatusForbidden && r.error.id == "ErrExceededSubscriptionTranscriptionLimits"
    ensures e != ExceededSubscriptionTranscriptionLimits ==>
      r.ErrorReply? && r.Status() == StatusInternalServerError && r.error.id == ""
  {
    if e == ExceededSubscriptionTranscriptionLimits then
      WriteJSONError(StatusForbidden, ExceededSubscriptionTranscriptionLimits.Text(),
                     "Subscription limits have been reached or will be with this transcription")
    else WriteJSONError(StatusInternalServerError, "", "Failed to check if the transcription is allowed: " + e.Text())
  }

  /** `Transcribe`. The request passes the token check, the session id
      check and the audio pipeline; then the entitlement decision; then
      the engine; then the save; and only after a successful save is the
      free balance charged (sequentially here; Go does it in the
      background). `tmpDir` is the temporary directory or its creation
      error; `processed` and `engineCalled` report what the handler did. */
  method Transcribe(users: UserOperations.UserStore, subs: SubscriptionOperations.SubscriptionStore,
                    transcripts: TranscriptOperations.TranscriptStore,
                    tokenInContext: Option<string>, getUserID: string -> Result<string>, sessionId: string,
                    tmpDir: Result<string>, manifest: Result<RecordingManifest>, storage: map<string, Audio.Bytes>,
                    transcode: Audio.Bytes -> Result<Audio.Bytes>, probe: Audio.Bytes -> Result<Audio.Duration>,
                    uploadError: Option<Error>, mode: BackendMode, list: string -> Listing, now: Instant,
                    engine: string -> Result<EngineResponse>, freshID: string, countError: Option<Error>)
    returns (reply: Reply, processed: Result<Audio.ProcessedAudio>, engineCalled: bool)
    requires users.Valid() && transcripts.Valid()
    modifies users, transcripts
    ensures users.Valid() && transcripts.Valid()
    // The checks before the decision answer in this order and change nothing.
    ensures tokenInContext.None? ==>
      reply == WriteJSONError(StatusInternalServerError, "", "Failed to find auth token request context.")
    ensures tokenInContext.Some? && getUserID(tokenInContext.value).Err? ==>
      reply == WriteJSONError(StatusUnauthorized, "", "Token does not match user: " + getUserID(tokenInContext.value).error.Text())
    ensures tokenInContext.Some? && getUserID(tokenInContext.value).Ok? && sessionId == "" ==>
      reply == WriteJSONError(StatusBadRequest, "", "missing sessionId")
    ensures tokenInContext.Some? && getUserID(tokenInContext.value).Ok? && sessionId != "" && tmpDir.Err? ==>
      reply == WriteJSONError(StatusInternalServerError, "", "Failed to create temporary directory to store audio files")
    ensures tokenInContext.Some? && getUserID(tokenInContext.value).Ok? && sessionId != "" && tmpDir.Ok? && processed.Err? ==>
      reply == WriteJSONError(StatusInternalServerError, "", "Failed to process audio chunks: " + processed.error.Text())
    ensures !Admitted(tokenInContext, getUserID, sessionId, tmpDir, processed) ==>
      !engineCalled && users.docs == old(users.docs) && transcripts.docs == old(transcripts.docs)
    // Then the decision: a refusal answers with its status and changes
    // nothing; the engine is called exactly when the request is allowed.
    ensures Admitted(tokenInContext, getUserID, sessionId, tmpDir, processed) ==>
      var uid := getUserID(tokenInContext.value).value;
      var d := Entitlement.Allowed(old(users.docs), subs.records, old(transcripts.docs), uid,
                                  processed.value.audioDurationSeconds, mode, list, now);
      (engineCalled <==> d.err.None?) &&
      (d.err.Some? ==> reply == RefusalReply(d.err.value) &&
                       users.docs == old(users.docs) && transcripts.docs == old(transcripts.docs)) &&
      (d.err.None? ==> Charged(old(users.docs), old(transcripts.docs), users.docs, transcripts.docs, reply, uid, sessionId,
                               processed.value, d.consumedFreeSeconds, engine(processed.value.finalAudioLocalPath),
                               freshID, now, countError))
  {
    var refusal;
    refusal, processed := Admit(tokenInContext, getUserID, sessionId, tmpDir, manifest, storage, transcode, probe, uploadError);
    if refusal.Some? {
      return refusal.value, processed, false;
    }
    reply, engineCalled := Decide(users, subs, transcripts, getUserID(tokenInContext.value).value, sessionId,
                                  processed.value, mode, list, now, engine, freshID, countError);
  }


  /** The part of `Transcribe` after an allowed decision: the engine call,
      the save and the charge against the free balance. */
  method TranscribeAndCharge(users: UserOperations.UserStore, transcripts: TranscriptOperations.TranscriptStore,
                             uid: string, sessionId: string, audio: Audio.ProcessedAudio, consumedFree: int,
                             engine: string -> Result<EngineResponse>, freshID: string, now: Instant,
                             countError: Option<Error>)
    returns (reply: Reply)
    requires users.Valid() && transcripts.Valid()
    requires UserOperations.IndexOf(users.docs, uid).Some?
    modifies users, transcripts
    ensures users.Valid() && transcripts.Valid()
    ensures Charged(old(users.docs), old(transcripts.docs), users.docs, transcripts.docs, reply, uid, sessionId,
                    audio, consumedFree, engine(audio.finalAudioLocalPath), freshID, now, countError)
  {
    var response := engine(audio.finalAudioLocalPath);
    if response.Err? {
      return WriteJSONError(StatusInternalServerError, "", "Failed to transcribe audio file: " + response.error.Text());
    }
    var saved := transcripts.SaveTranscript(uid, sessionId, response.value.text, audio.audioDurationSeconds, consumedFree,
                                            response.value.promptTokens, response.value.candidatesTokens,
                                            freshID, now, countError);
    if saved.Err? {
      return WriteJSONError(StatusInternalServerError, "", "Failed to save transcript: " + saved.error.Text());
    }
    var _ := Users.DecrementFreeTier(users, uid, consumedFree);
    return TranscriptReply(TranscriptToResponse(saved.value));
  }

  /** The checks `Transcribe` makes before the entitlement decision: the
      token in the context, the user behind it, the session id, the
      scratch directory and the audio processing, each answering with its
      own status when it fails. */
  method Admit(tokenInContext: Option<string>, getUserID: string -> Result<string>, sessionId: string,
               tmpDir: Result<string>, manifest: Result<RecordingManifest>, storage: map<string, Audio.Bytes>,
               transcode: Audio.Bytes -> Result<Audio.Bytes>, probe: Audio.Bytes -> Result<Audio.Duration>,
               uploadError: Option<Error>)
    returns (refusal: Option<Reply>, processed: Result<Audio.ProcessedAudio>)
    ensures tokenInContext.None? ==>
      refusal == Some(WriteJSONError(StatusInternalServerError, "", "Failed to find auth token request context."))
    ensures tokenInContext.Some? && getUserID(tokenInContext.value).Err? ==>
      refusal == Some(WriteJSONError(StatusUnauthorized, "", "Token does not match user: " + getUserID(tokenInContext.value).error.Text()))
    ensures tokenInContext.Some? && getUserID(tokenInContext.value).Ok? && sessionId == "" ==>
      refusal == Some(WriteJSONError(StatusBadRequest, "", "missing sessionId"))
    ensures tokenInContext.Some? && getUserID(tokenInContext.value).Ok? && sessionId != "" && tmpDir.Err? ==>
      refusal == Some(WriteJSONError(StatusInternalServerError, "", "Failed to create temporary directory to store audio files"))
    ensures tokenInContext.Some? && getUserID(tokenInContext.value).Ok? && sessionId != "" && tmpDir.Ok? && processed.Err? ==>
      refusal == Some(WriteJSONError(StatusInternalServerError, "", "Failed to process audio chunks: " + processed.error.Text()))
    // The request goes on exactly when the audio is processed, which
    // happens only once the earlier checks pass.
    ensures refusal.None? <==> processed.Ok?
    ensures processed.Ok? ==> tokenInContext.Some? && getUserID(tokenInContext.value).Ok? && sessionId != "" && tmpDir.Ok?
  {
    processed := Err(Failure("not processed"));
    if tokenInContext.None? {
      return Some(WriteJSONError(StatusInternalServerError, "", "Failed to find auth token request context.")), processed;
    }
    var userId := getUserID(tokenInContext.value);
    if userId.Err? {
      return Some(WriteJSONError(StatusUnauthorized, "", "Token does not match user: " + userId.error.Text())), processed;
    }
    if sessionId == "" {
      return Some(WriteJSONError(StatusBadRequest, "", "missing sessionId")), processed;
    }
    if tmpDir.Err? {
      return Some(WriteJSONError(StatusInternalServerError, "", "Failed to create temporary directory to store audio files")),
             processed;
    }
    var audio, _, _, _ := Audio.ProcessAudioChunks(manifest, storage, tmpDir.value, transcode, probe, uploadError);
    processed := audio;
    if audio.Err? {
      return Some(WriteJSONError(StatusInternalServerError, "", "Failed to process audio chunks: " + audio.error.Text())),
             processed;
    }
    refusal := None;
  }

  /** The request got past the token, session and audio checks. */
  predicate Admitted(tokenInContext: Option<string>, getUserID: string -> Result<string>, sessionId: string,
                     tmpDir: Result<string>, processed: Result<Audio.ProcessedAudio>)
  {
    tokenInContext.Some? && getUserID(tokenInContext.value).Ok? && sessionId != "" && tmpDir.Ok? && processed.Ok?
  }

  /** The entitlement decision and what follows it: a refusal answers with
      its status and changes nothing; the engine is called exactly when the
      request is allowed, and the request is then charged. */
  method Decide(users: UserOperations.UserStore, subs: SubscriptionOperations.SubscriptionStore,
                transcripts: TranscriptOperations.TranscriptStore, uid: string, sessionId: string,
                audio: Audio.ProcessedAudio, mode: BackendMode, list: string -> Listing, now: Instant,
                engine: string -> Result<EngineResponse>, freshID: string, countError: Option<Error>)
    returns (reply: Reply, engineCalled: bool)
    requires users.Valid() && transcripts.Valid()
    modifies users, transcripts
    ensures users.Valid() && transcripts.Valid()
    ensures var d := Entitlement.Allowed(old(users.docs), subs.records, old(transcripts.docs), uid,
                                        audio.audioDurationSeconds, mode, list, now);
      (engineCalled <==> d.err.None?) &&
      (d.err.Some? ==> reply == RefusalReply(d.err.value) &&
                       users.docs == old(users.docs) && transcripts.docs == old(transcripts.docs)) &&
      (d.err.None? ==> Charged(old(users.docs), old(transcripts.docs), users.docs, transcripts.docs, reply, uid, sessionId,
                               audio, d.consumedFreeSeconds, engine(audio.finalAudioLocalPath), freshID, now, countError))
  {
    var _, consumedFree, err := Entitlement.TranscriptionAllowed(users, subs, transcripts, uid, audio.audioDurationSeconds,
                                                               mode, list, now);
    if err.Some? {
      return RefusalReply(err.value), false;
    }
    engineCalled := true;
    reply := TranscribeAndCharge(users, transcripts, uid, sessionId, audio, consumedFree, engine, freshID, now, countError);
  }

  /** The allowed path: an engine failure or a failed save answers 500 and
      leaves the balance alone; a successful save stores the new record
      and then takes the consumed free seconds off the user's balance. */
  predicate Charged(users0: seq<User>, transcripts0: seq<TranscriptOperations.StoredTranscript>,
                    users1: seq<User>, transcripts1: seq<TranscriptOperations.StoredTranscript>, reply: Reply,
                    uid: string, sessionId: string, audio: Audio.ProcessedAudio, consumedFree: int,
                    response: Result<EngineResponse>, freshID: string, now: Instant, countError: Option<Error>)
  {
    if response.Err? then
      reply.Status() == StatusInternalServerError && users1 == users0 && transcripts1 == transcripts0
    else if countError.Some? || TranscriptOperations.IndexOf(transcripts0, uid, freshID).Some? then
      reply.Status() == StatusInternalServerError && users1 == users0 && transcripts1 == transcripts0
    else
      var t := TranscriptOperations.NewTranscript(uid, sessionId, response.value.text, audio.audioDurationSeconds,
                 consumedFree, response.value.promptTokens, response.value.candidatesTokens,
                 |TranscriptOperations.OwnedBy(transcripts0, uid)|, freshID, now);
      var k := UserOperations.IndexOf(users0, uid);
      reply == TranscriptReply(TranscriptToResponse(t)) &&
      transcripts1 == transcripts0 + [TranscriptOperations.StoredTranscript(uid, t)] &&
      k.Some? &&
      users1 == users0[k.value := users0[k.value].(freeTranscriptionSeconds :=
                  Users.DecrementedBalance(users0[k.value].freeTranscriptionSeconds, consumedFree))]
  }
}
