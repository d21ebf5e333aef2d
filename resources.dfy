/** The stored records and the request/response shapes the core works with
    (dtos/resources, dtos/requests, dtos/responses). Timestamps are
    nanoseconds since the Unix epoch; a document reference is the id of the
    document it points to. */
module Resources {
  import opened Errors

  type Instant = int

  const NanosPerSecond: int := 1_000_000_000

  /** `time.Unix(sec, 0)`. */
  function UnixSeconds(sec: int): Instant { sec * NanosPerSecond }

  datatype User = User(
    id: string,
    handle: string,
    email: string,
    firstName: string,
    lastName: string,
    stripeCustomerID: string,
    prefersDarkMode: bool,
    freeTranscriptionSeconds: int,
    createdAt: Instant)

  datatype NewUser = NewUser(email: string, prefersDarkMode: bool)

  /** The optional fields of a profile update (nil pointers are None). */
  datatype UpdateUserRequest = UpdateUserRequest(
    handle: Option<string>,
    firstName: Option<string>,
    lastName: Option<string>,
    prefersDarkMode: Option<bool>)

  /** A usage event: one per saved transcription. `userRef` is the id of
      the owning user document. */
  datatype Transcript = Transcript(
    id: string,
    userRef: string,
    recordingSessionID: string,
    tittle: string,
    content: string,
    consumedInputAudioSeconds: int,
    consumedFreeAudioSeconds: int,
    consumedInputTokens: int,
    consumedOutputTokens: int,
    createdAt: Instant,
    isPrivate: bool)

  /** The locally persisted record of a provider subscription. */
  datatype Subscription = Subscription(
    id: string,
    userID: string,
    planID: int,
    stripeCustomerID: string,
    stripeSubscriptionID: string)

  datatype WhitelistEntry = WhitelistEntry(
    id: string,
    transcript: string,
    userRef: string,
    handle: string,
    email: string,
    createdAt: Instant)

  datatype RecordingManifest = RecordingManifest(
    uid: string,
    sessionID: string,
    chunks: seq<string>,
    count: int,
    mime: string)

  datatype SubscriptionUsage = SubscriptionUsage(
    subscriptonPlanName: string,
    renewsAt: Option<Instant>,
    subscriptionMonthlyMinutes: int,
    transcriptsCount: int,
    consumedInputAudioSeconds: int,
    consumedFreeInputAudioSeconds: int,
    consumedPaidInputAudioSeconds: int,
    consumedAudioTokens: int,
    consumedTotalInputTokens: int,
    consumedOutputTokens: int)

  datatype TranscriptionResponse = TranscriptionResponse(
    id: string,
    recordingSessionID: string,
    tittle: string,
    content: string,
    consumedInputAudioSeconds: int,
    consumedFreeAudioSeconds: int,
    createdAt: Instant)

  datatype WhitelistUser = WhitelistUser(handle: string, email: string)

  datatype WhitelistedUserResponse = WhitelistedUserResponse(
    id: string,
    handle: string,
    email: string,
    createdAt: Instant)

  datatype SubscriptionPlan = SubscriptionPlan(
    id: int,
    priceID: string,
    name: string,
    transcriptionMonthlySeconds: int,
    freeTranscriptionSeconds: int)
}
