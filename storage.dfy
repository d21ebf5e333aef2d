/** Object-storage layout (services/data/storage): where a session's
    manifest is read from and where its final audio asset is written. */
module StoragePaths {
  import opened Text

  const OutputDir: string := "outputs"
  const RecordingSessionsDir: string := "recordingSessions"

  /** `FinalAudioUploadPath(userId, sessionId)`. */
  function FinalAudioUploadPath(userId: string, sessionId: string): string {
    OutputDir + "/" + userId + "/" + sessionId + "/final.wav"
  }

  /** The object `LoadManifest` reads for a session. */
  function ManifestPath(userId: string, sessionId: string): string {
    RecordingSessionsDir + "/" + userId + "/" + sessionId + "/manifest.json"
  }

  predicate NoSlash(s: string) { forall i :: 0 <= i < |s| ==> s[i] != '/' }

  /** Every final-asset path lies under `outputs/` and names `final.wav`. */
  lemma FinalPathShape(userId: string, sessionId: string)
    ensures HasPrefix(FinalAudioUploadPath(userId, sessionId), "outputs/")
    ensures HasSuffix(FinalAudioUploadPath(userId, sessionId), "/final.wav")
  {
    var p := FinalAudioUploadPath(userId, sessionId);
    assert p == "outputs/" + (userId + "/" + sessionId) + "/final.wav";
    assert p[..8] == "outputs/";
  }

  /** Position of the first slash of `s`, or `|s|` when there is none. */
  function FirstSlash(s: string): nat {
    if s == [] || s[0] == '/' then 0 else 1 + FirstSlash(s[1..])
  }

  lemma {:induction false} FirstSlashAfter(a: string, rest: string)
    requires NoSlash(a)
    ensures FirstSlash(a + "/" + rest) == |a|
  {
    if a != [] {
      assert (a + "/" + rest)[1..] == a[1..] + "/" + rest;
      FirstSlashAfter(a[1..], rest);
    }
  }

  /** Splitting `a + "/" + rest` at its first slash recovers `a`. */
  lemma SplitAtFirstSlash(a: string, rest: string, b: string, rest': string)
    requires NoSlash(a) && NoSlash(b)
    requires a + "/" + rest == b + "/" + rest'
    ensures a == b && rest == rest'
  {
    FirstSlashAfter(a, rest);
    FirstSlashAfter(b, rest');
    assert a == (a + "/" + rest)[..|a|];
    assert b == (b + "/" + rest')[..|b|];
    assert rest == (a + "/" + rest)[|a| + 1..];
    assert rest' == (b + "/" + rest')[|b| + 1..];
  }

  /** Distinct (user, session) pairs get distinct final-asset paths, as long
      as neither identifier contains a slash. */
  lemma FinalPathInjective(u1: string, s1: string, u2: string, s2: string)
    requires NoSlash(u1) && NoSlash(s1) && NoSlash(u2) && NoSlash(s2)
    requires FinalAudioUploadPath(u1, s1) == FinalAudioUploadPath(u2, s2)
    ensures u1 == u2 && s1 == s2
  {
    var tail := "/final.wav";
    assert FinalAudioUploadPath(u1, s1) == OutputDir + "/" + (u1 + "/" + (s1 + tail));
    assert FinalAudioUploadPath(u2, s2) == OutputDir + "/" + (u2 + "/" + (s2 + tail));
    SplitAtFirstSlash(OutputDir, u1 + "/" + (s1 + tail), OutputDir, u2 + "/" + (s2 + tail));
    SplitAtFirstSlash(u1, s1 + tail, u2, s2 + tail);
    assert s1 + tail == s2 + tail;
    assert s1 == (s1 + tail)[..|s1|];
    assert s2 == (s2 + tail)[..|s2|];
  }

  /** A final-asset path never coincides with a manifest path: the two
      trees start with different top-level directories. */
  lemma FinalPathIsNotManifestPath(u1: string, s1: string, u2: string, s2: string)
    ensures FinalAudioUploadPath(u1, s1) != ManifestPath(u2, s2)
  {
    var f := FinalAudioUploadPath(u1, s1);
    var m := ManifestPath(u2, s2);
    assert f[0] == 'o';
    assert m[0] == 'r';
  }
}
