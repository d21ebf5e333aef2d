/** Chunk assembly and duration measurement (services/audio/audio.go).
    The object store is a map from object path to bytes; the scratch
    directory is a map from local path to bytes, empty at the start;
    ffmpeg and ffprobe are functions handed in by the caller. */
module Audio {
  import opened Errors
  import opened Text
  import opened Resources
  import StoragePaths
  import Sorting

  type Bytes = seq<bv8>

  // ---------------------------------------------------------------------
  // filepath.Base

  function TrimTrailingSlashes(p: string): (r: string)
    ensures |r| <= |p| && r == p[..|r|]
    ensures r == [] || r[|r| - 1] != '/'
  {
    if p != [] && p[|p| - 1] == '/' then TrimTrailingSlashes(p[..|p| - 1]) else p
  }

  /** Where the last segment of `p` starts: just after its last slash,
      or 0 when it has none. */
  function LastSegmentStart(p: string): (k: nat)
    ensures k <= |p| && StoragePaths.NoSlash(p[k..])
    ensures k > 0 ==> p[k - 1] == '/'
  {
    if p == [] then 0
    else if p[|p| - 1] == '/' then |p|
    else
      var q := p[..|p| - 1];
      var k := LastSegmentStart(q);
      assert p[k..] == q[k..] + [p[|p| - 1]];
      k
  }

  /** The part of `p` after its last slash (all of `p` when it has none). */
  function AfterLastSlash(p: string): string {
    p[LastSegmentStart(p)..]
  }

  /** `filepath.Base` for slash-separated paths: trailing slashes are
      dropped, then everything up to the last slash; "" gives "." and a
      path of slashes gives "/". */
  function Base(path: string): (r: string)
    ensures r != []
  {
    if path == [] then "."
    else
      var p := TrimTrailingSlashes(path);
      if p == [] then "/" else AfterLastSlash(p)
  }

  /** The base of `dir/name` is `name` when `name` is a non-empty
      slash-free file name. */
  lemma BaseOfJoin(dir: string, name: string)
    requires name != [] && StoragePaths.NoSlash(name)
    ensures Base(dir + "/" + name) == name
  {
    var p := dir + "/" + name;
    assert p[|p| - 1] == name[|name| - 1];
    assert TrimTrailingSlashes(p) == p;
    BaseOfSlashFree(dir + "/", name);
  }

  lemma BaseOfSlashFree(prefix: string, name: string)
    requires StoragePaths.NoSlash(name)
    requires prefix != [] && prefix[|prefix| - 1] == '/'
    ensures AfterLastSlash(prefix + name) == name
  {
    SegmentAfterSlash(prefix, name);
    assert (prefix + name)[|prefix|..] == name;
  }

  /** A slash-free suffix after a slash is exactly the last segment. */
  lemma {:induction false} SegmentAfterSlash(prefix: string, name: string)
    requires StoragePaths.NoSlash(name)
    requires prefix != [] && prefix[|prefix| - 1] == '/'
    ensures LastSegmentStart(prefix + name) == |prefix|
  {
    if name != [] {
      var p := prefix + name;
      assert p[..|p| - 1] == prefix + name[..|name| - 1];
      SegmentAfterSlash(prefix, name[..|name| - 1]);
    } else {
      assert prefix + name == prefix;
    }
  }

  // ---------------------------------------------------------------------
  // chunkIndex: fmt.Sscanf(s, "%d", &n) on the trimmed base name

  /** White space `fmt` skips before a number; a newline is not skipped by
      `Sscanf` (it ends the scan with an error). */
  predicate IsScanSpace(c: char) {
    var n := c as int;
    (0x09 <= n <= 0x0D && n != 0x0A) || n == 0x20 || n == 0x85 || n == 0xA0 || n == 0x1680 ||
    (0x2000 <= n <= 0x200A) || n == 0x2028 || n == 0x2029 || n == 0x202F || n == 0x205F || n == 0x3000
  }

  function SkipScanSpaces(s: string): (r: string)
    ensures |r| <= |s| && r == s[|s| - |r|..]
    ensures r == [] || !IsScanSpace(r[0])
  {
    if s != [] && IsScanSpace(s[0]) then SkipScanSpaces(s[1..]) else s
  }

  /** `Sscanf(s, "%d", &n)` with `n` starting at 0: leading white space, an
      optional sign and at least one decimal digit; any failure (no digit,
      a value outside 64 bits) leaves `n` at 0. Text after the digits is
      ignored. */
  function ScanDecimal(s: string): (r: int)
    ensures InInt64(r)
    ensures r != 0 ==> LeadingDigits(ScanDigitsFrom(s)) != []
  {
    var t := SkipScanSpaces(s);
    var signed := t != [] && (t[0] == '+' || t[0] == '-');
    var digits := LeadingDigits(if signed then t[1..] else t);
    if digits == [] then 0
    else
      var v: int := if signed && t[0] == '-' then -(DecimalValue(digits) as int) else DecimalValue(digits);
      if InInt64(v) then v else 0
  }

  /** `chunkIndex`: the sequence number encoded in a chunk's base name. */
  function ChunkIndex(path: string): (r: int)
    ensures InInt64(r)
  {
    ScanDecimal(ChunkName(path))
  }

  /** The part of a chunk's base name that holds its number. */
  function ChunkName(path: string): string {
    TrimSuffix(TrimPrefix(Base(path), "chunk-"), ".webm")
  }

  /** A chunk named `chunk-<digits>.webm` in any directory has the index its
      digits spell, leading zeros and all. */
  lemma ChunkIndexOfNumberedChunk(dir: string, digits: string)
    requires digits != [] && AllDigits(digits) && DecimalValue(digits) <= MaxInt64
    ensures ChunkIndex(dir + "/" + "chunk-" + digits + ".webm") == DecimalValue(digits)
  {
    NumberedChunkName(dir, digits);
    ScanDigits(digits);
  }

  lemma NumberedChunkName(dir: string, digits: string)
    requires AllDigits(digits)
    ensures ChunkName(dir + "/" + "chunk-" + digits + ".webm") == digits
  {
    var name := "chunk-" + digits + ".webm";
    assert dir + "/" + "chunk-" + digits + ".webm" == dir + "/" + name;
    NumberedNameHasNoSlash(digits);
    BaseOfJoin(dir, name);
    TrimNumberedName(digits);
  }

  lemma NumberedNameHasNoSlash(digits: string)
    requires AllDigits(digits)
    ensures StoragePaths.NoSlash("chunk-" + digits + ".webm")
  {
    var name := "chunk-" + digits + ".webm";
    forall i | 0 <= i < |name| ensures name[i] != '/' {
      if 6 <= i < 6 + |digits| { assert name[i] == digits[i - 6]; }
    }
  }

  lemma TrimNumberedName(digits: string)
    ensures TrimSuffix(TrimPrefix("chunk-" + digits + ".webm", "chunk-"), ".webm") == digits
  {
    var name := "chunk-" + digits + ".webm";
    assert name[..6] == "chunk-";
    var s := TrimPrefix(name, "chunk-");
    assert s == digits + ".webm";
    assert s[|s| - 5..] == ".webm";
  }

  /** Scanning a plain digit string reads its value. */
  lemma ScanDigits(digits: string)
    requires digits != [] && AllDigits(digits) && DecimalValue(digits) <= MaxInt64
    ensures ScanDecimal(digits) == DecimalValue(digits)
  {
    assert !IsScanSpace(digits[0]);
    assert SkipScanSpaces(digits) == digits;
    LeadingDigitsOf(digits);
  }

  lemma {:induction false} LeadingDigitsOf(digits: string)
    requires AllDigits(digits)
    ensures LeadingDigits(digits) == digits
  {
    if digits != [] {
      LeadingDigitsOf(digits[1..]);
    }
  }

  /** The text `Sscanf` reads digits from: `s` after the skipped white
      space and an optional sign. */
  function ScanDigitsFrom(s: string): string {
    var t := SkipScanSpaces(s);
    if t != [] && (t[0] == '+' || t[0] == '-') then t[1..] else t
  }

  /** A scan that finds no digit right after the white space and the
      optional sign reads nothing and leaves the index at 0. */
  lemma ScanWithoutNumber(s: string)
    requires ScanDigitsFrom(s) == [] || !IsDigit(ScanDigitsFrom(s)[0])
    ensures ScanDecimal(s) == 0
  {
    assert LeadingDigits(ScanDigitsFrom(s)) == [];
  }

  /** A chunk whose trimmed base name holds no digit at all, whatever its
      directory, sorts as index 0. */
  lemma ChunkIndexWithoutDigits(path: string)
    requires forall i :: 0 <= i < |ChunkName(path)| ==> !IsDigit(ChunkName(path)[i])
    ensures ChunkIndex(path) == 0
  {
    var s := ChunkName(path);
    var t := SkipScanSpaces(s);
    assert ScanDigitsFrom(s) == [] || ScanDigitsFrom(s)[0] == s[|s| - |ScanDigitsFrom(s)|];
    ScanWithoutNumber(s);
  }

  // ---------------------------------------------------------------------
  // Ordering the chunks (sort.Slice by chunkIndex, on a copy)

  predicate SortedByIndex(chunks: seq<string>) {
    Sorting.SortedBy(chunks, ChunkIndex)
  }

  /** The order chunks are processed in: a permutation of the manifest's
      chunks, non-decreasing by index. Nothing is promised about chunks
      with equal indices (`sort.Slice` is not stable). */
  predicate IsProcessingOrder(order: seq<string>, chunks: seq<string>) {
    multiset(order) == multiset(chunks) && SortedByIndex(order)
  }

  /** Sorts a copy of the chunk list by `ChunkIndex`. */
  method SortChunks(chunks: seq<string>) returns (sorted: seq<string>)
    ensures IsProcessingOrder(sorted, chunks)
  {
    sorted := Sorting.SortByKey(chunks, ChunkIndex);
  }

  // ---------------------------------------------------------------------
  // Downloading, fail-fast, in processing order

  /** Where a chunk is stored in the scratch directory. */
  function LocalPath(directory: string, storagePath: string): string {
    directory + "/" + Base(storagePath)
  }

  /** The naming of the scratch files in `directory`. The download steps
      below take the naming as a parameter, and `ProcessAudioChunks` hands
      them this one. */
  function ScratchPath(directory: string): string -> string {
    storagePath => LocalPath(directory, storagePath)
  }

  /** The object store's answer for a missing object. */
  const ObjectNotExist: string := "storage: object doesn't exist"

  function DownloadError(storagePath: string): Error {
    Failure("download " + storagePath + ": " + ObjectNotExist)
  }

  datatype Downloaded = Downloaded(localFiles: seq<string>, disk: map<string, Bytes>)

  /** Downloading `order` one chunk after the other into an empty scratch
      directory, chunk `c` to `localPath(c)`; the first chunk missing from
      the store ends it with an error. */
  function DownloadAll(storage: map<string, Bytes>, localPath: string -> string, order: seq<string>): (r: Result<Downloaded>)
    ensures r.Ok? ==> |r.value.localFiles| == |order|
    ensures r.Ok? ==> forall i :: 0 <= i < |order| ==> r.value.localFiles[i] in r.value.disk
    ensures r.Ok? <==> AllStored(storage, order)
  {
    if order == [] then Ok(Downloaded([], map[]))
    else
      var last := order[|order| - 1];
      var front := order[..|order| - 1];
      var prev := DownloadAll(storage, localPath, front);
      AllStoredSplit(storage, order);
      if prev.Err? then prev
      else if last !in storage then Err(DownloadError(last))
      else
        var local := localPath(last);
        Ok(Downloaded(prev.value.localFiles + [local], prev.value.disk[local := storage[last]]))
  }

  /** Every chunk of `order` is in the store. */
  predicate AllStored(storage: map<string, Bytes>, order: seq<string>) {
    forall i :: 0 <= i < |order| ==> order[i] in storage
  }

  lemma AllStoredSplit(storage: map<string, Bytes>, order: seq<string>)
    requires order != []
    ensures AllStored(storage, order) <==>
      AllStored(storage, order[..|order| - 1]) && order[|order| - 1] in storage
  {
    var front := order[..|order| - 1];
    assert forall i :: 0 <= i < |front| ==> front[i] == order[i];
  }

  /** Index of the first chunk the store does not have, or `|order|`. */
  function FirstMissing(storage: map<string, Bytes>, order: seq<string>): (k: nat)
    ensures k <= |order|
    ensures forall i :: 0 <= i < k ==> order[i] in storage
    ensures k < |order| ==> order[k] !in storage
  {
    if order == [] || order[0] !in storage then 0 else 1 + FirstMissing(storage, order[1..])
  }

  /** A failed download reports the first missing chunk. */
  lemma {:induction false} DownloadFailsAtFirstMissing(storage: map<string, Bytes>, localPath: string -> string, order: seq<string>)
    requires FirstMissing(storage, order) < |order|
    ensures DownloadAll(storage, localPath, order) == Err(DownloadError(order[FirstMissing(storage, order)]))
  {
    var k := FirstMissing(storage, order);
    if k < |order| - 1 {
      var front := order[..|order| - 1];
      assert front[..k] == order[..k] && front[k] == order[k];
      FirstMissingOfPrefix(storage, order, |order| - 1);
      DownloadFailsAtFirstMissing(storage, localPath, front);
    } else {
      var front := order[..|order| - 1];
      assert forall i :: 0 <= i < |front| ==> front[i] in storage;
    }
  }

  /** A chunk missing from the store, with none missing before it, ends the download. */
  lemma DownloadFailsAt(storage: map<string, Bytes>, localPath: string -> string, order: seq<string>, i: nat)
    requires i < |order| && i <= FirstMissing(storage, order) && order[i] !in storage
    ensures FirstMissing(storage, order) == i
    ensures DownloadAll(storage, localPath, order) == Err(DownloadError(order[i]))
  {
    DownloadFailsAtFirstMissing(storage, localPath, order);
  }

  lemma StoredBeforeFirstMissing(storage: map<string, Bytes>, order: seq<string>, i: nat)
    requires i < |order| && i <= FirstMissing(storage, order)
    ensures order[i] in storage <==> i < FirstMissing(storage, order)
  {
  }

  lemma FirstMissingOfPrefix(storage: map<string, Bytes>, order: seq<string>, n: nat)
    requires FirstMissing(storage, order) < n <= |order|
    ensures FirstMissing(storage, order[..n]) == FirstMissing(storage, order)
  {
    assert forall i :: 0 <= i < n ==> order[..n][i] == order[i];
  }

  /** `DownloadAll` on one more chunk of `order`. */
  lemma DownloadAllStep(storage: map<string, Bytes>, localPath: string -> string, order: seq<string>, i: nat,
                        localFiles: seq<string>, disk: map<string, Bytes>)
    requires i < |order| && order[i] in storage
    requires DownloadAll(storage, localPath, order[..i]) == Ok(Downloaded(localFiles, disk))
    ensures var local := localPath(order[i]);
      DownloadAll(storage, localPath, order[..i + 1]) ==
        Ok(Downloaded(localFiles + [local], disk[local := storage[order[i]]]))
  {
    assert order[..i + 1][..i] == order[..i];
  }

  /** One iteration of the download loop: copies chunk `i` from the store
      into its scratch file. */
  method DownloadChunk(storage: map<string, Bytes>, localPath: string -> string, order: seq<string>, i: nat,
                       localFiles: seq<string>, disk: map<string, Bytes>)
    returns (localFiles': seq<string>, disk': map<string, Bytes>)
    requires i < |order| && order[i] in storage
    requires DownloadAll(storage, localPath, order[..i]) == Ok(Downloaded(localFiles, disk))
    ensures DownloadAll(storage, localPath, order[..i + 1]) == Ok(Downloaded(localFiles', disk'))
  {
    var local := localPath(order[i]);
    DownloadAllStep(storage, localPath, order, i, localFiles, disk);
    localFiles' := localFiles + [local];
    disk' := disk[local := storage[order[i]]];
  }

  /** The download loop: chunks are fetched in `order`; the loop stops at
      the first failure, so no chunk after it is fetched. */
  method DownloadChunks(storage: map<string, Bytes>, localPath: string -> string, order: seq<string>)
    returns (r: Result<Downloaded>, fetched: seq<string>)
    ensures r == DownloadAll(storage, localPath, order)
    ensures fetched == order[..if r.Ok? then |order| else FirstMissing(storage, order) + 1]
  {
    var localFiles: seq<string> := [];
    var disk: map<string, Bytes> := map[];
    fetched := [];
    var i := 0;
    while i < |order|
      invariant 0 <= i <= |order|
      invariant i <= FirstMissing(storage, order)
      invariant DownloadAll(storage, localPath, order[..i]) == Ok(Downloaded(localFiles, disk))
      invariant fetched == order[..i]
    {
      var storagePath := order[i];
      fetched := fetched + [storagePath];
      assert fetched == order[..i + 1];
      if storagePath !in storage {
        DownloadFailsAt(storage, localPath, order, i);
        return Err(DownloadError(storagePath)), fetched;
      }
      StoredBeforeFirstMissing(storage, order, i);
      localFiles, disk := DownloadChunk(storage, localPath, order, i, localFiles, disk);
      i := i + 1;
    }
    assert order[..|order|] == order;
    r := Ok(Downloaded(localFiles, disk));
  }

  // ---------------------------------------------------------------------
  // Joining the downloaded files byte for byte

  function Concat(disk: map<string, Bytes>, files: seq<string>): Bytes
    requires forall i :: 0 <= i < |files| ==> files[i] in disk
  {
    if files == [] then [] else Concat(disk, files[..|files| - 1]) + disk[files[|files| - 1]]
  }

  /** Appends every downloaded file, in order, to the joined stream. */
  method JoinChunks(disk: map<string, Bytes>, localFiles: seq<string>) returns (joined: Bytes)
    requires forall i :: 0 <= i < |localFiles| ==> localFiles[i] in disk
    ensures joined == Concat(disk, localFiles)
  {
    joined := [];
    for i := 0 to |localFiles|
      invariant joined == Concat(disk, localFiles[..i])
    {
      assert localFiles[..i + 1][..i] == localFiles[..i];
      joined := joined + disk[localFiles[i]];
    }
    assert localFiles[..|localFiles|] == localFiles;
  }

  /** The chunks' bytes in the store, concatenated in the given order. */
  function StoredConcat(storage: map<string, Bytes>, order: seq<string>): Bytes
    requires forall i :: 0 <= i < |order| ==> order[i] in storage
  {
    if order == [] then [] else StoredConcat(storage, order[..|order| - 1]) + storage[order[|order| - 1]]
  }

  predicate DistinctBases(order: seq<string>) {
    forall i, j :: 0 <= i < j < |order| ==> Base(order[i]) != Base(order[j])
  }

  /** No two chunks of `order` get the same scratch file. */
  predicate DistinctLocalPaths(localPath: string -> string, order: seq<string>) {
    forall i, j :: 0 <= i < j < |order| ==> localPath(order[i]) != localPath(order[j])
  }

  /** When no two chunks share a base name, every chunk keeps its own
      scratch file, and the joined stream is exactly the stored chunks
      concatenated in processing order. */
  lemma JoinedIsStoredConcat(storage: map<string, Bytes>, directory: string, order: seq<string>)
    requires DistinctBases(order)
    requires DownloadAll(storage, ScratchPath(directory), order).Ok?
    ensures var d := DownloadAll(storage, ScratchPath(directory), order).value;
      Concat(d.disk, d.localFiles) == StoredConcat(storage, order)
  {
    forall i, j | 0 <= i < j < |order|
      ensures ScratchPath(directory)(order[i]) != ScratchPath(directory)(order[j])
    {
      LocalPathDeterminesBase(directory, order[i], order[j]);
    }
    JoinedIsConcatOfDistinct(storage, ScratchPath(directory), order);
  }

  lemma {:induction false} JoinedIsConcatOfDistinct(storage: map<string, Bytes>, localPath: string -> string,
                                                    order: seq<string>)
    requires DistinctLocalPaths(localPath, order)
    requires DownloadAll(storage, localPath, order).Ok?
    ensures var d := DownloadAll(storage, localPath, order).value;
      Concat(d.disk, d.localFiles) == StoredConcat(storage, order)
  {
    var d := DownloadAll(storage, localPath, order).value;
    if order != [] {
      var front := order[..|order| - 1];
      var last := order[|order| - 1];
      var p := DownloadAll(storage, localPath, front).value;
      var local := localPath(last);
      assert DistinctLocalPaths(localPath, front) by {
        forall i, j | 0 <= i < j < |front|
          ensures localPath(front[i]) != localPath(front[j])
        {
          assert front[i] == order[i] && front[j] == order[j];
        }
      }
      JoinedIsConcatOfDistinct(storage, localPath, front);
      assert d.localFiles[..|d.localFiles| - 1] == p.localFiles;
      forall i | 0 <= i < |p.localFiles|
        ensures p.localFiles[i] != local
      {
        assert front[i] == order[i];
        DownloadedLocalFile(storage, localPath, front, i);
      }
      ConcatUnchanged(p.disk, p.localFiles, local, storage[last]);
    }
  }

  /** The i-th downloaded file is the i-th chunk's scratch file. */
  lemma {:induction false} DownloadedLocalFile(storage: map<string, Bytes>, localPath: string -> string,
                                               order: seq<string>, i: nat)
    requires DownloadAll(storage, localPath, order).Ok? && i < |order|
    ensures DownloadAll(storage, localPath, order).value.localFiles[i] == localPath(order[i])
  {
    var front := order[..|order| - 1];
    if i < |order| - 1 {
      DownloadedLocalFile(storage, localPath, front, i);
    }
  }

  lemma LocalPathDeterminesBase(directory: string, a: string, b: string)
    ensures LocalPath(directory, a) == LocalPath(directory, b) ==> Base(a) == Base(b)
  {
    assert Base(a) == LocalPath(directory, a)[|directory| + 1..];
    assert Base(b) == LocalPath(directory, b)[|directory| + 1..];
  }

  /** Writing a file that is not in `files` does not change their
      concatenation. */
  lemma {:induction false} ConcatUnchanged(disk: map<string, Bytes>, files: seq<string>, other: string, data: Bytes)
    requires forall i :: 0 <= i < |files| ==> files[i] in disk && files[i] != other
    ensures Concat(disk[other := data], files) == Concat(disk, files)
  {
    if files != [] {
      ConcatUnchanged(disk, files[..|files| - 1], other, data);
    }
  }

  // ---------------------------------------------------------------------
  // Duration

  type PosInt = n: int | n > 0 witness 1

  /** A probed duration, `num / den` seconds, held exactly. */
  datatype Duration = Duration(num: int, den: PosInt)

  /** `int(math.Ceil(duration))`: the billed whole seconds. */
  function CeilSeconds(d: Duration): (r: int)
    ensures (r - 1) * d.den < d.num <= r * d.den
  {
    var q := (-d.num) / d.den;
    assert -d.num == q * d.den + (-d.num) % d.den;
    -q
  }

  /** 4.2 s bills as 5 s; 5.0 s bills as 5 s. */
  lemma CeilExamples()
    ensures CeilSeconds(Duration(42, 10)) == 5
    ensures CeilSeconds(Duration(50, 10)) == 5
  {
  }

  // ---------------------------------------------------------------------
  // ProcessAudioChunks

  datatype ProcessedAudio = ProcessedAudio(
    finalAudioLocalPath: string,
    finalAudioStoragePath: string,
    audioDurationSeconds: int)

  function FinalLocalPath(directory: string): string { directory + "/final.wav" }

  /** Loads nothing itself: `manifest` is what `LoadManifest` returned.
      `transcode` stands for ffmpeg, `probe` for ffprobe and `uploadError`
      for the object store's answer to the final upload. Besides the Go
      results, the method returns the processing order, the chunks it
      fetched and the object store afterwards. */
  method ProcessAudioChunks(
    manifest: Result<RecordingManifest>,
    storage: map<string, Bytes>,
    directory: string,
    transcode: Bytes -> Result<Bytes>,
    probe: Bytes -> Result<Duration>,
    uploadError: Option<Error>)
    returns (r: Result<ProcessedAudio>, order: seq<string>, fetched: seq<string>, storage': map<string, Bytes>)
    ensures manifest.Err? ==> r == Err(manifest.error) && fetched == [] && storage' == storage
    ensures manifest.Ok? && (manifest.value.count == 0 || manifest.value.chunks == []) ==>
      r == Err(NoAudioChunksInManifest) && fetched == [] && storage' == storage
    ensures r.Err? ==> storage' == storage
    ensures manifest.Ok? && manifest.value.count != 0 && manifest.value.chunks != [] ==>
      IsProcessingOrder(order, manifest.value.chunks) &&
      var m := manifest.value;
      var downloaded := DownloadAll(storage, ScratchPath(directory), order);
      && fetched == order[..if downloaded.Ok? then |order| else FirstMissing(storage, order) + 1]
      && (downloaded.Err? ==> r == downloaded.PropagateFailure())
      && (downloaded.Ok? ==>
            var joined := Concat(downloaded.value.disk, downloaded.value.localFiles);
            var wav := transcode(joined);
            var finalPath := StoragePaths.FinalAudioUploadPath(m.uid, m.sessionID);
            if wav.Err? then r == Err(Failure("ffmpeg transcode: " + wav.error.Text()))
            else if probe(wav.value).Err? then r == Err(Failure("get audio duration: " + probe(wav.value).error.Text()))
            else if uploadError.Some? then r == Err(Failure("upload final: " + uploadError.value.Text()))
            else
              && r == Ok(ProcessedAudio(FinalLocalPath(directory), finalPath, CeilSeconds(probe(wav.value).value)))
              && storage' == storage[finalPath := wav.value])
  {
    order, fetched, storage' := [], [], storage;
    if manifest.Err? {
      return Err(manifest.error), order, fetched, storage';
    }
    var m := manifest.value;
    if m.count == 0 || |m.chunks| == 0 {
      return Err(NoAudioChunksInManifest), order, fetched, storage';
    }

    order := SortChunks(m.chunks);

    var downloaded;
    downloaded, fetched := DownloadChunks(storage, ScratchPath(directory), order);
    if downloaded.Err? {
      return Err(downloaded.error), order, fetched, storage';
    }

    var joined := JoinChunks(downloaded.value.disk, downloaded.value.localFiles);

    var wav := transcode(joined);
    if wav.Err? {
      return Err(Failure("ffmpeg transcode: " + wav.error.Text())), order, fetched, storage';
    }

    var duration := probe(wav.value);
    if duration.Err? {
      return Err(Failure("get audio duration: " + duration.error.Text())), order, fetched, storage';
    }
    var seconds := CeilSeconds(duration.value);

    var finalPath := StoragePaths.FinalAudioUploadPath(m.uid, m.sessionID);
    if uploadError.Some? {
      return Err(Failure("upload final: " + uploadError.value.Text())), order, fetched, storage';
    }
    storage' := storage[finalPath := wav.value];
    r := Ok(ProcessedAudio(FinalLocalPath(directory), finalPath, seconds));
  }
}
