/**
 * The older single-file pipeline: it scans a directory for FLAC, Ogg and
 * MP3 files, checks the playlist start, builds the receiver's queue with
 * one numbered URL per track, and serves each track by its number.
 *
 * The tag conversion is the one of `Tags`; reading a file's metadata, the
 * device discovery and connection, and the socket calls are outside this
 * model (their outcomes are parameters).
 */
module LegacyMain {
  import opened Common
  import opened CastProtocol
  import Paths
  import Tags
  import Audio
  import Cli

  datatype ContainerKind = Flac | Ogg | Mp3

  /** `ContainerKind::from_ext` of this pipeline. */
  function FromExt(ext: string): (r: Option<ContainerKind>)
    ensures r == Some(Flac) <==> ext == "flac"
    ensures r == Some(Ogg) <==> ext in ["ogg", "oga", "opus"]
    ensures r == Some(Mp3) <==> ext == "mp3"
  {
    if ext == "flac" then Some(Flac)
    else if ext == "ogg" || ext == "oga" || ext == "opus" then Some(Ogg)
    else if ext == "mp3" then Some(Mp3)
    else None
  }

  /** This pipeline accepts a subset of the extensions the newer one does:
      Matroska and MP4 audio are not among them. */
  lemma FromExtNarrower(ext: string)
    ensures FromExt(ext).Some? ==> Audio.FromExt(ext).Some?
    ensures FromExt(ext).Some? <==> Audio.FromExt(ext).Some? && ext != "mka" && ext != "m4a"
  {
  }

  /** `convert_metadata`: the same tag mapping as the newer pipeline. */
  method ConvertMetadata(tags: seq<Tags.Tag>) returns (rmeta: MusicTrackMetadata)
    ensures rmeta == Tags.Described(tags)
    ensures rmeta.images == []
  {
    rmeta := Tags.ConvertTags(tags);
  }

  datatype AudioFile = AudioFile(path: string, metadata: Option<MusicTrackMetadata>)

  /** `load_if_supported`: nothing for an unknown extension, otherwise the
      file with what reading its metadata gives (`read`), or its failure. */
  function LoadIfSupported(path: string, read: Result<Option<MusicTrackMetadata>, string>)
    : (r: Result<Option<AudioFile>, string>)
    ensures FromExt(Audio.ExtensionOrEmpty(path)).None? ==> r == Ok(None)
    ensures FromExt(Audio.ExtensionOrEmpty(path)).Some? ==>
      r == match read
        case Err(e) => Err(e)
        case Ok(m) => Ok(Some(AudioFile(path, m)))
  {
    if FromExt(Audio.ExtensionOrEmpty(path)).None? then Ok(None)
    else if read.Err? then Err(read.error)
    else Ok(Some(AudioFile(path, read.value)))
  }

  /** One entry the walk yields: a regular file or not. */
  datatype WalkEntry = WalkEntry(path: string, isFile: bool)

  /** The `filter_map` closure of `scan_to_playlist` for one walk entry: a
      walk error passes on; a regular file gives what `load_if_supported`
      gives (a read error, nothing for an unknown extension, or the file);
      anything else is skipped. */
  function EntryToFile(item: Result<WalkEntry, string>,
                       read: string -> Result<Option<MusicTrackMetadata>, string>)
    : (r: Result<Option<AudioFile>, string>)
    ensures item.Err? ==> r == Err(item.error)
    ensures item.Ok? && !item.value.isFile ==> r == Ok(None)
    ensures item.Ok? && item.value.isFile ==> r == LoadIfSupported(item.value.path, read(item.value.path))
    ensures r.Ok? && r.value.Some? ==>
      && item.Ok? && item.value.isFile && r.value.value.path == item.value.path
      && FromExt(Audio.ExtensionOrEmpty(r.value.value.path)).Some?
  {
    match item
    case Err(e) => Err(e)
    case Ok(dent) =>
      if dent.isFile then LoadIfSupported(dent.path, read(dent.path)) else Ok(None)
  }

  /** The file has an extension this pipeline knows. */
  predicate Supported(f: AudioFile) {
    FromExt(Audio.ExtensionOrEmpty(f.path)).Some?
  }

  /** Every file has an extension this pipeline knows. */
  predicate AllSupported(files: seq<AudioFile>) {
    forall k :: 0 <= k < |files| ==> Supported(files[k])
  }

  lemma AllSupportedSnoc(files: seq<AudioFile>, af: AudioFile)
    requires AllSupported(files) && Supported(af)
    ensures AllSupported(files + [af])
  {
    forall k | 0 <= k < |files| + 1
      ensures Supported((files + [af])[k])
    {
      if k < |files| {
        assert (files + [af])[k] == files[k];
      } else {
        assert (files + [af])[k] == af;
      }
    }
  }

  /** `scan_to_playlist` over the walk's entries: the regular files with a
      known extension, in walk order; the first walk or read error ends it. */
  function ScanToPlaylist(items: seq<Result<WalkEntry, string>>,
                          read: string -> Result<Option<MusicTrackMetadata>, string>)
    : (r: Result<seq<AudioFile>, string>)
    ensures r.Ok? ==> forall i :: 0 <= i < |items| ==> items[i].Ok?
    ensures r.Ok? ==> |r.value| <= |items|
    ensures r.Ok? ==> AllSupported(r.value)
    decreases |items|
  {
    if items == [] then Ok([])
    else
      var n := |items| - 1;
      match ScanToPlaylist(items[..n], read)
      case Err(e) => Err(e)
      case Ok(found) =>
        assert forall i :: 0 <= i < n ==> items[..n][i] == items[i];
        match EntryToFile(items[n], read)
        case Err(e) => Err(e)
        case Ok(None) => Ok(found)
        case Ok(Some(af)) =>
          AllSupportedSnoc(found, af);
          Ok(found + [af])
  }

  datatype PlayError = NoPlayableEntries | StartBeyond(count: nat)

  /** `QueueItem` and `MediaQueue` */
  datatype QueueItem = QueueItem(media: Media)
  datatype MediaQueue = MediaQueue(items: seq<QueueItem>, startIndex: u16)

  const QUEUE_CONTENT_TYPE: string := "audio/flac"

  /** The URL a track is served under. */
  function TrackUrl(exposeAddr: string, i: nat): (u: string)
    ensures var prefix := "http://" + exposeAddr + "/";
      && |u| > |prefix| && u[..|prefix|] == prefix
      && AllDigits(u[|prefix|..]) && u[|prefix|] != '+'
      && DecimalValue(0, u[|prefix|..]) == i
  {
    var digits := NatToString(i);
    NatToStringValue(i);
    var u := "http://" + exposeAddr + "/" + digits;
    assert u[|"http://" + exposeAddr + "/"|..] == digits;
    u
  }

  /** The start index check of `play`: the 1-based start, made 0-based,
      must name an entry, and there must be entries. */
  function StartIndex(count: nat, playlistStart: Cli.NonZeroU16): (r: Result<u16, PlayError>)
    ensures r.Ok? <==> count > 0 && playlistStart - 1 < count
    ensures r.Ok? ==> r.value == playlistStart - 1
    ensures count == 0 ==> r == Err(NoPlayableEntries)
    ensures count > 0 && playlistStart - 1 >= count ==> r == Err(StartBeyond(count))
  {
    if count == 0 then Err(NoPlayableEntries)
    else
      var startIndex := playlistStart - 1;
      if startIndex < count then Ok(startIndex) else Err(StartBeyond(count))
  }

  /** The queue `play` loads: item `i` is the track served under number
      `i`, announced as buffered FLAC with the entry's tags. */
  method BuildQueue(entries: seq<AudioFile>, startIndex: u16, exposeAddr: string) returns (q: MediaQueue)
    ensures |q.items| == |entries|
    ensures q.startIndex == startIndex
    ensures forall i :: 0 <= i < |entries| ==>
      q.items[i].media == Media(TrackUrl(exposeAddr, i), Buffered, QUEUE_CONTENT_TYPE,
                                if entries[i].metadata.Some? then Some(MusicTrack(entries[i].metadata.value)) else None,
                                None)
  {
    var items: seq<QueueItem> := [];
    for i := 0 to |entries|
      invariant |items| == i
      invariant forall k :: 0 <= k < i ==>
        items[k].media == Media(TrackUrl(exposeAddr, k), Buffered, QUEUE_CONTENT_TYPE,
                                if entries[k].metadata.Some? then Some(MusicTrack(entries[k].metadata.value)) else None,
                                None)
    {
      var ent := entries[i];
      var metadata := if ent.metadata.Some? then Some(MusicTrack(ent.metadata.value)) else None;
      items := items + [QueueItem(Media("http://" + exposeAddr + "/" + NatToString(i), Buffered, "audio/flac", metadata, None))];
    }
    q := MediaQueue(items, startIndex);
  }

  /** The part of `play` between the scan and the device: the start check,
      then the queue. */
  method Play(entries: seq<AudioFile>, playlistStart: Cli.NonZeroU16, exposeAddr: string)
    returns (r: Result<MediaQueue, PlayError>)
    ensures r.Ok? <==> StartIndex(|entries|, playlistStart).Ok?
    ensures r.Err? ==> r.error == StartIndex(|entries|, playlistStart).error
    ensures r.Ok? ==> r.value.startIndex == playlistStart - 1 < |r.value.items| == |entries|
    ensures r.Ok? ==> forall i :: 0 <= i < |entries| ==> r.value.items[i].media.contentId == TrackUrl(exposeAddr, i)
  {
    var start := StartIndex(|entries|, playlistStart);
    if start.Err? {
      return Err(start.error);
    }
    var q := BuildQueue(entries, start.value, exposeAddr);
    r := Ok(q);
  }

  datatype StatusCode = NotFound

  /** `serve_one_track`'s lookup in the served paths. */
  function ServeOneTrack(servedFiles: seq<string>, trackId: u16): (r: Result<string, StatusCode>)
    ensures r.Err? <==> trackId >= |servedFiles|
    ensures r.Ok? ==> r.value == servedFiles[trackId]
  {
    if trackId < |servedFiles| then Ok(servedFiles[trackId]) else Err(NotFound)
  }

  function ServedFiles(entries: seq<AudioFile>): (r: seq<string>)
    ensures |r| == |entries|
    ensures forall i :: 0 <= i < |entries| ==> r[i] == entries[i].path
  {
    seq(|entries|, i requires 0 <= i < |entries| => entries[i].path)
  }

  /** The queue and the server agree: the number at the end of item `i`'s
      URL parses back to `i`, under which the server gives entry `i`'s
      file. Distinct items have distinct URLs. */
  lemma QueueUrlsServeEntries(entries: seq<AudioFile>, exposeAddr: string, i: nat, j: nat)
    requires i < |entries| && i < U16_LIMIT && j < |entries|
    ensures var url := TrackUrl(exposeAddr, i);
      var prefix := "http://" + exposeAddr + "/";
      && url[..|prefix|] == prefix
      && ParseU16(url[|prefix|..]) == Ok(i)
      && ServeOneTrack(ServedFiles(entries), i) == Ok(entries[i].path)
    ensures TrackUrl(exposeAddr, i) == TrackUrl(exposeAddr, j) ==> i == j
  {
    var prefix := "http://" + exposeAddr + "/";
    assert TrackUrl(exposeAddr, i)[|prefix|..] == NatToString(i);
    ParseU16RoundTrip(i);
    if TrackUrl(exposeAddr, i) == TrackUrl(exposeAddr, j) {
      assert TrackUrl(exposeAddr, j)[|prefix|..] == NatToString(j);
      NatToStringInjective(i, j);
    }
  }

  /** From the 65537th entry on, the index in a track's URL no longer parses
      as a track id, so the URL is not served. */
  lemma TrackUrlBeyondU16(exposeAddr: string, i: nat)
    requires i >= U16_LIMIT
    ensures ParseU16(TrackUrl(exposeAddr, i)[|"http://" + exposeAddr + "/"|..]).Err?
  {
    var prefix := "http://" + exposeAddr + "/";
    var digits := TrackUrl(exposeAddr, i)[|prefix|..];
    assert UnsignedDigits(digits) == digits;
  }
}
