/**
 * Audio files as the server knows them: the container kinds recognised by
 * file extension, the MIME type announced for each, the codecs each
 * container may carry, the metadata extracted from a file's tags, and the
 * decision of whether a path is loaded at all.
 *
 * Reading a file (opening it, Symphonia's format readers, the ID3 readers)
 * and querying the beets database are done by code outside this model;
 * their outcomes are parameters.
 */
module Audio {
  import opened Common
  import opened CastProtocol
  import Paths
  import Tags

  // ---------------------------------------------------------------------
  // Container kinds

  datatype ContainerKind = Flac | Ogg | Matroska | Mp3 | Mp4

  /** `ContainerKind::from_ext`: exact, case-sensitive extension match. */
  function FromExt(ext: string): (r: Option<ContainerKind>)
    ensures r.Some? <==> ext in ["flac", "ogg", "oga", "opus", "mka", "mp3", "m4a"]
    ensures r.Some? ==> ext in Extensions(r.value)
  {
    if ext == "flac" then Some(Flac)
    else if ext == "ogg" || ext == "oga" || ext == "opus" then Some(Ogg)
    else if ext == "mka" then Some(Matroska)
    else if ext == "mp3" then Some(Mp3)
    else if ext == "m4a" then Some(Mp4)
    else None
  }

  /** The extensions each container kind is recognised by. */
  function Extensions(k: ContainerKind): seq<string> {
    match k
    case Flac => ["flac"]
    case Ogg => ["ogg", "oga", "opus"]
    case Matroska => ["mka"]
    case Mp3 => ["mp3"]
    case Mp4 => ["m4a"]
  }

  /** `FromExt` recognises exactly the listed extensions, each as one kind. */
  lemma FromExtExactly(ext: string, k: ContainerKind)
    ensures FromExt(ext) == Some(k) <==> ext in Extensions(k)
  {
  }

  /** Every recognised extension is lower-case, so an extension with an
      upper-case letter is never recognised. */
  lemma FromExtLowerCaseOnly(ext: string)
    requires AsciiLower(ext) != ext
    ensures FromExt(ext).None?
  {
  }

  /** `ContainerKind::mime_type` */
  function MimeType(k: ContainerKind): (m: string)
    ensures |m| > 6 && m[..6] == "audio/"
  {
    match k
    case Flac => "audio/flac"
    case Ogg => "audio/ogg"
    case Matroska => "audio/webm"
    case Mp3 => "audio/mpeg"
    case Mp4 => "audio/m4a"
  }

  /** Distinct container kinds announce distinct MIME types, all audio ones. */
  lemma MimeTypeInjective(a: ContainerKind, b: ContainerKind)
    ensures MimeType(a) == MimeType(b) <==> a == b
    ensures MimeType(a)[..6] == "audio/"
  {
  }

  // ---------------------------------------------------------------------
  // Codec whitelist

  /** The codec of one track; `OtherCodec` is any codec not named here. */
  datatype Codec = CodecFlac | CodecVorbis | CodecOpus | CodecMp3 | CodecAac | OtherCodec(id: nat)

  /** The codecs a container may carry for the receiver to play it. */
  predicate Allowed(k: ContainerKind, c: Codec) {
    match k
    case Flac => c == CodecFlac
    case Ogg => c == CodecVorbis || c == CodecOpus
    case Matroska => c == CodecVorbis || c == CodecOpus
    case Mp3 => c == CodecMp3
    case Mp4 => c == CodecAac
  }

  datatype AudioError =
    | Unsupported(what: string)
    | UnexpectedCodec(codec: Codec, container: string)
    | ReadFailed(description: string)  // a file, reader or database failure

  /** `validate_codecs`: every track's codec must be allowed; the first
      track that is not makes the file fail. */
  method ValidateCodecs(codecs: seq<Codec>, k: ContainerKind) returns (r: Result<(), AudioError>)
    ensures r.Ok? <==> forall i :: 0 <= i < |codecs| ==> Allowed(k, codecs[i])
    ensures r.Err? ==> exists i :: 0 <= i < |codecs| && !Allowed(k, codecs[i])
                         && (forall j :: 0 <= j < i ==> Allowed(k, codecs[j]))
                         && r.error == UnexpectedCodec(codecs[i], MimeType(k))
  {
    for i := 0 to |codecs|
      invariant forall j :: 0 <= j < i ==> Allowed(k, codecs[j])
    {
      var codec := codecs[i];
      var rejected := match k
        case Flac => codec != CodecFlac
        case Ogg => codec != CodecVorbis && codec != CodecOpus
        case Matroska => codec != CodecVorbis && codec != CodecOpus
        case Mp3 => codec != CodecMp3
        case Mp4 => codec != CodecAac;
      if rejected {
        return Err(UnexpectedCodec(codec, MimeType(k)));
      }
    }
    r := Ok(());
  }

  // ---------------------------------------------------------------------
  // Metadata

  /** An embedded picture, kept as bytes until it is served. */
  datatype Visual = Visual(mediaType: string, data: seq<bv8>)

  /** One revision of a file's metadata: its tags and its pictures. */
  datatype MetadataRevision = MetadataRevision(tags: seq<Tags.Tag>, visuals: seq<Visual>)

  /** Track tags in the receiver's format, the picture still in the file's. */
  datatype Metadata = Metadata(castMetadata: MusicTrackMetadata, visual: Option<Visual>)

  /** `convert_metadata`: the tags, last one winning per key, and the first
      picture. */
  method ConvertMetadata(meta: MetadataRevision) returns (m: Metadata)
    ensures m.castMetadata == Tags.Described(meta.tags)
    ensures m.visual.Some? <==> |meta.visuals| > 0
    ensures m.visual.Some? ==> m.visual.value == meta.visuals[0]
  {
    var cmeta := Tags.ConvertTags(meta.tags);
    var visual := if |meta.visuals| > 0 then Some(meta.visuals[0]) else None;
    m := Metadata(cmeta, visual);
  }

  // ---------------------------------------------------------------------
  // Loading

  datatype AudioFile = AudioFile(path: string, mimeType: string, metadata: Option<Metadata>)

  /** The extension `load_if_supported` classifies: empty when the path has
      none. */
  function ExtensionOrEmpty(path: string): string {
    Paths.Extension(path).GetOr("")
  }

  /** `load_if_supported`: nothing for an unknown extension; otherwise the
      file's own metadata (`read`), replaced by the beets database's record
      when there is a database and it has one (`beets`, absent without a
      database). Either failure is the result. */
  function LoadIfSupported(path: string, read: Result<Option<Metadata>, AudioError>,
                           beets: Option<Result<Option<Metadata>, AudioError>>)
    : (r: Result<Option<AudioFile>, AudioError>)
    ensures FromExt(ExtensionOrEmpty(path)).None? ==> r == Ok(None)
    ensures FromExt(ExtensionOrEmpty(path)).Some? ==>
      && (r.Err? <==> read.Err? || (beets.Some? && beets.value.Err?))
      && (read.Err? ==> r == Err(read.error))
      && (read.Ok? && beets.Some? && beets.value.Err? ==> r == Err(beets.value.error))
      && (r.Ok? ==> r.value.Some? && r.value.value.path == path
                    && r.value.value.mimeType == MimeType(FromExt(ExtensionOrEmpty(path)).value))
      && (r.Ok? && beets.Some? && beets.value.value.Some? ==> r.value.value.metadata == beets.value.value)
      && (r.Ok? && (beets.None? || beets.value.value.None?) ==> r.value.value.metadata == read.value)
  {
    match FromExt(ExtensionOrEmpty(path))
    case None => Ok(None)
    case Some(ckind) =>
      if read.Err? then Err(read.error)
      else if beets.Some? && beets.value.Err? then Err(beets.value.error)
      else
        var metadata := if beets.Some? && beets.value.value.Some? then beets.value.value else read.value;
        Ok(Some(AudioFile(path, MimeType(ckind), metadata)))
  }

  const NOT_A_KNOWN_EXTENSION: string := "Not a known extension"

  /** `load`: as `load_if_supported`, with an unknown extension an error. */
  function Load(path: string, read: Result<Option<Metadata>, AudioError>,
                beets: Option<Result<Option<Metadata>, AudioError>>)
    : (r: Result<AudioFile, AudioError>)
    ensures r == Err(Unsupported(NOT_A_KNOWN_EXTENSION)) <== FromExt(ExtensionOrEmpty(path)).None?
    ensures r.Ok? <==> LoadIfSupported(path, read, beets).Ok? && LoadIfSupported(path, read, beets).value.Some?
    ensures r.Ok? ==> r.value == LoadIfSupported(path, read, beets).value.value
    ensures LoadIfSupported(path, read, beets).Err? ==> r == Err(LoadIfSupported(path, read, beets).error)
  {
    match LoadIfSupported(path, read, beets)
    case Err(e) => Err(e)
    case Ok(None) => Err(Unsupported(NOT_A_KNOWN_EXTENSION))
    case Ok(Some(af)) => Ok(af)
  }
}
