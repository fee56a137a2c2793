/**
 * Conversion of the tags a container's metadata reader yields (Symphonia's
 * `Tag`s with their optional standard keys) into the receiver's music-track
 * metadata. For each mapped standard key the last tag carrying it decides
 * the field; tags without a standard key, or with one that is not mapped,
 * change nothing.
 */
module Tags {
  import opened Common
  import opened CastProtocol

  /** `symphonia::core::meta::Value` */
  datatype TagValue =
    | Binary(bytes: seq<bv8>)
    | Boolean(b: bool)
    | Flag
    | Float(f: real)
    | SignedInt(i: int)
    | StringValue(s: string)
    | UnsignedInt(n: u64)

  /** The standard keys the conversion maps, and every other one. */
  datatype StandardTagKey =
    | Album
    | TrackTitle
    | AlbumArtist
    | Artist
    | Composer
    | TrackNumber
    | DiscNumber
    | ReleaseDate
    | OtherKey(name: string)

  datatype Tag = Tag(stdKey: Option<StandardTagKey>, value: TagValue)

  /** `string_value`: the text of a string tag. */
  function StringOf(tag: Tag): (r: Option<string>)
    ensures r.Some? <==> tag.value.StringValue?
    ensures r.Some? ==> r.value == tag.value.s
  {
    if tag.value.StringValue? then Some(tag.value.s) else None
  }

  /** `u32_value`: an unsigned tag value that fits in 32 bits. */
  function U32Of(tag: Tag): (r: Option<u32>)
    ensures r.Some? <==> tag.value.UnsignedInt? && tag.value.n < U32_LIMIT
    ensures r.Some? ==> r.value == tag.value.n
  {
    if tag.value.UnsignedInt? && tag.value.n < U32_LIMIT then Some(tag.value.n) else None
  }

  // ---------------------------------------------------------------------
  // Specification: the last tag with each key

  /** The last tag whose standard key is `key`. */
  function LastWith(tags: seq<Tag>, key: StandardTagKey): (r: Option<Tag>)
    ensures r.Some? ==> r.value in tags && r.value.stdKey == Some(key)
    ensures r.None? ==> forall i :: 0 <= i < |tags| ==> tags[i].stdKey != Some(key)
  {
    if tags == [] then None
    else if tags[|tags| - 1].stdKey == Some(key) then Some(tags[|tags| - 1])
    else LastWith(tags[..|tags| - 1], key)
  }

  /** The tag `LastWith` picks is the last one carrying the key: no later
      tag carries it. */
  lemma {:induction false} LastWithIsLast(tags: seq<Tag>, key: StandardTagKey)
    requires LastWith(tags, key).Some?
    ensures exists i :: 0 <= i < |tags| && tags[i] == LastWith(tags, key).value
                        && forall j :: i < j < |tags| ==> tags[j].stdKey != Some(key)
    decreases |tags|
  {
    var n := |tags| - 1;
    if tags[n].stdKey == Some(key) {
      assert tags[n] == LastWith(tags, key).value;
    } else {
      var init := tags[..n];
      assert LastWith(tags, key) == LastWith(init, key);
      LastWithIsLast(init, key);
      var i :| 0 <= i < |init| && init[i] == LastWith(init, key).value
               && forall j :: i < j < |init| ==> init[j].stdKey != Some(key);
      assert tags[i] == init[i];
      forall j | i < j < |tags|
        ensures tags[j].stdKey != Some(key)
      {
        if j < n {
          assert tags[j] == init[j];
        }
      }
    }
  }

  function LastString(tags: seq<Tag>, key: StandardTagKey): Option<string> {
    match LastWith(tags, key)
    case None => None
    case Some(t) => StringOf(t)
  }

  function LastU32(tags: seq<Tag>, key: StandardTagKey): Option<u32> {
    match LastWith(tags, key)
    case None => None
    case Some(t) => U32Of(t)
  }

  /** No tag carries `key`. */
  ghost predicate NoTagWith(tags: seq<Tag>, key: StandardTagKey) {
    forall i :: 0 <= i < |tags| ==> tags[i].stdKey != Some(key)
  }

  /** Tag `i` carries `key` and no later tag does. */
  ghost predicate LastCarrier(tags: seq<Tag>, key: StandardTagKey, i: int) {
    && 0 <= i < |tags| && tags[i].stdKey == Some(key)
    && forall j :: i < j < |tags| ==> tags[j].stdKey != Some(key)
  }

  /** A text field's value: absent when no tag carries `key`, otherwise
      the text value (if any) of the last tag carrying it. */
  ghost predicate StringFromTag(tags: seq<Tag>, key: StandardTagKey, v: Option<string>) {
    || (v.None? && NoTagWith(tags, key))
    || exists i :: LastCarrier(tags, key, i) && StringOf(tags[i]) == v
  }

  /** A number field's value: absent when no tag carries `key`, otherwise
      the `u32` value (if any) of the last tag carrying it. */
  ghost predicate U32FromTag(tags: seq<Tag>, key: StandardTagKey, v: Option<u32>) {
    || (v.None? && NoTagWith(tags, key))
    || exists i :: LastCarrier(tags, key, i) && U32Of(tags[i]) == v
  }

  /** The metadata the tags describe: each mapped field from the last tag
      carrying its key, nothing else. */
  function Described(tags: seq<Tag>): MusicTrackMetadata
  {
    EMPTY_TRACK_METADATA.(
      albumName := LastString(tags, Album),
      title := LastString(tags, TrackTitle),
      albumArtist := LastString(tags, AlbumArtist),
      artist := LastString(tags, Artist),
      composer := LastString(tags, Composer),
      trackNumber := LastU32(tags, TrackNumber),
      discNumber := LastU32(tags, DiscNumber),
      releaseDate := LastString(tags, ReleaseDate))
  }

  /** Each field of the description is absent, or read from a tag with the
      field's key that no later tag with that key overrides; no tags
      describe nothing, and no images come from tags. */
  lemma DescribedFields(tags: seq<Tag>)
    ensures Described(tags).images == []
    ensures tags == [] ==> Described(tags) == EMPTY_TRACK_METADATA
    ensures StringFromTag(tags, Album, Described(tags).albumName)
    ensures StringFromTag(tags, TrackTitle, Described(tags).title)
    ensures StringFromTag(tags, AlbumArtist, Described(tags).albumArtist)
    ensures StringFromTag(tags, Artist, Described(tags).artist)
    ensures StringFromTag(tags, Composer, Described(tags).composer)
    ensures StringFromTag(tags, ReleaseDate, Described(tags).releaseDate)
    ensures U32FromTag(tags, TrackNumber, Described(tags).trackNumber)
    ensures U32FromTag(tags, DiscNumber, Described(tags).discNumber)
  {
    forall key | LastWith(tags, key).Some?
      ensures exists i :: LastCarrier(tags, key, i) && tags[i] == LastWith(tags, key).value
    {
      LastWithIsLast(tags, key);
    }
  }

  /** The keys `convert_metadata` reads a field from. */
  predicate Mapped(key: StandardTagKey) {
    !key.OtherKey?
  }

  /** The field update one tag makes. */
  function Apply(m: MusicTrackMetadata, tag: Tag): MusicTrackMetadata {
    match tag.stdKey
    case None => m
    case Some(key) =>
      match key
      case Album => m.(albumName := StringOf(tag))
      case TrackTitle => m.(title := StringOf(tag))
      case AlbumArtist => m.(albumArtist := StringOf(tag))
      case Artist => m.(artist := StringOf(tag))
      case Composer => m.(composer := StringOf(tag))
      case TrackNumber => m.(trackNumber := U32Of(tag))
      case DiscNumber => m.(discNumber := U32Of(tag))
      case ReleaseDate => m.(releaseDate := StringOf(tag))
      case OtherKey(_) => m
  }

  /** One more tag updates the described metadata the way the loop body does. */
  lemma DescribedSnoc(tags: seq<Tag>, tag: Tag)
    ensures Described(tags + [tag]) == Apply(Described(tags), tag)
  {
    LastWithSnoc(tags, tag, Album);
    LastWithSnoc(tags, tag, TrackTitle);
    LastWithSnoc(tags, tag, AlbumArtist);
    LastWithSnoc(tags, tag, Artist);
    LastWithSnoc(tags, tag, Composer);
    LastWithSnoc(tags, tag, TrackNumber);
    LastWithSnoc(tags, tag, DiscNumber);
    LastWithSnoc(tags, tag, ReleaseDate);
    if tag.stdKey.Some? {
      match tag.stdKey.value {
        case Album =>
        case TrackTitle =>
        case AlbumArtist =>
        case Artist =>
        case Composer =>
        case TrackNumber =>
        case DiscNumber =>
        case ReleaseDate =>
        case OtherKey(_) =>
      }
    }
  }

  lemma LastWithSnoc(tags: seq<Tag>, tag: Tag, key: StandardTagKey)
    ensures LastWith(tags + [tag], key) == if tag.stdKey == Some(key) then Some(tag) else LastWith(tags, key)
  {
    assert (tags + [tag])[..|tags|] == tags;
  }

  /** A tag without a mapped standard key changes nothing. */
  lemma UnmappedTagIgnored(tags: seq<Tag>, tag: Tag)
    requires tag.stdKey.None? || !Mapped(tag.stdKey.value)
    ensures Described(tags + [tag]) == Described(tags)
  {
    DescribedSnoc(tags, tag);
  }

  /** Of several tags with one key, the last one wins: whatever came
      before it, and whatever follows without that key. */
  lemma LastTagWins(tags: seq<Tag>, tag: Tag, later: seq<Tag>)
    requires tag.stdKey.Some?
    requires forall i :: 0 <= i < |later| ==> later[i].stdKey != tag.stdKey
    ensures LastWith(tags + [tag] + later, tag.stdKey.value) == Some(tag)
    ensures tag.stdKey == Some(Album) ==> Described(tags + [tag] + later).albumName == StringOf(tag)
    ensures tag.stdKey == Some(TrackNumber) ==> Described(tags + [tag] + later).trackNumber == U32Of(tag)
  {
    LastWithSkips(tags + [tag], later, tag.stdKey.value);
    LastWithSnoc(tags, tag, tag.stdKey.value);
  }

  lemma {:induction false} LastWithSkips(tags: seq<Tag>, later: seq<Tag>, key: StandardTagKey)
    requires forall i :: 0 <= i < |later| ==> later[i].stdKey != Some(key)
    ensures LastWith(tags + later, key) == LastWith(tags, key)
    decreases |later|
  {
    if later != [] {
      var init := later[..|later| - 1];
      assert (tags + later)[..|tags + later| - 1] == tags + init;
      assert (tags + later)[|tags + later| - 1] == later[|later| - 1];
      assert later[|later| - 1].stdKey != Some(key);
      assert forall i :: 0 <= i < |init| ==> init[i] == later[i];
      LastWithSkips(tags, init, key);
      assert LastWith(tags + later, key) == LastWith(tags + init, key);
    } else {
      assert tags + later == tags;
    }
  }

  /** `convert_metadata`'s tag loop, from the default metadata. */
  method ConvertTags(tags: seq<Tag>) returns (cmeta: MusicTrackMetadata)
    ensures cmeta == Described(tags)
  {
    cmeta := EMPTY_TRACK_METADATA;
    for i := 0 to |tags|
      invariant cmeta == Described(tags[..i])
    {
      var tag := tags[i];
      DescribedSnoc(tags[..i], tag);
      assert tags[..i + 1] == tags[..i] + [tag];
      if tag.stdKey.None? {
        continue;
      }
      match tag.stdKey.value {
        case Album => cmeta := cmeta.(albumName := StringOf(tag));
        case TrackTitle => cmeta := cmeta.(title := StringOf(tag));
        case AlbumArtist => cmeta := cmeta.(albumArtist := StringOf(tag));
        case Artist => cmeta := cmeta.(artist := StringOf(tag));
        case Composer => cmeta := cmeta.(composer := StringOf(tag));
        case TrackNumber => cmeta := cmeta.(trackNumber := U32Of(tag));
        case DiscNumber => cmeta := cmeta.(discNumber := U32Of(tag));
        case ReleaseDate => cmeta := cmeta.(releaseDate := StringOf(tag));
        case OtherKey(_) =>
      }
    }
    assert tags[..|tags|] == tags;
  }
}
