/**
 * The session controller: the player that holds the latest media-session
 * and receiver snapshots, merges partial status updates, derives the MPRIS
 * properties from the snapshots, and runs the event loop that turns
 * snapshot changes into `PropertiesChanged` batches and decides when the
 * session is over.
 *
 * Each snapshot's change signal (a `Notify` with at most one stored permit)
 * is a dirty flag: publishing sets it, the event loop's wake-up clears it.
 * The device link is an oracle: every command takes the reply the receiver
 * gives as a parameter, and the requests sent are recorded in `sent`.
 */
module Player {
  import opened Common
  import opened CastProtocol
  import Cast

  // ---------------------------------------------------------------------
  // Snapshot merge

  /** The three fields that abbreviated updates leave out and that are
      carried forward from the previous snapshot. */
  predicate IsFull(e: StatusEntry) {
    e.items.Some? && e.media.Some? && e.queueData.Some?
  }

  /** The snapshot that `set_media_status` stores: each of `items`, `media`
      and `queueData` comes from the update when it has one and from the
      previous snapshot otherwise; every other field comes from the update. */
  function Merge(prev: StatusEntry, update: StatusEntry): (r: StatusEntry)
    ensures r.items == if update.items.Some? then update.items else prev.items
    ensures r.media == if update.media.Some? then update.media else prev.media
    ensures r.queueData == if update.queueData.Some? then update.queueData else prev.queueData
    ensures r.(items := update.items, media := update.media, queueData := update.queueData) == update
  {
    if IsFull(update) then update
    else
      update.(
        items := if update.items.None? then prev.items else update.items,
        media := if update.media.None? then prev.media else update.media,
        queueData := if update.queueData.None? then prev.queueData else update.queueData)
  }

  /** A full update replaces the snapshot wholesale. */
  lemma MergeFullReplaces(prev: StatusEntry, update: StatusEntry)
    requires IsFull(update)
    ensures Merge(prev, update) == update
  {
  }

  /** Publishing the same update a second time changes nothing. */
  lemma MergeIdempotent(prev: StatusEntry, update: StatusEntry)
    ensures Merge(Merge(prev, update), update) == Merge(prev, update)
  {
  }

  /** The snapshot after publishing `updates` in order. */
  function MergeAll(prev: StatusEntry, updates: seq<StatusEntry>): StatusEntry {
    if updates == [] then prev
    else Merge(MergeAll(prev, updates[..|updates| - 1]), updates[|updates| - 1])
  }

  /** Publishing one more update merges it into the snapshot so far. */
  lemma MergeAllSnoc(prev: StatusEntry, updates: seq<StatusEntry>, e: StatusEntry)
    ensures MergeAll(prev, updates + [e]) == Merge(MergeAll(prev, updates), e)
  {
    assert (updates + [e])[..|updates|] == updates;
  }

  predicate Carries(e: StatusEntry, field: nat) {
    match field
    case 0 => e.items.Some?
    case 1 => e.media.Some?
    case _ => e.queueData.Some?
  }

  /** Once `items`, `media` or `queueData` is known, no sequence of updates
      makes it absent again. */
  lemma {:induction false} MergeAllKeepsPresent(prev: StatusEntry, updates: seq<StatusEntry>, field: nat)
    requires Carries(prev, field)
    ensures Carries(MergeAll(prev, updates), field)
    decreases |updates|
  {
    if updates != [] {
      MergeAllKeepsPresent(prev, updates[..|updates| - 1], field);
    }
  }

  /** `a` and `b` agree on `items` (0), `media` (1) or `queueData` (2). */
  predicate SameField(a: StatusEntry, b: StatusEntry, field: nat) {
    match field
    case 0 => a.items == b.items
    case 1 => a.media == b.media
    case _ => a.queueData == b.queueData
  }

  /** A carried-forward field that no update carries keeps its old value. */
  lemma {:induction false} MergeAllUncarried(prev: StatusEntry, updates: seq<StatusEntry>, field: nat)
    requires forall i :: 0 <= i < |updates| ==> !Carries(updates[i], field)
    ensures SameField(MergeAll(prev, updates), prev, field)
    decreases |updates|
  {
    if updates != [] {
      var init := updates[..|updates| - 1];
      assert forall i :: 0 <= i < |init| ==> init[i] == updates[i];
      MergeAllUncarried(prev, init, field);
    }
  }

  /** A carried-forward field takes the value of the last update that
      carries it. */
  lemma {:induction false} MergeAllLastCarrier(prev: StatusEntry, updates: seq<StatusEntry>, field: nat, k: nat)
    requires k < |updates| && Carries(updates[k], field)
    requires forall j :: k < j < |updates| ==> !Carries(updates[j], field)
    ensures SameField(MergeAll(prev, updates), updates[k], field)
    decreases |updates|
  {
    var init := updates[..|updates| - 1];
    if k < |updates| - 1 {
      assert forall j :: k < j < |init| ==> init[j] == updates[j];
      MergeAllLastCarrier(prev, init, field, k);
    }
  }

  // ---------------------------------------------------------------------
  // Derived MPRIS properties

  /** `mpris_server::PlaybackStatus` */
  datatype PlaybackStatus = PlaybackPlaying | PlaybackPaused | PlaybackStopped

  /** `mpris_server::LoopStatus` */
  datatype LoopStatus = LoopNone | LoopTrack | LoopPlaylist

  /** The receiver is loading the next item of our own session. */
  predicate LoadingOurs(ms: StatusEntry, sessionId: int) {
    ms.extendedStatus.Some? && ms.extendedStatus.value.playerState == Loading
    && ms.extendedStatus.value.mediaSessionId == Some(sessionId)
  }

  function PlaybackStatusOf(ms: StatusEntry, sessionId: int): (r: PlaybackStatus)
    ensures r == PlaybackPaused <==> ms.playerState == Paused
    ensures r == PlaybackPlaying <==>
      ms.playerState == Playing || ms.playerState == Buffering
      || (ms.playerState == Idle && LoadingOurs(ms, sessionId))
    ensures r == PlaybackStopped <==> ms.playerState == Idle && !LoadingOurs(ms, sessionId)
  {
    match ms.playerState
    case Idle =>
      (match ms.extendedStatus
       case Some(ExtendedStatus(Loading, id)) =>
         if id == Some(sessionId) then PlaybackPlaying else PlaybackStopped
       case None => PlaybackStopped)
    case Playing => PlaybackPlaying
    case Buffering => PlaybackPlaying
    case Paused => PlaybackPaused
  }

  predicate RepeatOn(ms: StatusEntry) {
    ms.repeatMode.Some? && ms.repeatMode.value != RepeatOff
  }

  function LoopStatusOf(ms: StatusEntry): (r: LoopStatus)
    ensures r == LoopNone <==> !RepeatOn(ms)
    ensures r == LoopTrack <==> ms.repeatMode == Some(RepeatSingle)
    ensures r == LoopPlaylist <==>
      ms.repeatMode == Some(RepeatAll) || ms.repeatMode == Some(RepeatAllAndShuffle)
  {
    match ms.repeatMode
    case Some(RepeatOff) => LoopNone
    case None => LoopNone
    case Some(RepeatAll) => LoopPlaylist
    case Some(RepeatSingle) => LoopTrack
    case Some(RepeatAllAndShuffle) => LoopPlaylist
  }

  function ShuffleOf(ms: StatusEntry): (r: bool)
    ensures r <==> ms.queueData.Some? && ms.queueData.value.shuffle
  {
    if ms.queueData.Some? then ms.queueData.value.shuffle else false
  }

  /** `volume()`: zero when muted, else the level; `level.unwrap()` aborts
      when an unmuted status has no level. */
  function VolumeOf(rs: ReceiverStatus): (r: Fallible<real>)
    ensures rs.volume.muted == Some(true) ==> r == Done(0.0)
    ensures rs.volume.muted != Some(true) ==> (r.Panics? <==> rs.volume.level.None?)
    ensures rs.volume.muted != Some(true) && r.Done? ==> r.value == rs.volume.level.value
  {
    if rs.volume.muted == Some(true) then Done(0.0)
    else if rs.volume.level.None? then Panics
    else Done(rs.volume.level.value)
  }

  /** `mpris_server::Metadata`; an absent field is a key the map lacks.
      `length` is the cast duration, its conversion to microseconds is not
      modelled. */
  datatype MprisMetadata = MprisMetadata(
    album: Option<string>,
    title: Option<string>,
    albumArtist: Option<seq<string>>,
    artist: Option<seq<string>>,
    composer: Option<seq<string>>,
    trackNumber: Option<int>,
    discNumber: Option<int>,
    artUrl: Option<string>,
    contentCreated: Option<string>,
    length: Option<real>)

  const EMPTY_METADATA: MprisMetadata :=
    MprisMetadata(None, None, None, None, None, None, None, None, None, None)

  function AsList(s: Option<string>): Option<seq<string>> {
    if s.Some? then Some([s.value]) else None
  }

  /** A track or disc number that does not fit MPRIS's `i32`. */
  predicate Oversized(n: Option<u32>) {
    n.Some? && n.value > I32_MAX
  }

  /** `metadata()`: the track tags of the current media and its duration;
      `try_into().unwrap()` aborts on a track or disc number above `i32::MAX`. */
  function MetadataOf(ms: StatusEntry): (r: Fallible<MprisMetadata>)
    ensures ms.media.None? ==> r == Done(EMPTY_METADATA)
    ensures r.Panics? <==>
      ms.media.Some? && ms.media.value.metadata.Some? && ms.media.value.metadata.value.MusicTrack?
      && (Oversized(ms.media.value.metadata.value.track.trackNumber)
          || Oversized(ms.media.value.metadata.value.track.discNumber))
    ensures r.Done? && ms.media.Some? ==> r.value.length == ms.media.value.duration
    ensures r.Done? && ms.media.Some? && ms.media.value.metadata.Some?
            && ms.media.value.metadata.value.MusicTrack? ==>
      var t := ms.media.value.metadata.value.track;
      && r.value.album == t.albumName && r.value.title == t.title
      && r.value.trackNumber == (if t.trackNumber.Some? then Some(t.trackNumber.value as int) else None)
      && r.value.artUrl == (if |t.images| > 0 then Some(t.images[0].url) else None)
      && r.value.albumArtist == (if t.albumArtist.Some? then Some([t.albumArtist.value]) else None)
      && r.value.artist == (if t.artist.Some? then Some([t.artist.value]) else None)
      && r.value.composer == (if t.composer.Some? then Some([t.composer.value]) else None)
      && r.value.discNumber == (if t.discNumber.Some? then Some(t.discNumber.value as int) else None)
      && r.value.contentCreated == t.releaseDate
    ensures ms.media.Some? && !(ms.media.value.metadata.Some? && ms.media.value.metadata.value.MusicTrack?) ==>
      r == Done(EMPTY_METADATA.(length := ms.media.value.duration))
  {
    if ms.media.None? then Done(EMPTY_METADATA)
    else
      var media := ms.media.value;
      match media.metadata
      case Some(MusicTrack(t)) =>
        if Oversized(t.trackNumber) || Oversized(t.discNumber) then Panics
        else Done(MprisMetadata(
          t.albumName,
          t.title,
          AsList(t.albumArtist),
          AsList(t.artist),
          AsList(t.composer),
          if t.trackNumber.Some? then Some(t.trackNumber.value as int) else None,
          if t.discNumber.Some? then Some(t.discNumber.value as int) else None,
          if |t.images| > 0 then Some(t.images[0].url) else None,
          t.releaseDate,
          media.duration))
      case _ => Done(EMPTY_METADATA.(length := media.duration))
  }

  /** `Iterator::position`: the first index whose item has the given id. */
  function FirstPosition(items: seq<QueueEntry>, id: int): (r: Option<nat>)
    ensures r.Some? ==> r.value < |items| && items[r.value].itemId == Some(id)
    ensures r.Some? ==> forall j :: 0 <= j < r.value ==> items[j].itemId != Some(id)
    ensures r.None? ==> forall j :: 0 <= j < |items| ==> items[j].itemId != Some(id)
  {
    if items == [] then None
    else if items[0].itemId == Some(id) then Some(0)
    else
      var rest := FirstPosition(items[1..], id);
      if rest.Some? then Some(rest.value + 1) else None
  }

  function CanGoNext(ms: StatusEntry): (r: bool)
    ensures RepeatOn(ms) ==> r
    ensures !RepeatOn(ms) ==>
      (r <==> ms.items.Some? && ms.currentItemId.Some?
              && exists k :: 0 <= k < |ms.items.value| - 1
                   && ms.items.value[k].itemId == Some(ms.currentItemId.value)
                   && forall j :: 0 <= j < k ==> ms.items.value[j].itemId != Some(ms.currentItemId.value))
  {
    if RepeatOn(ms) then true
    else if ms.items.None? || ms.currentItemId.None? then false
    else
      var pos := FirstPosition(ms.items.value, ms.currentItemId.value);
      if pos.None? then false
      else pos.value + 1 < |ms.items.value|
  }

  function CanGoPrevious(ms: StatusEntry): (r: bool)
    ensures RepeatOn(ms) ==> r
    ensures !RepeatOn(ms) ==>
      (r <==> ms.items.Some? && ms.currentItemId.Some? && |ms.items.value| > 1
              && ms.items.value[0].itemId.Some?
              && ms.items.value[0].itemId != ms.currentItemId)
  {
    if RepeatOn(ms) then true
    else if ms.items.None? || ms.currentItemId.None? then false
    else
      var items := ms.items.value;
      if |items| > 0 && items[0].itemId.Some? then
        items[0].itemId.value != ms.currentItemId.value && |items| > 1
      else false
  }

  /** When the current item is in the queue and the first item has an id,
      `CanGoPrevious` holds exactly when the current item has a predecessor,
      although it only looks at the first item. */
  lemma CanGoPreviousMeansPredecessor(ms: StatusEntry)
    requires !RepeatOn(ms) && ms.items.Some? && ms.currentItemId.Some?
    requires |ms.items.value| > 0 && ms.items.value[0].itemId.Some?
    requires FirstPosition(ms.items.value, ms.currentItemId.value).Some?
    ensures CanGoPrevious(ms) <==> FirstPosition(ms.items.value, ms.currentItemId.value).value > 0
  {
  }

  /** A quirk of `can_go_previous`: without repeat, a current item that is
      not in the queue at all still allows going back, as long as the
      queue has two items and the first has an id. */
  lemma CanGoPreviousUnqueuedCurrent(ms: StatusEntry)
    requires !RepeatOn(ms) && ms.items.Some? && ms.currentItemId.Some?
    requires |ms.items.value| > 1 && ms.items.value[0].itemId.Some?
    requires FirstPosition(ms.items.value, ms.currentItemId.value).None?
    ensures CanGoPrevious(ms)
  {
  }

  /** Without repeat, a first item without an id forbids going back, even
      when the current item is further down the queue. */
  lemma CanGoPreviousNeedsFirstId(ms: StatusEntry)
    requires !RepeatOn(ms) && ms.items.Some? && ms.currentItemId.Some?
    requires |ms.items.value| > 1 && ms.items.value[0].itemId.None?
    requires FirstPosition(ms.items.value, ms.currentItemId.value) == Some(1)
    ensures !CanGoPrevious(ms)
  {
  }

  /** A queue of one item never allows going back unless repeating. */
  lemma CanGoPreviousSingleItem(ms: StatusEntry)
    requires !RepeatOn(ms) && ms.items.Some? && |ms.items.value| == 1
    ensures !CanGoPrevious(ms)
  {
  }

  // ---------------------------------------------------------------------
  // The player

  class Player {
    const transportId: string
    const mediaSessionId: int
    var mediaStatus: StatusEntry
    var mediaStatusChanged: bool
    var receiverStatus: ReceiverStatus
    var receiverStatusChanged: bool
    /** Requests put on the device link, oldest first. */
    var sent: seq<DeviceRequest>

    /** `Player::from_status`: bound for life to the media session of the
        initial status. */
    constructor FromStatus(transportId: string, mediaStatus: StatusEntry, receiverStatus: ReceiverStatus)
      ensures this.transportId == transportId
      ensures this.mediaSessionId == mediaStatus.mediaSessionId
      ensures this.mediaStatus == mediaStatus && this.receiverStatus == receiverStatus
      ensures !mediaStatusChanged && !receiverStatusChanged && sent == []
    {
      this.transportId := transportId;
      this.mediaSessionId := mediaStatus.mediaSessionId;
      this.mediaStatus := mediaStatus;
      this.mediaStatusChanged := false;
      this.receiverStatus := receiverStatus;
      this.receiverStatusChanged := false;
      this.sent := [];
    }

    /** Publishes a media status through the merge rule and signals it. */
    method SetMediaStatus(ms: StatusEntry)
      modifies this
      ensures mediaStatus == Merge(old(mediaStatus), ms) && mediaStatusChanged
      ensures receiverStatus == old(receiverStatus) && receiverStatusChanged == old(receiverStatusChanged)
      ensures sent == old(sent)
    {
      if ms.items.Some? && ms.media.Some? && ms.queueData.Some? {
        mediaStatus := ms;
      } else {
        var merged := ms;
        if ms.items.None? {
          merged := merged.(items := mediaStatus.items);
        }
        if ms.media.None? {
          merged := merged.(media := mediaStatus.media);
        }
        if ms.queueData.None? {
          merged := merged.(queueData := mediaStatus.queueData);
        }
        mediaStatus := merged;
      }
      mediaStatusChanged := true;
    }

    /** Publishes a receiver status as it is and signals it. */
    method SetReceiverStatus(rs: ReceiverStatus)
      modifies this
      ensures receiverStatus == rs && receiverStatusChanged
      ensures mediaStatus == old(mediaStatus) && mediaStatusChanged == old(mediaStatusChanged)
      ensures sent == old(sent)
    {
      receiverStatus := rs;
      receiverStatusChanged := true;
    }

    /** `next`, `prev`, `play`, `pause`, `stop`: send the command for our
        session; publish the reply when there is one. */
    method Transport(request: MediaRequest, reply: Result<StatusEntry, CastError>)
      returns (r: Result<(), CastError>)
      requires request.Next? || request.Prev? || request.PlayRequest?
               || request.PauseRequest? || request.StopRequest?
      modifies this
      ensures sent == old(sent) + [MediaCommand(transportId, mediaSessionId, request)]
      ensures r.Err? <==> reply.Err?
      ensures reply.Err? ==> r.error == reply.error && mediaStatus == old(mediaStatus)
                             && mediaStatusChanged == old(mediaStatusChanged)
      ensures reply.Ok? ==> mediaStatus == Merge(old(mediaStatus), reply.value) && mediaStatusChanged
      ensures receiverStatus == old(receiverStatus) && receiverStatusChanged == old(receiverStatusChanged)
    {
      sent := sent + [MediaCommand(transportId, mediaSessionId, request)];
      if reply.Err? {
        return Err(reply.error);
      }
      SetMediaStatus(reply.value);
      r := Ok(());
    }
  }

  // ---------------------------------------------------------------------
  // The event loop (`run_player`)

  /** The properties a `PropertiesChanged` signal can carry. */
  datatype Property =
    | PlaybackStatusChanged(playbackStatus: PlaybackStatus)
    | LoopStatusChanged(loopStatus: LoopStatus)
    | MetadataChanged(metadata: MprisMetadata)
    | CanGoNextChanged(canGoNext: bool)
    | CanGoPreviousChanged(canGoPrevious: bool)
    | ShuffleChanged(shuffle: bool)
    | VolumeChanged(volume: real)

  /** The media-derived property values, in the order the loop compares them. */
  datatype MediaProps = MediaProps(
    playbackStatus: PlaybackStatus,
    loopStatus: LoopStatus,
    metadata: MprisMetadata,
    canGoNext: bool,
    canGoPrevious: bool,
    shuffle: bool)

  function MediaPropsOf(ms: StatusEntry, sessionId: int): (r: Fallible<MediaProps>)
    ensures r.Panics? <==> MetadataOf(ms).Panics?
    ensures r.Done? ==>
      r.value == MediaProps(PlaybackStatusOf(ms, sessionId), LoopStatusOf(ms), MetadataOf(ms).value,
                            CanGoNext(ms), CanGoPrevious(ms), ShuffleOf(ms))
  {
    match MetadataOf(ms)
    case Panics => Panics
    case Done(md) =>
      Done(MediaProps(PlaybackStatusOf(ms, sessionId), LoopStatusOf(ms), md,
                      CanGoNext(ms), CanGoPrevious(ms), ShuffleOf(ms)))
  }

  /** One media property as the wake-up sees it: whether its value differs
      from the last one published, and the property carrying the new value. */
  datatype Candidate = Candidate(changed: bool, property: Property)

  /** The six media properties, in the order the wake-up compares them. */
  function Candidates(last: MediaProps, cur: MediaProps): (cs: seq<Candidate>)
    ensures |cs| == 6
    ensures forall i :: 0 <= i < |cs| ==> Rank(cs[i].property) == i
  {
    [ Candidate(last.playbackStatus != cur.playbackStatus, PlaybackStatusChanged(cur.playbackStatus)),
      Candidate(last.loopStatus != cur.loopStatus, LoopStatusChanged(cur.loopStatus)),
      Candidate(last.metadata != cur.metadata, MetadataChanged(cur.metadata)),
      Candidate(last.canGoNext != cur.canGoNext, CanGoNextChanged(cur.canGoNext)),
      Candidate(last.canGoPrevious != cur.canGoPrevious, CanGoPreviousChanged(cur.canGoPrevious)),
      Candidate(last.shuffle != cur.shuffle, ShuffleChanged(cur.shuffle)) ]
  }

  /** The property a candidate contributes to the batch. */
  function Contribution(c: Candidate): seq<Property> {
    if c.changed then [c.property] else []
  }

  /** The properties of the candidates that changed, in candidate order. */
  function Changed(cs: seq<Candidate>): seq<Property> {
    if cs == [] then []
    else Changed(cs[..|cs| - 1]) + Contribution(cs[|cs| - 1])
  }

  /** The batch for a media wake-up. */
  function MediaChanges(last: MediaProps, cur: MediaProps): seq<Property> {
    Changed(Candidates(last, cur))
  }

  /** Rank of a property in the batch order. */
  function Rank(p: Property): nat {
    match p
    case PlaybackStatusChanged(_) => 0
    case LoopStatusChanged(_) => 1
    case MetadataChanged(_) => 2
    case CanGoNextChanged(_) => 3
    case CanGoPreviousChanged(_) => 4
    case ShuffleChanged(_) => 5
    case VolumeChanged(_) => 6
  }

  /** Extending the candidates by one adds that candidate's property
      exactly when it changed. */
  lemma ChangedSnoc(cs: seq<Candidate>, k: nat)
    requires k < |cs|
    ensures Changed(cs[..k + 1]) == Changed(cs[..k]) + Contribution(cs[k])
  {
    assert cs[..k + 1][..k] == cs[..k];
  }

  lemma {:induction false} ChangedMembers(cs: seq<Candidate>, p: Property)
    ensures p in Changed(cs) <==> exists i :: 0 <= i < |cs| && cs[i].changed && cs[i].property == p
    decreases |cs|
  {
    if cs != [] {
      var init := cs[..|cs| - 1];
      ChangedMembers(init, p);
      if p in Changed(init) {
        var i :| 0 <= i < |init| && init[i].changed && init[i].property == p;
        assert cs[i] == init[i];
      }
      if exists i :: 0 <= i < |cs| && cs[i].changed && cs[i].property == p {
        var i :| 0 <= i < |cs| && cs[i].changed && cs[i].property == p;
        if i < |init| {
          assert init[i] == cs[i];
        }
      }
    }
  }

  lemma {:induction false} ChangedEmpty(cs: seq<Candidate>)
    ensures Changed(cs) == [] <==> forall i :: 0 <= i < |cs| ==> !cs[i].changed
    decreases |cs|
  {
    if cs != [] {
      var init := cs[..|cs| - 1];
      ChangedEmpty(init);
      assert forall i :: 0 <= i < |init| ==> init[i] == cs[i];
    }
  }

  lemma {:induction false} ChangedRanked(cs: seq<Candidate>)
    requires forall i :: 0 <= i < |cs| ==> Rank(cs[i].property) == i
    ensures forall i :: 0 <= i < |Changed(cs)| ==> Rank(Changed(cs)[i]) < |cs|
    ensures forall i, j :: 0 <= i < j < |Changed(cs)| ==> Rank(Changed(cs)[i]) < Rank(Changed(cs)[j])
    decreases |cs|
  {
    if cs != [] {
      var init := cs[..|cs| - 1];
      assert forall i :: 0 <= i < |init| ==> init[i] == cs[i];
      ChangedRanked(init);
    }
  }

  /** The batch is empty exactly when nothing changed, and it never
      carries the volume. */
  lemma MediaChangesEmptyIff(last: MediaProps, cur: MediaProps)
    ensures MediaChanges(last, cur) == [] <==> last == cur
    ensures forall p :: p in MediaChanges(last, cur) ==> !p.VolumeChanged?
  {
    MediaChangesPieces(last, cur);
  }

  /** Each property is in the batch, with its new value, exactly when its
      value changed. */
  lemma MediaChangesMembers(last: MediaProps, cur: MediaProps)
    ensures PlaybackStatusChanged(cur.playbackStatus) in MediaChanges(last, cur)
            <==> last.playbackStatus != cur.playbackStatus
    ensures LoopStatusChanged(cur.loopStatus) in MediaChanges(last, cur) <==> last.loopStatus != cur.loopStatus
    ensures MetadataChanged(cur.metadata) in MediaChanges(last, cur) <==> last.metadata != cur.metadata
    ensures CanGoNextChanged(cur.canGoNext) in MediaChanges(last, cur) <==> last.canGoNext != cur.canGoNext
    ensures CanGoPreviousChanged(cur.canGoPrevious) in MediaChanges(last, cur)
            <==> last.canGoPrevious != cur.canGoPrevious
    ensures ShuffleChanged(cur.shuffle) in MediaChanges(last, cur) <==> last.shuffle != cur.shuffle
  {
    var cs := Candidates(last, cur);
    forall k | 0 <= k < 6
      ensures cs[k].property in Changed(cs) <==> cs[k].changed
    {
      ChangedMembers(cs, cs[k].property);
      if cs[k].property in Changed(cs) {
        var i :| 0 <= i < |cs| && cs[i].changed && cs[i].property == cs[k].property;
        assert Rank(cs[i].property) == i;
      }
    }
    assert cs[0].property == PlaybackStatusChanged(cur.playbackStatus);
    assert cs[1].property == LoopStatusChanged(cur.loopStatus);
    assert cs[2].property == MetadataChanged(cur.metadata);
    assert cs[3].property == CanGoNextChanged(cur.canGoNext);
    assert cs[4].property == CanGoPreviousChanged(cur.canGoPrevious);
    assert cs[5].property == ShuffleChanged(cur.shuffle);
  }

  /** The batch lists the properties in the fixed order PlaybackStatus,
      LoopStatus, Metadata, CanGoNext, CanGoPrevious, Shuffle. */
  lemma MediaChangesOrdered(last: MediaProps, cur: MediaProps)
    ensures forall i, j :: 0 <= i < j < |MediaChanges(last, cur)| ==>
      Rank(MediaChanges(last, cur)[i]) < Rank(MediaChanges(last, cur)[j])
  {
    ChangedRanked(Candidates(last, cur));
  }

  /** The entries of a media status that the loop publishes: those of our
      session before the first one that ends the loop. */
  function Accepted(entries: seq<StatusEntry>, sessionId: int): seq<StatusEntry> {
    if entries == [] then []
    else
      Accepted(entries[..|entries| - 1], sessionId)
      + (if Cast.Classify(entries[|entries| - 1], sessionId) == Cast.Accept then [entries[|entries| - 1]] else [])
  }

  /** One more entry is applied exactly when it is accepted. */
  lemma AcceptedSnoc(entries: seq<StatusEntry>, i: nat, sessionId: int)
    requires i < |entries|
    ensures Accepted(entries[..i + 1], sessionId)
            == Accepted(entries[..i], sessionId)
               + if Cast.Classify(entries[i], sessionId) == Cast.Accept then [entries[i]] else []
  {
    assert entries[..i + 1][..i] == entries[..i];
  }

  /** The entries applied are exactly those of the list that belong to our
      session and do not end the loop. */
  lemma {:induction false} AcceptedExactly(entries: seq<StatusEntry>, sessionId: int)
    ensures |Accepted(entries, sessionId)| <= |entries|
    ensures forall e :: e in Accepted(entries, sessionId) ==> e in entries && Cast.Classify(e, sessionId) == Cast.Accept
    ensures forall i :: 0 <= i < |entries| && Cast.Classify(entries[i], sessionId) == Cast.Accept ==>
      entries[i] in Accepted(entries, sessionId)
    decreases |entries|
  {
    if entries != [] {
      var n := |entries| - 1;
      var init := entries[..n];
      AcceptedExactly(init, sessionId);
      assert forall i :: 0 <= i < n ==> init[i] == entries[i];
      assert forall e :: e in init ==> e in entries;
    }
  }

  /** The comparison a media wake-up makes: field by field, the new value
      replaces the last published one and a property is queued for each
      field that differed. */
  lemma ChangedSix(cs: seq<Candidate>)
    requires |cs| == 6
    ensures Changed(cs) == Contribution(cs[0]) + Contribution(cs[1]) + Contribution(cs[2])
                           + Contribution(cs[3]) + Contribution(cs[4]) + Contribution(cs[5])
  {
    assert cs[..0] == [];
    ChangedSnoc(cs, 0);
    assert Changed(cs[..1]) == Contribution(cs[0]);
    ChangedSnoc(cs, 1);
    assert Changed(cs[..2]) == Contribution(cs[0]) + Contribution(cs[1]);
    ChangedSnoc(cs, 2);
    assert Changed(cs[..3]) == Contribution(cs[0]) + Contribution(cs[1]) + Contribution(cs[2]);
    ChangedSnoc(cs, 3);
    assert Changed(cs[..4]) == Contribution(cs[0]) + Contribution(cs[1]) + Contribution(cs[2])
                               + Contribution(cs[3]);
    ChangedSnoc(cs, 4);
    assert Changed(cs[..5]) == Contribution(cs[0]) + Contribution(cs[1]) + Contribution(cs[2])
                               + Contribution(cs[3]) + Contribution(cs[4]);
    ChangedSnoc(cs, 5);
    assert cs[..6] == cs;
  }

  lemma MediaChangesPieces(last: MediaProps, cur: MediaProps)
    ensures MediaChanges(last, cur) == (if last.playbackStatus != cur.playbackStatus then [PlaybackStatusChanged(cur.playbackStatus)] else []) + (if last.loopStatus != cur.loopStatus then [LoopStatusChanged(cur.loopStatus)] else []) + (if last.metadata != cur.metadata then [MetadataChanged(cur.metadata)] else []) + (if last.canGoNext != cur.canGoNext then [CanGoNextChanged(cur.canGoNext)] else []) + (if last.canGoPrevious != cur.canGoPrevious then [CanGoPreviousChanged(cur.canGoPrevious)] else []) + (if last.shuffle != cur.shuffle then [ShuffleChanged(cur.shuffle)] else [])
  {
    ChangedSix(Candidates(last, cur));
  }

  /** One comparison of the media wake-up: when the current value differs
      from the last published one, remember it and queue its property. */
  method Compare<T(==)>(lastValue: T, current: T, changed: Property, props: seq<Property>)
    returns (value: T, props': seq<Property>)
    ensures value == current
    ensures props' == props + if lastValue != current then [changed] else []
  {
    value := lastValue;
    props' := props;
    if value != current {
      value := current;
      props' := props' + [changed];
    }
  }

  method Diff(last: MediaProps, cur: MediaProps) returns (next: MediaProps, props: seq<Property>)
    ensures next == cur
    ensures props == MediaChanges(last, cur)
  {
    MediaChangesPieces(last, cur);
    props := [];
    var playbackStatus, loopStatus, metadata, canGoNext, canGoPrevious, shuffle;
    playbackStatus, props := Compare(last.playbackStatus, cur.playbackStatus, PlaybackStatusChanged(cur.playbackStatus), props);
    assert props == if last.playbackStatus != cur.playbackStatus then [PlaybackStatusChanged(cur.playbackStatus)] else [];
    loopStatus, props := Compare(last.loopStatus, cur.loopStatus, LoopStatusChanged(cur.loopStatus), props);
    metadata, props := Compare(last.metadata, cur.metadata, MetadataChanged(cur.metadata), props);
    canGoNext, props := Compare(last.canGoNext, cur.canGoNext, CanGoNextChanged(cur.canGoNext), props);
    canGoPrevious, props := Compare(last.canGoPrevious, cur.canGoPrevious, CanGoPreviousChanged(cur.canGoPrevious), props);
    shuffle, props := Compare(last.shuffle, cur.shuffle, ShuffleChanged(cur.shuffle), props);
    next := MediaProps(playbackStatus, loopStatus, metadata, canGoNext, canGoPrevious, shuffle);
  }

  /** What receiving a message does to the loop's control flow: the same
      rules as the blocking sender loop. */
  datatype StepOutcome = Running | Returned | Panicked

  function OutcomeOf(step: Cast.LoopStep): StepOutcome {
    if step.Continue? then Running
    else if step.end == Cast.Aborted then Panicked
    else Returned
  }

  /** The event that wins the loop's `select!`. A wake-up can only win when
      its snapshot's change signal holds a permit. */
  datatype Event = MediaStatusWake | ReceiverStatusWake | Message(received: Received)

  /** The start of `run_player`: read the six media properties and the
      volume of the current snapshots, which panics as those getters do,
      and remember them as the last published values. */
  method Begin(player: Player) returns (r: Fallible<PlayerLoop>)
    ensures r.Panics? <==> MediaPropsOf(player.mediaStatus, player.mediaSessionId).Panics?
                           || VolumeOf(player.receiverStatus).Panics?
    ensures r.Done? ==>
      && fresh(r.value) && r.value.player == player && r.value.published == []
      && MediaPropsOf(player.mediaStatus, player.mediaSessionId) == Done(r.value.last)
      && VolumeOf(player.receiverStatus) == Done(r.value.lastVolume)
  {
    var props := MediaPropsOf(player.mediaStatus, player.mediaSessionId);
    var volume := VolumeOf(player.receiverStatus);
    if props.Panics? || volume.Panics? {
      return Panics;
    }
    var l := new PlayerLoop.Start(player, props.value, volume.value);
    r := Done(l);
  }

  /** `run_player`'s state: the player and the last value published for
      each property. */
  class PlayerLoop {
    const player: Player
    var last: MediaProps
    var lastVolume: real
    /** The `PropertiesChanged` batches emitted on the bus, oldest first. */
    var published: seq<seq<Property>>

    /** The loop state once the initial values have been read. */
    constructor Start(player: Player, initial: MediaProps, initialVolume: real)
      ensures this.player == player && last == initial && lastVolume == initialVolume
      ensures published == []
    {
      this.player := player;
      this.last := initial;
      this.lastVolume := initialVolume;
      this.published := [];
    }

    /** Handles one event of the loop. */
    method Step(ev: Event) returns (outcome: StepOutcome)
      requires ev.MediaStatusWake? ==> player.mediaStatusChanged
      requires ev.ReceiverStatusWake? ==> player.receiverStatusChanged
      modifies this, player
      ensures ev.MediaStatusWake? ==>
        && !player.mediaStatusChanged
        && player.mediaStatus == old(player.mediaStatus)
        && player.receiverStatus == old(player.receiverStatus)
        && player.receiverStatusChanged == old(player.receiverStatusChanged)
        && player.sent == old(player.sent)
        && lastVolume == old(lastVolume)
        && match MediaPropsOf(old(player.mediaStatus), player.mediaSessionId)
           case Panics => outcome == Panicked && published == old(published) && last == old(last)
           case Done(cur) =>
             && outcome == Running && last == cur
             && published == old(published)
                  + (if MediaChanges(old(last), cur) == [] then [] else [MediaChanges(old(last), cur)])
      ensures ev.ReceiverStatusWake? ==>
        && !player.receiverStatusChanged
        && player.mediaStatus == old(player.mediaStatus)
        && player.mediaStatusChanged == old(player.mediaStatusChanged)
        && player.receiverStatus == old(player.receiverStatus)
        && player.sent == old(player.sent)
        && last == old(last)
        && match VolumeOf(old(player.receiverStatus))
           case Panics => outcome == Panicked && published == old(published) && lastVolume == old(lastVolume)
           case Done(v) =>
             && outcome == Running && lastVolume == v
             && published == old(published) + (if v != old(lastVolume) then [[VolumeChanged(v)]] else [])
      ensures ev.Message? ==>
        && last == old(last) && lastVolume == old(lastVolume) && published == old(published)
        && outcome == OutcomeOf(Cast.StepOf(ev.received, player.mediaSessionId))
        && player.sent == old(player.sent) + Cast.RepliesTo(ev.received)
      ensures ev.Message? && !(ev.received.Ok? && ev.received.value.MediaChannel?
                                && ev.received.value.media.MediaStatus?) ==>
        && player.mediaStatus == old(player.mediaStatus)
        && player.mediaStatusChanged == old(player.mediaStatusChanged)
      ensures ev.Message? && !(ev.received.Ok? && ev.received.value.ReceiverChannel?
                                && ev.received.value.receiver.ReceiverStatusResponse?) ==>
        && player.receiverStatus == old(player.receiverStatus)
        && player.receiverStatusChanged == old(player.receiverStatusChanged)
      ensures ev.Message? && ev.received.Ok? && ev.received.value.ReceiverChannel?
              && ev.received.value.receiver.ReceiverStatusResponse? ==>
        && player.receiverStatus == ev.received.value.receiver.status
        && player.receiverStatusChanged
      ensures ev.Message? && ev.received.Ok? && ev.received.value.MediaChannel?
              && ev.received.value.media.MediaStatus? ==>
        var entries := ev.received.value.media.entries;
        var accepted := Accepted(entries[..Cast.StopIndex(entries, player.mediaSessionId)], player.mediaSessionId);
        && player.mediaStatus == MergeAll(old(player.mediaStatus), accepted)
        && player.mediaStatusChanged == (old(player.mediaStatusChanged) || accepted != [])
    {
      match ev {
        case MediaStatusWake =>
          outcome := MediaWake();
        case ReceiverStatusWake =>
          outcome := ReceiverWake();
        case Message(received) =>
          outcome := HandleMessage(received);
      }
    }

    /** The media-status wake-up: recompute the six media properties and
        publish, in one batch, those that differ from the last published. */
    method MediaWake() returns (outcome: StepOutcome)
      modifies this, player
      ensures !player.mediaStatusChanged
      ensures player.mediaStatus == old(player.mediaStatus)
      ensures player.receiverStatus == old(player.receiverStatus)
      ensures player.receiverStatusChanged == old(player.receiverStatusChanged)
      ensures player.sent == old(player.sent)
      ensures lastVolume == old(lastVolume)
      ensures match MediaPropsOf(old(player.mediaStatus), player.mediaSessionId)
        case Panics => outcome == Panicked && published == old(published) && last == old(last)
        case Done(cur) =>
          && outcome == Running && last == cur
          && published == old(published)
               + (if MediaChanges(old(last), cur) == [] then [] else [MediaChanges(old(last), cur)])
    {
      player.mediaStatusChanged := false;
      var cur := MediaPropsOf(player.mediaStatus, player.mediaSessionId);
      if cur.Panics? {
        return Panicked;
      }
      var p := cur.value;
      var next, props := Diff(last, p);
      last := next;
      if props != [] {
        published := published + [props];
      }
      outcome := Running;
    }

    /** The receiver-status wake-up: publish the volume when it differs
        from the last one published. */
    method ReceiverWake() returns (outcome: StepOutcome)
      modifies this, player
      ensures !player.receiverStatusChanged
      ensures player.mediaStatus == old(player.mediaStatus)
      ensures player.mediaStatusChanged == old(player.mediaStatusChanged)
      ensures player.receiverStatus == old(player.receiverStatus)
      ensures player.sent == old(player.sent)
      ensures last == old(last)
      ensures match VolumeOf(old(player.receiverStatus))
        case Panics => outcome == Panicked && published == old(published) && lastVolume == old(lastVolume)
        case Done(v) =>
          && outcome == Running && lastVolume == v
          && published == old(published) + (if v != old(lastVolume) then [[VolumeChanged(v)]] else [])
    {
      player.receiverStatusChanged := false;
      var v := VolumeOf(player.receiverStatus);
      if v.Panics? {
        return Panicked;
      }
      if lastVolume != v.value {
        lastVolume := v.value;
        published := published + [[VolumeChanged(v.value)]];
      }
      outcome := Running;
    }

    /** The entries of one media status, applied in order up to the first
        that ends the loop. */
    method ApplyMediaStatus(entries: seq<StatusEntry>) returns (outcome: StepOutcome)
      modifies player
      ensures outcome == OutcomeOf(Cast.StepOf(Ok(MediaChannel(MediaStatus(entries))), player.mediaSessionId))
      ensures var accepted := Accepted(entries[..Cast.StopIndex(entries, player.mediaSessionId)], player.mediaSessionId);
        && player.mediaStatus == MergeAll(old(player.mediaStatus), accepted)
        && player.mediaStatusChanged == (old(player.mediaStatusChanged) || accepted != [])
      ensures player.sent == old(player.sent)
      ensures player.receiverStatus == old(player.receiverStatus)
      ensures player.receiverStatusChanged == old(player.receiverStatusChanged)
    {
      var sid := player.mediaSessionId;
      outcome := Running;
      var stop := Cast.StopIndex(entries, sid);
      for i := 0 to |entries|
        invariant i <= stop
        invariant player.mediaStatus == MergeAll(old(player.mediaStatus), Accepted(entries[..i], sid))
        invariant player.mediaStatusChanged == (old(player.mediaStatusChanged) || Accepted(entries[..i], sid) != [])
        invariant player.sent == old(player.sent)
        invariant player.receiverStatus == old(player.receiverStatus)
        invariant player.receiverStatusChanged == old(player.receiverStatusChanged)
      {
        var e := entries[i];
        AcceptedSnoc(entries, i, sid);
        if e.mediaSessionId != sid {
          assert stop != i;
          assert Accepted(entries[..i + 1], sid) == Accepted(entries[..i], sid);
          continue;
        }
        if e.idleReason.Some? {
          if e.playerState != Idle {
            assert stop == i;
            return Panicked;
          }
          if e.extendedStatus.None? {
            assert stop == i;
            return Returned;
          }
        }
        assert Cast.Classify(e, sid) == Cast.Accept && stop != i;
        assert Accepted(entries[..i + 1], sid) == Accepted(entries[..i], sid) + [e];
        MergeAllSnoc(old(player.mediaStatus), Accepted(entries[..i], sid), e);
        player.SetMediaStatus(e);
      }
      assert stop == |entries|;
      assert entries[..|entries|] == entries;
    }

    /** The `receive()` branch of the loop. */
    method HandleMessage(received: Received) returns (outcome: StepOutcome)
      modifies player
      ensures outcome == OutcomeOf(Cast.StepOf(received, player.mediaSessionId))
      ensures player.sent == old(player.sent) + Cast.RepliesTo(received)
      ensures !(received.Ok? && received.value.MediaChannel? && received.value.media.MediaStatus?) ==>
        && player.mediaStatus == old(player.mediaStatus)
        && player.mediaStatusChanged == old(player.mediaStatusChanged)
      ensures !(received.Ok? && received.value.ReceiverChannel?
                && received.value.receiver.ReceiverStatusResponse?) ==>
        && player.receiverStatus == old(player.receiverStatus)
        && player.receiverStatusChanged == old(player.receiverStatusChanged)
      ensures received.Ok? && received.value.ReceiverChannel? && received.value.receiver.ReceiverStatusResponse? ==>
        player.receiverStatus == received.value.receiver.status && player.receiverStatusChanged
      ensures received.Ok? && received.value.MediaChannel? && received.value.media.MediaStatus? ==>
        var entries := received.value.media.entries;
        var accepted := Accepted(entries[..Cast.StopIndex(entries, player.mediaSessionId)], player.mediaSessionId);
        && player.mediaStatus == MergeAll(old(player.mediaStatus), accepted)
        && player.mediaStatusChanged == (old(player.mediaStatusChanged) || accepted != [])
    {
      var sid := player.mediaSessionId;
      match received {
        case Ok(Heartbeat(response)) =>
          if response == Ping {
            player.sent := player.sent + [HeartbeatPong];
          }
          outcome := Running;
        case Ok(Connection(response)) =>
          outcome := if response == Close then Returned else Running;
        case Ok(MediaChannel(response)) =>
          outcome := Running;
          if response.MediaStatus? {
            outcome := ApplyMediaStatus(response.entries);
          }
        case Ok(ReceiverChannel(response)) =>
          if response.ReceiverStatusResponse? {
            player.SetReceiverStatus(response.status);
          }
          outcome := Running;
        case Ok(Raw(payload)) =>
          outcome := Running;
        case Err(error) =>
          player.sent := player.sent + [Disconnect(DEFAULT_DESTINATION_ID)];
          outcome := Returned;
      }
    }
  }
}
