/**
 * The values exchanged with a Cast receiver, as the `rust_cast` library
 * presents them: media-status entries, receiver status, the tagged messages
 * that `receive()` yields, and the requests the sender issues. The library
 * itself is not part of this model; these are the shapes of its values.
 *
 * Floating-point quantities (playback position, duration, volume level) are
 * `real` and are only ever compared for equality.
 */
module CastProtocol {
  import opened Common

  /** The destination every platform-level request goes to. */
  const DEFAULT_DESTINATION_ID: string := "receiver-0"

  datatype PlayerState = Idle | Playing | Buffering | Paused

  datatype IdleReason = Cancelled | Interrupted | Finished | Error

  /** The receiver's secondary state while idle; `Loading` is its only value. */
  datatype ExtendedPlayerState = Loading

  datatype ExtendedStatus = ExtendedStatus(
    playerState: ExtendedPlayerState,
    mediaSessionId: Option<int>)

  datatype RepeatMode = RepeatOff | RepeatAll | RepeatSingle | RepeatAllAndShuffle

  datatype Image = Image(url: string)

  /** `MusicTrackMediaMetadata`: the tags the receiver shows for a track. */
  datatype MusicTrackMetadata = MusicTrackMetadata(
    albumName: Option<string>,
    title: Option<string>,
    albumArtist: Option<string>,
    artist: Option<string>,
    composer: Option<string>,
    trackNumber: Option<u32>,
    discNumber: Option<u32>,
    images: seq<Image>,
    releaseDate: Option<string>)

  /** `MusicTrackMediaMetadata::default()` */
  const EMPTY_TRACK_METADATA: MusicTrackMetadata :=
    MusicTrackMetadata(None, None, None, None, None, None, None, [], None)

  /** The receiver's metadata union; only the music-track variant matters here. */
  datatype MediaMetadata = MusicTrack(track: MusicTrackMetadata) | OtherMetadata(description: string)

  datatype StreamType = StreamNone | Buffered | Live

  datatype Media = Media(
    contentId: string,
    streamType: StreamType,
    contentType: string,
    metadata: Option<MediaMetadata>,
    duration: Option<real>)

  /** One entry of the receiver's queue as reported in a status. */
  datatype QueueEntry = QueueEntry(itemId: Option<int>)

  datatype QueueData = QueueData(shuffle: bool, repeatMode: Option<RepeatMode>)

  /** One media session's status, as pushed by the receiver or returned by a
      media command. `items`, `media` and `queueData` are often missing from
      abbreviated updates. */
  datatype StatusEntry = StatusEntry(
    mediaSessionId: int,
    playerState: PlayerState,
    idleReason: Option<IdleReason>,
    extendedStatus: Option<ExtendedStatus>,
    items: Option<seq<QueueEntry>>,
    currentItemId: Option<int>,
    media: Option<Media>,
    queueData: Option<QueueData>,
    repeatMode: Option<RepeatMode>,
    currentTime: Option<real>)

  datatype Volume = Volume(level: Option<real>, muted: Option<bool>)

  /** The receiver-level status; only its volume is read by the sender. */
  datatype ReceiverStatus = ReceiverStatus(volume: Volume)

  /** A transport or protocol error reported by the device link. */
  datatype CastError = CastError(description: string)

  datatype HeartbeatResponse = Ping | Pong | HeartbeatOther

  datatype ConnectionResponse = Connect | Close | ConnectionOther

  datatype MediaResponse = MediaStatus(entries: seq<StatusEntry>) | MediaOther

  datatype ReceiverResponse = ReceiverStatusResponse(status: ReceiverStatus) | ReceiverOther

  /** The tagged messages `receive()` yields, one per channel. */
  datatype ChannelMessage =
    | Heartbeat(heartbeat: HeartbeatResponse)
    | Connection(connection: ConnectionResponse)
    | MediaChannel(media: MediaResponse)
    | ReceiverChannel(receiver: ReceiverResponse)
    | Raw(payload: string)

  /** What one call of `receive()` returns. */
  type Received = Result<ChannelMessage, CastError>

  /** The media-channel commands; seek positions are MPRIS times in microseconds. */
  datatype MediaRequest =
    | Next
    | Prev
    | PlayRequest
    | PauseRequest
    | StopRequest
    | Seek(currentTime: Option<int>, relativeTime: Option<int>)
    | UpdateQueue(repeatMode: Option<RepeatMode>, shuffle: Option<bool>)

  /** Every request the sender puts on the device link. */
  datatype DeviceRequest =
    | MediaCommand(transportId: string, sessionId: int, request: MediaRequest)
    | SetVolume(level: real)
    | GetReceiverStatus
    | HeartbeatPong
    | Disconnect(destination: string)
}
