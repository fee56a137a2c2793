/**
 * The MPRIS bridge: the `org.mpris.MediaPlayer2` and
 * `org.mpris.MediaPlayer2.Player` interfaces of the freedesktop MPRIS D-Bus
 * Interface Specification, answered from the player's snapshots and
 * forwarded to the receiver as media and receiver commands.
 *
 * Every command takes the device's reply as a parameter; a device error is
 * reported on the bus as a `Failure` carrying it.
 */
module PlayerMpris {
  import opened Common
  import opened CastProtocol
  import Player

  /** The D-Bus errors the bridge reports. */
  datatype BusError =
    | Failure(cause: CastError)  // `errconvert`: a device error as `zbus::Error::Failure`
    | NotSupported(message: string)

  function ErrConvert(e: CastError): BusError {
    Failure(e)
  }

  // ---------------------------------------------------------------------
  // Constant answers

  const CAN_RAISE: bool := false
  const CAN_QUIT: bool := true
  const FULLSCREEN: bool := false
  const CAN_SET_FULLSCREEN: bool := false
  const HAS_TRACK_LIST: bool := false
  const IDENTITY: string := "Joujou"
  const DESKTOP_ENTRY: string := ""
  const SUPPORTED_URI_SCHEMES: seq<string> := []
  const SUPPORTED_MIME_TYPES: seq<string> := []
  const RATE: real := 1.0
  const MINIMUM_RATE: real := 1.0
  const MAXIMUM_RATE: real := 1.0
  const CAN_PLAY: bool := true
  const CAN_PAUSE: bool := true
  const CAN_SEEK: bool := true
  const CAN_CONTROL: bool := true

  const OPEN_URI_MESSAGE: string := "Loading on the fly is not supported"

  /** `OpenUri`: loading on the fly is refused, whatever the URI. */
  function OpenUri(uri: string): (r: Result<(), BusError>)
    ensures r.Err? && r.error.NotSupported?
  {
    Err(NotSupported(OPEN_URI_MESSAGE))
  }

  /** The advertised capabilities agree with the behaviour: a controllable
      player that can play, pause and seek at a fixed rate, that exposes no
      track list, and that refuses every URI, consistently with its empty
      lists of URI schemes and MIME types. */
  lemma ConstantAnswers(uri: string)
    ensures CAN_CONTROL && CAN_PLAY && CAN_PAUSE && CAN_SEEK
    ensures MINIMUM_RATE <= RATE <= MAXIMUM_RATE
    ensures !HAS_TRACK_LIST && !CAN_RAISE && !CAN_SET_FULLSCREEN && !FULLSCREEN && CAN_QUIT
    ensures OpenUri(uri).Err? && SUPPORTED_URI_SCHEMES == [] && SUPPORTED_MIME_TYPES == []
    ensures IDENTITY == "Joujou"
  {
  }

  // ---------------------------------------------------------------------
  // Getters

  /** `Position`: the current playback position, zero when the snapshot
      has none. */
  function Position(ms: StatusEntry): (r: real)
    ensures ms.currentTime.Some? ==> r == ms.currentTime.value
    ensures ms.currentTime.None? ==> r == 0.0
  {
    ms.currentTime.GetOr(0.0)
  }

  // ---------------------------------------------------------------------
  // Transport commands

  /** `Next`, `Previous`, `Pause`, `Stop`, `Play`: the player's command,
      its device error converted. */
  method Command(p: Player.Player, request: MediaRequest, reply: Result<StatusEntry, CastError>)
    returns (r: Result<(), BusError>)
    requires request.Next? || request.Prev? || request.PlayRequest?
             || request.PauseRequest? || request.StopRequest?
    modifies p
    ensures p.sent == old(p.sent) + [MediaCommand(p.transportId, p.mediaSessionId, request)]
    ensures reply.Err? ==> r == Err(Failure(reply.error)) && p.mediaStatus == old(p.mediaStatus)
                           && p.mediaStatusChanged == old(p.mediaStatusChanged)
    ensures reply.Ok? ==> r == Ok(()) && p.mediaStatus == Player.Merge(old(p.mediaStatus), reply.value)
                          && p.mediaStatusChanged
    ensures p.receiverStatus == old(p.receiverStatus) && p.receiverStatusChanged == old(p.receiverStatusChanged)
  {
    var sent := p.Transport(request, reply);
    if sent.Err? {
      return Err(ErrConvert(sent.error));
    }
    r := Ok(());
  }

  /** The command `PlayPause` sends: pause while playing, play otherwise. */
  function PlayPauseRequest(status: Player.PlaybackStatus): (q: MediaRequest)
    ensures q == PauseRequest <==> status == Player.PlaybackPlaying
    ensures q == PlayRequest <==> status == Player.PlaybackPaused || status == Player.PlaybackStopped
  {
    if status.PlaybackPlaying? then PauseRequest else PlayRequest
  }

  /** `PlayPause`: toggles according to the playback status of the current
      snapshot. */
  method PlayPause(p: Player.Player, reply: Result<StatusEntry, CastError>) returns (r: Result<(), BusError>)
    modifies p
    ensures var status := Player.PlaybackStatusOf(old(p.mediaStatus), p.mediaSessionId);
      p.sent == old(p.sent)
        + [MediaCommand(p.transportId, p.mediaSessionId,
                        if status == Player.PlaybackPlaying then PauseRequest else PlayRequest)]
    ensures reply.Err? ==> r == Err(Failure(reply.error)) && p.mediaStatus == old(p.mediaStatus)
                           && p.mediaStatusChanged == old(p.mediaStatusChanged)
    ensures reply.Ok? ==> r == Ok(()) && p.mediaStatus == Player.Merge(old(p.mediaStatus), reply.value)
                          && p.mediaStatusChanged
    ensures p.receiverStatus == old(p.receiverStatus) && p.receiverStatusChanged == old(p.receiverStatusChanged)
  {
    var request := PlayPauseRequest(Player.PlaybackStatusOf(p.mediaStatus, p.mediaSessionId));
    r := Command(p, request, reply);
  }

  /** `Seek`: the offset goes to the receiver as a relative position; the
      reply is not published. */
  method Seek(p: Player.Player, offset: int, reply: Result<StatusEntry, CastError>) returns (r: Result<(), BusError>)
    modifies p
    ensures p.sent == old(p.sent) + [MediaCommand(p.transportId, p.mediaSessionId, MediaRequest.Seek(None, Some(offset)))]
    ensures r.Err? <==> reply.Err?
    ensures reply.Err? ==> r.error == Failure(reply.error)
    ensures p.mediaStatus == old(p.mediaStatus) && p.mediaStatusChanged == old(p.mediaStatusChanged)
    ensures p.receiverStatus == old(p.receiverStatus) && p.receiverStatusChanged == old(p.receiverStatusChanged)
  {
    p.sent := p.sent + [MediaCommand(p.transportId, p.mediaSessionId, MediaRequest.Seek(None, Some(offset)))];
    if reply.Err? {
      return Err(ErrConvert(reply.error));
    }
    r := Ok(());
  }

  /** `SetPosition`: the position goes to the receiver as an absolute
      position, whatever the track id; the reply is not published. */
  method SetPosition(p: Player.Player, trackId: string, position: int, reply: Result<StatusEntry, CastError>)
    returns (r: Result<(), BusError>)
    modifies p
    ensures p.sent == old(p.sent) + [MediaCommand(p.transportId, p.mediaSessionId, MediaRequest.Seek(Some(position), None))]
    ensures r.Err? <==> reply.Err?
    ensures reply.Err? ==> r.error == Failure(reply.error)
    ensures p.mediaStatus == old(p.mediaStatus) && p.mediaStatusChanged == old(p.mediaStatusChanged)
    ensures p.receiverStatus == old(p.receiverStatus) && p.receiverStatusChanged == old(p.receiverStatusChanged)
  {
    p.sent := p.sent + [MediaCommand(p.transportId, p.mediaSessionId, MediaRequest.Seek(Some(position), None))];
    if reply.Err? {
      return Err(ErrConvert(reply.error));
    }
    r := Ok(());
  }

  // ---------------------------------------------------------------------
  // Queue settings

  /** The repeat mode `SetLoopStatus` asks for. */
  function RepeatModeFor(ls: Player.LoopStatus): (m: RepeatMode)
    ensures m != RepeatAllAndShuffle
    ensures m == RepeatOff <==> ls == Player.LoopNone
  {
    if ls.LoopNone? then RepeatOff
    else if ls.LoopTrack? then RepeatSingle
    else RepeatAll
  }

  /** A snapshot carrying the requested repeat mode reads back as the
      requested loop status, so distinct requests ask for distinct modes. */
  lemma LoopStatusRoundTrip(ms: StatusEntry, ls: Player.LoopStatus)
    ensures Player.LoopStatusOf(ms.(repeatMode := Some(RepeatModeFor(ls)))) == ls
  {
  }

  lemma RepeatModeForInjective(a: Player.LoopStatus, b: Player.LoopStatus)
    requires RepeatModeFor(a) == RepeatModeFor(b)
    ensures a == b
  {
    var ms := StatusEntry(0, Idle, None, None, None, None, None, None, None, None);
    LoopStatusRoundTrip(ms, a);
    LoopStatusRoundTrip(ms, b);
  }

  /** `SetLoopStatus`: asks the receiver to change the repeat mode and
      publishes its reply; on error the snapshot is left alone. */
  method SetLoopStatus(p: Player.Player, ls: Player.LoopStatus, reply: Result<StatusEntry, CastError>)
    returns (r: Result<(), BusError>)
    modifies p
    ensures p.sent == old(p.sent)
      + [MediaCommand(p.transportId, p.mediaSessionId, UpdateQueue(Some(RepeatModeFor(ls)), None))]
    ensures reply.Err? ==> r == Err(Failure(reply.error)) && p.mediaStatus == old(p.mediaStatus)
                           && p.mediaStatusChanged == old(p.mediaStatusChanged)
    ensures reply.Ok? ==> r == Ok(()) && p.mediaStatus == Player.Merge(old(p.mediaStatus), reply.value)
                          && p.mediaStatusChanged
    ensures p.receiverStatus == old(p.receiverStatus) && p.receiverStatusChanged == old(p.receiverStatusChanged)
  {
    p.sent := p.sent + [MediaCommand(p.transportId, p.mediaSessionId, UpdateQueue(Some(RepeatModeFor(ls)), None))];
    if reply.Err? {
      return Err(ErrConvert(reply.error));
    }
    p.SetMediaStatus(reply.value);
    r := Ok(());
  }

  /** `SetShuffle`: asks the receiver to change shuffling and publishes its
      reply; on error the snapshot is left alone. */
  method SetShuffle(p: Player.Player, shuffle: bool, reply: Result<StatusEntry, CastError>)
    returns (r: Result<(), BusError>)
    modifies p
    ensures p.sent == old(p.sent)
      + [MediaCommand(p.transportId, p.mediaSessionId, UpdateQueue(None, Some(shuffle)))]
    ensures reply.Err? ==> r == Err(Failure(reply.error)) && p.mediaStatus == old(p.mediaStatus)
                           && p.mediaStatusChanged == old(p.mediaStatusChanged)
    ensures reply.Ok? ==> r == Ok(()) && p.mediaStatus == Player.Merge(old(p.mediaStatus), reply.value)
                          && p.mediaStatusChanged
    ensures p.receiverStatus == old(p.receiverStatus) && p.receiverStatusChanged == old(p.receiverStatusChanged)
  {
    p.sent := p.sent + [MediaCommand(p.transportId, p.mediaSessionId, UpdateQueue(None, Some(shuffle)))];
    if reply.Err? {
      return Err(ErrConvert(reply.error));
    }
    p.SetMediaStatus(reply.value);
    r := Ok(());
  }

  // ---------------------------------------------------------------------
  // Volume

  /** `SetVolume`: sets the level, then, because the command's reply keeps
      only part of the volume, asks for the whole receiver status and
      publishes that. The command's own reply is never published, and no
      status is published when either call fails. */
  method SetVolume(p: Player.Player, volume: real,
                   setReply: Result<Volume, CastError>, statusReply: Result<ReceiverStatus, CastError>)
    returns (r: Result<(), BusError>)
    modifies p
    ensures setReply.Err? ==>
      && r == Err(Failure(setReply.error))
      && p.sent == old(p.sent) + [DeviceRequest.SetVolume(volume)]
    ensures setReply.Ok? ==> p.sent == old(p.sent) + [DeviceRequest.SetVolume(volume), GetReceiverStatus]
    ensures setReply.Ok? && statusReply.Err? ==> r == Err(Failure(statusReply.error))
    ensures setReply.Ok? && statusReply.Ok? ==>
      r == Ok(()) && p.receiverStatus == statusReply.value && p.receiverStatusChanged
    ensures r.Err? ==> p.receiverStatus == old(p.receiverStatus)
                       && p.receiverStatusChanged == old(p.receiverStatusChanged)
    ensures p.mediaStatus == old(p.mediaStatus) && p.mediaStatusChanged == old(p.mediaStatusChanged)
  {
    p.sent := p.sent + [DeviceRequest.SetVolume(volume)];
    if setReply.Err? {
      return Err(ErrConvert(setReply.error));
    }
    p.sent := p.sent + [GetReceiverStatus];
    if statusReply.Err? {
      return Err(ErrConvert(statusReply.error));
    }
    p.SetReceiverStatus(statusReply.value);
    r := Ok(());
  }
}
