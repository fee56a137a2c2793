/**
 * The blocking receive loop of the first sender (`sender_loop`): it reads
 * device messages until the peer closes the connection, the tracked media
 * session goes idle for good, or receiving fails. It publishes nothing.
 *
 * The classification of one media-status entry defined here is the
 * termination rule that the player's event loop applies as well.
 */
module Cast {
  import opened Common
  import opened CastProtocol

  /** What the receive loop does with one media-status entry. */
  datatype EntryAction =
    | Skip    // another media session: ignored
    | Accept  // ours and still active (or loading the next item)
    | Exit    // ours, idle for a reason, with nothing being loaded
    | Abort   // ours, an idle reason on a non-idle player: assertion failure

  function Classify(e: StatusEntry, sessionId: int): (a: EntryAction)
    ensures a == Skip <==> e.mediaSessionId != sessionId
    ensures a == Exit <==> e.mediaSessionId == sessionId && e.idleReason.Some?
                           && e.playerState == Idle && e.extendedStatus.None?
    ensures a == Abort <==> e.mediaSessionId == sessionId && e.idleReason.Some?
                            && e.playerState != Idle
    ensures e.idleReason.None? ==> a != Exit && a != Abort
  {
    if e.mediaSessionId != sessionId then Skip
    else if e.idleReason.Some? then
      if e.playerState != Idle then Abort
      else if e.extendedStatus.None? then Exit
      else match e.extendedStatus.value.playerState
        case Loading => Accept
    else Accept
  }

  predicate Ends(a: EntryAction) {
    a == Exit || a == Abort
  }

  /** Position of the first entry that ends the loop, or `|entries|`. */
  function StopIndex(entries: seq<StatusEntry>, sessionId: int): (k: nat)
    ensures k <= |entries|
    ensures forall j :: 0 <= j < k ==> !Ends(Classify(entries[j], sessionId))
    ensures k < |entries| ==> Ends(Classify(entries[k], sessionId))
  {
    if entries == [] then 0
    else if Ends(Classify(entries[0], sessionId)) then 0
    else 1 + StopIndex(entries[1..], sessionId)
  }

  /** How the receive loop ended. `AwaitingMessage`: the given messages ran
      out and the loop would block in `receive()` for the next one. */
  datatype LoopEnd = PeerClosed | PlaybackOver | ReceiveFailed | Aborted | AwaitingMessage

  datatype LoopStep = Continue | Stop(end: LoopEnd)

  /** The effect of one received message on the loop's control flow. */
  function StepOf(m: Received, sessionId: int): (s: LoopStep)
    ensures s.Stop? ==> s.end != AwaitingMessage
    ensures s == Stop(ReceiveFailed) <==> m.Err?
    ensures s == Stop(PeerClosed) <==> m == Ok(Connection(Close))
    ensures m.Ok? && !m.value.MediaChannel? && m.value != Connection(Close) ==> s == Continue
    ensures m.Ok? && m.value.MediaChannel? && !m.value.media.MediaStatus? ==> s == Continue
    ensures m.Ok? && m.value.MediaChannel? && m.value.media.MediaStatus? ==>
      var es := m.value.media.entries;
      var k := StopIndex(es, sessionId);
      && (s.Stop? <==> k < |es|)
      && (s == Stop(PlaybackOver) <==> k < |es| && Classify(es[k], sessionId) == Exit)
      && (s == Stop(Aborted) <==> k < |es| && Classify(es[k], sessionId) == Abort)
  {
    match m
    case Err(_) => Stop(ReceiveFailed)
    case Ok(Connection(Close)) => Stop(PeerClosed)
    case Ok(MediaChannel(MediaStatus(entries))) =>
      var k := StopIndex(entries, sessionId);
      if k == |entries| then Continue
      else if Classify(entries[k], sessionId) == Exit then Stop(PlaybackOver)
      else Stop(Aborted)
    case Ok(_) => Continue
  }

  /** The requests the loop sends while handling one message: a pong for a
      ping, a disconnect from the platform receiver after a receive error. */
  function RepliesTo(m: Received): (r: seq<DeviceRequest>)
    ensures |r| <= 1
    ensures r == [HeartbeatPong] <==> m == Ok(Heartbeat(Ping))
    ensures r == [Disconnect(DEFAULT_DESTINATION_ID)] <==> m.Err?
  {
    match m
    case Ok(Heartbeat(Ping)) => [HeartbeatPong]
    case Err(_) => [Disconnect(DEFAULT_DESTINATION_ID)]
    case Ok(_) => []
  }

  function AllReplies(ms: seq<Received>): seq<DeviceRequest> {
    if ms == [] then [] else AllReplies(ms[..|ms| - 1]) + RepliesTo(ms[|ms| - 1])
  }

  /** `sender_loop` over the messages `receive()` yields, in order. */
  method SenderLoop(messages: seq<Received>, sessionId: int)
    returns (end: LoopEnd, consumed: nat, sent: seq<DeviceRequest>)
    ensures consumed <= |messages|
    ensures forall i :: 0 <= i < consumed - 1 ==> StepOf(messages[i], sessionId) == Continue
    ensures end == AwaitingMessage ==>
      consumed == |messages| && (consumed > 0 ==> StepOf(messages[consumed - 1], sessionId) == Continue)
    ensures end != AwaitingMessage ==>
      consumed > 0 && StepOf(messages[consumed - 1], sessionId) == Stop(end)
    ensures sent == AllReplies(messages[..consumed])
  {
    consumed, sent := 0, [];
    while consumed < |messages|
      invariant consumed <= |messages|
      invariant forall i :: 0 <= i < consumed ==> StepOf(messages[i], sessionId) == Continue
      invariant sent == AllReplies(messages[..consumed])
    {
      var m := messages[consumed];
      assert messages[..consumed + 1][..consumed] == messages[..consumed];
      consumed := consumed + 1;
      sent := sent + RepliesTo(m);
      match m {
        case Ok(Heartbeat(response)) =>
        case Ok(Connection(response)) =>
          if response == Close {
            return PeerClosed, consumed, sent;
          }
        case Ok(MediaChannel(response)) =>
          if response.MediaStatus? {
            var entries := response.entries;
            for i := 0 to |entries|
              invariant forall j :: 0 <= j < i ==> !Ends(Classify(entries[j], sessionId))
            {
              var e := entries[i];
              if e.mediaSessionId != sessionId {
                continue;
              }
              if e.idleReason.Some? {
                if e.playerState != Idle {
                  return Aborted, consumed, sent;
                }
                if e.extendedStatus.None? {
                  return PlaybackOver, consumed, sent;
                }
              }
            }
          }
        case Ok(ReceiverChannel(response)) =>
        case Ok(Raw(payload)) =>
        case Err(error) =>
          return ReceiveFailed, consumed, sent;
      }
    }
    end := AwaitingMessage;
  }
}
