/** The livekit transport: a `disposed` flag that is set once, guarded
    sends, and the forwarding of room events as transport events. The room
    is an abstract connection state plus a log of the calls made on it. */
module Livekit {
  import opened Strings

  newtype byte = x: int | 0 <= x < 256

  const MaximumNetworkMsgLength := 30_000

  /** The room's `connectionState`. */
  datatype RoomState = RoomDisconnected | RoomConnected | RoomReconnecting

  /** The reasons the room gives when it disconnects, as far as they matter
      here; every other reason is `OtherReason`. */
  datatype DisconnectReason = ClientInitiated | DuplicateIdentity | OtherReason(code: int)

  /** Events on the transport's own bus. */
  datatype TransportEvent =
    | PeerConnected(address: string)
    | PeerDisconnected(address: string)
    | Disconnection(kicked: bool)
    | Message(address: string, data: seq<byte>)

  /** Calls made on the room. */
  datatype RoomCall =
    | RoomConnect(url: string, token: string)
    | RoomDisconnect
    | PublishData(data: seq<byte>, reliable: bool, destination: Option<seq<string>>)

  /** Which guard of `send` stops a payload, in the order they are tested. */
  datatype SendDecision = SkipDisposed | SkipTooLarge | SkipNotConnected | Publish

  function DecideSend(disposed: bool, length: int, state: RoomState): (d: SendDecision)
    ensures disposed <==> d == SkipDisposed
    ensures !disposed && length > MaximumNetworkMsgLength <==> d == SkipTooLarge
    ensures !disposed && length <= MaximumNetworkMsgLength && state != RoomConnected <==> d == SkipNotConnected
    ensures d == Publish <==> !disposed && length <= MaximumNetworkMsgLength && state == RoomConnected
  {
    if disposed then SkipDisposed
    else if length > MaximumNetworkMsgLength then SkipTooLarge
    else if state != RoomConnected then SkipNotConnected
    else Publish
  }

  /** The size ceiling is inclusive: exactly 30 000 bytes may go, one more
      may not. */
  lemma CeilingIsInclusive(state: RoomState)
    ensures DecideSend(false, MaximumNetworkMsgLength, state) == (if state == RoomConnected then Publish else SkipNotConnected)
    ensures DecideSend(false, MaximumNetworkMsgLength + 1, state) == SkipTooLarge
  {
  }

  /** `kicked` is whether the room was left because the same identity joined
      elsewhere. */
  function Kicked(reason: DisconnectReason): (kicked: bool)
    ensures kicked <==> reason == DuplicateIdentity
  {
    reason == DuplicateIdentity
  }

  function DisconnectionCount(events: seq<TransportEvent>): (n: nat)
    ensures n <= |events|
    ensures n == 0 <==> forall i :: 0 <= i < |events| ==> !events[i].Disconnection?
  {
    if events == [] then 0
    else DisconnectionCount(events[..|events| - 1]) + (if events[|events| - 1].Disconnection? then 1 else 0)
  }

  lemma DisconnectionCountAppend(events: seq<TransportEvent>, e: TransportEvent)
    ensures DisconnectionCount(events + [e]) == DisconnectionCount(events) + (if e.Disconnection? then 1 else 0)
  {
    assert (events + [e])[..|events|] == events;
  }

  class LivekitAdapter {
    const url: string
    const token: string
    var disposed: bool
    var roomState: RoomState
    var events: seq<TransportEvent>
    var roomCalls: seq<RoomCall>

    /** DISCONNECTION has been emitted exactly when the adapter is
        disposed, and then once. */
    ghost predicate Valid()
      reads this
    {
      DisconnectionCount(events) == (if disposed then 1 else 0)
    }

    constructor (url: string, token: string)
      ensures Valid()
      ensures this.url == url && this.token == token
      ensures !disposed && roomState == RoomDisconnected && events == [] && roomCalls == []
    {
      this.url := url;
      this.token := token;
      disposed := false;
      roomState := RoomDisconnected;
      events := [];
      roomCalls := [];
    }

    /** `connect`: the room is asked to join with the configured url and
        token; `joined` is whether that call resolved. */
    method Connect(joined: bool) returns (r: Result<(), string>)
      requires Valid()
      modifies this
      ensures Valid()
      ensures roomCalls == old(roomCalls) + [RoomConnect(url, token)]
      ensures joined ==> r.Ok? && roomState == RoomConnected
      ensures !joined ==> r.Err? && roomState == old(roomState)
      ensures disposed == old(disposed) && events == old(events)
    {
      roomCalls := roomCalls + [RoomConnect(url, token)];
      if joined {
        roomState := RoomConnected;
        r := Ok(());
      } else {
        r := Err("the room could not be joined");
      }
    }

    /** `send`, with whether the room's publish would fail as an argument. */
    method Send(data: seq<byte>, reliable: bool, destination: Option<seq<string>>, publishFails: bool)
      returns (decision: SendDecision)
      requires Valid()
      modifies this
      ensures Valid()
      ensures decision == DecideSend(old(disposed), |data|, old(roomState))
      // nothing reaches the room unless every guard passed
      ensures decision != Publish ==> unchanged(this)
      ensures decision == Publish && !publishFails ==>
                roomCalls == old(roomCalls) + [PublishData(data, reliable, destination)] &&
                events == old(events) && disposed == old(disposed) && roomState == old(roomState)
      // a failed publish disconnects the adapter, which ends disposed
      ensures decision == Publish && publishFails ==>
                && disposed
                && roomCalls == old(roomCalls) + [PublishData(data, reliable, destination), RoomDisconnect]
                && events == old(events) + [Disconnection(false)]
    {
      decision := DecideSend(disposed, |data|, roomState);
      if disposed {
        return;
      }

      if |data| > MaximumNetworkMsgLength {
        return;
      }

      if roomState != RoomConnected {
        return;
      }

      roomCalls := roomCalls + [PublishData(data, reliable, destination)];
      if publishFails {
        Disconnect();
      }
    }

    /** `disconnect` */
    method Disconnect()
      requires Valid()
      modifies this
      ensures Valid()
      ensures old(disposed) ==> unchanged(this)
      ensures !old(disposed) ==>
                && disposed && roomState == RoomDisconnected
                && roomCalls == old(roomCalls) + [RoomDisconnect]
                && events == old(events) + [Disconnection(false)]
    {
      DoDisconnect(false);
    }

    /** `doDisconnect`: the first call disposes the adapter, leaves the room
        and emits DISCONNECTION with its `kicked` flag; later calls do
        nothing. */
    method DoDisconnect(kicked: bool)
      requires Valid()
      modifies this
      ensures Valid() && disposed
      ensures old(disposed) ==> unchanged(this)
      ensures !old(disposed) ==>
                && roomState == RoomDisconnected
                && roomCalls == old(roomCalls) + [RoomDisconnect]
                && events == old(events) + [Disconnection(kicked)]
    {
      if disposed {
        return;
      }

      disposed := true;
      roomCalls := roomCalls + [RoomDisconnect];
      roomState := RoomDisconnected;
      DisconnectionCountAppend(events, Disconnection(kicked));
      events := events + [Disconnection(kicked)];
    }

    /** The room's ParticipantConnected event. */
    method OnParticipantConnected(identity: string)
      requires Valid()
      modifies this
      ensures Valid()
      ensures events == old(events) + [PeerConnected(identity)]
      ensures disposed == old(disposed) && roomState == old(roomState) && roomCalls == old(roomCalls)
    {
      DisconnectionCountAppend(events, PeerConnected(identity));
      events := events + [PeerConnected(identity)];
    }

    /** The room's ParticipantDisconnected event. */
    method OnParticipantDisconnected(identity: string)
      requires Valid()
      modifies this
      ensures Valid()
      ensures events == old(events) + [PeerDisconnected(identity)]
      ensures disposed == old(disposed) && roomState == old(roomState) && roomCalls == old(roomCalls)
    {
      DisconnectionCountAppend(events, PeerDisconnected(identity));
      events := events + [PeerDisconnected(identity)];
    }

    /** The room's Disconnected event: ignored once disposed, otherwise a
        disconnection that is `kicked` exactly for a duplicate identity. */
    method OnRoomDisconnected(reason: DisconnectReason)
      requires Valid()
      modifies this
      ensures Valid() && disposed
      ensures old(disposed) ==> unchanged(this)
      ensures !old(disposed) ==>
                && roomCalls == old(roomCalls) + [RoomDisconnect]
                && events == old(events) + [Disconnection(Kicked(reason))]
    {
      if disposed {
        return;
      }

      var kicked := reason == DuplicateIdentity;
      DoDisconnect(kicked);
    }

    /** The room's DataReceived event: data without a sender is dropped. */
    method OnDataReceived(payload: seq<byte>, participant: Option<string>)
      requires Valid()
      modifies this
      ensures Valid()
      ensures participant.None? ==> unchanged(this)
      ensures participant.Some? ==> events == old(events) + [Message(participant.value, payload)]
      ensures disposed == old(disposed) && roomState == old(roomState) && roomCalls == old(roomCalls)
    {
      if participant.Some? {
        HandleMessage(participant.value, payload);
      }
    }

    /** `handleMessage`: re-emit as a `message` event, payload unchanged. */
    method HandleMessage(address: string, data: seq<byte>)
      requires Valid()
      modifies this
      ensures Valid()
      ensures events == old(events) + [Message(address, data)]
      ensures disposed == old(disposed) && roomState == old(roomState) && roomCalls == old(roomCalls)
    {
      DisconnectionCountAppend(events, Message(address, data));
      events := events + [Message(address, data)];
    }
  }

  /** However the adapter is driven, a second disconnection (for any
      reason) emits nothing more: DISCONNECTION is seen once, with the first
      caller's flag. */
  method DisconnectTwice(url: string, token: string, first: bool, reason: DisconnectReason)
    returns (a: LivekitAdapter)
    ensures a.disposed && a.events == [Disconnection(first)]
    ensures a.roomCalls == [RoomDisconnect]
  {
    a := new LivekitAdapter(url, token);
    a.DoDisconnect(first);
    a.OnRoomDisconnected(reason);
    a.Disconnect();
  }
}
