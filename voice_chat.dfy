/**
 * The voice-call hook (src/hooks/useVoiceChat.ts): call lifecycle and the
 * dispatcher for inbound signalling messages.
 *
 * Browser media objects are modelled only as far as the hook touches them: a
 * track has a kind, an `enabled` flag and a stopped flag; a peer connection
 * records the descriptions and candidates it was given, the tracks added to it,
 * and whether it is closed. SDP and ICE payloads are opaque JSON values. Every
 * asynchronous handler runs as one atomic step; an `Outcome` says which of its
 * awaited browser calls, if any, rejected. Messages handed to the shared
 * service's `send` are recorded in `sent`; whether they reach the broker is
 * `StompSession.SendStep`'s business.
 */
module VoiceSignalling {
  import opened Wrappers
  import opened Json
  import StompSession

  datatype TrackKind = Audio | Video

  class MediaTrack {
    const kind: TrackKind
    var enabled: bool
    var stopped: bool

    constructor (kind: TrackKind)
      ensures this.kind == kind && enabled && !stopped
    {
      this.kind := kind;
      enabled := true;
      stopped := false;
    }
  }

  /** A media stream: an identity and its tracks. */
  datatype MediaStream = MediaStream(id: nat, tracks: seq<MediaTrack>)

  class PeerConnection {
    var closed: bool
    var localDescription: Option<Json>
    var remoteDescription: Option<Json>
    var remoteCandidates: seq<Json>
    var senders: seq<MediaTrack>

    constructor ()
      ensures !closed && localDescription == None && remoteDescription == None
      ensures remoteCandidates == [] && senders == []
    {
      closed := false;
      localDescription := None;
      remoteDescription := None;
      remoteCandidates := [];
      senders := [];
    }

    method AddTrack(t: MediaTrack)
      modifies this
      ensures senders == old(senders) + [t]
      ensures closed == old(closed) && localDescription == old(localDescription)
      ensures remoteDescription == old(remoteDescription) && remoteCandidates == old(remoteCandidates)
    {
      senders := senders + [t];
    }

    method SetLocalDescription(d: Json)
      modifies this
      ensures localDescription == Some(d)
      ensures closed == old(closed) && remoteDescription == old(remoteDescription)
      ensures remoteCandidates == old(remoteCandidates) && senders == old(senders)
    {
      localDescription := Some(d);
    }

    method SetRemoteDescription(d: Json)
      modifies this
      ensures remoteDescription == Some(d)
      ensures closed == old(closed) && localDescription == old(localDescription)
      ensures remoteCandidates == old(remoteCandidates) && senders == old(senders)
    {
      remoteDescription := Some(d);
    }

    method AddIceCandidate(c: Json)
      modifies this
      ensures remoteCandidates == old(remoteCandidates) + [c]
      ensures closed == old(closed) && localDescription == old(localDescription)
      ensures remoteDescription == old(remoteDescription) && senders == old(senders)
    {
      remoteCandidates := remoteCandidates + [c];
    }

    method Close()
      modifies this
      ensures closed
      ensures localDescription == old(localDescription) && remoteDescription == old(remoteDescription)
      ensures remoteCandidates == old(remoteCandidates) && senders == old(senders)
    {
      closed := true;
    }
  }

  /** `track.stop()` for every track, in order. */
  method StopTracks(tracks: seq<MediaTrack>)
    modifies set t | t in tracks
    ensures forall t :: t in tracks ==> t.stopped && t.enabled == old(t.enabled)
  {
    var i := 0;
    while i < |tracks|
      invariant 0 <= i <= |tracks|
      invariant forall j :: 0 <= j < i ==> tracks[j].stopped
      invariant forall t :: t in tracks ==> t.enabled == old(t.enabled)
    {
      tracks[i].stopped := true;
      i := i + 1;
    }
  }

  /** `getAudioTracks().forEach(track => track.enabled = on)`: audio tracks only. */
  method SetAudioEnabled(tracks: seq<MediaTrack>, on: bool)
    modifies set t | t in tracks
    ensures forall t :: t in tracks ==> t.stopped == old(t.stopped)
    ensures forall t :: t in tracks ==> t.enabled == if t.kind == Audio then on else old(t.enabled)
  {
    var i := 0;
    while i < |tracks|
      invariant 0 <= i <= |tracks|
      invariant forall t :: t in tracks ==> t.stopped == old(t.stopped)
      invariant forall j :: 0 <= j < i && tracks[j].kind == Audio ==> tracks[j].enabled == on
      invariant forall t :: t in tracks && (t.kind != Audio || t !in tracks[..i]) ==> t.enabled == old(t.enabled)
    {
      if tracks[i].kind == Audio {
        tracks[i].enabled := on;
      }
      i := i + 1;
    }
  }

  // ---------------------------------------------------------------------------
  // Signalling messages
  // ---------------------------------------------------------------------------

  /** Whether each awaited browser call resolves, or which one rejects first (0-based). */
  datatype Outcome = Resolves | RejectsAt(step: nat)

  /** The `step`-th await of a handler resolves. */
  predicate Completes(o: Outcome, step: nat) {
    o.Resolves? || o.step > step
  }

  function Message(kind: string, field: string, payload: Json, peerId: string): Json {
    JObj(map["type" := JStr(kind), field := payload, "peerId" := JStr(peerId)])
  }

  function OfferMessage(offer: Json, peerId: string): Json { Message("offer", "offer", offer, peerId) }
  function AnswerMessage(answer: Json, peerId: string): Json { Message("answer", "answer", answer, peerId) }
  function CandidateMessage(candidate: Json, peerId: string): Json { Message("candidate", "candidate", candidate, peerId) }

  /** The destination every signalling message of a game is sent to. */
  function SignalDestination(gameCode: string): string {
    "/app/voice/signal/" + gameCode
  }

  datatype SignalKind = OfferSignal | AnswerSignal | CandidateSignal | OtherSignal

  /** What the handler reads off an inbound signal: its `type`, the matching payload field, and `peerId`. */
  datatype Signal = Signal(kind: SignalKind, payload: Option<Json>, peerId: Option<string>)

  /**
   * The fields the handler reads. `signal.peerId === PEER_ID` holds only for a
   * string field; `signal.type` selects a branch only when it is one of the three
   * strings; a missing payload field is `undefined`. An unparsable (raw string)
   * body has no such fields. A body that parses to `null` makes the first field
   * read throw, which ends the handler with no effect, the same as reading no fields.
   */
  function ReadSignal(d: StompSession.Delivery): (s: Signal)
    ensures d.Raw? ==> s == Signal(OtherSignal, None, None)
    ensures s.kind == OtherSignal ==> s.payload == None
  {
    match d
    case Raw(_) => Signal(OtherSignal, None, None)
    case Parsed(j) =>
      var peer := match Get(j, "peerId") case Some(JStr(p)) => Some(p) case _ => None;
      var ty := Get(j, "type");
      if ty == Some(JStr("offer")) then Signal(OfferSignal, Get(j, "offer"), peer)
      else if ty == Some(JStr("answer")) then Signal(AnswerSignal, Get(j, "answer"), peer)
      else if ty == Some(JStr("candidate")) then Signal(CandidateSignal, Get(j, "candidate"), peer)
      else Signal(OtherSignal, None, peer)
  }

  /** What one inbound signal does to the peer connection, and the reply it sends. */
  datatype Response = Response(remote: Option<Json>, local: Option<Json>, candidate: Option<Json>, reply: Option<Json>)

  const NoEffect := Response(None, None, None, None)

  /**
   * The reaction to signal `s` by the hook whose id is `self`. An offer awaits
   * `setRemoteDescription` (0), `createAnswer` (1, giving `answer`) and
   * `setLocalDescription` (2), then sends the answer; an answer awaits
   * `setRemoteDescription` (0); a candidate awaits `addIceCandidate` (0). A
   * rejection is caught and ends the handler. A missing payload makes the
   * description or candidate constructor throw before the first await.
   */
  function Respond(s: Signal, self: string, hasPeer: bool, answer: Json, o: Outcome): (r: Response)
    ensures s.peerId == Some(self) ==> r == NoEffect
    ensures !hasPeer ==> r == NoEffect
    ensures r.reply.Some? ==> s.kind == OfferSignal && r.reply == Some(AnswerMessage(answer, self))
    ensures r.reply.Some? <==> (s.peerId != Some(self) && hasPeer && s.kind == OfferSignal && s.payload.Some? && Completes(o, 2))
    ensures r.remote.Some? ==> r.remote == s.payload && s.kind in {OfferSignal, AnswerSignal}
    ensures r.candidate.Some? ==> r.candidate == s.payload && s.kind == CandidateSignal
    ensures r.local.Some? ==> r.local == Some(answer) && r.reply.Some?
    ensures r.local.Some? <==> r.reply.Some?
    ensures !Completes(o, 0) ==> r == NoEffect
    ensures s.peerId != Some(self) && hasPeer && s.payload.Some? && Completes(o, 0) ==>
              && (r.remote.Some? <==> s.kind in {OfferSignal, AnswerSignal})
              && (r.candidate.Some? <==> s.kind == CandidateSignal)
  {
    if s.peerId == Some(self) then NoEffect
    else if !hasPeer then NoEffect
    else if s.payload.None? then NoEffect
    else match s.kind
      case OfferSignal =>
        var sent := Completes(o, 2);
        Response(if Completes(o, 0) then s.payload else None,
                 if sent then Some(answer) else None,
                 None,
                 if sent then Some(AnswerMessage(answer, self)) else None)
      case AnswerSignal =>
        Response(if Completes(o, 0) then s.payload else None, None, None, None)
      case CandidateSignal =>
        Response(None, None, if Completes(o, 0) then s.payload else None, None)
      case OtherSignal => NoEffect
  }

  /** `onicecandidate`: a gathered candidate is sent tagged with the hook's id; the end-of-gathering `null` sends nothing. */
  function IceMessage(candidate: Option<Json>, self: string): (m: Option<Json>)
    ensures m.Some? <==> candidate.Some?
    ensures m.Some? ==> ReadSignal(StompSession.Parsed(m.value)) == Signal(CandidateSignal, candidate, Some(self))
  {
    match candidate
    case None => None
    case Some(c) => Some(CandidateMessage(c, self))
  }

  /** Every message the hook sends is read back by any peer as the same kind, payload and sender. */
  lemma MessagesReadBack(payload: Json, peerId: string)
    ensures ReadSignal(StompSession.Parsed(OfferMessage(payload, peerId))) == Signal(OfferSignal, Some(payload), Some(peerId))
    ensures ReadSignal(StompSession.Parsed(AnswerMessage(payload, peerId))) == Signal(AnswerSignal, Some(payload), Some(peerId))
    ensures ReadSignal(StompSession.Parsed(CandidateMessage(payload, peerId))) == Signal(CandidateSignal, Some(payload), Some(peerId))
  {
    assert "offer" != "type" && "answer" != "type" && "candidate" != "type";
    assert "offer" != "peerId" && "answer" != "peerId" && "candidate" != "peerId";
    assert JStr("offer") != JStr("answer") && JStr("offer") != JStr("candidate") && JStr("answer") != JStr("candidate");
  }

  /**
   * A hook hears its own broadcasts on the shared topic; through a lawful codec
   * it reads them back as its own and they have no effect at all.
   */
  lemma OwnBroadcastsIgnored(c: Codec, payload: Json, self: string, hasPeer: bool, answer: Json, o: Outcome)
    requires Lawful(c)
    ensures forall m :: m in {OfferMessage(payload, self), AnswerMessage(payload, self), CandidateMessage(payload, self)} ==>
      Respond(ReadSignal(StompSession.Decode(c, c.stringify(m))), self, hasPeer, answer, o) == NoEffect
  {
    MessagesReadBack(payload, self);
  }

  /**
   * Two hooks with different ids and a peer connection each: an offer from one
   * makes the other set it as remote description and reply with exactly one
   * answer, which the first reads back as an answer from the second.
   */
  lemma OfferGetsAnswer(offer: Json, answer: Json, a: string, b: string)
    requires a != b
    ensures var r := Respond(ReadSignal(StompSession.Parsed(OfferMessage(offer, a))), b, true, answer, Resolves);
      && r.remote == Some(offer) && r.local == Some(answer) && r.candidate == None
      && r.reply == Some(AnswerMessage(answer, b))
      && Respond(ReadSignal(StompSession.Parsed(r.reply.value)), a, true, answer, Resolves) == Response(Some(answer), None, None, None)
  {
    MessagesReadBack(offer, a);
    MessagesReadBack(answer, b);
  }

  /** A message handed to the shared service's `send`. */
  datatype Outgoing = Outgoing(destination: string, body: Json)

  // ---------------------------------------------------------------------------
  // The hook
  // ---------------------------------------------------------------------------

  class VoiceChat {
    const gameCode: string
    /** `PEER_ID`: drawn once when the module loads, shared by every call of the hook. */
    const peerId: string
    var isConnected: bool
    var isMuted: bool
    var isMicMuted: bool
    var localStream: Option<MediaStream>
    var peer: PeerConnection?
    var remoteStream: Option<MediaStream>
    var sent: seq<Outgoing>

    constructor (gameCode: string, peerId: string)
      ensures this.gameCode == gameCode && this.peerId == peerId
      ensures !isConnected && !isMuted && !isMicMuted
      ensures localStream == None && peer == null && remoteStream == None && sent == []
    {
      this.gameCode := gameCode;
      this.peerId := peerId;
      isConnected, isMuted, isMicMuted := false, false, false;
      localStream, peer, remoteStream := None, null, None;
      sent := [];
    }

    function LocalTracks(): set<MediaTrack>
      reads this
    {
      if localStream.Some? then set t | t in localStream.value.tracks else {}
    }

    /**
     * `initializePeerConnection`: `media` is what `getUserMedia` resolves to, or
     * `None` when it rejects (the error is caught and `null` returned).
     */
    method InitializePeerConnection(media: Option<MediaStream>) returns (pc: PeerConnection?)
      modifies this
      ensures media.None? ==> pc == null && peer == old(peer) && localStream == old(localStream)
      ensures media.Some? ==>
                && pc != null && fresh(pc) && peer == pc && localStream == media
                && pc.senders == media.value.tracks && !pc.closed
                && pc.localDescription == None && pc.remoteDescription == None && pc.remoteCandidates == []
      ensures isConnected == old(isConnected) && isMuted == old(isMuted) && isMicMuted == old(isMicMuted)
      ensures remoteStream == old(remoteStream) && sent == old(sent)
    {
      if media.None? {
        return null;
      }
      var stream := media.value;
      localStream := media;
      pc := new PeerConnection();
      var i := 0;
      while i < |stream.tracks|
        modifies pc
        invariant 0 <= i <= |stream.tracks|
        invariant pc.senders == stream.tracks[..i]
        invariant !pc.closed && pc.localDescription == None && pc.remoteDescription == None && pc.remoteCandidates == []
      {
        pc.AddTrack(stream.tracks[i]);
        assert stream.tracks[..i + 1] == stream.tracks[..i] + [stream.tracks[i]];
        i := i + 1;
      }
      assert stream.tracks[..i] == stream.tracks;
      peer := pc;
    }

    /** The handler subscribed to the game's voice topic. */
    method OnSignal(d: StompSession.Delivery, answer: Json, o: Outcome)
      modifies this, peer
      ensures var r := Respond(ReadSignal(d), peerId, old(peer) != null, answer, o);
        && peer == old(peer)
        && sent == old(sent) + (if r.reply.Some? then [Outgoing(SignalDestination(gameCode), r.reply.value)] else [])
        && (peer != null ==>
             && peer.remoteDescription == (if r.remote.Some? then r.remote else old(peer.remoteDescription))
             && peer.localDescription == (if r.local.Some? then r.local else old(peer.localDescription))
             && peer.remoteCandidates == old(peer.remoteCandidates) + (if r.candidate.Some? then [r.candidate.value] else [])
             && peer.senders == old(peer.senders) && peer.closed == old(peer.closed))
      ensures isConnected == old(isConnected) && isMuted == old(isMuted) && isMicMuted == old(isMicMuted)
      ensures localStream == old(localStream) && remoteStream == old(remoteStream)
    {
      var s := ReadSignal(d);
      if s.peerId == Some(peerId) {
        return;
      }
      var pc := peer;
      if pc == null {
        return;
      }
      if s.payload.None? {
        return;
      }
      var payload := s.payload.value;
      match s.kind {
        case OfferSignal =>
          if !Completes(o, 0) { return; }
          pc.SetRemoteDescription(payload);
          if !Completes(o, 1) { return; }
          if !Completes(o, 2) { return; }
          pc.SetLocalDescription(answer);
          sent := sent + [Outgoing(SignalDestination(gameCode), AnswerMessage(answer, peerId))];
        case AnswerSignal =>
          if !Completes(o, 0) { return; }
          pc.SetRemoteDescription(payload);
        case CandidateSignal =>
          if !Completes(o, 0) { return; }
          pc.AddIceCandidate(payload);
        case OtherSignal =>
      }
    }

    /** `pc.onicecandidate`. */
    method OnIceCandidate(candidate: Option<Json>)
      modifies this
      ensures sent == old(sent) + (if candidate.Some? then [Outgoing(SignalDestination(gameCode), IceMessage(candidate, peerId).value)] else [])
      ensures isConnected == old(isConnected) && isMuted == old(isMuted) && isMicMuted == old(isMicMuted)
      ensures localStream == old(localStream) && peer == old(peer) && remoteStream == old(remoteStream)
    {
      if candidate.Some? {
        sent := sent + [Outgoing(SignalDestination(gameCode), CandidateMessage(candidate.value, peerId))];
      }
    }

    /** `pc.ontrack`: the event's first stream, or a new stream (id `freshId`) around the lone track. */
    method OnTrack(track: MediaTrack, streams: seq<MediaStream>, freshId: nat)
      modifies this
      ensures remoteStream == Some(if |streams| > 0 then streams[0] else MediaStream(freshId, [track]))
      ensures isConnected == old(isConnected) && isMuted == old(isMuted) && isMicMuted == old(isMicMuted)
      ensures localStream == old(localStream) && peer == old(peer) && sent == old(sent)
    {
      if |streams| > 0 {
        remoteStream := Some(streams[0]);
      } else {
        remoteStream := Some(MediaStream(freshId, [track]));
      }
    }

    /**
     * `startCall`: a connection is built only when there is none or it is closed;
     * `createOffer` (0) and `setLocalDescription` (1) are awaited outside any
     * `try`, so a rejection ends the call before the offer is sent.
     */
    method StartCall(media: Option<MediaStream>, offer: Json, o: Outcome)
      modifies this, peer
      ensures var rebuild := old(peer) == null || old(peer.closed);
        && (rebuild && media.None? ==>
              peer == old(peer) && sent == old(sent) && isConnected == old(isConnected) && localStream == old(localStream))
        && (rebuild && media.Some? ==> fresh(peer) && peer.senders == media.value.tracks && localStream == media)
        && (!rebuild ==> peer == old(peer) && localStream == old(localStream))
        && (!rebuild ==>
              && peer.closed == old(peer.closed) && peer.remoteDescription == old(peer.remoteDescription)
              && peer.remoteCandidates == old(peer.remoteCandidates) && peer.senders == old(peer.senders))
        && (rebuild && media.Some? ==> !peer.closed && peer.remoteDescription == None && peer.remoteCandidates == [])
        && (!(rebuild && media.None?) ==>
              && peer != null
              && (Completes(o, 1) ==> peer.localDescription == Some(offer))
              && (!Completes(o, 1) ==> peer.localDescription == (if rebuild then None else old(peer.localDescription)))
              && sent == old(sent) + (if Completes(o, 1) then [Outgoing(SignalDestination(gameCode), OfferMessage(offer, peerId))] else [])
              && isConnected == (Completes(o, 1) || old(isConnected)))
      ensures isMuted == old(isMuted) && isMicMuted == old(isMicMuted) && remoteStream == old(remoteStream)
    {
      if peer == null || peer.closed {
        var created := InitializePeerConnection(media);
        if created == null {
          return;
        }
      }
      var pc := peer;
      if pc == null {
        return;
      }
      if !Completes(o, 0) { return; }
      if !Completes(o, 1) { return; }
      pc.SetLocalDescription(offer);
      sent := sent + [Outgoing(SignalDestination(gameCode), OfferMessage(offer, peerId))];
      isConnected := true;
    }

    /** `leaveCall`: stop every local track, drop the stream, close and drop the connection, reset the flags. */
    method LeaveCall()
      modifies this, peer, LocalTracks()
      ensures forall t :: t in old(LocalTracks()) ==> t.stopped
      ensures old(peer) != null ==> old(peer).closed
      ensures localStream == None && peer == null && remoteStream == None
      ensures !isConnected && !isMicMuted && !isMuted
      ensures sent == old(sent)
    {
      if localStream.Some? {
        StopTracks(localStream.value.tracks);
      }
      localStream := None;
      if peer != null {
        peer.Close();
        peer := null;
      }
      isConnected := false;
      isMicMuted := false;
      isMuted := false;
      remoteStream := None;
    }

    /** `toggleMute`: flips the speaker mute flag and nothing else. */
    method ToggleMute()
      modifies this
      ensures isMuted == !old(isMuted)
      ensures isConnected == old(isConnected) && isMicMuted == old(isMicMuted)
      ensures localStream == old(localStream) && peer == old(peer) && remoteStream == old(remoteStream) && sent == old(sent)
    {
      isMuted := !isMuted;
    }

    /** `toggleMic`: without a local stream nothing happens; otherwise flip the mic flag and enable audio exactly when unmuted. */
    method ToggleMic()
      modifies this, LocalTracks()
      ensures old(localStream).None? ==> isMicMuted == old(isMicMuted)
      ensures old(localStream).Some? ==> isMicMuted == !old(isMicMuted)
      ensures forall t :: t in old(LocalTracks()) ==> t.enabled == (if t.kind == Audio then !isMicMuted else old(t.enabled))
      ensures forall t :: t in old(LocalTracks()) ==> t.stopped == old(t.stopped)
      ensures isConnected == old(isConnected) && isMuted == old(isMuted)
      ensures localStream == old(localStream) && peer == old(peer) && remoteStream == old(remoteStream) && sent == old(sent)
    {
      if localStream.Some? {
        var newMuted := !isMicMuted;
        SetAudioEnabled(localStream.value.tracks, !newMuted);
        isMicMuted := newMuted;
      }
    }

    /** The effect cleanup on unmount, apart from withdrawing the topic subscription: stop the tracks, close the connection. */
    method Unmount()
      modifies peer, LocalTracks()
      ensures forall t :: t in LocalTracks() ==> t.stopped
      ensures peer != null ==> peer.closed
    {
      if localStream.Some? {
        StopTracks(localStream.value.tracks);
      }
      if peer != null {
        peer.Close();
      }
    }
  }
}
