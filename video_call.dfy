/** The video-consultation view (client/src/components/VideoCall.jsx): the packet-loss
    tier rule, the rewrite of the video senders' encoding parameters (section 5.2,
    RTCRtpSender, of W3C WebRTC 1.0), and the session state driven by the peer, socket
    and button callbacks. Media tracks, senders and the peer are plain objects; the
    browser, simple-peer and socket.io are reduced to the fields the view reads and
    writes. */
module VideoCall {
  import opened Js

  // ---------------------------------------------------------------------------
  // Quality tier rule

  /** One entry of `RTCPeerConnection.getStats()`, with the fields the view reads. */
  datatype StatsReport = StatsReport(reportType: string, kind: string, packetsLost: int, packetsReceived: nat)

  /** The JavaScript number `packetsLost / packetsReceived * 100`.
      `Finite(l, rc)` stands for the rational `l * 100 / rc`, with `rc > 0`. */
  datatype LossPercent =
    | Finite(lost: int, received: nat)
    | PlusInfinity
    | MinusInfinity
    | NotANumber

  /** The reports the controller reacts to. */
  predicate IsVideoRemoteInbound(r: StatsReport) {
    r.reportType == "remote-inbound-rtp" && r.kind == "video"
  }

  /** Division by zero follows IEEE 754: x / 0 is +Infinity for x > 0, -Infinity for
      x < 0 and NaN for x == 0. */
  function PacketLoss(r: StatsReport): (loss: LossPercent)
    ensures loss.Finite? <==> r.packetsReceived > 0
    ensures loss.Finite? ==> loss.lost == r.packetsLost && loss.received == r.packetsReceived
    ensures r.packetsReceived == 0 ==>
              (loss.PlusInfinity? <==> r.packetsLost > 0) &&
              (loss.MinusInfinity? <==> r.packetsLost < 0) &&
              (loss.NotANumber? <==> r.packetsLost == 0)
  {
    if r.packetsReceived > 0 then Finite(r.packetsLost, r.packetsReceived)
    else if r.packetsLost > 0 then PlusInfinity
    else if r.packetsLost < 0 then MinusInfinity
    else NotANumber
  }

  /** `loss > bound`: cross-multiplied for finite values; every comparison with NaN is false. */
  predicate Exceeds(loss: LossPercent, bound: int) {
    match loss
    case Finite(l, rc) => l * 100 > bound * rc
    case PlusInfinity => true
    case MinusInfinity => false
    case NotANumber => false
  }

  /** `packetLoss > 5 ? 'low' : packetLoss > 2 ? 'medium' : 'high'` */
  function QualityFor(loss: LossPercent): (q: string)
    ensures q == "low" || q == "medium" || q == "high"
    ensures q == "low" <==> Exceeds(loss, 5)
    ensures q == "high" <==> !Exceeds(loss, 2)
  {
    if Exceeds(loss, 5) then "low" else if Exceeds(loss, 2) then "medium" else "high"
  }

  /** The tier rule agrees with the real-valued percentage `lost / received * 100`. */
  lemma QualityForFinite(lost: int, received: nat)
    requires received > 0
    ensures var pct := (lost as real) / (received as real) * 100.0;
            && (QualityFor(Finite(lost, received)) == "low" <==> pct > 5.0)
            && (QualityFor(Finite(lost, received)) == "medium" <==> 2.0 < pct <= 5.0)
            && (QualityFor(Finite(lost, received)) == "high" <==> pct <= 2.0)
  {
    ExceedsAsReal(lost, received, 5);
    ExceedsAsReal(lost, received, 2);
  }

  /** Cross-multiplying by the (positive) number of packets received preserves `>`. */
  lemma ExceedsAsReal(lost: int, received: nat, bound: int)
    requires received > 0
    ensures Exceeds(Finite(lost, received), bound) <==> (lost as real) / (received as real) * 100.0 > bound as real
  {
    var rc := received as real;
    var pct := (lost as real) / rc * 100.0;
    assert pct * rc == (lost * 100) as real;
    assert (bound * received) as real == (bound as real) * rc;
    if pct > bound as real {
      assert pct * rc > (bound as real) * rc;
    } else {
      assert pct * rc <= (bound as real) * rc;
    }
  }

  /** With nothing received, any loss reads as +Infinity (tier low) and no loss as NaN
      (tier high). */
  lemma QualityWithNothingReceived(r: StatsReport)
    requires r.packetsReceived == 0
    ensures r.packetsLost > 0 ==> QualityFor(PacketLoss(r)) == "low"
    ensures r.packetsLost <= 0 ==> QualityFor(PacketLoss(r)) == "high"
  {
  }

  /** The boundaries: exactly 5% is medium, exactly 2% is high, for every sample size. */
  lemma QualityBoundaries(received: nat)
    requires received > 0
    ensures QualityFor(Finite(6 * received, 100 * received)) == "low"
    ensures QualityFor(Finite(5 * received, 100 * received)) == "medium"
    ensures QualityFor(Finite(3 * received, 100 * received)) == "medium"
    ensures QualityFor(Finite(2 * received, 100 * received)) == "high"
    ensures QualityFor(Finite(received, 100 * received)) == "high"
  {
  }

  // ---------------------------------------------------------------------------
  // Encoding parameters

  /** One `RTCRtpEncodingParameters` dictionary: any keys, any values. */
  type Encoding = map<string, JsValue>

  const ScaleKey: string := "scaleResolutionDownBy"
  const BitrateKey: string := "maxBitrate"
  const FramerateKey: string := "maxFramerate"

  /** The three keys `adjustQuality` writes, with the values of each `switch` case. */
  function TierSettings(quality: string): (t: Encoding)
    ensures t.Keys == {ScaleKey, BitrateKey, FramerateKey}
  {
    if quality == "low" then
      map[ScaleKey := Num(2.0), BitrateKey := Num(150000.0), FramerateKey := Num(10.0)]
    else if quality == "medium" then
      map[ScaleKey := Num(1.5), BitrateKey := Num(300000.0), FramerateKey := Num(15.0)]
    else
      map[ScaleKey := Num(1.0), BitrateKey := Num(500000.0), FramerateKey := Num(25.0)]
  }

  /** `params.encodings` after `if (!params.encodings) params.encodings = [{}]`, as a value. */
  function EncodingsOrDefault(encodings: Option<seq<Encoding>>): seq<Encoding> {
    if encodings.None? then [map[]] else encodings.value
  }

  /** `params.encodings[0]` before the rewrite; reading past the end of an empty list
      gives `undefined`, and spreading `undefined` adds no key. */
  function FirstEncoding(encodings: Option<seq<Encoding>>): Encoding {
    var base := EncodingsOrDefault(encodings);
    if |base| > 0 then base[0] else map[]
  }

  /** The encodings list `adjustQuality` hands back to `setParameters`. */
  function RetuneEncodings(encodings: Option<seq<Encoding>>, quality: string): (r: seq<Encoding>)
    ensures |r| >= 1
    ensures |r| == if |EncodingsOrDefault(encodings)| == 0 then 1 else |EncodingsOrDefault(encodings)|
    ensures r[0].Keys == FirstEncoding(encodings).Keys + TierSettings(quality).Keys
    ensures forall k :: k in TierSettings(quality) ==> r[0][k] == TierSettings(quality)[k]
    ensures forall k :: k in FirstEncoding(encodings) && k !in TierSettings(quality) ==>
              r[0][k] == FirstEncoding(encodings)[k]
    ensures forall i :: 1 <= i < |r| ==> r[i] == EncodingsOrDefault(encodings)[i]
  {
    var base := EncodingsOrDefault(encodings);
    [FirstEncoding(encodings) + TierSettings(quality)] + (if |base| > 0 then base[1..] else [])
  }

  /** A later rewrite overrides an earlier one completely: only the last tier applied
      is visible. */
  lemma RetuneLastWins(encodings: Option<seq<Encoding>>, q1: string, q2: string)
    ensures RetuneEncodings(Some(RetuneEncodings(encodings, q1)), q2) == RetuneEncodings(encodings, q2)
  {
    var once := RetuneEncodings(encodings, q1);
    var a := RetuneEncodings(Some(once), q2);
    var b := RetuneEncodings(encodings, q2);
    assert FirstEncoding(Some(once)) == once[0];
    assert a[0] == b[0];
    assert |a| == |b|;
    forall i | 1 <= i < |a| ensures a[i] == b[i] {
      assert a[i] == once[i];
    }
  }

  /** Reapplying the tier just applied changes nothing. */
  lemma RetuneIdempotent(encodings: Option<seq<Encoding>>, quality: string)
    ensures var once := RetuneEncodings(encodings, quality);
            RetuneEncodings(Some(once), quality) == once
  {
    RetuneLastWins(encodings, quality, quality);
  }

  /** The position of the last video `remote-inbound-rtp` report of one stats sample:
      `stats.forEach` calls `adjustQuality` for each in turn, so this one decides. */
  function LastVideoReport(reports: seq<StatsReport>): (r: Option<nat>)
    ensures r.Some? ==> r.value < |reports| && IsVideoRemoteInbound(reports[r.value]) &&
                        forall j :: r.value < j < |reports| ==> !IsVideoRemoteInbound(reports[j])
    ensures r.None? ==> forall j :: 0 <= j < |reports| ==> !IsVideoRemoteInbound(reports[j])
  {
    if reports == [] then None
    else if IsVideoRemoteInbound(reports[|reports| - 1]) then Some(|reports| - 1)
    else
      var r := LastVideoReport(reports[..|reports| - 1]);
      assert forall j :: 0 <= j < |reports| - 1 ==> reports[..|reports| - 1][j] == reports[j];
      r
  }

  /** The tier of that report, if there is one. */
  function LastQuality(reports: seq<StatsReport>): Option<string> {
    match LastVideoReport(reports)
    case None => None
    case Some(k) => Some(QualityFor(PacketLoss(reports[k])))
  }

  /** Reading one more report: a video report sets the tier, any other keeps it. */
  lemma LastQualityStep(reports: seq<StatsReport>, i: nat)
    requires i < |reports|
    ensures LastQuality(reports[..i + 1]) ==
            if IsVideoRemoteInbound(reports[i]) then Some(QualityFor(PacketLoss(reports[i])))
            else LastQuality(reports[..i])
  {
    var pre := reports[..i + 1];
    assert pre[..|pre| - 1] == reports[..i];
    assert pre[|pre| - 1] == reports[i];
    if !IsVideoRemoteInbound(reports[i]) {
      var r := LastVideoReport(reports[..i]);
      assert LastVideoReport(pre) == r;
      if r.Some? {
        assert pre[r.value] == reports[..i][r.value];
      }
    }
  }

  // ---------------------------------------------------------------------------
  // Tracks, senders and the peer

  class MediaTrack {
    const kind: string
    var enabled: bool
    var stopped: bool

    /** A track as `getUserMedia` hands it out: live and enabled. */
    constructor (kind: string)
      ensures this.kind == kind && enabled && !stopped
    {
      this.kind := kind;
      enabled := true;
      stopped := false;
    }

    method Stop()
      modifies this
      ensures stopped && enabled == old(enabled)
    {
      stopped := true;
    }
  }

  /** An `RTCRtpSender`: the track it sends and its current encoding parameters
      (`None` when `getParameters()` reports no `encodings`). */
  class Sender {
    const track: MediaTrack?
    var encodings: Option<seq<Encoding>>

    constructor (track: MediaTrack?)
      ensures this.track == track && encodings == None
    {
      this.track := track;
      encodings := None;
    }
  }

  /** `sender.track?.kind === 'video'` */
  predicate IsVideoSender(s: Sender) {
    s.track != null && s.track.kind == "video"
  }

  /** An opaque negotiation payload (offer, answer or candidate). */
  datatype Signal = Signal(payload: string)

  /** The simple-peer connection: its role, its senders (one per local track), whether it
      was destroyed, and the signals handed to `peer.signal`. */
  class Peer {
    const initiator: bool
    const senders: seq<Sender>
    var destroyed: bool
    var received: seq<Signal>

    ghost predicate Valid() {
      forall i, j :: 0 <= i < j < |senders| ==> senders[i] != senders[j]
    }

    constructor (initiator: bool, tracks: seq<MediaTrack>)
      ensures Valid() && this.initiator == initiator && !destroyed && received == []
      ensures |senders| == |tracks|
      ensures forall i :: 0 <= i < |tracks| ==> senders[i].track == tracks[i] && senders[i].encodings == None
      ensures forall s :: s in senders ==> fresh(s)
    {
      var ss: seq<Sender> := [];
      for i := 0 to |tracks|
        invariant |ss| == i
        invariant forall k :: 0 <= k < i ==> ss[k].track == tracks[k] && ss[k].encodings == None && fresh(ss[k])
        invariant forall a, b :: 0 <= a < b < i ==> ss[a] != ss[b]
      {
        var s := new Sender(tracks[i]);
        ss := ss + [s];
      }
      this.initiator := initiator;
      senders := ss;
      destroyed := false;
      received := [];
    }

    method Signal(signal: Signal)
      modifies this
      ensures received == old(received) + [signal] && destroyed == old(destroyed)
    {
      received := received + [signal];
    }

    method Destroy()
      modifies this
      ensures destroyed && received == old(received)
    {
      destroyed := true;
    }
  }

  /** The encodings a sender ends up with after one retune to `quality`: new ones for a
      video sender, the old ones for any other. */
  function Tuned(s: Sender, encodings: Option<seq<Encoding>>, quality: string): Option<seq<Encoding>> {
    if IsVideoSender(s) then Some(RetuneEncodings(encodings, quality)) else encodings
  }

  /** The body of the `senders.forEach` in `adjustQuality`, for one sender. */
  method RetuneSender(s: Sender, quality: string)
    modifies s
    ensures s.encodings == Tuned(s, old(s.encodings), quality)
  {
    if s.track != null && s.track.kind == "video" {
      s.encodings := Some(RetuneEncodings(s.encodings, quality));
    }
  }

  /** The encodings a sender ends up with after a stats sample whose tier is `q`:
      tuned to it, or unchanged when the sample had no video report. */
  function Sampled(s: Sender, encodings: Option<seq<Encoding>>, q: Option<string>): Option<seq<Encoding>> {
    if q.Some? then Tuned(s, encodings, q.value) else encodings
  }

  /** Retuning a sender twice leaves it as retuned once with the second tier. */
  lemma TunedTwice(s: Sender, encodings: Option<seq<Encoding>>, q1: string, q2: string)
    ensures Tuned(s, Tuned(s, encodings, q1), q2) == Tuned(s, encodings, q2)
  {
    if IsVideoSender(s) {
      RetuneLastWins(encodings, q1, q2);
    }
  }

  /** Stops every track of a stream (`getTracks().forEach(track => track.stop())`). */
  method StopTracks(tracks: seq<MediaTrack>)
    modifies set t | t in tracks
    ensures forall t :: t in tracks ==> t.stopped && t.enabled == old(t.enabled)
  {
    for i := 0 to |tracks|
      invariant forall k :: 0 <= k < i ==> tracks[k].stopped
      invariant forall t :: t in tracks ==> t.enabled == old(t.enabled)
    {
      tracks[i].Stop();
    }
  }

  /** Index of the first track of the given kind (`getAudioTracks()[0]`, `getVideoTracks()[0]`). */
  function FirstOfKind(tracks: seq<MediaTrack>, kind: string): (r: Option<nat>)
    ensures r.Some? ==> r.value < |tracks| && tracks[r.value].kind == kind &&
                        forall j :: 0 <= j < r.value ==> tracks[j].kind != kind
    ensures r.None? ==> forall j :: 0 <= j < |tracks| ==> tracks[j].kind != kind
  {
    FirstIndex(tracks, (t: MediaTrack) => t.kind == kind)
  }

  // ---------------------------------------------------------------------------
  // The session

  datatype RemoteStream = RemoteStream(id: string)
  datatype SocketEvent = JoinRoom(roomId: string) | SignalOut(roomId: string, signal: Signal)

  const InitialStatus: string := "Connecting..."

  class VideoSession {
    const role: string
    const roomId: string
    var localStream: Option<seq<MediaTrack>>
    var remoteStream: Option<RemoteStream>
    var isMuted: bool
    var isVideoOn: bool
    var connectionStatus: string
    var peer: Peer?
    var socketConnected: bool
    var socketEmits: seq<SocketEvent>
    var navigation: Option<string>

    ghost predicate Valid() reads this {
      peer != null ==> peer.Valid()
    }

    function Tracks(): set<MediaTrack> reads this {
      if localStream.Some? then set t | t in localStream.value else {}
    }

    function Senders(): seq<Sender> reads this {
      if peer == null then [] else peer.senders
    }

    function SenderObjects(): set<Sender> reads this {
      set s | s in Senders()
    }

    /** The peer exists and still owns its connection (`_pc` is released on destroy). */
    predicate Live() reads this, peer {
      peer != null && !peer.destroyed
    }

    function AudioTrack(): MediaTrack? reads this {
      if localStream.Some? && FirstOfKind(localStream.value, "audio").Some?
      then localStream.value[FirstOfKind(localStream.value, "audio").value] else null
    }

    function VideoTrack(): MediaTrack? reads this {
      if localStream.Some? && FirstOfKind(localStream.value, "video").Some?
      then localStream.value[FirstOfKind(localStream.value, "video").value] else null
    }

    /** The mute button describes the microphone: unmuted before any stream, and the
        negation of the audio track's `enabled` once there is one. */
    ghost predicate MicInSync() reads this, Tracks() {
      (localStream.None? ==> !isMuted) &&
      (AudioTrack() != null ==> isMuted == !AudioTrack().enabled)
    }

    /** The camera button describes the camera in the same way. */
    ghost predicate CameraInSync() reads this, Tracks() {
      (localStream.None? ==> isVideoOn) &&
      (VideoTrack() != null ==> isVideoOn == VideoTrack().enabled)
    }

    /** The two button flags describe the tracks they control. */
    ghost predicate InSync() reads this, Tracks() {
      MicInSync() && CameraInSync()
    }

    /** The first render: no media yet, socket opened, status "Connecting...". */
    constructor (role: string, roomId: string)
      ensures Valid() && InSync()
      ensures this.role == role && this.roomId == roomId
      ensures localStream == None && remoteStream == None && peer == null
      ensures !isMuted && isVideoOn && connectionStatus == InitialStatus
      ensures socketConnected && socketEmits == [] && navigation == None
    {
      this.role := role;
      this.roomId := roomId;
      localStream := None;
      remoteStream := None;
      isMuted := false;
      isVideoOn := true;
      connectionStatus := InitialStatus;
      peer := null;
      socketConnected := true;
      socketEmits := [];
      navigation := None;
    }

    /** `init` after `getUserMedia` resolved: keep the stream, join the room, create the
        peer, which initiates iff the local user is a doctor. */
    method StartCall(tracks: seq<MediaTrack>)
      requires InSync() && localStream.None?
      requires forall t :: t in tracks ==> t.enabled && !t.stopped
      modifies this
      ensures Valid() && InSync()
      ensures localStream == Some(tracks)
      ensures socketEmits == old(socketEmits) + [JoinRoom(roomId)]
      ensures peer != null && fresh(peer) && !peer.destroyed && peer.received == []
      ensures peer.initiator == (role == "DOCTOR")
      ensures |peer.senders| == |tracks|
      ensures forall i :: 0 <= i < |tracks| ==> peer.senders[i].track == tracks[i] && peer.senders[i].encodings == None
      ensures isMuted == old(isMuted) && isVideoOn == old(isVideoOn)
      ensures connectionStatus == old(connectionStatus) && remoteStream == old(remoteStream)
      ensures socketConnected == old(socketConnected) && navigation == old(navigation)
    {
      localStream := Some(tracks);
      socketEmits := socketEmits + [JoinRoom(roomId)];
      peer := new Peer(role == "DOCTOR", tracks);
    }

    /** `init` when `getUserMedia` rejected. */
    method MediaFailed(message: string)
      modifies this
      ensures connectionStatus == "Error: " + message
      ensures localStream == old(localStream) && peer == old(peer) && socketEmits == old(socketEmits)
      ensures remoteStream == old(remoteStream) && isMuted == old(isMuted) && isVideoOn == old(isVideoOn)
      ensures socketConnected == old(socketConnected) && navigation == old(navigation)
    {
      connectionStatus := "Error: " + message;
    }

    /** The peer's `stream` event. */
    method OnRemoteStream(stream: RemoteStream)
      modifies this
      ensures remoteStream == Some(stream) && connectionStatus == "Connected"
      ensures localStream == old(localStream) && peer == old(peer) && socketEmits == old(socketEmits)
      ensures isMuted == old(isMuted) && isVideoOn == old(isVideoOn)
      ensures socketConnected == old(socketConnected) && navigation == old(navigation)
    {
      remoteStream := Some(stream);
      connectionStatus := "Connected";
    }

    /** The peer's `error` event. The peer library raises it only from inside its own
        `destroy(err)`, so by the time the handler runs the peer is destroyed; the
        handler itself only sets the status. */
    method OnPeerError(message: string)
      modifies this, peer
      ensures connectionStatus == "Error: " + message
      ensures peer == old(peer) && (peer != null ==> peer.destroyed && peer.received == old(peer.received))
      ensures localStream == old(localStream) && socketEmits == old(socketEmits)
      ensures remoteStream == old(remoteStream) && isMuted == old(isMuted) && isVideoOn == old(isVideoOn)
      ensures socketConnected == old(socketConnected) && navigation == old(navigation)
    {
      if peer != null {
        peer.Destroy();
      }
      connectionStatus := "Error: " + message;
    }

    /** The peer's `signal` event: relayed to the room through the socket. */
    method OnPeerSignal(signal: Signal)
      modifies this
      ensures socketEmits == old(socketEmits) + [SignalOut(roomId, signal)]
      ensures localStream == old(localStream) && peer == old(peer) && connectionStatus == old(connectionStatus)
      ensures remoteStream == old(remoteStream) && isMuted == old(isMuted) && isVideoOn == old(isVideoOn)
      ensures socketConnected == old(socketConnected) && navigation == old(navigation)
    {
      socketEmits := socketEmits + [SignalOut(roomId, signal)];
    }

    /** The socket's `signal` event: handed to the peer only while it exists and is not
        destroyed, dropped otherwise. */
    method OnSocketSignal(signal: Signal)
      modifies peer
      ensures peer == old(peer)
      ensures peer != null ==> peer.destroyed == old(peer.destroyed)
      ensures old(Live()) ==> peer.received == old(peer.received) + [signal]
      ensures peer != null && !old(Live()) ==> peer.received == old(peer.received)
    {
      if peer != null && !peer.destroyed {
        peer.Signal(signal);
      }
    }

    /** `adjustQuality(quality)`: every video sender gets the tier's encoding parameters;
        audio senders and senders without a track are left alone; nothing happens
        without a live peer. */
    method AdjustQuality(quality: string)
      requires Valid()
      modifies SenderObjects()
      ensures forall s :: s in Senders() ==>
                s.encodings == if Live() then Tuned(s, old(s.encodings), quality) else old(s.encodings)
    {
      if peer == null || peer.destroyed {
        return;
      }
      var senders := peer.senders;
      for i := 0 to |senders|
        invariant forall k :: 0 <= k < i ==> senders[k].encodings == Tuned(senders[k], old(senders[k].encodings), quality)
        invariant forall k :: i <= k < |senders| ==> senders[k].encodings == old(senders[k].encodings)
      {
        RetuneSender(senders[i], quality);
      }
    }

    /** One tick of the five-second stats timer: each video `remote-inbound-rtp` report
        retunes the video senders in turn, so the last such report decides the tier. */
    method SampleStats(reports: seq<StatsReport>)
      requires Valid()
      modifies SenderObjects()
      ensures forall s :: s in Senders() ==>
                s.encodings == if Live() then Sampled(s, old(s.encodings), LastQuality(reports)) else old(s.encodings)
    {
      if peer == null || peer.destroyed {
        return;
      }
      ghost var last: Option<string> := None;
      for i := 0 to |reports|
        invariant last == LastQuality(reports[..i])
        invariant forall s :: s in Senders() ==> s.encodings == Sampled(s, old(s.encodings), last)
      {
        LastQualityStep(reports, i);
        if IsVideoRemoteInbound(reports[i]) {
          var quality := QualityFor(PacketLoss(reports[i]));
          AdjustQuality(quality);
          forall s | s in Senders() && last.Some?
            ensures Tuned(s, Tuned(s, old(s.encodings), last.value), quality) == Tuned(s, old(s.encodings), quality)
          {
            TunedTwice(s, old(s.encodings), last.value, quality);
          }
          last := Some(quality);
        }
      }
      assert reports[..|reports|] == reports;
    }

    /** `toggleMic`: flips the first audio track and mirrors it in `isMuted`. Without a
        stream nothing happens; without an audio track the handler throws before changing
        anything. */
    method ToggleMic()
      modifies this, Tracks()
      ensures old(InSync()) ==> InSync()
      ensures AudioTrack() != null ==> MicInSync()
      ensures CameraInSync() == old(CameraInSync())
      ensures localStream == old(localStream) && AudioTrack() == old(AudioTrack())
      ensures AudioTrack() != null ==> AudioTrack().enabled == !old(AudioTrack().enabled) && isMuted == !AudioTrack().enabled
      ensures AudioTrack() == null ==> isMuted == old(isMuted)
      ensures forall t :: t in Tracks() && t != AudioTrack() ==> t.enabled == old(t.enabled)
      ensures forall t :: t in Tracks() ==> t.stopped == old(t.stopped)
      ensures isVideoOn == old(isVideoOn) && peer == old(peer) && connectionStatus == old(connectionStatus)
      ensures socketEmits == old(socketEmits) && socketConnected == old(socketConnected)
      ensures remoteStream == old(remoteStream) && navigation == old(navigation)
    {
      if localStream.Some? {
        var i := FirstOfKind(localStream.value, "audio");
        if i.Some? {
          var audioTrack := localStream.value[i.value];
          audioTrack.enabled := !audioTrack.enabled;
          isMuted := !audioTrack.enabled;
        }
      }
    }

    /** `toggleVideo` with the flag it evidently means to keep: `isVideoOn` follows the
        video track's `enabled`. */
    method ToggleVideo()
      modifies this, Tracks()
      ensures old(InSync()) ==> InSync()
      ensures VideoTrack() != null ==> CameraInSync()
      ensures MicInSync() == old(MicInSync())
      ensures localStream == old(localStream) && VideoTrack() == old(VideoTrack())
      ensures VideoTrack() != null ==> VideoTrack().enabled == !old(VideoTrack().enabled) && isVideoOn == VideoTrack().enabled
      ensures VideoTrack() == null ==> isVideoOn == old(isVideoOn)
      ensures forall t :: t in Tracks() && t != VideoTrack() ==> t.enabled == old(t.enabled)
      ensures forall t :: t in Tracks() ==> t.stopped == old(t.stopped)
      ensures isMuted == old(isMuted) && peer == old(peer) && connectionStatus == old(connectionStatus)
      ensures socketEmits == old(socketEmits) && socketConnected == old(socketConnected)
      ensures remoteStream == old(remoteStream) && navigation == old(navigation)
    {
      if localStream.Some? {
        var i := FirstOfKind(localStream.value, "video");
        if i.Some? {
          var videoTrack := localStream.value[i.value];
          videoTrack.enabled := !videoTrack.enabled;
          isVideoOn := videoTrack.enabled;
        }
      }
    }

    /** `toggleVideo` as written: `isVideoOn` is set to the negation of the new
        `enabled`. */
    method ToggleVideoAsWritten()
      modifies this, Tracks()
      ensures MicInSync() == old(MicInSync())
      ensures localStream == old(localStream) && VideoTrack() == old(VideoTrack())
      ensures VideoTrack() != null ==> VideoTrack().enabled == !old(VideoTrack().enabled) && isVideoOn == !VideoTrack().enabled
      ensures VideoTrack() == null ==> isVideoOn == old(isVideoOn)
      ensures forall t :: t in Tracks() && t != VideoTrack() ==> t.enabled == old(t.enabled)
      ensures forall t :: t in Tracks() ==> t.stopped == old(t.stopped)
      ensures isMuted == old(isMuted) && peer == old(peer) && connectionStatus == old(connectionStatus)
      ensures socketEmits == old(socketEmits) && socketConnected == old(socketConnected)
      ensures remoteStream == old(remoteStream) && navigation == old(navigation)
    {
      if localStream.Some? {
        var i := FirstOfKind(localStream.value, "video");
        if i.Some? {
          var videoTrack := localStream.value[i.value];
          videoTrack.enabled := !videoTrack.enabled;
          isVideoOn := !videoTrack.enabled;
        }
      }
    }

    /** `endCall`: destroys the peer, stops every local track and leaves for the
        dashboard; the socket stays connected. */
    method EndCall()
      modifies this, peer, Tracks()
      ensures peer == old(peer) && (peer != null ==> peer.destroyed && peer.received == old(peer.received))
      ensures localStream == old(localStream)
      ensures forall t :: t in Tracks() ==> t.stopped && t.enabled == old(t.enabled)
      ensures navigation == Some("/dashboard")
      ensures socketConnected == old(socketConnected) && socketEmits == old(socketEmits)
      ensures connectionStatus == old(connectionStatus) && isMuted == old(isMuted) && isVideoOn == old(isVideoOn)
      ensures remoteStream == old(remoteStream)
    {
      if peer != null {
        peer.Destroy();
      }
      if localStream.Some? {
        StopTracks(localStream.value);
      }
      navigation := Some("/dashboard");
    }

    /** The effect cleanup on unmount: destroys the peer and disconnects the socket. Its
        `localStream` is the value captured at the first render, which is always `null`,
        so no track is stopped here. */
    method Unmount()
      modifies this, peer
      ensures peer == old(peer) && (peer != null ==> peer.destroyed && peer.received == old(peer.received))
      ensures !socketConnected
      ensures localStream == old(localStream) && socketEmits == old(socketEmits) && navigation == old(navigation)
      ensures connectionStatus == old(connectionStatus) && isMuted == old(isMuted) && isVideoOn == old(isVideoOn)
      ensures remoteStream == old(remoteStream)
    {
      if peer != null {
        peer.Destroy();
      }
      socketConnected := false;
    }

    /** The cleanup as it is evidently meant: the tracks of the current stream are
        stopped as well, so the camera and microphone are released on unmount. */
    method UnmountReleasingTracks()
      modifies this, peer, Tracks()
      ensures peer == old(peer) && (peer != null ==> peer.destroyed && peer.received == old(peer.received))
      ensures !socketConnected
      ensures localStream == old(localStream) && socketEmits == old(socketEmits) && navigation == old(navigation)
      ensures forall t :: t in Tracks() ==> t.stopped && t.enabled == old(t.enabled)
      ensures connectionStatus == old(connectionStatus) && isMuted == old(isMuted) && isVideoOn == old(isVideoOn)
      ensures remoteStream == old(remoteStream)
    {
      if peer != null {
        peer.Destroy();
      }
      if localStream.Some? {
        StopTracks(localStream.value);
      }
      socketConnected := false;
    }
  }

  /** The discrepancy in the cleanup: a call left by navigating away, rather than by
      "End Call", keeps the camera running. */
  method UnmountAsWrittenLeavesCameraLive() returns (videoStopped: bool, socketConnected: bool)
    ensures !videoStopped && !socketConnected
  {
    var session := new VideoSession("DOCTOR", "consultation-A1");
    var video := new MediaTrack("video");
    session.StartCall([video]);
    session.Unmount();
    videoStopped, socketConnected := video.stopped, session.socketConnected;
  }

  /** The corrected cleanup on the same scenario releases the camera. */
  method UnmountReleasesCamera() returns (videoStopped: bool, socketConnected: bool)
    ensures videoStopped && !socketConnected
  {
    var session := new VideoSession("DOCTOR", "consultation-A1");
    var video := new MediaTrack("video");
    session.StartCall([video]);
    assert video in session.Tracks();
    session.UnmountReleasingTracks();
    videoStopped, socketConnected := video.stopped, session.socketConnected;
  }

  /** The discrepancy in `toggleVideo`: on a fresh call with video on, the first click
      turns the camera off but leaves `isVideoOn` true. */
  method ToggleVideoAsWrittenLeavesFlagStale() returns (isVideoOn: bool, videoEnabled: bool)
    ensures isVideoOn && !videoEnabled
  {
    var session := new VideoSession("PATIENT", "consultation-A1");
    var video := new MediaTrack("video");
    session.StartCall([video]);
    assert session.VideoTrack() == video;
    session.ToggleVideoAsWritten();
    isVideoOn, videoEnabled := session.isVideoOn, video.enabled;
  }

  /** The mute button works whatever the camera button shows: after the stale camera
      toggle, the first mute click still mutes the microphone and says so. */
  method MuteAfterStaleCameraToggle() returns (isMuted: bool, audioEnabled: bool)
    ensures isMuted && !audioEnabled
  {
    var session := new VideoSession("PATIENT", "consultation-A1");
    var audio := new MediaTrack("audio");
    var video := new MediaTrack("video");
    session.StartCall([audio, video]);
    assert session.AudioTrack() == audio;
    session.ToggleVideoAsWritten();
    session.ToggleMic();
    isMuted, audioEnabled := session.isMuted, audio.enabled;
  }

  /** After a peer error, a signal arriving through the socket is dropped by the guard
      and the stats timer no longer retunes the senders. */
  method SignalAfterPeerErrorIsDropped(signal: Signal, reports: seq<StatsReport>) returns (delivered: nat, live: bool)
    ensures delivered == 0 && !live
  {
    var session := new VideoSession("DOCTOR", "consultation-A1");
    var video := new MediaTrack("video");
    session.StartCall([video]);
    session.OnPeerError("Connection failed");
    session.OnSocketSignal(signal);
    session.SampleStats(reports);
    delivered, live := |session.peer.received|, session.Live();
  }

  /** The corrected toggle on the same scenario: the flag follows the camera. */
  method ToggleVideoKeepsFlag() returns (isVideoOn: bool, videoEnabled: bool)
    ensures !isVideoOn && !videoEnabled
  {
    var session := new VideoSession("PATIENT", "consultation-A1");
    var video := new MediaTrack("video");
    session.StartCall([video]);
    assert session.VideoTrack() == video;
    session.ToggleVideo();
    isVideoOn, videoEnabled := session.isVideoOn, video.enabled;
  }
}
