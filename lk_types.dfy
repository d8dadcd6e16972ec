/** The struct wrappers of the signalling layer: one datatype per Python dataclass, with
    `...FromLk` (protobuf message to wrapper, `from_lk`) and `...ToLk` (wrapper to protobuf
    message, `to_lk`).

    Wrapper integer fields are Python ints and so unbounded here; the protobuf constructor
    range-checks them. `to_lk` first evaluates every keyword argument in order (nested
    conversions, enum conversions, list comprehensions, any of which may raise) and only
    then does the constructor check the integer keywords, again in order; the functions
    below raise the same first error. `from_lk` raises only on an unknown enum wire value. */
module LkTypes {
  import opened Wrappers
  import opened Exceptions
  import P = Proto
  import opened LkEnums

  // ---------------------------------------------------------------------------------
  // List comprehensions

  /** Every element converts without raising. */
  predicate AllOk<A, B>(xs: seq<A>, f: A -> Result<B, PyError>)
  {
    forall i :: 0 <= i < |xs| ==> f(xs[i]).Ok?
  }

  /** `[f(x) for x in xs]` where `f` may raise: the first exception propagates. */
  function MapAll<A, B>(xs: seq<A>, f: A -> Result<B, PyError>): (r: Result<seq<B>, PyError>)
    ensures r.Ok? <==> AllOk(xs, f)
    ensures r.Ok? ==> |r.value| == |xs| && forall i :: 0 <= i < |xs| ==> f(xs[i]) == Ok(r.value[i])
    ensures r.Err? ==> exists i :: 0 <= i < |xs| && f(xs[i]) == Err(r.error) && AllOk(xs[..i], f)
    decreases |xs|
  {
    if xs == [] then Ok([])
    else
      var head :- f(xs[0]);
      var tail := MapAll(xs[1..], f);
      if tail.Err? then
        assert forall i :: 0 <= i < |xs| - 1 ==> xs[1..][i] == xs[i + 1];
        assert forall k :: 1 <= k <= |xs| ==> xs[..k][1..] == xs[1..][..k - 1];
        Err(tail.error)
      else
        Ok([head] + tail.value)
  }

  /** `[f(x) for x in xs]` where `f` cannot raise. */
  function Map<A, B>(xs: seq<A>, f: A -> B): (r: seq<B>)
    ensures |r| == |xs| && forall i :: 0 <= i < |xs| ==> r[i] == f(xs[i])
  {
    if |xs| == 0 then []
    else
      var tail := Map(xs[1..], f);
      assert forall i :: 1 <= i < |xs| ==> xs[i] == xs[1..][i - 1];
      [f(xs[0])] + tail
  }

  /** Converting a list one way and back is the identity when it is so element by element. */
  lemma MapAllInverse<A, B>(xs: seq<A>, f: A -> Result<B, PyError>, g: B -> Result<A, PyError>)
    requires MapAll(xs, f).Ok?
    requires forall i :: 0 <= i < |xs| ==> f(xs[i]).Ok? ==> g(f(xs[i]).value) == Ok(xs[i])
    ensures MapAll(MapAll(xs, f).value, g) == Ok(xs)
  {
    var ys := MapAll(xs, f).value;
    assert AllOk(ys, g);
    var back := MapAll(ys, g);
    assert back.value == xs;
  }

  lemma MapInverse<A, B>(xs: seq<A>, f: A -> B, g: B -> A)
    requires forall i :: 0 <= i < |xs| ==> g(f(xs[i])) == xs[i]
    ensures Map(Map(xs, f), g) == xs
  {
  }

  /** An infallible conversion that undoes a fallible one. */
  lemma MapAllThenMap<A, B>(xs: seq<A>, f: A -> Result<B, PyError>, g: B -> A)
    requires MapAll(xs, f).Ok?
    requires forall i :: 0 <= i < |xs| ==> f(xs[i]).Ok? ==> g(f(xs[i]).value) == xs[i]
    ensures Map(MapAll(xs, f).value, g) == xs
  {
  }

  /** A fallible conversion that undoes an infallible one. */
  lemma MapThenMapAll<A, B>(xs: seq<A>, f: A -> B, g: B -> Result<A, PyError>)
    requires forall i :: 0 <= i < |xs| ==> g(f(xs[i])) == Ok(xs[i])
    ensures MapAll(Map(xs, f), g) == Ok(xs)
  {
    var ys := Map(xs, f);
    assert AllOk(ys, g);
    assert MapAll(ys, g).value == xs;
  }

  // ---------------------------------------------------------------------------------
  // livekit_models

  datatype VideoLayer = VideoLayer(quality: VideoQuality, width: int, height: int, bitrate: int, ssrc: int)

  function VideoLayerFromLk(p: P.VideoLayer): (r: Result<VideoLayer, PyError>)
    ensures r.Ok? <==> 0 <= p.quality < 4
    ensures r.Err? ==> r.error == UnknownEnumValue("VideoQuality", p.quality)
  {
    var quality :- VideoQuality.FromLk(p.quality);
    Ok(VideoLayer(quality, p.width, p.height, p.bitrate, p.ssrc))
  }

  function VideoLayerToLk(l: VideoLayer): (r: Result<P.VideoLayer, PyError>)
    ensures r.Ok? <==> l.quality != VideoQuality.NONE && P.IsUint32(l.width) && P.IsUint32(l.height)
                       && P.IsUint32(l.bitrate) && P.IsUint32(l.ssrc)
    ensures r.Ok? ==> VideoLayerFromLk(r.value) == Ok(l)
  {
    var quality :- l.quality.ToLk();
    var width :- P.CheckUint32("width", l.width);
    var height :- P.CheckUint32("height", l.height);
    var bitrate :- P.CheckUint32("bitrate", l.bitrate);
    var ssrc :- P.CheckUint32("ssrc", l.ssrc);
    Ok(P.VideoLayer(quality, width, height, bitrate, ssrc))
  }

  lemma VideoLayerDecodeEncode(p: P.VideoLayer)
    requires VideoLayerFromLk(p).Ok?
    ensures VideoLayerToLk(VideoLayerFromLk(p).value) == Ok(p)
  {
  }

  datatype SimulcastCodecInfo = SimulcastCodecInfo(mimeType: string, mid: string, cid: string, layers: seq<VideoLayer>)

  function SimulcastCodecInfoFromLk(p: P.SimulcastCodecInfo): (r: Result<SimulcastCodecInfo, PyError>)
    ensures r.Ok? <==> AllOk(p.layers, VideoLayerFromLk)
  {
    var layers :- MapAll(p.layers, VideoLayerFromLk);
    Ok(SimulcastCodecInfo(p.mimeType, p.mid, p.cid, layers))
  }

  function SimulcastCodecInfoToLk(c: SimulcastCodecInfo): (r: Result<P.SimulcastCodecInfo, PyError>)
    ensures r.Ok? <==> AllOk(c.layers, VideoLayerToLk)
    ensures r.Ok? ==> SimulcastCodecInfoFromLk(r.value) == Ok(c)
  {
    var layers :- MapAll(c.layers, VideoLayerToLk);
    MapAllInverse(c.layers, VideoLayerToLk, VideoLayerFromLk);
    Ok(P.SimulcastCodecInfo(c.mimeType, c.mid, c.cid, layers))
  }

  lemma VideoLayersDecodeEncode(ps: seq<P.VideoLayer>)
    requires MapAll(ps, VideoLayerFromLk).Ok?
    ensures MapAll(MapAll(ps, VideoLayerFromLk).value, VideoLayerToLk) == Ok(ps)
  {
    forall i | 0 <= i < |ps| && VideoLayerFromLk(ps[i]).Ok?
      ensures VideoLayerToLk(VideoLayerFromLk(ps[i]).value) == Ok(ps[i])
    {
      VideoLayerDecodeEncode(ps[i]);
    }
    MapAllInverse(ps, VideoLayerFromLk, VideoLayerToLk);
  }

  lemma SimulcastCodecInfoDecodeEncode(p: P.SimulcastCodecInfo)
    requires SimulcastCodecInfoFromLk(p).Ok?
    ensures SimulcastCodecInfoToLk(SimulcastCodecInfoFromLk(p).value) == Ok(p)
  {
    VideoLayersDecodeEncode(p.layers);
  }

  datatype TrackInfo = TrackInfo(
    sid: string, trackType: TrackType, name: string, muted: bool, width: int, height: int,
    simulcast: bool, disableDtx: bool, source: TrackSource, layers: seq<VideoLayer>, mimeType: string,
    mid: string, codecs: seq<SimulcastCodecInfo>, stereo: bool, disableRed: bool)

  function TrackInfoFromLk(p: P.TrackInfo): (r: Result<TrackInfo, PyError>)
    ensures r.Ok? <==> 0 <= p.trackType < 3 && 0 <= p.source < 5
                       && AllOk(p.layers, VideoLayerFromLk) && AllOk(p.codecs, SimulcastCodecInfoFromLk)
  {
    var trackType :- TrackType.FromLk(p.trackType);
    var source :- TrackSource.FromLk(p.source);
    var layers :- MapAll(p.layers, VideoLayerFromLk);
    var codecs :- MapAll(p.codecs, SimulcastCodecInfoFromLk);
    Ok(TrackInfo(p.sid, trackType, p.name, p.muted, p.width, p.height, p.simulcast, p.disableDtx,
                 source, layers, p.mimeType, p.mid, codecs, p.stereo, p.disableRed))
  }

  function TrackInfoToLk(t: TrackInfo): (r: Result<P.TrackInfo, PyError>)
    ensures r.Ok? <==> t.source != TrackSource.NONE && AllOk(t.layers, VideoLayerToLk)
                       && AllOk(t.codecs, SimulcastCodecInfoToLk) && P.IsUint32(t.width) && P.IsUint32(t.height)
    ensures r.Ok? ==> TrackInfoFromLk(r.value) == Ok(t)
  {
    var trackType := t.trackType.ToLk();
    var source :- t.source.ToLk();
    var layers :- MapAll(t.layers, VideoLayerToLk);
    var codecs :- MapAll(t.codecs, SimulcastCodecInfoToLk);
    var width :- P.CheckUint32("width", t.width);
    var height :- P.CheckUint32("height", t.height);
    MapAllInverse(t.layers, VideoLayerToLk, VideoLayerFromLk);
    MapAllInverse(t.codecs, SimulcastCodecInfoToLk, SimulcastCodecInfoFromLk);
    Ok(P.TrackInfo(t.sid, trackType, t.name, t.muted, width, height, t.simulcast, t.disableDtx,
                   source, layers, t.mimeType, t.mid, codecs, t.stereo, t.disableRed))
  }

  lemma TrackInfoDecodeEncode(p: P.TrackInfo)
    requires TrackInfoFromLk(p).Ok?
    ensures TrackInfoToLk(TrackInfoFromLk(p).value) == Ok(p)
  {
    var t := TrackInfoFromLk(p).value;
    TrackTypeWireRoundTrip(p.trackType);
    TrackSourceWireRoundTrip(p.source);
    VideoLayersDecodeEncode(p.layers);
    CodecsDecodeEncode(p.codecs);
    assert t.layers == MapAll(p.layers, VideoLayerFromLk).value && t.codecs == MapAll(p.codecs, SimulcastCodecInfoFromLk).value;
  }

  lemma CodecsDecodeEncode(ps: seq<P.SimulcastCodecInfo>)
    requires MapAll(ps, SimulcastCodecInfoFromLk).Ok?
    ensures MapAll(MapAll(ps, SimulcastCodecInfoFromLk).value, SimulcastCodecInfoToLk) == Ok(ps)
  {
    forall i | 0 <= i < |ps| && SimulcastCodecInfoFromLk(ps[i]).Ok?
      ensures SimulcastCodecInfoToLk(SimulcastCodecInfoFromLk(ps[i]).value) == Ok(ps[i])
    {
      SimulcastCodecInfoDecodeEncode(ps[i]);
    }
    MapAllInverse(ps, SimulcastCodecInfoFromLk, SimulcastCodecInfoToLk);
  }

  datatype ParticipantPermission = ParticipantPermission(
    canSubscribe: bool, canPublish: bool, canPublishData: bool, hidden: bool, recorder: bool)

  function ParticipantPermissionFromLk(p: P.ParticipantPermission): ParticipantPermission
  {
    ParticipantPermission(p.canSubscribe, p.canPublish, p.canPublishData, p.hidden, p.recorder)
  }

  function ParticipantPermissionToLk(perm: ParticipantPermission): (r: P.ParticipantPermission)
    ensures ParticipantPermissionFromLk(r) == perm
  {
    P.ParticipantPermission(perm.canSubscribe, perm.canPublish, perm.canPublishData, perm.hidden, perm.recorder)
  }

  lemma ParticipantPermissionDecodeEncode(p: P.ParticipantPermission)
    ensures ParticipantPermissionToLk(ParticipantPermissionFromLk(p)) == p
  {
  }

  datatype ParticipantInfo = ParticipantInfo(
    sid: string, identity: string, state: ParticipantInfoState, tracks: seq<TrackInfo>, metadata: string,
    joinedAt: int, name: string, version: int, permission: ParticipantPermission,
    region: string, isPublisher: bool)

  function ParticipantInfoFromLk(p: P.ParticipantInfo): (r: Result<ParticipantInfo, PyError>)
    ensures r.Ok? <==> 0 <= p.state < 4 && AllOk(p.tracks, TrackInfoFromLk)
  {
    var state :- ParticipantInfoState.FromLk(p.state);
    var tracks :- MapAll(p.tracks, TrackInfoFromLk);
    Ok(ParticipantInfo(p.sid, p.identity, state, tracks, p.metadata, p.joinedAt, p.name, p.version,
                       ParticipantPermissionFromLk(p.permission), p.region, p.isPublisher))
  }

  function ParticipantInfoToLk(info: ParticipantInfo): (r: Result<P.ParticipantInfo, PyError>)
    ensures r.Ok? <==> AllOk(info.tracks, TrackInfoToLk) && P.IsInt64(info.joinedAt) && P.IsUint32(info.version)
    ensures r.Ok? ==> ParticipantInfoFromLk(r.value) == Ok(info)
  {
    var state := info.state.ToLk();
    var tracks :- MapAll(info.tracks, TrackInfoToLk);
    var permission := ParticipantPermissionToLk(info.permission);
    var joinedAt :- P.CheckInt64("joined_at", info.joinedAt);
    var version :- P.CheckUint32("version", info.version);
    MapAllInverse(info.tracks, TrackInfoToLk, TrackInfoFromLk);
    Ok(P.ParticipantInfo(info.sid, info.identity, state, tracks, info.metadata, joinedAt, info.name,
                         version, permission, info.region, info.isPublisher))
  }

  lemma ParticipantInfoDecodeEncode(p: P.ParticipantInfo)
    requires ParticipantInfoFromLk(p).Ok?
    ensures ParticipantInfoToLk(ParticipantInfoFromLk(p).value) == Ok(p)
  {
    var info := ParticipantInfoFromLk(p).value;
    ParticipantInfoStateWireRoundTrip(p.state);
    TracksDecodeEncode(p.tracks);
    assert info.tracks == MapAll(p.tracks, TrackInfoFromLk).value;
  }

  lemma TracksDecodeEncode(ps: seq<P.TrackInfo>)
    requires MapAll(ps, TrackInfoFromLk).Ok?
    ensures MapAll(MapAll(ps, TrackInfoFromLk).value, TrackInfoToLk) == Ok(ps)
  {
    forall i | 0 <= i < |ps| && TrackInfoFromLk(ps[i]).Ok?
      ensures TrackInfoToLk(TrackInfoFromLk(ps[i]).value) == Ok(ps[i])
    {
      TrackInfoDecodeEncode(ps[i]);
    }
    MapAllInverse(ps, TrackInfoFromLk, TrackInfoToLk);
  }

  lemma ParticipantInfosDecodeEncode(ps: seq<P.ParticipantInfo>)
    requires MapAll(ps, ParticipantInfoFromLk).Ok?
    ensures MapAll(MapAll(ps, ParticipantInfoFromLk).value, ParticipantInfoToLk) == Ok(ps)
  {
    forall i | 0 <= i < |ps| && ParticipantInfoFromLk(ps[i]).Ok?
      ensures ParticipantInfoToLk(ParticipantInfoFromLk(ps[i]).value) == Ok(ps[i])
    {
      ParticipantInfoDecodeEncode(ps[i]);
    }
    MapAllInverse(ps, ParticipantInfoFromLk, ParticipantInfoToLk);
  }

  datatype Codec = Codec(mime: string, fmtpLine: string)

  function CodecFromLk(p: P.Codec): Codec
  {
    Codec(p.mime, p.fmtpLine)
  }

  function CodecToLk(c: Codec): (r: P.Codec)
    ensures CodecFromLk(r) == c
  {
    P.Codec(c.mime, c.fmtpLine)
  }

  lemma CodecDecodeEncode(p: P.Codec)
    ensures CodecToLk(CodecFromLk(p)) == p
  {
  }

  lemma CodecsRoundTrip(cs: seq<Codec>, ps: seq<P.Codec>)
    ensures Map(Map(cs, CodecToLk), CodecFromLk) == cs
    ensures Map(Map(ps, CodecFromLk), CodecToLk) == ps
  {
    MapInverse(cs, CodecToLk, CodecFromLk);
    MapInverse(ps, CodecFromLk, CodecToLk);
  }

  datatype Room = Room(
    sid: string, name: string, emptyTimeout: int, maxParticipants: int, creationTime: int,
    turnPassword: string, enabledCodecs: seq<Codec>, metadata: string, numParticipants: int,
    activeRecording: bool)

  function RoomFromLk(p: P.Room): Room
  {
    Room(p.sid, p.name, p.emptyTimeout, p.maxParticipants, p.creationTime, p.turnPassword,
         Map(p.enabledCodecs, CodecFromLk), p.metadata, p.numParticipants, p.activeRecording)
  }

  function RoomToLk(room: Room): (r: Result<P.Room, PyError>)
    ensures r.Ok? <==> P.IsUint32(room.emptyTimeout) && P.IsUint32(room.maxParticipants)
                       && P.IsInt64(room.creationTime) && P.IsUint32(room.numParticipants)
    ensures r.Ok? ==> RoomFromLk(r.value) == room
  {
    var codecs := Map(room.enabledCodecs, CodecToLk);
    var emptyTimeout :- P.CheckUint32("empty_timeout", room.emptyTimeout);
    var maxParticipants :- P.CheckUint32("max_participants", room.maxParticipants);
    var creationTime :- P.CheckInt64("creation_time", room.creationTime);
    var numParticipants :- P.CheckUint32("num_participants", room.numParticipants);
    CodecsRoundTrip(room.enabledCodecs, []);
    Ok(P.Room(room.sid, room.name, emptyTimeout, maxParticipants, creationTime, room.turnPassword,
              codecs, room.metadata, numParticipants, room.activeRecording))
  }

  lemma RoomDecodeEncode(p: P.Room)
    ensures RoomToLk(RoomFromLk(p)) == Ok(p)
  {
    CodecsRoundTrip([], p.enabledCodecs);
  }

  datatype VideoConfiguration = VideoConfiguration(hardwareEncoder: ClientConfigSetting)

  function VideoConfigurationFromLk(p: P.VideoConfiguration): (r: Result<VideoConfiguration, PyError>)
    ensures r.Ok? <==> 0 <= p.hardwareEncoder < 3
  {
    var hardwareEncoder :- ClientConfigSetting.FromLk(p.hardwareEncoder);
    Ok(VideoConfiguration(hardwareEncoder))
  }

  function VideoConfigurationToLk(c: VideoConfiguration): (r: P.VideoConfiguration)
    ensures VideoConfigurationFromLk(r) == Ok(c)
  {
    P.VideoConfiguration(c.hardwareEncoder.ToLk())
  }

  lemma VideoConfigurationDecodeEncode(p: P.VideoConfiguration)
    requires VideoConfigurationFromLk(p).Ok?
    ensures VideoConfigurationToLk(VideoConfigurationFromLk(p).value) == p
  {
  }

  datatype DisabledCodecs = DisabledCodecs(codecs: seq<Codec>)

  function DisabledCodecsFromLk(p: P.DisabledCodecs): DisabledCodecs
  {
    DisabledCodecs(Map(p.codecs, CodecFromLk))
  }

  function DisabledCodecsToLk(d: DisabledCodecs): (r: P.DisabledCodecs)
    ensures DisabledCodecsFromLk(r) == d
  {
    CodecsRoundTrip(d.codecs, []);
    P.DisabledCodecs(Map(d.codecs, CodecToLk))
  }

  lemma DisabledCodecsDecodeEncode(p: P.DisabledCodecs)
    ensures DisabledCodecsToLk(DisabledCodecsFromLk(p)) == p
  {
    CodecsRoundTrip([], p.codecs);
  }

  datatype ClientConfiguration = ClientConfiguration(
    video: VideoConfiguration, screen: VideoConfiguration, resumeConnection: ClientConfigSetting,
    disabledCodecs: DisabledCodecs, forceRelay: ClientConfigSetting)

  function ClientConfigurationFromLk(p: P.ClientConfiguration): (r: Result<ClientConfiguration, PyError>)
    ensures r.Ok? <==> 0 <= p.video.hardwareEncoder < 3 && 0 <= p.screen.hardwareEncoder < 3
                       && 0 <= p.resumeConnection < 3 && 0 <= p.forceRelay < 3
  {
    var video :- VideoConfigurationFromLk(p.video);
    var screen :- VideoConfigurationFromLk(p.screen);
    var resumeConnection :- ClientConfigSetting.FromLk(p.resumeConnection);
    var disabledCodecs := DisabledCodecsFromLk(p.disabledCodecs);
    var forceRelay :- ClientConfigSetting.FromLk(p.forceRelay);
    Ok(ClientConfiguration(video, screen, resumeConnection, disabledCodecs, forceRelay))
  }

  function ClientConfigurationToLk(c: ClientConfiguration): (r: P.ClientConfiguration)
    ensures ClientConfigurationFromLk(r) == Ok(c)
  {
    P.ClientConfiguration(VideoConfigurationToLk(c.video), VideoConfigurationToLk(c.screen),
                          c.resumeConnection.ToLk(), DisabledCodecsToLk(c.disabledCodecs), c.forceRelay.ToLk())
  }

  lemma ClientConfigurationDecodeEncode(p: P.ClientConfiguration)
    requires ClientConfigurationFromLk(p).Ok?
    ensures ClientConfigurationToLk(ClientConfigurationFromLk(p).value) == p
  {
    DisabledCodecsDecodeEncode(p.disabledCodecs);
  }

  datatype ServerInfo = ServerInfo(
    edition: ServerInfoEdition, version: string, protocol: int, region: string, nodeId: string, debugInfo: string)

  function ServerInfoFromLk(p: P.ServerInfo): (r: Result<ServerInfo, PyError>)
    ensures r.Ok? <==> 0 <= p.edition < 2
  {
    var edition :- ServerInfoEdition.FromLk(p.edition);
    Ok(ServerInfo(edition, p.version, p.protocol, p.region, p.nodeId, p.debugInfo))
  }

  function ServerInfoToLk(s: ServerInfo): (r: Result<P.ServerInfo, PyError>)
    ensures r.Ok? <==> s.edition != ServerInfoEdition.NONE && P.IsInt32(s.protocol)
    ensures r.Ok? ==> ServerInfoFromLk(r.value) == Ok(s)
  {
    var edition :- s.edition.ToLk();
    var protocol :- P.CheckInt32("protocol", s.protocol);
    Ok(P.ServerInfo(edition, s.version, protocol, s.region, s.nodeId, s.debugInfo))
  }

  lemma ServerInfoDecodeEncode(p: P.ServerInfo)
    requires ServerInfoFromLk(p).Ok?
    ensures ServerInfoToLk(ServerInfoFromLk(p).value) == Ok(p)
  {
  }

  datatype SpeakerInfo = SpeakerInfo(sid: string, level: real, active: bool)

  function SpeakerInfoFromLk(p: P.SpeakerInfo): SpeakerInfo
  {
    SpeakerInfo(p.sid, p.level, p.active)
  }

  function SpeakerInfoToLk(s: SpeakerInfo): (r: P.SpeakerInfo)
    ensures SpeakerInfoFromLk(r) == s
  {
    P.SpeakerInfo(s.sid, s.level, s.active)
  }

  lemma SpeakerInfoDecodeEncode(p: P.SpeakerInfo)
    ensures SpeakerInfoToLk(SpeakerInfoFromLk(p)) == p
  {
  }

  datatype ParticipantTracks = ParticipantTracks(participantSid: string, trackSids: seq<string>)

  function ParticipantTracksFromLk(p: P.ParticipantTracks): ParticipantTracks
  {
    ParticipantTracks(p.participantSid, p.trackSids)
  }

  function ParticipantTracksToLk(t: ParticipantTracks): (r: P.ParticipantTracks)
    ensures ParticipantTracksFromLk(r) == t
  {
    P.ParticipantTracks(t.participantSid, t.trackSids)
  }

  lemma ParticipantTracksDecodeEncode(p: P.ParticipantTracks)
    ensures ParticipantTracksToLk(ParticipantTracksFromLk(p)) == p
  {
  }

  // ---------------------------------------------------------------------------------
  // livekit_rtc

  datatype ICEServer = ICEServer(urls: seq<string>, username: string, credential: string)

  function ICEServerFromLk(p: P.ICEServer): ICEServer
  {
    ICEServer(p.urls, p.username, p.credential)
  }

  function ICEServerToLk(s: ICEServer): (r: P.ICEServer)
    ensures ICEServerFromLk(r) == s
  {
    P.ICEServer(s.urls, s.username, s.credential)
  }

  lemma ICEServerDecodeEncode(p: P.ICEServer)
    ensures ICEServerToLk(ICEServerFromLk(p)) == p
  {
  }

  datatype JoinResponse = JoinResponse(
    room: Room, participant: ParticipantInfo, otherParticipants: seq<ParticipantInfo>,
    serverVersion: string, iceServers: seq<ICEServer>, subscriberPrimary: bool,
    alternativeUrl: string, clientConfiguration: ClientConfiguration, serverRegion: string,
    pingTimeout: int, pingInterval: int, serverInfo: ServerInfo)

  function JoinResponseFromLk(p: P.JoinResponse): (r: Result<JoinResponse, PyError>)
    ensures r.Ok? <==> ParticipantInfoFromLk(p.participant).Ok? && AllOk(p.otherParticipants, ParticipantInfoFromLk)
                       && ClientConfigurationFromLk(p.clientConfiguration).Ok? && ServerInfoFromLk(p.serverInfo).Ok?
  {
    var room := RoomFromLk(p.room);
    var participant :- ParticipantInfoFromLk(p.participant);
    var others :- MapAll(p.otherParticipants, ParticipantInfoFromLk);
    var iceServers := Map(p.iceServers, ICEServerFromLk);
    var clientConfiguration :- ClientConfigurationFromLk(p.clientConfiguration);
    var serverInfo :- ServerInfoFromLk(p.serverInfo);
    Ok(JoinResponse(room, participant, others, p.serverVersion, iceServers, p.subscriberPrimary,
                    p.alternativeUrl, clientConfiguration, p.serverRegion, p.pingTimeout, p.pingInterval,
                    serverInfo))
  }

  function JoinResponseToLk(j: JoinResponse): (r: Result<P.JoinResponse, PyError>)
    ensures r.Ok? <==> RoomToLk(j.room).Ok? && ParticipantInfoToLk(j.participant).Ok?
                       && AllOk(j.otherParticipants, ParticipantInfoToLk) && ServerInfoToLk(j.serverInfo).Ok?
                       && P.IsInt32(j.pingTimeout) && P.IsInt32(j.pingInterval)
    ensures r.Ok? ==> JoinResponseFromLk(r.value) == Ok(j)
  {
    var room :- RoomToLk(j.room);
    var participant :- ParticipantInfoToLk(j.participant);
    var others :- MapAll(j.otherParticipants, ParticipantInfoToLk);
    var iceServers := Map(j.iceServers, ICEServerToLk);
    var clientConfiguration := ClientConfigurationToLk(j.clientConfiguration);
    var serverInfo :- ServerInfoToLk(j.serverInfo);
    var pingTimeout :- P.CheckInt32("ping_timeout", j.pingTimeout);
    var pingInterval :- P.CheckInt32("ping_interval", j.pingInterval);
    MapAllInverse(j.otherParticipants, ParticipantInfoToLk, ParticipantInfoFromLk);
    MapInverse(j.iceServers, ICEServerToLk, ICEServerFromLk);
    Ok(P.JoinResponse(room, participant, others, j.serverVersion, iceServers, j.subscriberPrimary,
                      j.alternativeUrl, clientConfiguration, j.serverRegion, pingTimeout, pingInterval,
                      serverInfo))
  }

  lemma JoinResponseDecodeEncode(p: P.JoinResponse)
    requires JoinResponseFromLk(p).Ok?
    ensures JoinResponseToLk(JoinResponseFromLk(p).value) == Ok(p)
  {
    RoomDecodeEncode(p.room);
    ParticipantInfoDecodeEncode(p.participant);
    ParticipantInfosDecodeEncode(p.otherParticipants);
    MapInverse(p.iceServers, ICEServerFromLk, ICEServerToLk);
    ClientConfigurationDecodeEncode(p.clientConfiguration);
  }

  /** `candidate` holds the `candidateInit` text; its parse into an ICE candidate object,
      and the ValueError or KeyError that parse raises on malformed text, are not part
      of this model. */
  datatype TrickleRequest = TrickleRequest(candidate: string, target: SignalTarget)

  function TrickleRequestFromLk(p: P.TrickleRequest): (r: Result<TrickleRequest, PyError>)
    ensures r.Ok? <==> 0 <= p.target < 2
    ensures r.Ok? ==> r.value.candidate == p.candidateInit && r.value.target.ToLk() == Ok(p.target)
  {
    var target :- SignalTarget.FromLk(p.target);
    Ok(TrickleRequest(p.candidateInit, target))
  }

  /** `to_lk` hands the whole SignalRequest built by `aio_to_proto_candidate` to the string
      field `candidateInit`, which the protobuf constructor refuses with a TypeError. */
  function TrickleRequestToLk(t: TrickleRequest): (r: Result<P.TrickleRequest, PyError>)
    ensures r.Err?
    ensures r.error == if t.target == SignalTarget.NONE then UnmappedEnumMember("SignalTarget")
                       else WrongFieldType("candidateInit")
  {
    var _ :- t.target.ToLk();
    Err(WrongFieldType("candidateInit"))
  }

  datatype MuteTrackRequest = MuteTrackRequest(sid: string, muted: bool)

  function MuteTrackRequestFromLk(p: P.MuteTrackRequest): MuteTrackRequest
  {
    MuteTrackRequest(p.sid, p.muted)
  }

  function MuteTrackRequestToLk(m: MuteTrackRequest): (r: P.MuteTrackRequest)
    ensures MuteTrackRequestFromLk(r) == m
  {
    P.MuteTrackRequest(m.sid, m.muted)
  }

  lemma MuteTrackRequestDecodeEncode(p: P.MuteTrackRequest)
    ensures MuteTrackRequestToLk(MuteTrackRequestFromLk(p)) == p
  {
  }

  datatype ParticipantUpdate = ParticipantUpdate(participants: seq<ParticipantInfo>)

  function ParticipantUpdateFromLk(p: P.ParticipantUpdate): (r: Result<ParticipantUpdate, PyError>)
    ensures r.Ok? <==> AllOk(p.participants, ParticipantInfoFromLk)
  {
    var participants :- MapAll(p.participants, ParticipantInfoFromLk);
    Ok(ParticipantUpdate(participants))
  }

  function ParticipantUpdateToLk(u: ParticipantUpdate): (r: Result<P.ParticipantUpdate, PyError>)
    ensures r.Ok? <==> AllOk(u.participants, ParticipantInfoToLk)
    ensures r.Ok? ==> ParticipantUpdateFromLk(r.value) == Ok(u)
  {
    var participants :- MapAll(u.participants, ParticipantInfoToLk);
    MapAllInverse(u.participants, ParticipantInfoToLk, ParticipantInfoFromLk);
    Ok(P.ParticipantUpdate(participants))
  }

  lemma ParticipantUpdateDecodeEncode(p: P.ParticipantUpdate)
    requires ParticipantUpdateFromLk(p).Ok?
    ensures ParticipantUpdateToLk(ParticipantUpdateFromLk(p).value) == Ok(p)
  {
    ParticipantInfosDecodeEncode(p.participants);
  }

  datatype TrackPublishedResponse = TrackPublishedResponse(cid: string, track: TrackInfo)

  function TrackPublishedResponseFromLk(p: P.TrackPublishedResponse): (r: Result<TrackPublishedResponse, PyError>)
    ensures r.Ok? <==> TrackInfoFromLk(p.track).Ok?
  {
    var track :- TrackInfoFromLk(p.track);
    Ok(TrackPublishedResponse(p.cid, track))
  }

  function TrackPublishedResponseToLk(t: TrackPublishedResponse): (r: Result<P.TrackPublishedResponse, PyError>)
    ensures r.Ok? <==> TrackInfoToLk(t.track).Ok?
    ensures r.Ok? ==> TrackPublishedResponseFromLk(r.value) == Ok(t)
  {
    var track :- TrackInfoToLk(t.track);
    Ok(P.TrackPublishedResponse(t.cid, track))
  }

  lemma TrackPublishedResponseDecodeEncode(p: P.TrackPublishedResponse)
    requires TrackPublishedResponseFromLk(p).Ok?
    ensures TrackPublishedResponseToLk(TrackPublishedResponseFromLk(p).value) == Ok(p)
  {
    TrackInfoDecodeEncode(p.track);
  }

  datatype LeaveRequest = LeaveRequest(canReconnect: bool, reason: DisconnectReason)

  function LeaveRequestFromLk(p: P.LeaveRequest): (r: Result<LeaveRequest, PyError>)
    ensures r.Ok? <==> 0 <= p.reason < 8
  {
    var reason :- DisconnectReason.FromLk(p.reason);
    Ok(LeaveRequest(p.canReconnect, reason))
  }

  function LeaveRequestToLk(l: LeaveRequest): (r: P.LeaveRequest)
    ensures LeaveRequestFromLk(r) == Ok(l)
  {
    P.LeaveRequest(l.canReconnect, l.reason.ToLk())
  }

  lemma LeaveRequestDecodeEncode(p: P.LeaveRequest)
    requires LeaveRequestFromLk(p).Ok?
    ensures LeaveRequestToLk(LeaveRequestFromLk(p).value) == p
  {
  }

  datatype SpeakersChanged = SpeakersChanged(speakers: seq<SpeakerInfo>)

  function SpeakersChangedFromLk(p: P.SpeakersChanged): SpeakersChanged
  {
    SpeakersChanged(Map(p.speakers, SpeakerInfoFromLk))
  }

  function SpeakersChangedToLk(s: SpeakersChanged): (r: P.SpeakersChanged)
    ensures SpeakersChangedFromLk(r) == s
  {
    MapInverse(s.speakers, SpeakerInfoToLk, SpeakerInfoFromLk);
    P.SpeakersChanged(Map(s.speakers, SpeakerInfoToLk))
  }

  lemma SpeakersChangedDecodeEncode(p: P.SpeakersChanged)
    ensures SpeakersChangedToLk(SpeakersChangedFromLk(p)) == p
  {
    MapInverse(p.speakers, SpeakerInfoFromLk, SpeakerInfoToLk);
  }

  datatype RoomUpdate = RoomUpdate(room: Room)

  function RoomUpdateFromLk(p: P.RoomUpdate): RoomUpdate
  {
    RoomUpdate(RoomFromLk(p.room))
  }

  function RoomUpdateToLk(u: RoomUpdate): (r: Result<P.RoomUpdate, PyError>)
    ensures r.Ok? <==> RoomToLk(u.room).Ok?
    ensures r.Ok? ==> RoomUpdateFromLk(r.value) == u
  {
    var room :- RoomToLk(u.room);
    Ok(P.RoomUpdate(room))
  }

  lemma RoomUpdateDecodeEncode(p: P.RoomUpdate)
    ensures RoomUpdateToLk(RoomUpdateFromLk(p)) == Ok(p)
  {
    RoomDecodeEncode(p.room);
  }

  datatype ConnectionQualityInfo = ConnectionQualityInfo(participantSid: string, quality: ConnectionQuality, score: real)

  function ConnectionQualityInfoFromLk(p: P.ConnectionQualityInfo): (r: Result<ConnectionQualityInfo, PyError>)
    ensures r.Ok? <==> 0 <= p.quality < 3
  {
    var quality :- ConnectionQuality.FromLk(p.quality);
    Ok(ConnectionQualityInfo(p.participantSid, quality, p.score))
  }

  function ConnectionQualityInfoToLk(c: ConnectionQualityInfo): (r: P.ConnectionQualityInfo)
    ensures ConnectionQualityInfoFromLk(r) == Ok(c)
  {
    P.ConnectionQualityInfo(c.participantSid, c.quality.ToLk(), c.score)
  }

  lemma ConnectionQualityInfoDecodeEncode(p: P.ConnectionQualityInfo)
    requires ConnectionQualityInfoFromLk(p).Ok?
    ensures ConnectionQualityInfoToLk(ConnectionQualityInfoFromLk(p).value) == p
  {
  }

  datatype ConnectionQualityUpdate = ConnectionQualityUpdate(updates: seq<ConnectionQualityInfo>)

  function ConnectionQualityUpdateFromLk(p: P.ConnectionQualityUpdate): (r: Result<ConnectionQualityUpdate, PyError>)
    ensures r.Ok? <==> AllOk(p.updates, ConnectionQualityInfoFromLk)
  {
    var updates :- MapAll(p.updates, ConnectionQualityInfoFromLk);
    Ok(ConnectionQualityUpdate(updates))
  }

  function ConnectionQualityUpdateToLk(u: ConnectionQualityUpdate): (r: P.ConnectionQualityUpdate)
    ensures ConnectionQualityUpdateFromLk(r) == Ok(u)
  {
    MapThenMapAll(u.updates, ConnectionQualityInfoToLk, ConnectionQualityInfoFromLk);
    P.ConnectionQualityUpdate(Map(u.updates, ConnectionQualityInfoToLk))
  }

  lemma ConnectionQualityUpdateDecodeEncode(p: P.ConnectionQualityUpdate)
    requires ConnectionQualityUpdateFromLk(p).Ok?
    ensures ConnectionQualityUpdateToLk(ConnectionQualityUpdateFromLk(p).value) == p
  {
    MapAllThenMap(p.updates, ConnectionQualityInfoFromLk, ConnectionQualityInfoToLk);
  }

  datatype StreamStateInfo = StreamStateInfo(participantSid: string, trackSid: string, state: StreamState)

  function StreamStateInfoFromLk(p: P.StreamStateInfo): (r: Result<StreamStateInfo, PyError>)
    ensures r.Ok? <==> 0 <= p.state < 2
  {
    var state :- StreamState.FromLk(p.state);
    Ok(StreamStateInfo(p.participantSid, p.trackSid, state))
  }

  function StreamStateInfoToLk(s: StreamStateInfo): (r: P.StreamStateInfo)
    ensures StreamStateInfoFromLk(r) == Ok(s)
  {
    P.StreamStateInfo(s.participantSid, s.trackSid, s.state.ToLk())
  }

  lemma StreamStateInfoDecodeEncode(p: P.StreamStateInfo)
    requires StreamStateInfoFromLk(p).Ok?
    ensures StreamStateInfoToLk(StreamStateInfoFromLk(p).value) == p
  {
  }

  datatype StreamStateUpdate = StreamStateUpdate(streamStates: seq<StreamStateInfo>)

  function StreamStateUpdateFromLk(p: P.StreamStateUpdate): (r: Result<StreamStateUpdate, PyError>)
    ensures r.Ok? <==> AllOk(p.streamStates, StreamStateInfoFromLk)
  {
    var states :- MapAll(p.streamStates, StreamStateInfoFromLk);
    Ok(StreamStateUpdate(states))
  }

  function StreamStateUpdateToLk(u: StreamStateUpdate): (r: P.StreamStateUpdate)
    ensures StreamStateUpdateFromLk(r) == Ok(u)
  {
    MapThenMapAll(u.streamStates, StreamStateInfoToLk, StreamStateInfoFromLk);
    P.StreamStateUpdate(Map(u.streamStates, StreamStateInfoToLk))
  }

  lemma StreamStateUpdateDecodeEncode(p: P.StreamStateUpdate)
    requires StreamStateUpdateFromLk(p).Ok?
    ensures StreamStateUpdateToLk(StreamStateUpdateFromLk(p).value) == p
  {
    MapAllThenMap(p.streamStates, StreamStateInfoFromLk, StreamStateInfoToLk);
  }

  datatype SubscribedQuality = SubscribedQuality(quality: VideoQuality, enabled: bool)

  function SubscribedQualityFromLk(p: P.SubscribedQuality): (r: Result<SubscribedQuality, PyError>)
    ensures r.Ok? <==> 0 <= p.quality < 4
  {
    var quality :- VideoQuality.FromLk(p.quality);
    Ok(SubscribedQuality(quality, p.enabled))
  }

  function SubscribedQualityToLk(q: SubscribedQuality): (r: Result<P.SubscribedQuality, PyError>)
    ensures r.Ok? <==> q.quality != VideoQuality.NONE
    ensures r.Ok? ==> SubscribedQualityFromLk(r.value) == Ok(q)
  {
    var quality :- q.quality.ToLk();
    Ok(P.SubscribedQuality(quality, q.enabled))
  }

  lemma SubscribedQualitiesDecodeEncode(ps: seq<P.SubscribedQuality>)
    requires MapAll(ps, SubscribedQualityFromLk).Ok?
    ensures MapAll(MapAll(ps, SubscribedQualityFromLk).value, SubscribedQualityToLk) == Ok(ps)
  {
    MapAllInverse(ps, SubscribedQualityFromLk, SubscribedQualityToLk);
  }

  datatype SubscribedCodec = SubscribedCodec(codec: string, qualities: seq<SubscribedQuality>)

  function SubscribedCodecFromLk(p: P.SubscribedCodec): (r: Result<SubscribedCodec, PyError>)
    ensures r.Ok? <==> AllOk(p.qualities, SubscribedQualityFromLk)
  {
    var qualities :- MapAll(p.qualities, SubscribedQualityFromLk);
    Ok(SubscribedCodec(p.codec, qualities))
  }

  function SubscribedCodecToLk(c: SubscribedCodec): (r: Result<P.SubscribedCodec, PyError>)
    ensures r.Ok? <==> AllOk(c.qualities, SubscribedQualityToLk)
    ensures r.Ok? ==> SubscribedCodecFromLk(r.value) == Ok(c)
  {
    var qualities :- MapAll(c.qualities, SubscribedQualityToLk);
    MapAllInverse(c.qualities, SubscribedQualityToLk, SubscribedQualityFromLk);
    Ok(P.SubscribedCodec(c.codec, qualities))
  }

  lemma SubscribedCodecDecodeEncode(p: P.SubscribedCodec)
    requires SubscribedCodecFromLk(p).Ok?
    ensures SubscribedCodecToLk(SubscribedCodecFromLk(p).value) == Ok(p)
  {
    SubscribedQualitiesDecodeEncode(p.qualities);
  }

  datatype SubscribedQualityUpdate = SubscribedQualityUpdate(
    trackSid: string, subscribedQualities: seq<SubscribedQuality>, subscribedCodecs: seq<SubscribedCodec>)

  function SubscribedQualityUpdateFromLk(p: P.SubscribedQualityUpdate): (r: Result<SubscribedQualityUpdate, PyError>)
    ensures r.Ok? <==> AllOk(p.subscribedQualities, SubscribedQualityFromLk) && AllOk(p.subscribedCodecs, SubscribedCodecFromLk)
  {
    var qualities :- MapAll(p.subscribedQualities, SubscribedQualityFromLk);
    var codecs :- MapAll(p.subscribedCodecs, SubscribedCodecFromLk);
    Ok(SubscribedQualityUpdate(p.trackSid, qualities, codecs))
  }

  function SubscribedQualityUpdateToLk(u: SubscribedQualityUpdate): (r: Result<P.SubscribedQualityUpdate, PyError>)
    ensures r.Ok? <==> AllOk(u.subscribedQualities, SubscribedQualityToLk) && AllOk(u.subscribedCodecs, SubscribedCodecToLk)
    ensures r.Ok? ==> SubscribedQualityUpdateFromLk(r.value) == Ok(u)
  {
    var qualities :- MapAll(u.subscribedQualities, SubscribedQualityToLk);
    var codecs :- MapAll(u.subscribedCodecs, SubscribedCodecToLk);
    MapAllInverse(u.subscribedQualities, SubscribedQualityToLk, SubscribedQualityFromLk);
    MapAllInverse(u.subscribedCodecs, SubscribedCodecToLk, SubscribedCodecFromLk);
    Ok(P.SubscribedQualityUpdate(u.trackSid, qualities, codecs))
  }

  lemma SubscribedQualityUpdateDecodeEncode(p: P.SubscribedQualityUpdate)
    requires SubscribedQualityUpdateFromLk(p).Ok?
    ensures SubscribedQualityUpdateToLk(SubscribedQualityUpdateFromLk(p).value) == Ok(p)
  {
    SubscribedQualitiesDecodeEncode(p.subscribedQualities);
    forall i | 0 <= i < |p.subscribedCodecs| && SubscribedCodecFromLk(p.subscribedCodecs[i]).Ok?
      ensures SubscribedCodecToLk(SubscribedCodecFromLk(p.subscribedCodecs[i]).value) == Ok(p.subscribedCodecs[i])
    {
      SubscribedCodecDecodeEncode(p.subscribedCodecs[i]);
    }
    MapAllInverse(p.subscribedCodecs, SubscribedCodecFromLk, SubscribedCodecToLk);
  }

  datatype SubscriptionPermissionUpdate = SubscriptionPermissionUpdate(
    participantSid: string, trackSid: string, allowed: bool)

  function SubscriptionPermissionUpdateFromLk(p: P.SubscriptionPermissionUpdate): SubscriptionPermissionUpdate
  {
    SubscriptionPermissionUpdate(p.participantSid, p.trackSid, p.allowed)
  }

  function SubscriptionPermissionUpdateToLk(u: SubscriptionPermissionUpdate): (r: P.SubscriptionPermissionUpdate)
    ensures SubscriptionPermissionUpdateFromLk(r) == u
  {
    P.SubscriptionPermissionUpdate(u.participantSid, u.trackSid, u.allowed)
  }

  lemma SubscriptionPermissionUpdateDecodeEncode(p: P.SubscriptionPermissionUpdate)
    ensures SubscriptionPermissionUpdateToLk(SubscriptionPermissionUpdateFromLk(p)) == p
  {
  }

  datatype TrackUnpublishedResponse = TrackUnpublishedResponse(trackSid: string)

  function TrackUnpublishedResponseFromLk(p: P.TrackUnpublishedResponse): TrackUnpublishedResponse
  {
    TrackUnpublishedResponse(p.trackSid)
  }

  function TrackUnpublishedResponseToLk(t: TrackUnpublishedResponse): (r: P.TrackUnpublishedResponse)
    ensures TrackUnpublishedResponseFromLk(r) == t
  {
    P.TrackUnpublishedResponse(t.trackSid)
  }

  lemma TrackUnpublishedResponseDecodeEncode(p: P.TrackUnpublishedResponse)
    ensures TrackUnpublishedResponseToLk(TrackUnpublishedResponseFromLk(p)) == p
  {
  }

  datatype SimulcastCodec = SimulcastCodec(codec: string, cid: string, enableSimulcastLayers: bool)

  function SimulcastCodecFromLk(p: P.SimulcastCodec): SimulcastCodec
  {
    SimulcastCodec(p.codec, p.cid, p.enableSimulcastLayers)
  }

  function SimulcastCodecToLk(c: SimulcastCodec): (r: P.SimulcastCodec)
    ensures SimulcastCodecFromLk(r) == c
  {
    P.SimulcastCodec(c.codec, c.cid, c.enableSimulcastLayers)
  }

  lemma SimulcastCodecDecodeEncode(p: P.SimulcastCodec)
    ensures SimulcastCodecToLk(SimulcastCodecFromLk(p)) == p
  {
  }

  datatype AddTrackRequest = AddTrackRequest(
    cid: string, name: string, trackType: TrackType, width: int, height: int, muted: bool,
    disableDtx: bool, source: TrackSource, layers: seq<VideoLayer>, simulcastCodecs: seq<SimulcastCodec>,
    sid: string, stereo: bool, disableRed: bool)

  function AddTrackRequestFromLk(p: P.AddTrackRequest): (r: Result<AddTrackRequest, PyError>)
    ensures r.Ok? <==> 0 <= p.trackType < 3 && 0 <= p.source < 5 && AllOk(p.layers, VideoLayerFromLk)
  {
    var trackType :- TrackType.FromLk(p.trackType);
    var source :- TrackSource.FromLk(p.source);
    var layers :- MapAll(p.layers, VideoLayerFromLk);
    Ok(AddTrackRequest(p.cid, p.name, trackType, p.width, p.height, p.muted, p.disableDtx, source, layers,
                       Map(p.simulcastCodecs, SimulcastCodecFromLk), p.sid, p.stereo, p.disableRed))
  }

  function AddTrackRequestToLk(a: AddTrackRequest): (r: Result<P.AddTrackRequest, PyError>)
    ensures r.Ok? <==> a.source != TrackSource.NONE && AllOk(a.layers, VideoLayerToLk)
                       && P.IsUint32(a.width) && P.IsUint32(a.height)
    ensures r.Ok? ==> AddTrackRequestFromLk(r.value) == Ok(a)
  {
    var trackType := a.trackType.ToLk();
    var source :- a.source.ToLk();
    var layers :- MapAll(a.layers, VideoLayerToLk);
    var codecs := Map(a.simulcastCodecs, SimulcastCodecToLk);
    var width :- P.CheckUint32("width", a.width);
    var height :- P.CheckUint32("height", a.height);
    MapAllInverse(a.layers, VideoLayerToLk, VideoLayerFromLk);
    MapInverse(a.simulcastCodecs, SimulcastCodecToLk, SimulcastCodecFromLk);
    Ok(P.AddTrackRequest(a.cid, a.name, trackType, width, height, a.muted, a.disableDtx, source, layers,
                         codecs, a.sid, a.stereo, a.disableRed))
  }

  lemma AddTrackRequestDecodeEncode(p: P.AddTrackRequest)
    requires AddTrackRequestFromLk(p).Ok?
    ensures AddTrackRequestToLk(AddTrackRequestFromLk(p).value) == Ok(p)
  {
    var a := AddTrackRequestFromLk(p).value;
    TrackTypeWireRoundTrip(p.trackType);
    TrackSourceWireRoundTrip(p.source);
    VideoLayersDecodeEncode(p.layers);
    MapInverse(p.simulcastCodecs, SimulcastCodecFromLk, SimulcastCodecToLk);
    assert a.layers == MapAll(p.layers, VideoLayerFromLk).value;
  }

  datatype UpdateSubscription = UpdateSubscription(
    trackSids: seq<string>, subscribe: bool, participantTracks: seq<ParticipantTracks>)

  function UpdateSubscriptionFromLk(p: P.UpdateSubscription): UpdateSubscription
  {
    UpdateSubscription(p.trackSids, p.subscribe, Map(p.participantTracks, ParticipantTracksFromLk))
  }

  function UpdateSubscriptionToLk(u: UpdateSubscription): (r: P.UpdateSubscription)
    ensures UpdateSubscriptionFromLk(r) == u
  {
    MapInverse(u.participantTracks, ParticipantTracksToLk, ParticipantTracksFromLk);
    P.UpdateSubscription(u.trackSids, u.subscribe, Map(u.participantTracks, ParticipantTracksToLk))
  }

  lemma UpdateSubscriptionDecodeEncode(p: P.UpdateSubscription)
    ensures UpdateSubscriptionToLk(UpdateSubscriptionFromLk(p)) == p
  {
    MapInverse(p.participantTracks, ParticipantTracksFromLk, ParticipantTracksToLk);
  }

  /** `quality` may be left at None: `to_lk` then passes None, which leaves the protobuf
      field unset, i.e. wire value 0 (LOW). */
  datatype UpdateTrackSettings = UpdateTrackSettings(
    trackSids: seq<string>, disabled: bool, quality: Option<VideoQuality>, width: int, height: int, fps: int)

  function UpdateTrackSettingsFromLk(p: P.UpdateTrackSettings): (r: Result<UpdateTrackSettings, PyError>)
    ensures r.Ok? <==> 0 <= p.quality < 4
    ensures r.Ok? ==> r.value.quality.Some?
  {
    var quality :- VideoQuality.FromLk(p.quality);
    Ok(UpdateTrackSettings(p.trackSids, p.disabled, Some(quality), p.width, p.height, p.fps))
  }

  function UpdateTrackSettingsToLk(u: UpdateTrackSettings): (r: Result<P.UpdateTrackSettings, PyError>)
    ensures r.Ok? <==> u.quality != Some(VideoQuality.NONE) && P.IsUint32(u.width) && P.IsUint32(u.height)
                       && P.IsUint32(u.fps)
    ensures r.Ok? && u.quality.Some? ==> UpdateTrackSettingsFromLk(r.value) == Ok(u)
    ensures r.Ok? && u.quality.None? ==> UpdateTrackSettingsFromLk(r.value) == Ok(u.(quality := Some(VideoQuality.LOW)))
  {
    var quality :- if u.quality.Some? then u.quality.value.ToLk() else Ok(0);
    var width :- P.CheckUint32("width", u.width);
    var height :- P.CheckUint32("height", u.height);
    var fps :- P.CheckUint32("fps", u.fps);
    Ok(P.UpdateTrackSettings(u.trackSids, u.disabled, quality, width, height, fps))
  }

  lemma UpdateTrackSettingsDecodeEncode(p: P.UpdateTrackSettings)
    requires UpdateTrackSettingsFromLk(p).Ok?
    ensures UpdateTrackSettingsToLk(UpdateTrackSettingsFromLk(p).value) == Ok(p)
  {
  }

  datatype UpdateVideoLayers = UpdateVideoLayers(trackSid: string, layers: seq<VideoLayer>)

  function UpdateVideoLayersFromLk(p: P.UpdateVideoLayers): (r: Result<UpdateVideoLayers, PyError>)
    ensures r.Ok? <==> AllOk(p.layers, VideoLayerFromLk)
  {
    var layers :- MapAll(p.layers, VideoLayerFromLk);
    Ok(UpdateVideoLayers(p.trackSid, layers))
  }

  function UpdateVideoLayersToLk(u: UpdateVideoLayers): (r: Result<P.UpdateVideoLayers, PyError>)
    ensures r.Ok? <==> AllOk(u.layers, VideoLayerToLk)
    ensures r.Ok? ==> UpdateVideoLayersFromLk(r.value) == Ok(u)
  {
    var layers :- MapAll(u.layers, VideoLayerToLk);
    MapAllInverse(u.layers, VideoLayerToLk, VideoLayerFromLk);
    Ok(P.UpdateVideoLayers(u.trackSid, layers))
  }

  lemma UpdateVideoLayersDecodeEncode(p: P.UpdateVideoLayers)
    requires UpdateVideoLayersFromLk(p).Ok?
    ensures UpdateVideoLayersToLk(UpdateVideoLayersFromLk(p).value) == Ok(p)
  {
    VideoLayersDecodeEncode(p.layers);
  }

  datatype TrackPermission = TrackPermission(
    participantSid: string, allTracks: bool, trackSids: seq<string>, participantIdentity: string)

  function TrackPermissionFromLk(p: P.TrackPermission): TrackPermission
  {
    TrackPermission(p.participantSid, p.allTracks, p.trackSids, p.participantIdentity)
  }

  function TrackPermissionToLk(t: TrackPermission): (r: P.TrackPermission)
    ensures TrackPermissionFromLk(r) == t
  {
    P.TrackPermission(t.participantSid, t.allTracks, t.trackSids, t.participantIdentity)
  }

  lemma TrackPermissionDecodeEncode(p: P.TrackPermission)
    ensures TrackPermissionToLk(TrackPermissionFromLk(p)) == p
  {
  }

  datatype SubscriptionPermission = SubscriptionPermission(
    allParticipants: bool, trackPermissions: seq<TrackPermission>)

  function SubscriptionPermissionFromLk(p: P.SubscriptionPermission): SubscriptionPermission
  {
    SubscriptionPermission(p.allParticipants, Map(p.trackPermissions, TrackPermissionFromLk))
  }

  function SubscriptionPermissionToLk(s: SubscriptionPermission): (r: P.SubscriptionPermission)
    ensures SubscriptionPermissionFromLk(r) == s
  {
    MapInverse(s.trackPermissions, TrackPermissionToLk, TrackPermissionFromLk);
    P.SubscriptionPermission(s.allParticipants, Map(s.trackPermissions, TrackPermissionToLk))
  }

  lemma SubscriptionPermissionDecodeEncode(p: P.SubscriptionPermission)
    ensures SubscriptionPermissionToLk(SubscriptionPermissionFromLk(p)) == p
  {
    MapInverse(p.trackPermissions, TrackPermissionFromLk, TrackPermissionToLk);
  }

  /** `sdpType` is the Python field `type`: "offer", "answer", "pranswer" or "rollback". */
  datatype SessionDescription = SessionDescription(sdpType: string, sdp: string)

  function SessionDescriptionFromLk(p: P.SessionDescription): SessionDescription
  {
    SessionDescription(p.sdpType, p.sdp)
  }

  function SessionDescriptionToLk(d: SessionDescription): (r: P.SessionDescription)
    ensures SessionDescriptionFromLk(r) == d
  {
    P.SessionDescription(d.sdpType, d.sdp)
  }

  lemma SessionDescriptionDecodeEncode(p: P.SessionDescription)
    ensures SessionDescriptionToLk(SessionDescriptionFromLk(p)) == p
  {
  }

  /** Not an LKBase subclass: it has `from_lk`/`to_lk` but no envelope conversions. */
  datatype DataChannelInfo = DataChannelInfo(channelLabel: string, id: int, target: SignalTarget)

  function DataChannelInfoFromLk(p: P.DataChannelInfo): (r: Result<DataChannelInfo, PyError>)
    ensures r.Ok? <==> 0 <= p.target < 2
  {
    var target :- SignalTarget.FromLk(p.target);
    Ok(DataChannelInfo(p.channelLabel, p.id, target))
  }

  function DataChannelInfoToLk(d: DataChannelInfo): (r: Result<P.DataChannelInfo, PyError>)
    ensures r.Ok? <==> d.target != SignalTarget.NONE && P.IsUint32(d.id)
    ensures r.Ok? ==> DataChannelInfoFromLk(r.value) == Ok(d)
  {
    var target :- d.target.ToLk();
    var id :- P.CheckUint32("id", d.id);
    Ok(P.DataChannelInfo(d.channelLabel, id, target))
  }

  lemma DataChannelInfoDecodeEncode(p: P.DataChannelInfo)
    requires DataChannelInfoFromLk(p).Ok?
    ensures DataChannelInfoToLk(DataChannelInfoFromLk(p).value) == Ok(p)
  {
  }

  datatype SyncState = SyncState(
    answer: SessionDescription, subscription: UpdateSubscription,
    publishTracks: seq<TrackPublishedResponse>, dataChannels: seq<DataChannelInfo>,
    offer: SessionDescription)

  function SyncStateFromLk(p: P.SyncState): (r: Result<SyncState, PyError>)
    ensures r.Ok? <==> AllOk(p.publishTracks, TrackPublishedResponseFromLk) && AllOk(p.dataChannels, DataChannelInfoFromLk)
  {
    var publishTracks :- MapAll(p.publishTracks, TrackPublishedResponseFromLk);
    var dataChannels :- MapAll(p.dataChannels, DataChannelInfoFromLk);
    Ok(SyncState(SessionDescriptionFromLk(p.answer), UpdateSubscriptionFromLk(p.subscription),
                 publishTracks, dataChannels, SessionDescriptionFromLk(p.offer)))
  }

  function SyncStateToLk(s: SyncState): (r: Result<P.SyncState, PyError>)
    ensures r.Ok? <==> AllOk(s.publishTracks, TrackPublishedResponseToLk) && AllOk(s.dataChannels, DataChannelInfoToLk)
    ensures r.Ok? ==> SyncStateFromLk(r.value) == Ok(s)
  {
    var publishTracks :- MapAll(s.publishTracks, TrackPublishedResponseToLk);
    var dataChannels :- MapAll(s.dataChannels, DataChannelInfoToLk);
    MapAllInverse(s.publishTracks, TrackPublishedResponseToLk, TrackPublishedResponseFromLk);
    MapAllInverse(s.dataChannels, DataChannelInfoToLk, DataChannelInfoFromLk);
    Ok(P.SyncState(SessionDescriptionToLk(s.answer), UpdateSubscriptionToLk(s.subscription),
                   publishTracks, dataChannels, SessionDescriptionToLk(s.offer)))
  }

  lemma SyncStateDecodeEncode(p: P.SyncState)
    requires SyncStateFromLk(p).Ok?
    ensures SyncStateToLk(SyncStateFromLk(p).value) == Ok(p)
  {
    forall i | 0 <= i < |p.publishTracks| && TrackPublishedResponseFromLk(p.publishTracks[i]).Ok?
      ensures TrackPublishedResponseToLk(TrackPublishedResponseFromLk(p.publishTracks[i]).value) == Ok(p.publishTracks[i])
    {
      TrackPublishedResponseDecodeEncode(p.publishTracks[i]);
    }
    MapAllInverse(p.publishTracks, TrackPublishedResponseFromLk, TrackPublishedResponseToLk);
    MapAllInverse(p.dataChannels, DataChannelInfoFromLk, DataChannelInfoToLk);
    SessionDescriptionDecodeEncode(p.answer);
    SessionDescriptionDecodeEncode(p.offer);
    UpdateSubscriptionDecodeEncode(p.subscription);
  }

  // Wrappers of bare values: `to_lk` returns the int or string itself, so the
  // protobuf range check happens when the envelope is built.

  datatype Ping = Ping(time: int)

  datatype Pong = Pong(time: int)

  datatype RefreshToken = RefreshToken(token: string)
}
