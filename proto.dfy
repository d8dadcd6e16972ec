/** The protobuf side of the codec: the `livekit_models` and `livekit_rtc` messages that the
    wrappers convert to and from, as plain values. Enum-typed fields hold the wire number
    (proto3 enums are open, so any int32 can arrive); integer fields hold values in their
    declared range, which the protobuf constructor enforces. */
module Proto {
  import opened Wrappers
  import opened Exceptions
  import opened FieldNames

  type uint32 = x: int | 0 <= x < 0x1_0000_0000
  type int32 = x: int | -0x8000_0000 <= x < 0x8000_0000
  type int64 = x: int | -0x8000_0000_0000_0000 <= x < 0x8000_0000_0000_0000

  predicate IsUint32(x: int) { 0 <= x < 0x1_0000_0000 }
  predicate IsInt32(x: int) { -0x8000_0000 <= x < 0x8000_0000 }
  predicate IsInt64(x: int) { -0x8000_0000_0000_0000 <= x < 0x8000_0000_0000_0000 }

  /** The range checks the protobuf constructor applies to each integer keyword. */
  function CheckUint32(field: string, x: int): (r: Result<uint32, PyError>)
    ensures r.Ok? <==> IsUint32(x)
    ensures r.Ok? ==> r.value == x
    ensures r.Err? ==> r.error == OutOfRange(field, x)
  {
    if IsUint32(x) then Ok(x) else Err(OutOfRange(field, x))
  }

  function CheckInt32(field: string, x: int): (r: Result<int32, PyError>)
    ensures r.Ok? <==> IsInt32(x)
    ensures r.Ok? ==> r.value == x
    ensures r.Err? ==> r.error == OutOfRange(field, x)
  {
    if IsInt32(x) then Ok(x) else Err(OutOfRange(field, x))
  }

  function CheckInt64(field: string, x: int): (r: Result<int64, PyError>)
    ensures r.Ok? <==> IsInt64(x)
    ensures r.Ok? ==> r.value == x
    ensures r.Err? ==> r.error == OutOfRange(field, x)
  {
    if IsInt64(x) then Ok(x) else Err(OutOfRange(field, x))
  }

  // livekit_models

  datatype VideoLayer = VideoLayer(quality: int32, width: uint32, height: uint32, bitrate: uint32, ssrc: uint32)

  datatype SimulcastCodecInfo = SimulcastCodecInfo(mimeType: string, mid: string, cid: string, layers: seq<VideoLayer>)

  datatype TrackInfo = TrackInfo(
    sid: string, trackType: int32, name: string, muted: bool, width: uint32, height: uint32,
    simulcast: bool, disableDtx: bool, source: int32, layers: seq<VideoLayer>, mimeType: string,
    mid: string, codecs: seq<SimulcastCodecInfo>, stereo: bool, disableRed: bool)

  datatype ParticipantPermission = ParticipantPermission(
    canSubscribe: bool, canPublish: bool, canPublishData: bool, hidden: bool, recorder: bool)

  datatype ParticipantInfo = ParticipantInfo(
    sid: string, identity: string, state: int32, tracks: seq<TrackInfo>, metadata: string,
    joinedAt: int64, name: string, version: uint32, permission: ParticipantPermission,
    region: string, isPublisher: bool)

  datatype Codec = Codec(mime: string, fmtpLine: string)

  datatype Room = Room(
    sid: string, name: string, emptyTimeout: uint32, maxParticipants: uint32, creationTime: int64,
    turnPassword: string, enabledCodecs: seq<Codec>, metadata: string, numParticipants: uint32,
    activeRecording: bool)

  datatype VideoConfiguration = VideoConfiguration(hardwareEncoder: int32)

  datatype DisabledCodecs = DisabledCodecs(codecs: seq<Codec>)

  datatype ClientConfiguration = ClientConfiguration(
    video: VideoConfiguration, screen: VideoConfiguration, resumeConnection: int32,
    disabledCodecs: DisabledCodecs, forceRelay: int32)

  datatype ServerInfo = ServerInfo(
    edition: int32, version: string, protocol: int32, region: string, nodeId: string, debugInfo: string)

  datatype SpeakerInfo = SpeakerInfo(sid: string, level: real, active: bool)

  datatype ParticipantTracks = ParticipantTracks(participantSid: string, trackSids: seq<string>)

  // livekit_rtc

  datatype ICEServer = ICEServer(urls: seq<string>, username: string, credential: string)

  datatype JoinResponse = JoinResponse(
    room: Room, participant: ParticipantInfo, otherParticipants: seq<ParticipantInfo>,
    serverVersion: string, iceServers: seq<ICEServer>, subscriberPrimary: bool,
    alternativeUrl: string, clientConfiguration: ClientConfiguration, serverRegion: string,
    pingTimeout: int32, pingInterval: int32, serverInfo: ServerInfo)

  datatype TrickleRequest = TrickleRequest(candidateInit: string, target: int32)

  datatype MuteTrackRequest = MuteTrackRequest(sid: string, muted: bool)

  datatype ParticipantUpdate = ParticipantUpdate(participants: seq<ParticipantInfo>)

  datatype TrackPublishedResponse = TrackPublishedResponse(cid: string, track: TrackInfo)

  datatype LeaveRequest = LeaveRequest(canReconnect: bool, reason: int32)

  datatype SpeakersChanged = SpeakersChanged(speakers: seq<SpeakerInfo>)

  datatype RoomUpdate = RoomUpdate(room: Room)

  datatype ConnectionQualityInfo = ConnectionQualityInfo(participantSid: string, quality: int32, score: real)

  datatype ConnectionQualityUpdate = ConnectionQualityUpdate(updates: seq<ConnectionQualityInfo>)

  datatype StreamStateInfo = StreamStateInfo(participantSid: string, trackSid: string, state: int32)

  datatype StreamStateUpdate = StreamStateUpdate(streamStates: seq<StreamStateInfo>)

  datatype SubscribedQuality = SubscribedQuality(quality: int32, enabled: bool)

  datatype SubscribedCodec = SubscribedCodec(codec: string, qualities: seq<SubscribedQuality>)

  datatype SubscribedQualityUpdate = SubscribedQualityUpdate(
    trackSid: string, subscribedQualities: seq<SubscribedQuality>, subscribedCodecs: seq<SubscribedCodec>)

  datatype SubscriptionPermissionUpdate = SubscriptionPermissionUpdate(
    participantSid: string, trackSid: string, allowed: bool)

  datatype TrackUnpublishedResponse = TrackUnpublishedResponse(trackSid: string)

  datatype SimulcastCodec = SimulcastCodec(codec: string, cid: string, enableSimulcastLayers: bool)

  datatype AddTrackRequest = AddTrackRequest(
    cid: string, name: string, trackType: int32, width: uint32, height: uint32, muted: bool,
    disableDtx: bool, source: int32, layers: seq<VideoLayer>, simulcastCodecs: seq<SimulcastCodec>,
    sid: string, stereo: bool, disableRed: bool)

  datatype UpdateSubscription = UpdateSubscription(
    trackSids: seq<string>, subscribe: bool, participantTracks: seq<ParticipantTracks>)

  datatype UpdateTrackSettings = UpdateTrackSettings(
    trackSids: seq<string>, disabled: bool, quality: int32, width: uint32, height: uint32, fps: uint32)

  datatype UpdateVideoLayers = UpdateVideoLayers(trackSid: string, layers: seq<VideoLayer>)

  datatype TrackPermission = TrackPermission(
    participantSid: string, allTracks: bool, trackSids: seq<string>, participantIdentity: string)

  datatype SubscriptionPermission = SubscriptionPermission(
    allParticipants: bool, trackPermissions: seq<TrackPermission>)

  datatype SessionDescription = SessionDescription(sdpType: string, sdp: string)

  datatype DataChannelInfo = DataChannelInfo(channelLabel: string, id: uint32, target: int32)

  datatype SyncState = SyncState(
    answer: SessionDescription, subscription: UpdateSubscription,
    publishTracks: seq<TrackPublishedResponse>, dataChannels: seq<DataChannelInfo>,
    offer: SessionDescription)

  /** A value that can sit in one field of the `message` oneof of SignalRequest or SignalResponse. */
  datatype Body =
    | SessionDescriptionBody(sessionDescription: SessionDescription)
    | TrickleBody(trickle: TrickleRequest)
    | AddTrackBody(addTrack: AddTrackRequest)
    | MuteBody(mute: MuteTrackRequest)
    | SubscriptionBody(subscription: UpdateSubscription)
    | TrackSettingBody(trackSetting: UpdateTrackSettings)
    | LeaveBody(leave: LeaveRequest)
    | UpdateLayersBody(updateLayers: UpdateVideoLayers)
    | SubscriptionPermissionBody(subscriptionPermission: SubscriptionPermission)
    | SyncStateBody(syncState: SyncState)
    | JoinBody(join: JoinResponse)
    | UpdateBody(update: ParticipantUpdate)
    | TrackPublishedBody(trackPublished: TrackPublishedResponse)
    | SpeakersChangedBody(speakersChanged: SpeakersChanged)
    | RoomUpdateBody(roomUpdate: RoomUpdate)
    | ConnectionQualityBody(connectionQuality: ConnectionQualityUpdate)
    | StreamStateUpdateBody(streamStateUpdate: StreamStateUpdate)
    | SubscribedQualityUpdateBody(subscribedQualityUpdate: SubscribedQualityUpdate)
    | SubscriptionPermissionUpdateBody(subscriptionPermissionUpdate: SubscriptionPermissionUpdate)
    | TrackUnpublishedBody(trackUnpublished: TrackUnpublishedResponse)
    | Int64Body(number: int64)
    | StringBody(text: string)
      /** A SimulateScenario message, whose fields this model does not describe. */
    | SimulateBody
  /** SignalRequest's `message` oneof: which fields it has, and the type each one holds. */
  predicate RequestFieldAccepts(f: FieldName, b: Body)
  {
    match f
    case OfferField => b.SessionDescriptionBody?
    case AnswerField => b.SessionDescriptionBody?
    case TrickleField => b.TrickleBody?
    case AddTrackField => b.AddTrackBody?
    case MuteField => b.MuteBody?
    case SubscriptionField => b.SubscriptionBody?
    case TrackSettingField => b.TrackSettingBody?
    case LeaveField => b.LeaveBody?
    case UpdateLayersField => b.UpdateLayersBody?
    case SubscriptionPermissionField => b.SubscriptionPermissionBody?
    case SyncStateField => b.SyncStateBody?
    case SimulateField => b.SimulateBody?
    case PingField => b.Int64Body?
    case _ => false
  }

  /** Only the "offer" and "answer" fields of the request take a session description. */
  lemma SessionDescriptionRequestFields(f: FieldName, d: SessionDescription)
    ensures RequestFieldAccepts(f, SessionDescriptionBody(d)) <==> f == OfferField || f == AnswerField
  {
  }

  predicate IsRequestField(f: FieldName)
  {
    f in {OfferField, AnswerField, TrickleField, AddTrackField, MuteField, SubscriptionField,
          TrackSettingField, LeaveField, UpdateLayersField, SubscriptionPermissionField,
          SyncStateField, SimulateField, PingField}
  }

  /** SignalResponse's `message` oneof. */
  predicate ResponseFieldAccepts(f: FieldName, b: Body)
  {
    match f
    case JoinField => b.JoinBody?
    case AnswerField => b.SessionDescriptionBody?
    case OfferField => b.SessionDescriptionBody?
    case TrickleField => b.TrickleBody?
    case UpdateField => b.UpdateBody?
    case TrackPublishedField => b.TrackPublishedBody?
    case LeaveField => b.LeaveBody?
    case MuteField => b.MuteBody?
    case SpeakersChangedField => b.SpeakersChangedBody?
    case RoomUpdateField => b.RoomUpdateBody?
    case ConnectionQualityField => b.ConnectionQualityBody?
    case StreamStateUpdateField => b.StreamStateUpdateBody?
    case SubscribedQualityUpdateField => b.SubscribedQualityUpdateBody?
    case SubscriptionPermissionUpdateField => b.SubscriptionPermissionUpdateBody?
    case RefreshTokenField => b.StringBody?
    case TrackUnpublishedField => b.TrackUnpublishedBody?
    case PongField => b.Int64Body?
    case _ => false
  }

  /** The one field set in an envelope's `message` oneof. */
  datatype Field = Field(name: FieldName, value: Body)

  datatype SignalRequest = SignalRequest(message: Option<Field>)

  datatype SignalResponse = SignalResponse(message: Option<Field>)

  /** The set field is one of the envelope's and holds a value of its type, as the
      protobuf runtime guarantees. */
  predicate WellTypedRequest(r: SignalRequest)
  {
    r.message.Some? ==> RequestFieldAccepts(r.message.value.name, r.message.value.value)
  }

  predicate WellTypedResponse(r: SignalResponse)
  {
    r.message.Some? ==> ResponseFieldAccepts(r.message.value.name, r.message.value.value)
  }

  /** `request.WhichOneof("message")`. */
  function RequestWhich(r: SignalRequest): Option<FieldName>
  {
    if r.message.Some? then Some(r.message.value.name) else None
  }

  /** `response.WhichOneof("message")`. */
  function ResponseWhich(r: SignalResponse): Option<FieldName>
  {
    if r.message.Some? then Some(r.message.value.name) else None
  }

  /** `lkrtc.SignalRequest(**{f: body})` for a keyword naming field `f` of either envelope:
      it must be a SignalRequest field, and the value must have that field's type. */
  function EnvelopeRequest(f: FieldName, body: Body): (r: Result<SignalRequest, PyError>)
    ensures r.Ok? <==> RequestFieldAccepts(f, body)
    ensures r.Ok? ==> WellTypedRequest(r.value) && RequestWhich(r.value) == Some(f) && r.value.message.value.value == body
    ensures !IsRequestField(f) ==> r == Err(NoSuchField("SignalRequest", FieldNameText(f)))
    ensures IsRequestField(f) && !RequestFieldAccepts(f, body) ==> r == Err(WrongFieldType(FieldNameText(f)))
  {
    if !IsRequestField(f) then Err(NoSuchField("SignalRequest", FieldNameText(f)))
    else if RequestFieldAccepts(f, body) then Ok(SignalRequest(Some(Field(f, body))))
    else Err(WrongFieldType(FieldNameText(f)))
  }

  /** `lkrtc.SignalRequest(**{keyword: body})` for an arbitrary keyword string. */
  function NewSignalRequest(keyword: string, body: Body): (r: Result<SignalRequest, PyError>)
    ensures r.Ok? <==> FieldNamed(keyword).Some? && RequestFieldAccepts(FieldNamed(keyword).value, body)
    ensures r.Ok? ==> RequestWhich(r.value) == FieldNamed(keyword) && r.value.message.value.value == body
    ensures FieldNamed(keyword).None? ==> r == Err(NoSuchField("SignalRequest", keyword))
  {
    match FieldNamed(keyword)
    case None => Err(NoSuchField("SignalRequest", keyword))
    case Some(f) => EnvelopeRequest(f, body)
  }
}
