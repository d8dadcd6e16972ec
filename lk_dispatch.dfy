/** The envelope layer of the wrapper module: the per-class tag attributes
    (`__signal_request__`, `__signal_response__`), `LKBase.to_signal_request`,
    `LKBase.from_signal_response`/`from_signal_request`, the SessionDescription overrides,
    `init_maps`, which fills the two tag-to-class dictionaries, and the module-level
    `from_signal_response`/`from_signal_request`, which dispatch through them. */
module LkDispatch {
  import opened Wrappers
  import opened Exceptions
  import P = Proto
  import opened LkTypes
  import opened FieldNames

  /** The module's classes that carry a tag attribute, and every other name in the module. */
  datatype WrapperClass =
    | JoinResponseClass | TrickleRequestClass | MuteTrackRequestClass | ParticipantUpdateClass
    | TrackPublishedResponseClass | LeaveRequestClass | SpeakersChangedClass | RoomUpdateClass
    | ConnectionQualityUpdateClass | StreamStateUpdateClass | SubscribedQualityUpdateClass
    | SubscriptionPermissionUpdateClass | TrackUnpublishedResponseClass | AddTrackRequestClass
    | UpdateSubscriptionClass | UpdateTrackSettingsClass | UpdateVideoLayersClass
    | SubscriptionPermissionClass | SessionDescriptionClass | SyncStateClass
    | PingClass | PongClass | RefreshTokenClass
      /** A module-level name without tag attributes: a class (an LKBase subclass or not),
          an imported module, a function or a global. */
    | Untagged(name: string, isLKBase: bool)

  /** An instance of a tagged class. */
  datatype Message =
    | JoinMsg(join: JoinResponse)
    | TrickleMsg(trickle: TrickleRequest)
    | MuteMsg(mute: MuteTrackRequest)
    | ParticipantUpdateMsg(update: ParticipantUpdate)
    | TrackPublishedMsg(trackPublished: TrackPublishedResponse)
    | LeaveMsg(leave: LeaveRequest)
    | SpeakersChangedMsg(speakersChanged: SpeakersChanged)
    | RoomUpdateMsg(roomUpdate: RoomUpdate)
    | ConnectionQualityMsg(connectionQuality: ConnectionQualityUpdate)
    | StreamStateMsg(streamStateUpdate: StreamStateUpdate)
    | SubscribedQualityMsg(subscribedQualityUpdate: SubscribedQualityUpdate)
    | SubscriptionPermissionUpdateMsg(subscriptionPermissionUpdate: SubscriptionPermissionUpdate)
    | TrackUnpublishedMsg(trackUnpublished: TrackUnpublishedResponse)
    | AddTrackMsg(addTrack: AddTrackRequest)
    | UpdateSubscriptionMsg(subscription: UpdateSubscription)
    | UpdateTrackSettingsMsg(trackSetting: UpdateTrackSettings)
    | UpdateVideoLayersMsg(updateLayers: UpdateVideoLayers)
    | SubscriptionPermissionMsg(subscriptionPermission: SubscriptionPermission)
    | SessionDescriptionMsg(description: SessionDescription)
    | SyncStateMsg(syncState: SyncState)
    | PingMsg(ping: Ping)
    | PongMsg(pong: Pong)
    | RefreshTokenMsg(refreshToken: RefreshToken)

  function ClassOf(m: Message): WrapperClass
  {
    match m
    case JoinMsg(_) => JoinResponseClass
    case TrickleMsg(_) => TrickleRequestClass
    case MuteMsg(_) => MuteTrackRequestClass
    case ParticipantUpdateMsg(_) => ParticipantUpdateClass
    case TrackPublishedMsg(_) => TrackPublishedResponseClass
    case LeaveMsg(_) => LeaveRequestClass
    case SpeakersChangedMsg(_) => SpeakersChangedClass
    case RoomUpdateMsg(_) => RoomUpdateClass
    case ConnectionQualityMsg(_) => ConnectionQualityUpdateClass
    case StreamStateMsg(_) => StreamStateUpdateClass
    case SubscribedQualityMsg(_) => SubscribedQualityUpdateClass
    case SubscriptionPermissionUpdateMsg(_) => SubscriptionPermissionUpdateClass
    case TrackUnpublishedMsg(_) => TrackUnpublishedResponseClass
    case AddTrackMsg(_) => AddTrackRequestClass
    case UpdateSubscriptionMsg(_) => UpdateSubscriptionClass
    case UpdateTrackSettingsMsg(_) => UpdateTrackSettingsClass
    case UpdateVideoLayersMsg(_) => UpdateVideoLayersClass
    case SubscriptionPermissionMsg(_) => SubscriptionPermissionClass
    case SessionDescriptionMsg(_) => SessionDescriptionClass
    case SyncStateMsg(_) => SyncStateClass
    case PingMsg(_) => PingClass
    case PongMsg(_) => PongClass
    case RefreshTokenMsg(_) => RefreshTokenClass
  }

  function ClassName(c: WrapperClass): string
  {
    match c
    case JoinResponseClass => "JoinResponse"
    case TrickleRequestClass => "TrickleRequest"
    case MuteTrackRequestClass => "MuteTrackRequest"
    case ParticipantUpdateClass => "ParticipantUpdate"
    case TrackPublishedResponseClass => "TrackPublishedResponse"
    case LeaveRequestClass => "LeaveRequest"
    case SpeakersChangedClass => "SpeakersChanged"
    case RoomUpdateClass => "RoomUpdate"
    case ConnectionQualityUpdateClass => "ConnectionQualityUpdate"
    case StreamStateUpdateClass => "StreamStateUpdate"
    case SubscribedQualityUpdateClass => "SubscribedQualityUpdate"
    case SubscriptionPermissionUpdateClass => "SubscriptionPermissionUpdate"
    case TrackUnpublishedResponseClass => "TrackUnpublishedResponse"
    case AddTrackRequestClass => "AddTrackRequest"
    case UpdateSubscriptionClass => "UpdateSubscription"
    case UpdateTrackSettingsClass => "UpdateTrackSettings"
    case UpdateVideoLayersClass => "UpdateVideoLayers"
    case SubscriptionPermissionClass => "SubscriptionPermission"
    case SessionDescriptionClass => "SessionDescription"
    case SyncStateClass => "SyncState"
    case PingClass => "Ping"
    case PongClass => "Pong"
    case RefreshTokenClass => "RefreshToken"
    case Untagged(name, _) => name
  }

  /** TrackPublishedResponse (and DataChannelInfo, an untagged name) do not derive from
      LKBase and so lack its conversion methods. */
  predicate IsLKBase(c: WrapperClass)
  {
    match c
    case TrackPublishedResponseClass => false
    case Untagged(_, b) => b
    case _ => true
  }

  /** A class's tag attribute: absent, a field name, or a list of field names. */
  datatype TagAttr = NoTag | Tag(name: FieldName) | TagList(names: seq<FieldName>)

  function TagNames(a: TagAttr): seq<FieldName>
  {
    match a
    case NoTag => []
    case Tag(t) => [t]
    case TagList(ts) => ts
  }

  /** `__signal_request__`. */
  function RequestTag(c: WrapperClass): TagAttr
  {
    match c
    case TrickleRequestClass => Tag(TrickleField)
    case MuteTrackRequestClass => Tag(MuteField)
    case LeaveRequestClass => Tag(LeaveField)
    case AddTrackRequestClass => Tag(AddTrackField)
    case UpdateSubscriptionClass => Tag(SubscriptionField)
    case UpdateTrackSettingsClass => Tag(TrackSettingField)
    case UpdateVideoLayersClass => Tag(UpdateLayersField)
    case SubscriptionPermissionClass => Tag(SubscriptionPermissionField)
    case SessionDescriptionClass => TagList([OfferField, AnswerField])
    case SyncStateClass => Tag(SyncStateField)
    case PingClass => Tag(PingField)
    case _ => NoTag
  }

  /** `__signal_response__`. */
  function ResponseTag(c: WrapperClass): TagAttr
  {
    match c
    case JoinResponseClass => Tag(JoinField)
    case TrickleRequestClass => Tag(TrickleField)
    case MuteTrackRequestClass => Tag(MuteField)
    case ParticipantUpdateClass => Tag(UpdateField)
    case TrackPublishedResponseClass => Tag(TrackPublishedField)
    case LeaveRequestClass => Tag(LeaveField)
    case SpeakersChangedClass => Tag(SpeakersChangedField)
    case RoomUpdateClass => Tag(RoomUpdateField)
    case ConnectionQualityUpdateClass => Tag(ConnectionQualityField)
    case StreamStateUpdateClass => Tag(StreamStateUpdateField)
    case SubscribedQualityUpdateClass => Tag(SubscribedQualityUpdateField)
    case SubscriptionPermissionUpdateClass => Tag(SubscriptionPermissionUpdateField)
    case TrackUnpublishedResponseClass => Tag(TrackUnpublishedField)
    case SessionDescriptionClass => TagList([OfferField, AnswerField])
    case PongClass => Tag(PongField)
    case RefreshTokenClass => Tag(RefreshTokenField)
    case _ => NoTag
  }

  // ---------------------------------------------------------------------------------
  // The dispatch tables

  /** The request table the module is meant to hold once imported: every request tag to
      the one class declaring it. */
  function RequestClassFor(tag: FieldName): (r: Option<WrapperClass>)
  {
    match tag
    case TrickleField => Some(TrickleRequestClass)
    case MuteField => Some(MuteTrackRequestClass)
    case LeaveField => Some(LeaveRequestClass)
    case AddTrackField => Some(AddTrackRequestClass)
    case SubscriptionField => Some(UpdateSubscriptionClass)
    case TrackSettingField => Some(UpdateTrackSettingsClass)
    case UpdateLayersField => Some(UpdateVideoLayersClass)
    case SubscriptionPermissionField => Some(SubscriptionPermissionClass)
    case OfferField => Some(SessionDescriptionClass)
    case AnswerField => Some(SessionDescriptionClass)
    case SyncStateField => Some(SyncStateClass)
    case PingField => Some(PingClass)
    case _ => None
  }

  /** The response table the module is meant to hold once imported. */
  function ResponseClassFor(tag: FieldName): (r: Option<WrapperClass>)
  {
    match tag
    case JoinField => Some(JoinResponseClass)
    case TrickleField => Some(TrickleRequestClass)
    case MuteField => Some(MuteTrackRequestClass)
    case UpdateField => Some(ParticipantUpdateClass)
    case TrackPublishedField => Some(TrackPublishedResponseClass)
    case LeaveField => Some(LeaveRequestClass)
    case SpeakersChangedField => Some(SpeakersChangedClass)
    case RoomUpdateField => Some(RoomUpdateClass)
    case ConnectionQualityField => Some(ConnectionQualityUpdateClass)
    case StreamStateUpdateField => Some(StreamStateUpdateClass)
    case SubscribedQualityUpdateField => Some(SubscribedQualityUpdateClass)
    case SubscriptionPermissionUpdateField => Some(SubscriptionPermissionUpdateClass)
    case TrackUnpublishedField => Some(TrackUnpublishedResponseClass)
    case OfferField => Some(SessionDescriptionClass)
    case AnswerField => Some(SessionDescriptionClass)
    case PongField => Some(PongClass)
    case RefreshTokenField => Some(RefreshTokenClass)
    case _ => None
  }

  /** The tables agree with the tag attributes both ways: a tag is in a table exactly when
      some class declares it, and it then names that class. */
  lemma TablesMatchTags(c: WrapperClass, t: FieldName)
    ensures t in TagNames(RequestTag(c)) <==> RequestClassFor(t) == Some(c)
    ensures t in TagNames(ResponseTag(c)) <==> ResponseClassFor(t) == Some(c)
  {
    RequestTableMatchesTags(c, t);
    ResponseTableMatchesTags(c, t);
  }

  lemma RequestTableMatchesTags(c: WrapperClass, t: FieldName)
    ensures t in TagNames(RequestTag(c)) <==> RequestClassFor(t) == Some(c)
  {
  }

  lemma ResponseTableMatchesTags(c: WrapperClass, t: FieldName)
    ensures t in TagNames(ResponseTag(c)) <==> ResponseClassFor(t) == Some(c)
  {
  }

  /** `module.__dir__()` when `init_maps` runs: every name bound so far, in binding order. */
  function ModuleNamespace(): seq<WrapperClass>
  {
    [ Untagged("__name__", false), Untagged("__doc__", false), Untagged("__package__", false),
      Untagged("__loader__", false), Untagged("__spec__", false), Untagged("__file__", false),
      Untagged("__cached__", false), Untagged("__builtins__", false),
      Untagged("logging", false), Untagged("sys", false), Untagged("enum", false),
      Untagged("dataclass", false), Untagged("NewType", false), Untagged("List", false),
      Untagged("aiortc", false), Untagged("RTCIceCandidate", false), Untagged("lkrtc", false),
      Untagged("lkmodels", false), Untagged("proto_to_aio_candidate", false),
      Untagged("aio_to_proto_candidate", false), Untagged("Time", false), Untagged("Token", false),
      Untagged("ParticipantId", false), Untagged("TrackId", false), Untagged("LKEnum", false),
      Untagged("ind", false), Untagged("LKBase", true),
      Untagged("ParticipantInfoState", false), Untagged("TrackType", false),
      Untagged("TrackSource", false), Untagged("VideoQuality", false),
      Untagged("VideoLayer", true), Untagged("SimulcastCodecInfo", true), Untagged("TrackInfo", true),
      Untagged("ParticipantPermission", true), Untagged("ParticipantInfo", true), Untagged("Codec", true),
      Untagged("Room", true), Untagged("ICEServer", true), Untagged("ClientConfigSetting", false),
      Untagged("VideoConfiguration", true), Untagged("DisabledCodecs", true),
      Untagged("ClientConfiguration", true), Untagged("ServerInfoEdition", false),
      Untagged("ServerInfo", true), JoinResponseClass, Untagged("SignalTarget", false),
      TrickleRequestClass, MuteTrackRequestClass, ParticipantUpdateClass, TrackPublishedResponseClass,
      Untagged("DisconnectReason", false), LeaveRequestClass, Untagged("SpeakerInfo", true),
      SpeakersChangedClass, RoomUpdateClass, Untagged("ConnectionQuality", false),
      Untagged("ConnectionQualityInfo", true), ConnectionQualityUpdateClass,
      Untagged("StreamState", false), Untagged("StreamStateInfo", true), StreamStateUpdateClass,
      Untagged("SubscribedQuality", true), Untagged("SubscribedCodec", true),
      SubscribedQualityUpdateClass, SubscriptionPermissionUpdateClass, TrackUnpublishedResponseClass,
      Untagged("SimulcastCodec", true), AddTrackRequestClass, Untagged("ParticipantTracks", true),
      UpdateSubscriptionClass, UpdateTrackSettingsClass, UpdateVideoLayersClass,
      Untagged("TrackPermission", true), SubscriptionPermissionClass, SessionDescriptionClass,
      Untagged("DataChannelInfo", false), SyncStateClass, PingClass, PongClass, RefreshTokenClass,
      Untagged("map_signal_response_to_class", false), Untagged("map_signal_request_to_class", false),
      Untagged("init_maps", false) ]
  }

  /** Assigning `m[t] = c` for each name of a tag list, in order. */
  function RegisterNames(m: map<FieldName, WrapperClass>, ts: seq<FieldName>, c: WrapperClass): map<FieldName, WrapperClass>
  {
    if ts == [] then m else RegisterNames(m, ts[..|ts| - 1], c)[ts[|ts| - 1] := c]
  }

  /** What one iteration of `init_maps` does to a table for one namespace entry. */
  function RegisterClass(m: map<FieldName, WrapperClass>, tag: TagAttr, c: WrapperClass): map<FieldName, WrapperClass>
  {
    match tag
    case NoTag => m
    case Tag(t) => m[t := c]
    case TagList(ts) => RegisterNames(m, ts, c)
  }

  /** What `init_maps` does to a table over a namespace, entry by entry. */
  function RegisterAll(m: map<FieldName, WrapperClass>, ns: seq<WrapperClass>, tagOf: WrapperClass -> TagAttr): map<FieldName, WrapperClass>
  {
    if ns == [] then m
    else RegisterClass(RegisterAll(m, ns[..|ns| - 1], tagOf), tagOf(ns[|ns| - 1]), ns[|ns| - 1])
  }

  lemma {:induction false} RegisterNamesEffect(m: map<FieldName, WrapperClass>, ts: seq<FieldName>, c: WrapperClass)
    ensures RegisterNames(m, ts, c).Keys == m.Keys + set t | t in ts
    ensures forall t :: t in ts ==> RegisterNames(m, ts, c)[t] == c
    ensures forall t :: t in m && t !in ts ==> RegisterNames(m, ts, c)[t] == m[t]
    decreases |ts|
  {
    if ts != [] {
      var init := ts[..|ts| - 1];
      RegisterNamesEffect(m, init, c);
      assert ts == init + [ts[|ts| - 1]];
    }
  }

  lemma RegisterClassEffect(m: map<FieldName, WrapperClass>, tag: TagAttr, c: WrapperClass)
    ensures RegisterClass(m, tag, c).Keys == m.Keys + set t | t in TagNames(tag)
    ensures forall t :: t in TagNames(tag) ==> RegisterClass(m, tag, c)[t] == c
    ensures forall t :: t in m && t !in TagNames(tag) ==> RegisterClass(m, tag, c)[t] == m[t]
  {
    if tag.TagList? {
      RegisterNamesEffect(m, tag.names, c);
    }
  }

  /** When every tag a namespace declares points, in `table`, at the class declaring it,
      then `init_maps` run from empty tables produces exactly the tags declared, each mapped
      as `table` maps it. */
  lemma {:induction false} RegisterAllAgrees(ns: seq<WrapperClass>, tagOf: WrapperClass -> TagAttr,
                                             table: FieldName -> Option<WrapperClass>)
    requires forall c, t :: c in ns && t in TagNames(tagOf(c)) ==> table(t) == Some(c)
    ensures forall t :: t in RegisterAll(map[], ns, tagOf) ==> table(t) == Some(RegisterAll(map[], ns, tagOf)[t])
    ensures forall c, t :: c in ns && t in TagNames(tagOf(c)) ==> t in RegisterAll(map[], ns, tagOf)
    decreases |ns|
  {
    if ns != [] {
      var init := ns[..|ns| - 1];
      var last := ns[|ns| - 1];
      assert ns == init + [last];
      RegisterAllAgrees(init, tagOf, table);
      RegisterClassEffect(RegisterAll(map[], init, tagOf), tagOf(last), last);
    }
  }

  /** The text of an optional tag, as an error message shows it. */
  function TagText(tag: Option<FieldName>): Option<string>
  {
    if tag.Some? then Some(FieldNameText(tag.value)) else None
  }

  function Lookup(m: map<FieldName, WrapperClass>, t: FieldName): Option<WrapperClass>
  {
    if t in m then Some(m[t]) else None
  }

  /** Every class the tables name is bound in the module's namespace. */
  lemma TableClassesInNamespace(t: FieldName)
    ensures RequestClassFor(t).Some? ==> RequestClassFor(t).value in ModuleNamespace()
    ensures ResponseClassFor(t).Some? ==> ResponseClassFor(t).value in ModuleNamespace()
  {
  }

  /** `init_maps` over the module's own namespace yields exactly the two intended tables. */
  lemma ModuleTablesAreIntended()
    ensures forall t :: Lookup(RegisterAll(map[], ModuleNamespace(), RequestTag), t) == RequestClassFor(t)
    ensures forall t :: Lookup(RegisterAll(map[], ModuleNamespace(), ResponseTag), t) == ResponseClassFor(t)
  {
    var ns := ModuleNamespace();
    forall c, t | t in TagNames(RequestTag(c)) ensures RequestClassFor(t) == Some(c) {
      TablesMatchTags(c, t);
    }
    forall c, t | t in TagNames(ResponseTag(c)) ensures ResponseClassFor(t) == Some(c) {
      TablesMatchTags(c, t);
    }
    RegisterAllAgrees(ns, RequestTag, RequestClassFor);
    RegisterAllAgrees(ns, ResponseTag, ResponseClassFor);
    forall t
      ensures Lookup(RegisterAll(map[], ns, RequestTag), t) == RequestClassFor(t)
      ensures Lookup(RegisterAll(map[], ns, ResponseTag), t) == ResponseClassFor(t)
    {
      TableClassesInNamespace(t);
      if RequestClassFor(t).Some? {
        TablesMatchTags(RequestClassFor(t).value, t);
      }
      if ResponseClassFor(t).Some? {
        TablesMatchTags(ResponseClassFor(t).value, t);
      }
    }
  }

  /** The two module-level dictionaries. */
  class DispatchTables {
    var requestMap: map<FieldName, WrapperClass>
    var responseMap: map<FieldName, WrapperClass>

    constructor ()
      ensures requestMap == map[] && responseMap == map[]
    {
      requestMap := map[];
      responseMap := map[];
    }

    /** `init_maps`: for every name of the namespace, in order, register its request tag(s)
        and then its response tag(s), overwriting earlier entries. */
    method InitMaps(ns: seq<WrapperClass>)
      modifies this
      ensures requestMap == RegisterAll(old(requestMap), ns, RequestTag)
      ensures responseMap == RegisterAll(old(responseMap), ns, ResponseTag)
    {
      var i := 0;
      while i < |ns|
        invariant 0 <= i <= |ns|
        invariant requestMap == RegisterAll(old(requestMap), ns[..i], RequestTag)
        invariant responseMap == RegisterAll(old(responseMap), ns[..i], ResponseTag)
      {
        var klass := ns[i];
        requestMap := AddTags(requestMap, RequestTag(klass), klass);
        responseMap := AddTags(responseMap, ResponseTag(klass), klass);
        assert ns[..i + 1][..i] == ns[..i];
        i := i + 1;
      }
      assert ns[..i] == ns;
    }
  }

  /** The body of one `init_maps` iteration for one table. */
  method AddTags(m: map<FieldName, WrapperClass>, tag: TagAttr, klass: WrapperClass) returns (r: map<FieldName, WrapperClass>)
    ensures r == RegisterClass(m, tag, klass)
  {
    match tag
    case NoTag =>
      r := m;
    case Tag(t) =>
      r := m[t := klass];
    case TagList(ts) =>
      r := m;
      for j := 0 to |ts|
        invariant r == RegisterNames(m, ts[..j], klass)
      {
        assert ts[..j + 1][..j] == ts[..j];
        r := r[ts[j] := klass];
      }
      assert ts[..|ts|] == ts;
  }

  /** Importing the module: two empty dictionaries, then `init_maps()`. */
  method ImportModule() returns (d: DispatchTables)
    ensures fresh(d)
    ensures forall t :: Lookup(d.requestMap, t) == RequestClassFor(t)
    ensures forall t :: Lookup(d.responseMap, t) == ResponseClassFor(t)
  {
    d := new DispatchTables();
    d.InitMaps(ModuleNamespace());
    ModuleTablesAreIntended();
  }

  // ---------------------------------------------------------------------------------
  // Wrapper to envelope

  /** `to_lk()` of a message, as the value handed to the envelope constructor. Ping's
      integer is range-checked there, when it lands in the int64 field. */
  function ToLkBody(m: Message): (r: Result<P.Body, PyError>)
  {
    match m
    case JoinMsg(x) => var b :- JoinResponseToLk(x); Ok(P.JoinBody(b))
    case TrickleMsg(x) => Err(TrickleRequestToLk(x).error)
    case MuteMsg(x) => Ok(P.MuteBody(MuteTrackRequestToLk(x)))
    case ParticipantUpdateMsg(x) => var b :- ParticipantUpdateToLk(x); Ok(P.UpdateBody(b))
    case TrackPublishedMsg(x) => var b :- TrackPublishedResponseToLk(x); Ok(P.TrackPublishedBody(b))
    case LeaveMsg(x) => Ok(P.LeaveBody(LeaveRequestToLk(x)))
    case SpeakersChangedMsg(x) => Ok(P.SpeakersChangedBody(SpeakersChangedToLk(x)))
    case RoomUpdateMsg(x) => var b :- RoomUpdateToLk(x); Ok(P.RoomUpdateBody(b))
    case ConnectionQualityMsg(x) => Ok(P.ConnectionQualityBody(ConnectionQualityUpdateToLk(x)))
    case StreamStateMsg(x) => Ok(P.StreamStateUpdateBody(StreamStateUpdateToLk(x)))
    case SubscribedQualityMsg(x) => var b :- SubscribedQualityUpdateToLk(x); Ok(P.SubscribedQualityUpdateBody(b))
    case SubscriptionPermissionUpdateMsg(x) => Ok(P.SubscriptionPermissionUpdateBody(SubscriptionPermissionUpdateToLk(x)))
    case TrackUnpublishedMsg(x) => Ok(P.TrackUnpublishedBody(TrackUnpublishedResponseToLk(x)))
    case AddTrackMsg(x) => var b :- AddTrackRequestToLk(x); Ok(P.AddTrackBody(b))
    case UpdateSubscriptionMsg(x) => Ok(P.SubscriptionBody(UpdateSubscriptionToLk(x)))
    case UpdateTrackSettingsMsg(x) => var b :- UpdateTrackSettingsToLk(x); Ok(P.TrackSettingBody(b))
    case UpdateVideoLayersMsg(x) => var b :- UpdateVideoLayersToLk(x); Ok(P.UpdateLayersBody(b))
    case SubscriptionPermissionMsg(x) => Ok(P.SubscriptionPermissionBody(SubscriptionPermissionToLk(x)))
    case SessionDescriptionMsg(x) => Ok(P.SessionDescriptionBody(SessionDescriptionToLk(x)))
    case SyncStateMsg(x) => var b :- SyncStateToLk(x); Ok(P.SyncStateBody(b))
    case PingMsg(x) => var n :- P.CheckInt64("ping", x.time); Ok(P.Int64Body(n))
    case PongMsg(x) => var n :- P.CheckInt64("pong", x.time); Ok(P.Int64Body(n))
    case RefreshTokenMsg(x) => Ok(P.StringBody(x.token))
  }

  /** `get_request_name()`: the request tag, or the description's own type for a
      SessionDescription; TrackPublishedResponse has no such method. */
  function GetRequestName(m: Message): (r: Result<Option<string>, PyError>)
    ensures r.Err? <==> m.TrackPublishedMsg?
  {
    if m.TrackPublishedMsg? then Err(MissingAttribute("get_request_name"))
    else if m.SessionDescriptionMsg? then Ok(Some(m.description.sdpType))
    else match RequestTag(ClassOf(m))
      case Tag(t) => Ok(Some(FieldNameText(t)))
      case _ => Ok(None)
  }

  /** `LKBase.to_signal_request()`: the message's `to_lk()` under its request tag. A class
      without a request tag raises before converting. */
  function BaseToSignalRequest(m: Message): (r: Result<P.SignalRequest, PyError>)
    ensures r.Ok? ==> P.WellTypedRequest(r.value) && P.RequestWhich(r.value).Some? && RequestTag(ClassOf(m)) == Tag(P.RequestWhich(r.value).value)
    ensures r.Ok? ==> r.value.message.Some? && ToLkBody(m) == Ok(r.value.message.value.value)
    ensures RequestTag(ClassOf(m)) == NoTag ==> r == Err(CannotConvert(ClassName(ClassOf(m))))
  {
    match RequestTag(ClassOf(m))
    case NoTag => Err(CannotConvert(ClassName(ClassOf(m))))
    case Tag(t) =>
      var body :- ToLkBody(m);
      P.EnvelopeRequest(t, body)
    case TagList(_) =>
      // only SessionDescription declares a list, and it overrides this method
      var _ :- ToLkBody(m);
      Err(UnhashableTag)
  }

  /** `SessionDescription.to_signal_request()`: the description's `type` is the keyword,
      which the envelope constructor refuses unless it names a SessionDescription field. */
  function SessionDescriptionToSignalRequest(d: SessionDescription): (r: Result<P.SignalRequest, PyError>)
    ensures r.Ok? <==> d.sdpType in {"offer", "answer"}
    ensures r.Ok? ==> P.WellTypedRequest(r.value) && TagText(P.RequestWhich(r.value)) == Some(d.sdpType)
    ensures r.Ok? ==> P.RequestWhich(r.value) in {Some(OfferField), Some(AnswerField)}
    ensures r.Ok? ==> r.value.message.Some? && r.value.message.value.value == P.SessionDescriptionBody(SessionDescriptionToLk(d))
  {
    var body := P.SessionDescriptionBody(SessionDescriptionToLk(d));
    var field := FieldNamed(d.sdpType);
    assert field.Some? && P.RequestFieldAccepts(field.value, body) <==> d.sdpType in {"offer", "answer"} by {
      if field.Some? {
        P.SessionDescriptionRequestFields(field.value, body.sessionDescription);
      }
    }
    P.NewSignalRequest(d.sdpType, body)
  }

  /** `to_signal_request()` of any message. */
  function ToSignalRequest(m: Message): (r: Result<P.SignalRequest, PyError>)
    ensures r.Ok? ==> P.WellTypedRequest(r.value)
    ensures r.Ok? ==> r.value.message.Some? && ToLkBody(m) == Ok(r.value.message.value.value)
    ensures r.Ok? ==> r.value.message.value.name in TagNames(RequestTag(ClassOf(m)))
    ensures !m.TrackPublishedMsg? && RequestTag(ClassOf(m)) == NoTag ==> r == Err(CannotConvert(ClassName(ClassOf(m))))
    ensures m.SessionDescriptionMsg? ==> (r.Ok? <==> m.description.sdpType in {"offer", "answer"})
    ensures m.TrackPublishedMsg? ==> r == Err(MissingAttribute("to_signal_request"))
  {
    if m.TrackPublishedMsg? then Err(MissingAttribute("to_signal_request"))
    else if m.SessionDescriptionMsg? then
      EncodeSessionDescriptionMsg(m);
      SessionDescriptionTags(m);
      SessionDescriptionToSignalRequest(m.description)
    else BaseToSignalRequest(m)
  }
  lemma SessionDescriptionTags(m: Message)
    requires m.SessionDescriptionMsg?
    ensures RequestTag(ClassOf(m)) == TagList([OfferField, AnswerField])
    ensures TagNames(RequestTag(ClassOf(m))) == [OfferField, AnswerField]
  {
  }

  /** `get_request_name()` names the field `to_signal_request()` fills. */
  lemma RequestNameIsField(m: Message)
    requires ToSignalRequest(m).Ok?
    ensures GetRequestName(m) == Ok(TagText(P.RequestWhich(ToSignalRequest(m).value)))
  {
  }


  // ---------------------------------------------------------------------------------
  // Envelope to wrapper

  /** The class whose instance decoding `b` yields: the one its body type belongs to, the
      calling class telling Ping and Pong apart. */
  function DecodingClass(c: WrapperClass, b: P.Body): WrapperClass
  {
    match b
    case JoinBody(_) => JoinResponseClass
    case TrickleBody(_) => TrickleRequestClass
    case MuteBody(_) => MuteTrackRequestClass
    case UpdateBody(_) => ParticipantUpdateClass
    case TrackPublishedBody(_) => TrackPublishedResponseClass
    case LeaveBody(_) => LeaveRequestClass
    case SpeakersChangedBody(_) => SpeakersChangedClass
    case RoomUpdateBody(_) => RoomUpdateClass
    case ConnectionQualityBody(_) => ConnectionQualityUpdateClass
    case StreamStateUpdateBody(_) => StreamStateUpdateClass
    case SubscribedQualityUpdateBody(_) => SubscribedQualityUpdateClass
    case SubscriptionPermissionUpdateBody(_) => SubscriptionPermissionUpdateClass
    case TrackUnpublishedBody(_) => TrackUnpublishedResponseClass
    case AddTrackBody(_) => AddTrackRequestClass
    case SubscriptionBody(_) => UpdateSubscriptionClass
    case TrackSettingBody(_) => UpdateTrackSettingsClass
    case UpdateLayersBody(_) => UpdateVideoLayersClass
    case SubscriptionPermissionBody(_) => SubscriptionPermissionClass
    case SessionDescriptionBody(_) => SessionDescriptionClass
    case SyncStateBody(_) => SyncStateClass
    case Int64Body(_) => if c == PongClass then PongClass else PingClass
    case StringBody(_) => RefreshTokenClass
    case SimulateBody => c
  }

  /** `cls.from_lk(body)` for the class registered under the body's field. Ping and Pong
      share the int64 body; the class tells them apart. */
  function MessageFromBody(c: WrapperClass, b: P.Body): (r: Result<Message, PyError>)
  {
    match b
    case JoinBody(x) => var v :- JoinResponseFromLk(x); Ok(JoinMsg(v))
    case TrickleBody(x) => var v :- TrickleRequestFromLk(x); Ok(TrickleMsg(v))
    case MuteBody(x) => Ok(MuteMsg(MuteTrackRequestFromLk(x)))
    case UpdateBody(x) => var v :- ParticipantUpdateFromLk(x); Ok(ParticipantUpdateMsg(v))
    case TrackPublishedBody(x) => var v :- TrackPublishedResponseFromLk(x); Ok(TrackPublishedMsg(v))
    case LeaveBody(x) => var v :- LeaveRequestFromLk(x); Ok(LeaveMsg(v))
    case SpeakersChangedBody(x) => Ok(SpeakersChangedMsg(SpeakersChangedFromLk(x)))
    case RoomUpdateBody(x) => Ok(RoomUpdateMsg(RoomUpdateFromLk(x)))
    case ConnectionQualityBody(x) => var v :- ConnectionQualityUpdateFromLk(x); Ok(ConnectionQualityMsg(v))
    case StreamStateUpdateBody(x) => var v :- StreamStateUpdateFromLk(x); Ok(StreamStateMsg(v))
    case SubscribedQualityUpdateBody(x) => var v :- SubscribedQualityUpdateFromLk(x); Ok(SubscribedQualityMsg(v))
    case SubscriptionPermissionUpdateBody(x) => Ok(SubscriptionPermissionUpdateMsg(SubscriptionPermissionUpdateFromLk(x)))
    case TrackUnpublishedBody(x) => Ok(TrackUnpublishedMsg(TrackUnpublishedResponseFromLk(x)))
    case AddTrackBody(x) => var v :- AddTrackRequestFromLk(x); Ok(AddTrackMsg(v))
    case SubscriptionBody(x) => Ok(UpdateSubscriptionMsg(UpdateSubscriptionFromLk(x)))
    case TrackSettingBody(x) => var v :- UpdateTrackSettingsFromLk(x); Ok(UpdateTrackSettingsMsg(v))
    case UpdateLayersBody(x) => var v :- UpdateVideoLayersFromLk(x); Ok(UpdateVideoLayersMsg(v))
    case SubscriptionPermissionBody(x) => Ok(SubscriptionPermissionMsg(SubscriptionPermissionFromLk(x)))
    case SessionDescriptionBody(x) => Ok(SessionDescriptionMsg(SessionDescriptionFromLk(x)))
    case SyncStateBody(x) => var v :- SyncStateFromLk(x); Ok(SyncStateMsg(v))
    case Int64Body(n) => if c == PongClass then Ok(PongMsg(Pong(n))) else Ok(PingMsg(Ping(n)))
    case StringBody(s) => Ok(RefreshTokenMsg(RefreshToken(s)))
    case SimulateBody => Err(UnknownSignalMessage(Some("simulate")))  // no class declares "simulate"
  }

  /** `cls.from_signal_request(request)`. */
  function ClassFromSignalRequest(c: WrapperClass, req: P.SignalRequest): (r: Result<Message, PyError>)
    ensures !IsLKBase(c) ==> r == Err(MissingAttribute("from_signal_request"))
    ensures IsLKBase(c) && RequestTag(c) == NoTag ==> r == Err(CannotConvert(ClassName(c)))
    ensures IsLKBase(c) && c != SessionDescriptionClass && RequestTag(c).Tag? && P.RequestWhich(req) != Some(RequestTag(c).name) ==>
                  r == Err(WrongMessage([FieldNameText(RequestTag(c).name)]))
    ensures c == SessionDescriptionClass && P.RequestWhich(req) !in {Some(OfferField), Some(AnswerField)} ==>
              r == Err(NotOfferOrAnswer)
    ensures r.Ok? ==> P.RequestWhich(req).Some? && P.RequestWhich(req).value in TagNames(RequestTag(c))
  {
    if !IsLKBase(c) then Err(MissingAttribute("from_signal_request"))
    else if c == SessionDescriptionClass then
      var which := P.RequestWhich(req);
      if which == Some(OfferField) || which == Some(AnswerField) then MessageFromBody(c, req.message.value.value)
      else Err(NotOfferOrAnswer)
    else match RequestTag(c)
      case NoTag => Err(CannotConvert(ClassName(c)))
      case Tag(t) =>
        if P.RequestWhich(req) != Some(t) then Err(WrongMessage([FieldNameText(t)]))
        else MessageFromBody(c, req.message.value.value)
      case TagList(ts) => Err(WrongMessage(Map(ts, FieldNameText)))
  }

  /** `cls.from_signal_response(response)`. */
  function ClassFromSignalResponse(c: WrapperClass, resp: P.SignalResponse): (r: Result<Message, PyError>)
    ensures !IsLKBase(c) ==> r == Err(MissingAttribute("from_signal_response"))
    ensures IsLKBase(c) && ResponseTag(c) == NoTag ==> r == Err(CannotConvert(ClassName(c)))
    ensures IsLKBase(c) && c != SessionDescriptionClass && ResponseTag(c).Tag? && P.ResponseWhich(resp) != Some(ResponseTag(c).name) ==>
                  r == Err(WrongMessage([FieldNameText(ResponseTag(c).name)]))
    ensures c == SessionDescriptionClass && P.ResponseWhich(resp) !in {Some(OfferField), Some(AnswerField)} ==>
              r == Err(NotOfferOrAnswer)
    ensures r.Ok? ==> P.ResponseWhich(resp).Some? && P.ResponseWhich(resp).value in TagNames(ResponseTag(c))
  {
    if !IsLKBase(c) then Err(MissingAttribute("from_signal_response"))
    else if c == SessionDescriptionClass then
      var which := P.ResponseWhich(resp);
      if which == Some(OfferField) || which == Some(AnswerField) then MessageFromBody(c, resp.message.value.value)
      else Err(NotOfferOrAnswer)
    else match ResponseTag(c)
      case NoTag => Err(CannotConvert(ClassName(c)))
      case Tag(t) =>
        if P.ResponseWhich(resp) != Some(t) then Err(WrongMessage([FieldNameText(t)]))
        else MessageFromBody(c, resp.message.value.value)
      case TagList(ts) => Err(WrongMessage(Map(ts, FieldNameText)))
  }

  /** Module-level `from_signal_request`: look the active tag up in the request table and
      delegate to the class found. */
  function FromSignalRequest(req: P.SignalRequest): (r: Result<Message, PyError>)
    ensures P.RequestWhich(req).None? ==> r == Err(UnknownSignalMessage(None))
    ensures P.RequestWhich(req).Some? && RequestClassFor(P.RequestWhich(req).value).None? ==>
                  r == Err(UnknownSignalMessage(TagText(P.RequestWhich(req))))
    ensures P.RequestWhich(req) in {Some(OfferField), Some(AnswerField)} && P.WellTypedRequest(req) ==>
                  r == Ok(SessionDescriptionMsg(SessionDescriptionFromLk(req.message.value.value.sessionDescription)))
  {
    var tag := P.RequestWhich(req);
    var c := if tag.Some? then RequestClassFor(tag.value) else None;
    if c.None? then Err(UnknownSignalMessage(TagText(tag))) else ClassFromSignalRequest(c.value, req)
  }

  /** Module-level `from_signal_response`. "track_published" is registered, but its class
      is not an LKBase and so has no `from_signal_response`. */
  function FromSignalResponse(resp: P.SignalResponse): (r: Result<Message, PyError>)
    ensures P.ResponseWhich(resp).None? ==> r == Err(UnknownSignalMessage(None))
    ensures P.ResponseWhich(resp).Some? && ResponseClassFor(P.ResponseWhich(resp).value).None? ==>
                  r == Err(UnknownSignalMessage(TagText(P.ResponseWhich(resp))))
    ensures P.ResponseWhich(resp) == Some(TrackPublishedField) ==> r == Err(MissingAttribute("from_signal_response"))
    ensures P.ResponseWhich(resp) in {Some(OfferField), Some(AnswerField)} && P.WellTypedResponse(resp) ==>
                  r == Ok(SessionDescriptionMsg(SessionDescriptionFromLk(resp.message.value.value.sessionDescription)))
  {
    var tag := P.ResponseWhich(resp);
    var c := if tag.Some? then ResponseClassFor(tag.value) else None;
    if c.None? then Err(UnknownSignalMessage(TagText(tag))) else ClassFromSignalResponse(c.value, resp)
  }

  // ---------------------------------------------------------------------------------
  // Body type by body type: what `from_lk` and `to_lk` do to one message type inside
  // the dispatch. Decoding and encoding are stated apart, one body type at a time,
  // so that no single proof has to unfold both dispatch functions.

  lemma DecodeJoinBody(c: WrapperClass, b: P.Body)
    requires b.JoinBody?
    ensures MessageFromBody(c, b).Ok? <==> JoinResponseFromLk(b.join).Ok?
    ensures JoinResponseFromLk(b.join).Ok? ==> MessageFromBody(c, b) == Ok(JoinMsg(JoinResponseFromLk(b.join).value))
  {
  }

  lemma EncodeJoinMsg(m: Message)
    requires m.JoinMsg?
    ensures ToLkBody(m).Ok? <==> JoinResponseToLk(m.join).Ok?
    ensures JoinResponseToLk(m.join).Ok? ==> ToLkBody(m) == Ok(P.JoinBody(JoinResponseToLk(m.join).value))
  {
  }

  lemma DecodeMuteBody(c: WrapperClass, b: P.Body)
    requires b.MuteBody?
    ensures MessageFromBody(c, b) == Ok(MuteMsg(MuteTrackRequestFromLk(b.mute)))
  {
  }

  lemma EncodeMuteMsg(m: Message)
    requires m.MuteMsg?
    ensures ToLkBody(m) == Ok(P.MuteBody(MuteTrackRequestToLk(m.mute)))
  {
  }

  lemma DecodeUpdateBody(c: WrapperClass, b: P.Body)
    requires b.UpdateBody?
    ensures MessageFromBody(c, b).Ok? <==> ParticipantUpdateFromLk(b.update).Ok?
    ensures ParticipantUpdateFromLk(b.update).Ok? ==> MessageFromBody(c, b) == Ok(ParticipantUpdateMsg(ParticipantUpdateFromLk(b.update).value))
  {
  }

  lemma EncodeParticipantUpdateMsg(m: Message)
    requires m.ParticipantUpdateMsg?
    ensures ToLkBody(m).Ok? <==> ParticipantUpdateToLk(m.update).Ok?
    ensures ParticipantUpdateToLk(m.update).Ok? ==> ToLkBody(m) == Ok(P.UpdateBody(ParticipantUpdateToLk(m.update).value))
  {
  }

  lemma DecodeTrackPublishedBody(c: WrapperClass, b: P.Body)
    requires b.TrackPublishedBody?
    ensures MessageFromBody(c, b).Ok? <==> TrackPublishedResponseFromLk(b.trackPublished).Ok?
    ensures TrackPublishedResponseFromLk(b.trackPublished).Ok? ==> MessageFromBody(c, b) == Ok(TrackPublishedMsg(TrackPublishedResponseFromLk(b.trackPublished).value))
  {
  }

  lemma EncodeTrackPublishedMsg(m: Message)
    requires m.TrackPublishedMsg?
    ensures ToLkBody(m).Ok? <==> TrackPublishedResponseToLk(m.trackPublished).Ok?
    ensures TrackPublishedResponseToLk(m.trackPublished).Ok? ==> ToLkBody(m) == Ok(P.TrackPublishedBody(TrackPublishedResponseToLk(m.trackPublished).value))
  {
  }

  lemma DecodeLeaveBody(c: WrapperClass, b: P.Body)
    requires b.LeaveBody?
    ensures MessageFromBody(c, b).Ok? <==> LeaveRequestFromLk(b.leave).Ok?
    ensures LeaveRequestFromLk(b.leave).Ok? ==> MessageFromBody(c, b) == Ok(LeaveMsg(LeaveRequestFromLk(b.leave).value))
  {
  }

  lemma EncodeLeaveMsg(m: Message)
    requires m.LeaveMsg?
    ensures ToLkBody(m) == Ok(P.LeaveBody(LeaveRequestToLk(m.leave)))
  {
  }

  lemma DecodeSpeakersChangedBody(c: WrapperClass, b: P.Body)
    requires b.SpeakersChangedBody?
    ensures MessageFromBody(c, b) == Ok(SpeakersChangedMsg(SpeakersChangedFromLk(b.speakersChanged)))
  {
  }

  lemma EncodeSpeakersChangedMsg(m: Message)
    requires m.SpeakersChangedMsg?
    ensures ToLkBody(m) == Ok(P.SpeakersChangedBody(SpeakersChangedToLk(m.speakersChanged)))
  {
  }

  lemma DecodeRoomUpdateBody(c: WrapperClass, b: P.Body)
    requires b.RoomUpdateBody?
    ensures MessageFromBody(c, b) == Ok(RoomUpdateMsg(RoomUpdateFromLk(b.roomUpdate)))
  {
  }

  lemma EncodeRoomUpdateMsg(m: Message)
    requires m.RoomUpdateMsg?
    ensures ToLkBody(m).Ok? <==> RoomUpdateToLk(m.roomUpdate).Ok?
    ensures RoomUpdateToLk(m.roomUpdate).Ok? ==> ToLkBody(m) == Ok(P.RoomUpdateBody(RoomUpdateToLk(m.roomUpdate).value))
  {
  }

  lemma DecodeConnectionQualityBody(c: WrapperClass, b: P.Body)
    requires b.ConnectionQualityBody?
    ensures MessageFromBody(c, b).Ok? <==> ConnectionQualityUpdateFromLk(b.connectionQuality).Ok?
    ensures ConnectionQualityUpdateFromLk(b.connectionQuality).Ok? ==> MessageFromBody(c, b) == Ok(ConnectionQualityMsg(ConnectionQualityUpdateFromLk(b.connectionQuality).value))
  {
  }

  lemma EncodeConnectionQualityMsg(m: Message)
    requires m.ConnectionQualityMsg?
    ensures ToLkBody(m) == Ok(P.ConnectionQualityBody(ConnectionQualityUpdateToLk(m.connectionQuality)))
  {
  }

  lemma DecodeStreamStateUpdateBody(c: WrapperClass, b: P.Body)
    requires b.StreamStateUpdateBody?
    ensures MessageFromBody(c, b).Ok? <==> StreamStateUpdateFromLk(b.streamStateUpdate).Ok?
    ensures StreamStateUpdateFromLk(b.streamStateUpdate).Ok? ==> MessageFromBody(c, b) == Ok(StreamStateMsg(StreamStateUpdateFromLk(b.streamStateUpdate).value))
  {
  }

  lemma EncodeStreamStateMsg(m: Message)
    requires m.StreamStateMsg?
    ensures ToLkBody(m) == Ok(P.StreamStateUpdateBody(StreamStateUpdateToLk(m.streamStateUpdate)))
  {
  }

  lemma DecodeSubscribedQualityUpdateBody(c: WrapperClass, b: P.Body)
    requires b.SubscribedQualityUpdateBody?
    ensures MessageFromBody(c, b).Ok? <==> SubscribedQualityUpdateFromLk(b.subscribedQualityUpdate).Ok?
    ensures SubscribedQualityUpdateFromLk(b.subscribedQualityUpdate).Ok? ==> MessageFromBody(c, b) == Ok(SubscribedQualityMsg(SubscribedQualityUpdateFromLk(b.subscribedQualityUpdate).value))
  {
  }

  lemma EncodeSubscribedQualityMsg(m: Message)
    requires m.SubscribedQualityMsg?
    ensures ToLkBody(m).Ok? <==> SubscribedQualityUpdateToLk(m.subscribedQualityUpdate).Ok?
    ensures SubscribedQualityUpdateToLk(m.subscribedQualityUpdate).Ok? ==> ToLkBody(m) == Ok(P.SubscribedQualityUpdateBody(SubscribedQualityUpdateToLk(m.subscribedQualityUpdate).value))
  {
  }

  lemma DecodeSubscriptionPermissionUpdateBody(c: WrapperClass, b: P.Body)
    requires b.SubscriptionPermissionUpdateBody?
    ensures MessageFromBody(c, b) == Ok(SubscriptionPermissionUpdateMsg(SubscriptionPermissionUpdateFromLk(b.subscriptionPermissionUpdate)))
  {
  }

  lemma EncodeSubscriptionPermissionUpdateMsg(m: Message)
    requires m.SubscriptionPermissionUpdateMsg?
    ensures ToLkBody(m) == Ok(P.SubscriptionPermissionUpdateBody(SubscriptionPermissionUpdateToLk(m.subscriptionPermissionUpdate)))
  {
  }

  lemma DecodeTrackUnpublishedBody(c: WrapperClass, b: P.Body)
    requires b.TrackUnpublishedBody?
    ensures MessageFromBody(c, b) == Ok(TrackUnpublishedMsg(TrackUnpublishedResponseFromLk(b.trackUnpublished)))
  {
  }

  lemma EncodeTrackUnpublishedMsg(m: Message)
    requires m.TrackUnpublishedMsg?
    ensures ToLkBody(m) == Ok(P.TrackUnpublishedBody(TrackUnpublishedResponseToLk(m.trackUnpublished)))
  {
  }

  lemma DecodeAddTrackBody(c: WrapperClass, b: P.Body)
    requires b.AddTrackBody?
    ensures MessageFromBody(c, b).Ok? <==> AddTrackRequestFromLk(b.addTrack).Ok?
    ensures AddTrackRequestFromLk(b.addTrack).Ok? ==> MessageFromBody(c, b) == Ok(AddTrackMsg(AddTrackRequestFromLk(b.addTrack).value))
  {
  }

  lemma EncodeAddTrackMsg(m: Message)
    requires m.AddTrackMsg?
    ensures ToLkBody(m).Ok? <==> AddTrackRequestToLk(m.addTrack).Ok?
    ensures AddTrackRequestToLk(m.addTrack).Ok? ==> ToLkBody(m) == Ok(P.AddTrackBody(AddTrackRequestToLk(m.addTrack).value))
  {
  }

  lemma DecodeSubscriptionBody(c: WrapperClass, b: P.Body)
    requires b.SubscriptionBody?
    ensures MessageFromBody(c, b) == Ok(UpdateSubscriptionMsg(UpdateSubscriptionFromLk(b.subscription)))
  {
  }

  lemma EncodeUpdateSubscriptionMsg(m: Message)
    requires m.UpdateSubscriptionMsg?
    ensures ToLkBody(m) == Ok(P.SubscriptionBody(UpdateSubscriptionToLk(m.subscription)))
  {
  }

  lemma DecodeTrackSettingBody(c: WrapperClass, b: P.Body)
    requires b.TrackSettingBody?
    ensures MessageFromBody(c, b).Ok? <==> UpdateTrackSettingsFromLk(b.trackSetting).Ok?
    ensures UpdateTrackSettingsFromLk(b.trackSetting).Ok? ==> MessageFromBody(c, b) == Ok(UpdateTrackSettingsMsg(UpdateTrackSettingsFromLk(b.trackSetting).value))
  {
  }

  lemma EncodeUpdateTrackSettingsMsg(m: Message)
    requires m.UpdateTrackSettingsMsg?
    ensures ToLkBody(m).Ok? <==> UpdateTrackSettingsToLk(m.trackSetting).Ok?
    ensures UpdateTrackSettingsToLk(m.trackSetting).Ok? ==> ToLkBody(m) == Ok(P.TrackSettingBody(UpdateTrackSettingsToLk(m.trackSetting).value))
  {
  }

  lemma DecodeUpdateLayersBody(c: WrapperClass, b: P.Body)
    requires b.UpdateLayersBody?
    ensures MessageFromBody(c, b).Ok? <==> UpdateVideoLayersFromLk(b.updateLayers).Ok?
    ensures UpdateVideoLayersFromLk(b.updateLayers).Ok? ==> MessageFromBody(c, b) == Ok(UpdateVideoLayersMsg(UpdateVideoLayersFromLk(b.updateLayers).value))
  {
  }

  lemma EncodeUpdateVideoLayersMsg(m: Message)
    requires m.UpdateVideoLayersMsg?
    ensures ToLkBody(m).Ok? <==> UpdateVideoLayersToLk(m.updateLayers).Ok?
    ensures UpdateVideoLayersToLk(m.updateLayers).Ok? ==> ToLkBody(m) == Ok(P.UpdateLayersBody(UpdateVideoLayersToLk(m.updateLayers).value))
  {
  }

  lemma DecodeSubscriptionPermissionBody(c: WrapperClass, b: P.Body)
    requires b.SubscriptionPermissionBody?
    ensures MessageFromBody(c, b) == Ok(SubscriptionPermissionMsg(SubscriptionPermissionFromLk(b.subscriptionPermission)))
  {
  }

  lemma EncodeSubscriptionPermissionMsg(m: Message)
    requires m.SubscriptionPermissionMsg?
    ensures ToLkBody(m) == Ok(P.SubscriptionPermissionBody(SubscriptionPermissionToLk(m.subscriptionPermission)))
  {
  }

  lemma DecodeSessionDescriptionBody(c: WrapperClass, b: P.Body)
    requires b.SessionDescriptionBody?
    ensures MessageFromBody(c, b) == Ok(SessionDescriptionMsg(SessionDescriptionFromLk(b.sessionDescription)))
  {
  }

  lemma EncodeSessionDescriptionMsg(m: Message)
    requires m.SessionDescriptionMsg?
    ensures ToLkBody(m) == Ok(P.SessionDescriptionBody(SessionDescriptionToLk(m.description)))
  {
  }

  lemma DecodeSyncStateBody(c: WrapperClass, b: P.Body)
    requires b.SyncStateBody?
    ensures MessageFromBody(c, b).Ok? <==> SyncStateFromLk(b.syncState).Ok?
    ensures SyncStateFromLk(b.syncState).Ok? ==> MessageFromBody(c, b) == Ok(SyncStateMsg(SyncStateFromLk(b.syncState).value))
  {
  }

  lemma EncodeSyncStateMsg(m: Message)
    requires m.SyncStateMsg?
    ensures ToLkBody(m).Ok? <==> SyncStateToLk(m.syncState).Ok?
    ensures SyncStateToLk(m.syncState).Ok? ==> ToLkBody(m) == Ok(P.SyncStateBody(SyncStateToLk(m.syncState).value))
  {
  }

  lemma RoundTripJoinBody(c: WrapperClass, b: P.Body)
    requires b.JoinBody? && MessageFromBody(c, b).Ok?
    ensures MessageFromBody(c, b).value.JoinMsg?
    ensures ToLkBody(MessageFromBody(c, b).value) == Ok(b)
  {
    DecodeJoinBody(c, b);
    JoinResponseDecodeEncode(b.join);
    EncodeJoinMsg(MessageFromBody(c, b).value);
  }

  lemma RoundTripMuteBody(c: WrapperClass, b: P.Body)
    requires b.MuteBody? && MessageFromBody(c, b).Ok?
    ensures MessageFromBody(c, b).value.MuteMsg?
    ensures ToLkBody(MessageFromBody(c, b).value) == Ok(b)
  {
    DecodeMuteBody(c, b);
    MuteTrackRequestDecodeEncode(b.mute);
    EncodeMuteMsg(MessageFromBody(c, b).value);
  }

  lemma RoundTripUpdateBody(c: WrapperClass, b: P.Body)
    requires b.UpdateBody? && MessageFromBody(c, b).Ok?
    ensures MessageFromBody(c, b).value.ParticipantUpdateMsg?
    ensures ToLkBody(MessageFromBody(c, b).value) == Ok(b)
  {
    DecodeUpdateBody(c, b);
    ParticipantUpdateDecodeEncode(b.update);
    EncodeParticipantUpdateMsg(MessageFromBody(c, b).value);
  }

  lemma RoundTripTrackPublishedBody(c: WrapperClass, b: P.Body)
    requires b.TrackPublishedBody? && MessageFromBody(c, b).Ok?
    ensures MessageFromBody(c, b).value.TrackPublishedMsg?
    ensures ToLkBody(MessageFromBody(c, b).value) == Ok(b)
  {
    DecodeTrackPublishedBody(c, b);
    TrackPublishedResponseDecodeEncode(b.trackPublished);
    EncodeTrackPublishedMsg(MessageFromBody(c, b).value);
  }

  lemma RoundTripLeaveBody(c: WrapperClass, b: P.Body)
    requires b.LeaveBody? && MessageFromBody(c, b).Ok?
    ensures MessageFromBody(c, b).value.LeaveMsg?
    ensures ToLkBody(MessageFromBody(c, b).value) == Ok(b)
  {
    DecodeLeaveBody(c, b);
    LeaveRequestDecodeEncode(b.leave);
    EncodeLeaveMsg(MessageFromBody(c, b).value);
  }

  lemma RoundTripSpeakersChangedBody(c: WrapperClass, b: P.Body)
    requires b.SpeakersChangedBody? && MessageFromBody(c, b).Ok?
    ensures MessageFromBody(c, b).value.SpeakersChangedMsg?
    ensures ToLkBody(MessageFromBody(c, b).value) == Ok(b)
  {
    DecodeSpeakersChangedBody(c, b);
    SpeakersChangedDecodeEncode(b.speakersChanged);
    EncodeSpeakersChangedMsg(MessageFromBody(c, b).value);
  }

  lemma RoundTripRoomUpdateBody(c: WrapperClass, b: P.Body)
    requires b.RoomUpdateBody? && MessageFromBody(c, b).Ok?
    ensures MessageFromBody(c, b).value.RoomUpdateMsg?
    ensures ToLkBody(MessageFromBody(c, b).value) == Ok(b)
  {
    DecodeRoomUpdateBody(c, b);
    RoomUpdateDecodeEncode(b.roomUpdate);
    EncodeRoomUpdateMsg(MessageFromBody(c, b).value);
  }

  lemma RoundTripConnectionQualityBody(c: WrapperClass, b: P.Body)
    requires b.ConnectionQualityBody? && MessageFromBody(c, b).Ok?
    ensures MessageFromBody(c, b).value.ConnectionQualityMsg?
    ensures ToLkBody(MessageFromBody(c, b).value) == Ok(b)
  {
    DecodeConnectionQualityBody(c, b);
    ConnectionQualityUpdateDecodeEncode(b.connectionQuality);
    EncodeConnectionQualityMsg(MessageFromBody(c, b).value);
  }

  lemma RoundTripStreamStateUpdateBody(c: WrapperClass, b: P.Body)
    requires b.StreamStateUpdateBody? && MessageFromBody(c, b).Ok?
    ensures MessageFromBody(c, b).value.StreamStateMsg?
    ensures ToLkBody(MessageFromBody(c, b).value) == Ok(b)
  {
    DecodeStreamStateUpdateBody(c, b);
    StreamStateUpdateDecodeEncode(b.streamStateUpdate);
    EncodeStreamStateMsg(MessageFromBody(c, b).value);
  }

  lemma RoundTripSubscribedQualityUpdateBody(c: WrapperClass, b: P.Body)
    requires b.SubscribedQualityUpdateBody? && MessageFromBody(c, b).Ok?
    ensures MessageFromBody(c, b).value.SubscribedQualityMsg?
    ensures ToLkBody(MessageFromBody(c, b).value) == Ok(b)
  {
    DecodeSubscribedQualityUpdateBody(c, b);
    SubscribedQualityUpdateDecodeEncode(b.subscribedQualityUpdate);
    EncodeSubscribedQualityMsg(MessageFromBody(c, b).value);
  }

  lemma RoundTripSubscriptionPermissionUpdateBody(c: WrapperClass, b: P.Body)
    requires b.SubscriptionPermissionUpdateBody? && MessageFromBody(c, b).Ok?
    ensures MessageFromBody(c, b).value.SubscriptionPermissionUpdateMsg?
    ensures ToLkBody(MessageFromBody(c, b).value) == Ok(b)
  {
    DecodeSubscriptionPermissionUpdateBody(c, b);
    SubscriptionPermissionUpdateDecodeEncode(b.subscriptionPermissionUpdate);
    EncodeSubscriptionPermissionUpdateMsg(MessageFromBody(c, b).value);
  }

  lemma RoundTripTrackUnpublishedBody(c: WrapperClass, b: P.Body)
    requires b.TrackUnpublishedBody? && MessageFromBody(c, b).Ok?
    ensures MessageFromBody(c, b).value.TrackUnpublishedMsg?
    ensures ToLkBody(MessageFromBody(c, b).value) == Ok(b)
  {
    DecodeTrackUnpublishedBody(c, b);
    TrackUnpublishedResponseDecodeEncode(b.trackUnpublished);
    EncodeTrackUnpublishedMsg(MessageFromBody(c, b).value);
  }

  lemma RoundTripAddTrackBody(c: WrapperClass, b: P.Body)
    requires b.AddTrackBody? && MessageFromBody(c, b).Ok?
    ensures MessageFromBody(c, b).value.AddTrackMsg?
    ensures ToLkBody(MessageFromBody(c, b).value) == Ok(b)
  {
    DecodeAddTrackBody(c, b);
    AddTrackRequestDecodeEncode(b.addTrack);
    EncodeAddTrackMsg(MessageFromBody(c, b).value);
  }

  lemma RoundTripSubscriptionBody(c: WrapperClass, b: P.Body)
    requires b.SubscriptionBody? && MessageFromBody(c, b).Ok?
    ensures MessageFromBody(c, b).value.UpdateSubscriptionMsg?
    ensures ToLkBody(MessageFromBody(c, b).value) == Ok(b)
  {
    DecodeSubscriptionBody(c, b);
    UpdateSubscriptionDecodeEncode(b.subscription);
    EncodeUpdateSubscriptionMsg(MessageFromBody(c, b).value);
  }

  lemma RoundTripTrackSettingBody(c: WrapperClass, b: P.Body)
    requires b.TrackSettingBody? && MessageFromBody(c, b).Ok?
    ensures MessageFromBody(c, b).value.UpdateTrackSettingsMsg?
    ensures ToLkBody(MessageFromBody(c, b).value) == Ok(b)
  {
    DecodeTrackSettingBody(c, b);
    UpdateTrackSettingsDecodeEncode(b.trackSetting);
    EncodeUpdateTrackSettingsMsg(MessageFromBody(c, b).value);
  }

  lemma RoundTripUpdateLayersBody(c: WrapperClass, b: P.Body)
    requires b.UpdateLayersBody? && MessageFromBody(c, b).Ok?
    ensures MessageFromBody(c, b).value.UpdateVideoLayersMsg?
    ensures ToLkBody(MessageFromBody(c, b).value) == Ok(b)
  {
    DecodeUpdateLayersBody(c, b);
    UpdateVideoLayersDecodeEncode(b.updateLayers);
    EncodeUpdateVideoLayersMsg(MessageFromBody(c, b).value);
  }

  lemma RoundTripSubscriptionPermissionBody(c: WrapperClass, b: P.Body)
    requires b.SubscriptionPermissionBody? && MessageFromBody(c, b).Ok?
    ensures MessageFromBody(c, b).value.SubscriptionPermissionMsg?
    ensures ToLkBody(MessageFromBody(c, b).value) == Ok(b)
  {
    DecodeSubscriptionPermissionBody(c, b);
    SubscriptionPermissionDecodeEncode(b.subscriptionPermission);
    EncodeSubscriptionPermissionMsg(MessageFromBody(c, b).value);
  }

  lemma RoundTripSessionDescriptionBody(c: WrapperClass, b: P.Body)
    requires b.SessionDescriptionBody? && MessageFromBody(c, b).Ok?
    ensures MessageFromBody(c, b).value.SessionDescriptionMsg?
    ensures ToLkBody(MessageFromBody(c, b).value) == Ok(b)
  {
    DecodeSessionDescriptionBody(c, b);
    SessionDescriptionDecodeEncode(b.sessionDescription);
    EncodeSessionDescriptionMsg(MessageFromBody(c, b).value);
  }

  lemma RoundTripSyncStateBody(c: WrapperClass, b: P.Body)
    requires b.SyncStateBody? && MessageFromBody(c, b).Ok?
    ensures MessageFromBody(c, b).value.SyncStateMsg?
    ensures ToLkBody(MessageFromBody(c, b).value) == Ok(b)
  {
    DecodeSyncStateBody(c, b);
    SyncStateDecodeEncode(b.syncState);
    EncodeSyncStateMsg(MessageFromBody(c, b).value);
  }

  lemma DecodeTrickleBody(c: WrapperClass, b: P.Body)
    requires b.TrickleBody?
    ensures MessageFromBody(c, b).Ok? <==> TrickleRequestFromLk(b.trickle).Ok?
    ensures TrickleRequestFromLk(b.trickle).Ok? ==> MessageFromBody(c, b) == Ok(TrickleMsg(TrickleRequestFromLk(b.trickle).value))
  {
  }

  lemma DecodeBareBody(c: WrapperClass, b: P.Body)
    requires b.Int64Body? || b.StringBody?
    ensures b.Int64Body? ==> MessageFromBody(c, b) == Ok(if c == PongClass then PongMsg(Pong(b.number)) else PingMsg(Ping(b.number)))
    ensures b.StringBody? ==> MessageFromBody(c, b) == Ok(RefreshTokenMsg(RefreshToken(b.text)))
  {
  }

  lemma EncodeBareMsg(m: Message)
    requires m.PingMsg? || m.PongMsg? || m.RefreshTokenMsg?
    ensures m.PingMsg? ==> ToLkBody(m) == if P.IsInt64(m.ping.time) then Ok(P.Int64Body(m.ping.time)) else Err(OutOfRange("ping", m.ping.time))
    ensures m.PongMsg? ==> ToLkBody(m) == if P.IsInt64(m.pong.time) then Ok(P.Int64Body(m.pong.time)) else Err(OutOfRange("pong", m.pong.time))
    ensures m.RefreshTokenMsg? ==> ToLkBody(m) == Ok(P.StringBody(m.refreshToken.token))
  {
  }

  lemma RoundTripBareBody(c: WrapperClass, b: P.Body)
    requires b.Int64Body? || b.StringBody?
    ensures ToLkBody(MessageFromBody(c, b).value) == Ok(b)
  {
    DecodeBareBody(c, b);
    EncodeBareMsg(MessageFromBody(c, b).value);
  }

  lemma BodyDecodingClassA(c: WrapperClass, b: P.Body)
    requires MessageFromBody(c, b).Ok?
    requires b.JoinBody? || b.MuteBody? || b.UpdateBody? || b.TrackPublishedBody? || b.LeaveBody? || b.SpeakersChangedBody?
    ensures ClassOf(MessageFromBody(c, b).value) == DecodingClass(c, b)
  {
    if b.JoinBody? {
      DecodeJoinBody(c, b);
    } else if b.MuteBody? {
      DecodeMuteBody(c, b);
    } else if b.UpdateBody? {
      DecodeUpdateBody(c, b);
    } else if b.TrackPublishedBody? {
      DecodeTrackPublishedBody(c, b);
    } else if b.LeaveBody? {
      DecodeLeaveBody(c, b);
    } else if b.SpeakersChangedBody? {
      DecodeSpeakersChangedBody(c, b);
    }
  }

  lemma BodyDecodingClassB(c: WrapperClass, b: P.Body)
    requires MessageFromBody(c, b).Ok?
    requires b.RoomUpdateBody? || b.ConnectionQualityBody? || b.StreamStateUpdateBody? || b.SubscribedQualityUpdateBody? || b.SubscriptionPermissionUpdateBody? || b.TrackUnpublishedBody?
    ensures ClassOf(MessageFromBody(c, b).value) == DecodingClass(c, b)
  {
    if b.RoomUpdateBody? {
      DecodeRoomUpdateBody(c, b);
    } else if b.ConnectionQualityBody? {
      DecodeConnectionQualityBody(c, b);
    } else if b.StreamStateUpdateBody? {
      DecodeStreamStateUpdateBody(c, b);
    } else if b.SubscribedQualityUpdateBody? {
      DecodeSubscribedQualityUpdateBody(c, b);
    } else if b.SubscriptionPermissionUpdateBody? {
      DecodeSubscriptionPermissionUpdateBody(c, b);
    } else if b.TrackUnpublishedBody? {
      DecodeTrackUnpublishedBody(c, b);
    }
  }

  lemma BodyDecodingClassC(c: WrapperClass, b: P.Body)
    requires MessageFromBody(c, b).Ok?
    requires b.AddTrackBody? || b.SubscriptionBody? || b.TrackSettingBody? || b.UpdateLayersBody? || b.SubscriptionPermissionBody?
    ensures ClassOf(MessageFromBody(c, b).value) == DecodingClass(c, b)
  {
    if b.AddTrackBody? {
      DecodeAddTrackBody(c, b);
    } else if b.SubscriptionBody? {
      DecodeSubscriptionBody(c, b);
    } else if b.TrackSettingBody? {
      DecodeTrackSettingBody(c, b);
    } else if b.UpdateLayersBody? {
      DecodeUpdateLayersBody(c, b);
    } else if b.SubscriptionPermissionBody? {
      DecodeSubscriptionPermissionBody(c, b);
    }
  }

  lemma BodyDecodingClassD(c: WrapperClass, b: P.Body)
    requires MessageFromBody(c, b).Ok?
    requires b.SessionDescriptionBody? || b.TrickleBody? || b.Int64Body? || b.StringBody?
    ensures ClassOf(MessageFromBody(c, b).value) == DecodingClass(c, b)
  {
    if b.SessionDescriptionBody? {
      DecodeSessionDescriptionBody(c, b);
    } else if b.TrickleBody? {
      DecodeTrickleBody(c, b);
    } else if b.Int64Body? || b.StringBody? {
      DecodeBareBody(c, b);
    }
  }

  lemma BodyDecodingClassE(c: WrapperClass, b: P.Body)
    requires MessageFromBody(c, b).Ok?
    requires b.SyncStateBody?
    ensures ClassOf(MessageFromBody(c, b).value) == DecodingClass(c, b)
  {
    DecodeSyncStateBody(c, b);
    assert MessageFromBody(c, b).value.SyncStateMsg?;
  }

  /** `cls.from_lk(body)` makes an instance of the class the body's type belongs to. */
  lemma BodyDecodingClass(c: WrapperClass, b: P.Body)
    requires MessageFromBody(c, b).Ok?
    ensures ClassOf(MessageFromBody(c, b).value) == DecodingClass(c, b)
  {
    if b.JoinBody? || b.MuteBody? || b.UpdateBody? || b.TrackPublishedBody? || b.LeaveBody? || b.SpeakersChangedBody? {
      BodyDecodingClassA(c, b);
    } else if b.RoomUpdateBody? || b.ConnectionQualityBody? || b.StreamStateUpdateBody? || b.SubscribedQualityUpdateBody? || b.SubscriptionPermissionUpdateBody? || b.TrackUnpublishedBody? {
      BodyDecodingClassB(c, b);
    } else if b.AddTrackBody? || b.SubscriptionBody? || b.TrackSettingBody? || b.UpdateLayersBody? || b.SubscriptionPermissionBody? {
      BodyDecodingClassC(c, b);
    } else if b.SessionDescriptionBody? || b.TrickleBody? || b.Int64Body? || b.StringBody? {
      BodyDecodingClassD(c, b);
    } else if b.SyncStateBody? {
      BodyDecodingClassE(c, b);
    }
  }

  /** `cls.from_lk(body)` instantiates the class the body's type belongs to, and its
      `to_lk()` gives the body back; a TrickleRequest decodes but its `to_lk` always raises. */
  lemma BodyDecodeEncode(c: WrapperClass, b: P.Body)
    requires MessageFromBody(c, b).Ok?
    ensures ClassOf(MessageFromBody(c, b).value) == DecodingClass(c, b)
    ensures !b.TrickleBody? ==> ToLkBody(MessageFromBody(c, b).value) == Ok(b)
  {
    BodyDecodingClass(c, b);
    if b.JoinBody? {
      RoundTripJoinBody(c, b);
    } else if b.MuteBody? {
      RoundTripMuteBody(c, b);
    } else if b.UpdateBody? {
      RoundTripUpdateBody(c, b);
    } else if b.TrackPublishedBody? {
      RoundTripTrackPublishedBody(c, b);
    } else if b.LeaveBody? {
      RoundTripLeaveBody(c, b);
    } else if b.SpeakersChangedBody? {
      RoundTripSpeakersChangedBody(c, b);
    } else if b.RoomUpdateBody? {
      RoundTripRoomUpdateBody(c, b);
    } else if b.ConnectionQualityBody? {
      RoundTripConnectionQualityBody(c, b);
    } else if b.StreamStateUpdateBody? {
      RoundTripStreamStateUpdateBody(c, b);
    } else if b.SubscribedQualityUpdateBody? {
      RoundTripSubscribedQualityUpdateBody(c, b);
    } else if b.SubscriptionPermissionUpdateBody? {
      RoundTripSubscriptionPermissionUpdateBody(c, b);
    } else if b.TrackUnpublishedBody? {
      RoundTripTrackUnpublishedBody(c, b);
    } else if b.AddTrackBody? {
      RoundTripAddTrackBody(c, b);
    } else if b.SubscriptionBody? {
      RoundTripSubscriptionBody(c, b);
    } else if b.TrackSettingBody? {
      RoundTripTrackSettingBody(c, b);
    } else if b.UpdateLayersBody? {
      RoundTripUpdateLayersBody(c, b);
    } else if b.SubscriptionPermissionBody? {
      RoundTripSubscriptionPermissionBody(c, b);
    } else if b.SessionDescriptionBody? {
      RoundTripSessionDescriptionBody(c, b);
    } else if b.SyncStateBody? {
      RoundTripSyncStateBody(c, b);
    } else if b.Int64Body? || b.StringBody? {
      RoundTripBareBody(c, b);
    }
  }

  /** `type(m).from_lk(m.to_lk()) == m` whenever `to_lk` succeeds, except for an
      UpdateTrackSettings without a quality (see `UpdateTrackSettingsDefaultQuality`). */
  lemma MessageEncodeDecode(m: Message)
    requires ToLkBody(m).Ok?
    requires m.UpdateTrackSettingsMsg? ==> m.trackSetting.quality.Some?
    ensures MessageFromBody(ClassOf(m), ToLkBody(m).value) == Ok(m)
  {
    if m.JoinMsg? {
      EncodeJoinMsg(m);
      DecodeJoinBody(JoinResponseClass, ToLkBody(m).value);
    } else if m.MuteMsg? {
      EncodeMuteMsg(m);
      DecodeMuteBody(MuteTrackRequestClass, ToLkBody(m).value);
    } else if m.ParticipantUpdateMsg? {
      EncodeParticipantUpdateMsg(m);
      DecodeUpdateBody(ParticipantUpdateClass, ToLkBody(m).value);
    } else if m.TrackPublishedMsg? {
      EncodeTrackPublishedMsg(m);
      DecodeTrackPublishedBody(TrackPublishedResponseClass, ToLkBody(m).value);
    } else if m.LeaveMsg? {
      EncodeLeaveMsg(m);
      DecodeLeaveBody(LeaveRequestClass, ToLkBody(m).value);
    } else if m.SpeakersChangedMsg? {
      EncodeSpeakersChangedMsg(m);
      DecodeSpeakersChangedBody(SpeakersChangedClass, ToLkBody(m).value);
    } else if m.RoomUpdateMsg? {
      EncodeRoomUpdateMsg(m);
      DecodeRoomUpdateBody(RoomUpdateClass, ToLkBody(m).value);
    } else if m.ConnectionQualityMsg? {
      EncodeConnectionQualityMsg(m);
      DecodeConnectionQualityBody(ConnectionQualityUpdateClass, ToLkBody(m).value);
    } else if m.StreamStateMsg? {
      EncodeStreamStateMsg(m);
      DecodeStreamStateUpdateBody(StreamStateUpdateClass, ToLkBody(m).value);
    } else if m.SubscribedQualityMsg? {
      EncodeSubscribedQualityMsg(m);
      DecodeSubscribedQualityUpdateBody(SubscribedQualityUpdateClass, ToLkBody(m).value);
    } else if m.SubscriptionPermissionUpdateMsg? {
      EncodeSubscriptionPermissionUpdateMsg(m);
      DecodeSubscriptionPermissionUpdateBody(SubscriptionPermissionUpdateClass, ToLkBody(m).value);
    } else if m.TrackUnpublishedMsg? {
      EncodeTrackUnpublishedMsg(m);
      DecodeTrackUnpublishedBody(TrackUnpublishedResponseClass, ToLkBody(m).value);
    } else if m.AddTrackMsg? {
      EncodeAddTrackMsg(m);
      DecodeAddTrackBody(AddTrackRequestClass, ToLkBody(m).value);
    } else if m.UpdateSubscriptionMsg? {
      EncodeUpdateSubscriptionMsg(m);
      DecodeSubscriptionBody(UpdateSubscriptionClass, ToLkBody(m).value);
    } else if m.UpdateTrackSettingsMsg? {
      EncodeUpdateTrackSettingsMsg(m);
      DecodeTrackSettingBody(UpdateTrackSettingsClass, ToLkBody(m).value);
    } else if m.UpdateVideoLayersMsg? {
      EncodeUpdateVideoLayersMsg(m);
      DecodeUpdateLayersBody(UpdateVideoLayersClass, ToLkBody(m).value);
    } else if m.SubscriptionPermissionMsg? {
      EncodeSubscriptionPermissionMsg(m);
      DecodeSubscriptionPermissionBody(SubscriptionPermissionClass, ToLkBody(m).value);
    } else if m.SessionDescriptionMsg? {
      EncodeSessionDescriptionMsg(m);
      DecodeSessionDescriptionBody(SessionDescriptionClass, ToLkBody(m).value);
    } else if m.SyncStateMsg? {
      EncodeSyncStateMsg(m);
      DecodeSyncStateBody(SyncStateClass, ToLkBody(m).value);
    } else if m.PingMsg? || m.PongMsg? || m.RefreshTokenMsg? {
      EncodeBareMsg(m);
      DecodeBareBody(ClassOf(m), ToLkBody(m).value);
    }
  }

  /** The body type a field holds decodes to the class the table registers for it. */
  lemma RequestTableDecodingClass(f: FieldName, b: P.Body)
    requires P.RequestFieldAccepts(f, b) && RequestClassFor(f).Some?
    ensures DecodingClass(RequestClassFor(f).value, b) == RequestClassFor(f).value
  {
  }

  lemma ResponseTableDecodingClass(f: FieldName, b: P.Body)
    requires P.ResponseFieldAccepts(f, b) && ResponseClassFor(f).Some?
    ensures DecodingClass(ResponseClassFor(f).value, b) == ResponseClassFor(f).value
  {
  }

  /** Module-level `from_signal_request` on a request it accepts is `from_lk` of the
      registered class on the field's value. */
  lemma FromSignalRequestDecodes(req: P.SignalRequest)
    requires P.WellTypedRequest(req) && FromSignalRequest(req).Ok?
    ensures P.RequestWhich(req).Some? && RequestClassFor(P.RequestWhich(req).value).Some?
    ensures FromSignalRequest(req) == MessageFromBody(RequestClassFor(req.message.value.name).value, req.message.value.value)
  {
    FromSignalRequestDispatches(req);
  }

  /** Under a registered tag, module-level `from_signal_request` comes down to `from_lk`
      of the registered class on the field's value: the class's own tag check passes. */
  lemma FromSignalRequestDispatches(req: P.SignalRequest)
    requires req.message.Some? && RequestClassFor(req.message.value.name).Some?
    ensures FromSignalRequest(req) == MessageFromBody(RequestClassFor(req.message.value.name).value, req.message.value.value)
  {
    var t := req.message.value.name;
    TablesMatchTags(RequestClassFor(t).value, t);
  }

  lemma FromSignalResponseDecodes(resp: P.SignalResponse)
    requires P.WellTypedResponse(resp) && FromSignalResponse(resp).Ok?
    ensures P.ResponseWhich(resp).Some? && ResponseClassFor(P.ResponseWhich(resp).value).Some?
    ensures FromSignalResponse(resp) == MessageFromBody(ResponseClassFor(resp.message.value.name).value, resp.message.value.value)
  {
    FromSignalResponseDispatches(resp);
  }

  /** Under a registered tag whose class derives from `LKBase`, module-level
      `from_signal_response` comes down to `from_lk` of that class on the field's value. */
  lemma FromSignalResponseDispatches(resp: P.SignalResponse)
    requires resp.message.Some? && ResponseClassFor(resp.message.value.name).Some?
    requires IsLKBase(ResponseClassFor(resp.message.value.name).value)
    ensures FromSignalResponse(resp) == MessageFromBody(ResponseClassFor(resp.message.value.name).value, resp.message.value.value)
  {
    var t := resp.message.value.name;
    TablesMatchTags(ResponseClassFor(t).value, t);
  }

  /** A decoded request is an instance of the class its tag is registered to. */
  lemma DecodedRequestClass(req: P.SignalRequest)
    requires P.WellTypedRequest(req) && FromSignalRequest(req).Ok?
    ensures Some(ClassOf(FromSignalRequest(req).value)) == RequestClassFor(P.RequestWhich(req).value)
  {
    FromSignalRequestDecodes(req);
    var f := req.message.value.name;
    BodyDecodeEncode(RequestClassFor(f).value, req.message.value.value);
    RequestTableDecodingClass(f, req.message.value.value);
  }

  /** A decoded response is an instance of the class its tag is registered to. */
  lemma DecodedResponseClass(resp: P.SignalResponse)
    requires P.WellTypedResponse(resp) && FromSignalResponse(resp).Ok?
    ensures Some(ClassOf(FromSignalResponse(resp).value)) == ResponseClassFor(P.ResponseWhich(resp).value)
  {
    FromSignalResponseDecodes(resp);
    var f := resp.message.value.name;
    BodyDecodeEncode(ResponseClassFor(f).value, resp.message.value.value);
    ResponseTableDecodingClass(f, resp.message.value.value);
  }

  // ---------------------------------------------------------------------------------
  // Round trips

  /** Whatever `to_signal_request` produces, module-level `from_signal_request` turns back
      into the same message. The one exception is an UpdateTrackSettings with no quality,
      which comes back with LOW (see `UpdateTrackSettingsDefaultQuality`). */
  lemma RequestEncodeDecode(m: Message)
    requires ToSignalRequest(m).Ok?
    requires m.UpdateTrackSettingsMsg? ==> m.trackSetting.quality.Some?
    ensures FromSignalRequest(ToSignalRequest(m).value) == Ok(m)
  {
    var req := ToSignalRequest(m).value;
    TablesMatchTags(ClassOf(m), req.message.value.name);
    FromSignalRequestDispatches(req);
    MessageEncodeDecode(m);
  }

  lemma UpdateTrackSettingsDefaultQuality(u: UpdateTrackSettings)
    requires u.quality.None?
    requires ToSignalRequest(UpdateTrackSettingsMsg(u)).Ok?
    ensures FromSignalRequest(ToSignalRequest(UpdateTrackSettingsMsg(u)).value)
            == Ok(UpdateTrackSettingsMsg(u.(quality := Some(LkEnums.VideoQuality.LOW))))
  {
    var m := UpdateTrackSettingsMsg(u);
    var req := ToSignalRequest(m).value;
    EncodeUpdateTrackSettingsMsg(m);
    TablesMatchTags(UpdateTrackSettingsClass, req.message.value.name);
    FromSignalRequestDispatches(req);
    DecodeTrackSettingBody(UpdateTrackSettingsClass, req.message.value.value);
  }

  /** A SessionDescription goes out under its own type and comes back unchanged exactly
      when that type is "offer" or "answer". */
  lemma SessionDescriptionRequestRoundTrip(d: SessionDescription)
    ensures d.sdpType in {"offer", "answer"} <==>
            ToSignalRequest(SessionDescriptionMsg(d)).Ok?
            && FromSignalRequest(ToSignalRequest(SessionDescriptionMsg(d)).value) == Ok(SessionDescriptionMsg(d))
  {
    if d.sdpType in {"offer", "answer"} {
      RequestEncodeDecode(SessionDescriptionMsg(d));
    }
  }

  /** A decoded request converts back to the envelope it came from, provided the class's
      `to_lk` works at all (TrickleRequest's never does) and a session description's type
      matches the field it arrived in. */
  lemma RequestDecodeEncode(req: P.SignalRequest)
    requires P.WellTypedRequest(req)
    requires FromSignalRequest(req).Ok?
    requires P.RequestWhich(req) != Some(TrickleField)
    requires req.message.value.value.SessionDescriptionBody? ==>
               req.message.value.value.sessionDescription.sdpType == FieldNameText(req.message.value.name)
    ensures ToSignalRequest(FromSignalRequest(req).value) == Ok(req)
  {
    var f := req.message.value.name;
    var b := req.message.value.value;
    FromSignalRequestDecodes(req);
    var c := RequestClassFor(f).value;
    BodyDecodeEncode(c, b);
    RequestTableDecodingClass(f, b);
    TablesMatchTags(c, f);
    var m := FromSignalRequest(req).value;
    assert ClassOf(m) == c && ToLkBody(m) == Ok(b);
    assert req == P.SignalRequest(Some(P.Field(f, b)));
    if b.SessionDescriptionBody? {
      P.SessionDescriptionRequestFields(f, b.sessionDescription);
      assert m.SessionDescriptionMsg?;
    } else {
      assert !m.TrackPublishedMsg? && !m.SessionDescriptionMsg?;
      assert ToSignalRequest(m) == BaseToSignalRequest(m);
    }
  }

  /** A decoded response's `to_lk()` gives back the body it was decoded from (TrickleRequest
      excepted). */
  lemma ResponseDecodeEncode(resp: P.SignalResponse)
    requires P.WellTypedResponse(resp)
    requires FromSignalResponse(resp).Ok?
    requires P.ResponseWhich(resp) != Some(TrickleField)
    ensures ToLkBody(FromSignalResponse(resp).value) == Ok(resp.message.value.value)
  {
    FromSignalResponseDecodes(resp);
    var f := resp.message.value.name;
    BodyDecodeEncode(ResponseClassFor(f).value, resp.message.value.value);
  }

  /** Ping, Pong and RefreshToken wrap the bare value: `to_lk(from_lk(x)) == x`. */
  lemma BareValuesRoundTrip(n: P.int64, s: string)
    ensures MessageFromBody(PingClass, P.Int64Body(n)) == Ok(PingMsg(Ping(n)))
    ensures MessageFromBody(PongClass, P.Int64Body(n)) == Ok(PongMsg(Pong(n)))
    ensures ToLkBody(PingMsg(Ping(n))) == Ok(P.Int64Body(n))
    ensures ToLkBody(PongMsg(Pong(n))) == Ok(P.Int64Body(n))
    ensures ToLkBody(MessageFromBody(RefreshTokenClass, P.StringBody(s)).value) == Ok(P.StringBody(s))
  {
    DecodeBareBody(PingClass, P.Int64Body(n));
    DecodeBareBody(PongClass, P.Int64Body(n));
    EncodeBareMsg(PingMsg(Ping(n)));
    EncodeBareMsg(PongMsg(Pong(n)));
    RoundTripBareBody(RefreshTokenClass, P.StringBody(s));
  }
}
