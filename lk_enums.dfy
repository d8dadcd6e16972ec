/** The wrapper enums of the signalling layer and their explicit conversion tables to and
    from protobuf wire numbers. Conversions go by member, never by the Python `value`
    of the member: ConnectionQuality and StreamState number their members from 0,
    the others from 1 (`enum.auto()`), and neither numbering is the wire number.
    Enums that carry a `NONE` placeholder have no wire value for it. */
module LkEnums {
  import opened Wrappers
  import opened Exceptions
  import opened Proto

  datatype ParticipantInfoState = JOINING | JOINED | ACTIVE | DISCONNECTED {
    function ToLk(): (r: int32)
      ensures 0 <= r < 4
      ensures ParticipantInfoState.FromLk(r) == Ok(this)
    {
      match this
      case JOINING => 0
      case JOINED => 1
      case ACTIVE => 2
      case DISCONNECTED => 3
    }

    static function FromLk(v: int): (r: Result<ParticipantInfoState, PyError>)
      ensures r.Ok? <==> 0 <= v < 4
      ensures r.Err? ==> r.error == UnknownEnumValue("ParticipantInfoState", v)
    {
      if v == 0 then Ok(ParticipantInfoState.JOINING)
      else if v == 1 then Ok(ParticipantInfoState.JOINED)
      else if v == 2 then Ok(ParticipantInfoState.ACTIVE)
      else if v == 3 then Ok(ParticipantInfoState.DISCONNECTED)
      else Err(UnknownEnumValue("ParticipantInfoState", v))
    }
  }

  datatype TrackType = AUDIO | VIDEO | DATA {
    function ToLk(): (r: int32)
      ensures 0 <= r < 3
      ensures TrackType.FromLk(r) == Ok(this)
    {
      match this
      case AUDIO => 0
      case VIDEO => 1
      case DATA => 2
    }

    static function FromLk(v: int): (r: Result<TrackType, PyError>)
      ensures r.Ok? <==> 0 <= v < 3
      ensures r.Err? ==> r.error == UnknownEnumValue("TrackType", v)
    {
      if v == 0 then Ok(TrackType.AUDIO)
      else if v == 1 then Ok(TrackType.VIDEO)
      else if v == 2 then Ok(TrackType.DATA)
      else Err(UnknownEnumValue("TrackType", v))
    }
  }

  datatype TrackSource = NONE | UNKNOWN | CAMERA | MICROPHONE | SCREEN_SHARE | SCREEN_SHARE_AUDIO {
    function ToLk(): (r: Result<int32, PyError>)
      ensures r.Ok? <==> this != TrackSource.NONE
      ensures r.Ok? ==> 0 <= r.value < 5 && TrackSource.FromLk(r.value) == Ok(this)
      ensures r.Err? ==> r.error == UnmappedEnumMember("TrackSource")
    {
      match this
      case UNKNOWN => Ok(0)
      case CAMERA => Ok(1)
      case MICROPHONE => Ok(2)
      case SCREEN_SHARE => Ok(3)
      case SCREEN_SHARE_AUDIO => Ok(4)
      case NONE => Err(UnmappedEnumMember("TrackSource"))
    }

    static function FromLk(v: int): (r: Result<TrackSource, PyError>)
      ensures r.Ok? <==> 0 <= v < 5
      ensures r.Ok? ==> r.value != TrackSource.NONE
      ensures r.Err? ==> r.error == UnknownEnumValue("TrackSource", v)
    {
      if v == 0 then Ok(TrackSource.UNKNOWN)
      else if v == 1 then Ok(TrackSource.CAMERA)
      else if v == 2 then Ok(TrackSource.MICROPHONE)
      else if v == 3 then Ok(TrackSource.SCREEN_SHARE)
      else if v == 4 then Ok(TrackSource.SCREEN_SHARE_AUDIO)
      else Err(UnknownEnumValue("TrackSource", v))
    }
  }

  datatype VideoQuality = NONE | LOW | MEDIUM | HIGH | OFF {
    function ToLk(): (r: Result<int32, PyError>)
      ensures r.Ok? <==> this != VideoQuality.NONE
      ensures r.Ok? ==> 0 <= r.value < 4 && VideoQuality.FromLk(r.value) == Ok(this)
      ensures r.Err? ==> r.error == UnmappedEnumMember("VideoQuality")
    {
      match this
      case LOW => Ok(0)
      case MEDIUM => Ok(1)
      case HIGH => Ok(2)
      case OFF => Ok(3)
      case NONE => Err(UnmappedEnumMember("VideoQuality"))
    }

    static function FromLk(v: int): (r: Result<VideoQuality, PyError>)
      ensures r.Ok? <==> 0 <= v < 4
      ensures r.Ok? ==> r.value != VideoQuality.NONE
      ensures r.Err? ==> r.error == UnknownEnumValue("VideoQuality", v)
    {
      if v == 0 then Ok(VideoQuality.LOW)
      else if v == 1 then Ok(VideoQuality.MEDIUM)
      else if v == 2 then Ok(VideoQuality.HIGH)
      else if v == 3 then Ok(VideoQuality.OFF)
      else Err(UnknownEnumValue("VideoQuality", v))
    }

    /** The member's Python name, the key the subscriber files layers under. */
    function Name(): string
    {
      match this
      case NONE => "NONE"
      case LOW => "LOW"
      case MEDIUM => "MEDIUM"
      case HIGH => "HIGH"
      case OFF => "OFF"
    }
  }

  datatype ClientConfigSetting = UNSET | DISABLED | ENABLED {
    function ToLk(): (r: int32)
      ensures 0 <= r < 3
      ensures ClientConfigSetting.FromLk(r) == Ok(this)
    {
      match this
      case UNSET => 0
      case DISABLED => 1
      case ENABLED => 2
    }

    static function FromLk(v: int): (r: Result<ClientConfigSetting, PyError>)
      ensures r.Ok? <==> 0 <= v < 3
      ensures r.Err? ==> r.error == UnknownEnumValue("ClientConfigSetting", v)
    {
      if v == 0 then Ok(ClientConfigSetting.UNSET)
      else if v == 1 then Ok(ClientConfigSetting.DISABLED)
      else if v == 2 then Ok(ClientConfigSetting.ENABLED)
      else Err(UnknownEnumValue("ClientConfigSetting", v))
    }
  }

  /** `ServerInfo.Edition`, whose wire members are spelled `Standard` and `Cloud`. */
  datatype ServerInfoEdition = NONE | STANDARD | CLOUD {
    function ToLk(): (r: Result<int32, PyError>)
      ensures r.Ok? <==> this != ServerInfoEdition.NONE
      ensures r.Ok? ==> 0 <= r.value < 2 && ServerInfoEdition.FromLk(r.value) == Ok(this)
      ensures r.Err? ==> r.error == UnmappedEnumMember("ServerInfo_Edition")
    {
      match this
      case STANDARD => Ok(0)
      case CLOUD => Ok(1)
      case NONE => Err(UnmappedEnumMember("ServerInfo_Edition"))
    }

    static function FromLk(v: int): (r: Result<ServerInfoEdition, PyError>)
      ensures r.Ok? <==> 0 <= v < 2
      ensures r.Ok? ==> r.value != ServerInfoEdition.NONE
      ensures r.Err? ==> r.error == UnknownEnumValue("ServerInfo_Edition", v)
    {
      if v == 0 then Ok(ServerInfoEdition.STANDARD)
      else if v == 1 then Ok(ServerInfoEdition.CLOUD)
      else Err(UnknownEnumValue("ServerInfo_Edition", v))
    }
  }

  datatype SignalTarget = NONE | PUBLISHER | SUBSCRIBER {
    function ToLk(): (r: Result<int32, PyError>)
      ensures r.Ok? <==> this != SignalTarget.NONE
      ensures r.Ok? ==> 0 <= r.value < 2 && SignalTarget.FromLk(r.value) == Ok(this)
      ensures r.Err? ==> r.error == UnmappedEnumMember("SignalTarget")
    {
      match this
      case PUBLISHER => Ok(0)
      case SUBSCRIBER => Ok(1)
      case NONE => Err(UnmappedEnumMember("SignalTarget"))
    }

    static function FromLk(v: int): (r: Result<SignalTarget, PyError>)
      ensures r.Ok? <==> 0 <= v < 2
      ensures r.Ok? ==> r.value != SignalTarget.NONE
      ensures r.Err? ==> r.error == UnknownEnumValue("SignalTarget", v)
    {
      if v == 0 then Ok(SignalTarget.PUBLISHER)
      else if v == 1 then Ok(SignalTarget.SUBSCRIBER)
      else Err(UnknownEnumValue("SignalTarget", v))
    }
  }

  datatype DisconnectReason =
    | UNKNOWN_REASON | CLIENT_INITIATED | DUPLICATE_IDENTITY | SERVER_SHUTDOWN
    | PARTICIPANT_REMOVED | ROOM_DELETED | STATE_MISMATCH | JOIN_FAILURE
  {
    function ToLk(): (r: int32)
      ensures 0 <= r < 8
      ensures DisconnectReason.FromLk(r) == Ok(this)
    {
      match this
      case UNKNOWN_REASON => 0
      case CLIENT_INITIATED => 1
      case DUPLICATE_IDENTITY => 2
      case SERVER_SHUTDOWN => 3
      case PARTICIPANT_REMOVED => 4
      case ROOM_DELETED => 5
      case STATE_MISMATCH => 6
      case JOIN_FAILURE => 7
    }

    static function FromLk(v: int): (r: Result<DisconnectReason, PyError>)
      ensures r.Ok? <==> 0 <= v < 8
      ensures r.Err? ==> r.error == UnknownEnumValue("DisconnectReason", v)
    {
      if v == 0 then Ok(DisconnectReason.UNKNOWN_REASON)
      else if v == 1 then Ok(DisconnectReason.CLIENT_INITIATED)
      else if v == 2 then Ok(DisconnectReason.DUPLICATE_IDENTITY)
      else if v == 3 then Ok(DisconnectReason.SERVER_SHUTDOWN)
      else if v == 4 then Ok(DisconnectReason.PARTICIPANT_REMOVED)
      else if v == 5 then Ok(DisconnectReason.ROOM_DELETED)
      else if v == 6 then Ok(DisconnectReason.STATE_MISMATCH)
      else if v == 7 then Ok(DisconnectReason.JOIN_FAILURE)
      else Err(UnknownEnumValue("DisconnectReason", v))
    }
  }

  datatype ConnectionQuality = POOR | GOOD | EXCELLENT {
    function ToLk(): (r: int32)
      ensures 0 <= r < 3
      ensures ConnectionQuality.FromLk(r) == Ok(this)
    {
      match this
      case POOR => 0
      case GOOD => 1
      case EXCELLENT => 2
    }

    static function FromLk(v: int): (r: Result<ConnectionQuality, PyError>)
      ensures r.Ok? <==> 0 <= v < 3
      ensures r.Err? ==> r.error == UnknownEnumValue("ConnectionQuality", v)
    {
      if v == 0 then Ok(ConnectionQuality.POOR)
      else if v == 1 then Ok(ConnectionQuality.GOOD)
      else if v == 2 then Ok(ConnectionQuality.EXCELLENT)
      else Err(UnknownEnumValue("ConnectionQuality", v))
    }
  }

  datatype StreamState = ACTIVE | PAUSED {
    function ToLk(): (r: int32)
      ensures 0 <= r < 2
      ensures StreamState.FromLk(r) == Ok(this)
    {
      match this
      case ACTIVE => 0
      case PAUSED => 1
    }

    static function FromLk(v: int): (r: Result<StreamState, PyError>)
      ensures r.Ok? <==> 0 <= v < 2
      ensures r.Err? ==> r.error == UnknownEnumValue("StreamState", v)
    {
      if v == 0 then Ok(StreamState.ACTIVE)
      else if v == 1 then Ok(StreamState.PAUSED)
      else Err(UnknownEnumValue("StreamState", v))
    }
  }

  // Wire values that decode are exactly those the encoder produces.

  lemma ParticipantInfoStateWireRoundTrip(v: int)
    requires ParticipantInfoState.FromLk(v).Ok?
    ensures ParticipantInfoState.FromLk(v).value.ToLk() == v
  {
  }

  lemma TrackTypeWireRoundTrip(v: int)
    requires TrackType.FromLk(v).Ok?
    ensures TrackType.FromLk(v).value.ToLk() == v
  {
  }

  lemma TrackSourceWireRoundTrip(v: int)
    requires TrackSource.FromLk(v).Ok?
    ensures TrackSource.FromLk(v).value.ToLk() == Ok(v)
  {
  }

  lemma VideoQualityWireRoundTrip(v: int)
    requires VideoQuality.FromLk(v).Ok?
    ensures VideoQuality.FromLk(v).value.ToLk() == Ok(v)
  {
  }

  lemma ClientConfigSettingWireRoundTrip(v: int)
    requires ClientConfigSetting.FromLk(v).Ok?
    ensures ClientConfigSetting.FromLk(v).value.ToLk() == v
  {
  }

  lemma ServerInfoEditionWireRoundTrip(v: int)
    requires ServerInfoEdition.FromLk(v).Ok?
    ensures ServerInfoEdition.FromLk(v).value.ToLk() == Ok(v)
  {
  }

  lemma SignalTargetWireRoundTrip(v: int)
    requires SignalTarget.FromLk(v).Ok?
    ensures SignalTarget.FromLk(v).value.ToLk() == Ok(v)
  {
  }

  lemma DisconnectReasonWireRoundTrip(v: int)
    requires DisconnectReason.FromLk(v).Ok?
    ensures DisconnectReason.FromLk(v).value.ToLk() == v
  {
  }

  lemma ConnectionQualityWireRoundTrip(v: int)
    requires ConnectionQuality.FromLk(v).Ok?
    ensures ConnectionQuality.FromLk(v).value.ToLk() == v
  {
  }

  lemma StreamStateWireRoundTrip(v: int)
    requires StreamState.FromLk(v).Ok?
    ensures StreamState.FromLk(v).value.ToLk() == v
  {
  }

  // The four enum classes that also carry `@dataclass` (TrackSource, SignalTarget,
  // ConnectionQuality, StreamState) get a generated `__eq__` that compares the tuples of
  // their dataclass fields. An enum class declares no annotated fields, so any two members
  // of one such class compare equal, and the first test of each `to_lk` table always
  // succeeds. The functions below follow those tables as written; the ToLk members above
  // are the tables as evidently intended.

  /** `a == b` between two members of one of the four `@dataclass` enum classes. */
  predicate DataclassMembersEqual<T>(a: T, b: T)
  {
    true
  }

  function TrackSourceToLkAsWritten(e: TrackSource): (r: Result<int, PyError>)
    ensures r == Ok(0)
  {
    if DataclassMembersEqual(e, TrackSource.UNKNOWN) then Ok(0)
    else if DataclassMembersEqual(e, TrackSource.CAMERA) then Ok(1)
    else if DataclassMembersEqual(e, TrackSource.MICROPHONE) then Ok(2)
    else if DataclassMembersEqual(e, TrackSource.SCREEN_SHARE) then Ok(3)
    else if DataclassMembersEqual(e, TrackSource.SCREEN_SHARE_AUDIO) then Ok(4)
    else Err(UnmappedEnumMember("TrackSource"))
  }

  function SignalTargetToLkAsWritten(e: SignalTarget): (r: Result<int, PyError>)
    ensures r == Ok(0)
  {
    if DataclassMembersEqual(e, SignalTarget.PUBLISHER) then Ok(0)
    else if DataclassMembersEqual(e, SignalTarget.SUBSCRIBER) then Ok(1)
    else Err(UnmappedEnumMember("SignalTarget"))
  }

  function ConnectionQualityToLkAsWritten(e: ConnectionQuality): (r: int)
    ensures r == 0
  {
    if DataclassMembersEqual(e, ConnectionQuality.POOR) then 0
    else if DataclassMembersEqual(e, ConnectionQuality.GOOD) then 1
    else 2
  }

  function StreamStateToLkAsWritten(e: StreamState): (r: int)
    ensures r == 0
  {
    if DataclassMembersEqual(e, StreamState.ACTIVE) then 0
    else 1
  }

  /** As written, a camera track is sent as UNKNOWN and the NONE placeholder is accepted. */
  lemma TrackSourceAsWrittenLosesMember()
    ensures TrackSource.FromLk(TrackSourceToLkAsWritten(TrackSource.CAMERA).value) == Ok(TrackSource.UNKNOWN)
    ensures TrackSourceToLkAsWritten(TrackSource.NONE).Ok?
    ensures TrackSource.FromLk(TrackSource.CAMERA.ToLk().value) == Ok(TrackSource.CAMERA)
  {
  }

  /** As written, SUBSCRIBER is sent as PUBLISHER and NONE raises nothing. */
  lemma SignalTargetAsWrittenLosesMember()
    ensures SignalTarget.FromLk(SignalTargetToLkAsWritten(SignalTarget.SUBSCRIBER).value) == Ok(SignalTarget.PUBLISHER)
    ensures SignalTargetToLkAsWritten(SignalTarget.NONE).Ok?
    ensures SignalTarget.NONE.ToLk().Err?
  {
  }

  /** As written, EXCELLENT is sent as POOR. */
  lemma ConnectionQualityAsWrittenLosesMember()
    ensures ConnectionQuality.FromLk(ConnectionQualityToLkAsWritten(ConnectionQuality.EXCELLENT)) == Ok(ConnectionQuality.POOR)
    ensures ConnectionQuality.FromLk(ConnectionQuality.EXCELLENT.ToLk()) == Ok(ConnectionQuality.EXCELLENT)
  {
  }

  /** As written, PAUSED is sent as ACTIVE. */
  lemma StreamStateAsWrittenLosesMember()
    ensures StreamState.FromLk(StreamStateToLkAsWritten(StreamState.PAUSED)) == Ok(StreamState.ACTIVE)
    ensures StreamState.FromLk(StreamState.PAUSED.ToLk()) == Ok(StreamState.PAUSED)
  {
  }
}
