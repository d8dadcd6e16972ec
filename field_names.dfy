/** The fields of the `message` oneofs of the signalling envelopes, by name. */
module FieldNames {
  import opened Wrappers

  datatype FieldName =
    | OfferField | AnswerField | TrickleField | AddTrackField | MuteField | SubscriptionField
    | TrackSettingField | LeaveField | UpdateLayersField | SubscriptionPermissionField | SyncStateField
    | SimulateField | PingField | JoinField | UpdateField | TrackPublishedField | SpeakersChangedField
    | RoomUpdateField | ConnectionQualityField | StreamStateUpdateField | SubscribedQualityUpdateField
    | SubscriptionPermissionUpdateField | RefreshTokenField | TrackUnpublishedField | PongField

  /** The field's name, as `WhichOneof("message")` reports it and as a constructor keyword. */
  function FieldNameText(f: FieldName): string
  {
    match f
    case OfferField => "offer"
    case AnswerField => "answer"
    case TrickleField => "trickle"
    case AddTrackField => "add_track"
    case MuteField => "mute"
    case SubscriptionField => "subscription"
    case TrackSettingField => "track_setting"
    case LeaveField => "leave"
    case UpdateLayersField => "update_layers"
    case SubscriptionPermissionField => "subscription_permission"
    case SyncStateField => "sync_state"
    case SimulateField => "simulate"
    case PingField => "ping"
    case JoinField => "join"
    case UpdateField => "update"
    case TrackPublishedField => "track_published"
    case SpeakersChangedField => "speakers_changed"
    case RoomUpdateField => "room_update"
    case ConnectionQualityField => "connection_quality"
    case StreamStateUpdateField => "stream_state_update"
    case SubscribedQualityUpdateField => "subscribed_quality_update"
    case SubscriptionPermissionUpdateField => "subscription_permission_update"
    case RefreshTokenField => "refresh_token"
    case TrackUnpublishedField => "track_unpublished"
    case PongField => "pong"
  }

  /** Every field, in declaration order. */
  const AllFields: seq<FieldName> := [
    OfferField, AnswerField, TrickleField, AddTrackField, MuteField, SubscriptionField,
    TrackSettingField, LeaveField, UpdateLayersField, SubscriptionPermissionField, SyncStateField,
    SimulateField, PingField, JoinField, UpdateField, TrackPublishedField, SpeakersChangedField,
    RoomUpdateField, ConnectionQualityField, StreamStateUpdateField, SubscribedQualityUpdateField,
    SubscriptionPermissionUpdateField, RefreshTokenField, TrackUnpublishedField, PongField]

  lemma AllFieldsListed(f: FieldName)
    ensures f in AllFields
  {
    match f
    case OfferField => assert AllFields[0] == f;
    case AnswerField => assert AllFields[1] == f;
    case TrickleField => assert AllFields[2] == f;
    case AddTrackField => assert AllFields[3] == f;
    case MuteField => assert AllFields[4] == f;
    case SubscriptionField => assert AllFields[5] == f;
    case TrackSettingField => assert AllFields[6] == f;
    case LeaveField => assert AllFields[7] == f;
    case UpdateLayersField => assert AllFields[8] == f;
    case SubscriptionPermissionField => assert AllFields[9] == f;
    case SyncStateField => assert AllFields[10] == f;
    case SimulateField => assert AllFields[11] == f;
    case PingField => assert AllFields[12] == f;
    case JoinField => assert AllFields[13] == f;
    case UpdateField => assert AllFields[14] == f;
    case TrackPublishedField => assert AllFields[15] == f;
    case SpeakersChangedField => assert AllFields[16] == f;
    case RoomUpdateField => assert AllFields[17] == f;
    case ConnectionQualityField => assert AllFields[18] == f;
    case StreamStateUpdateField => assert AllFields[19] == f;
    case SubscribedQualityUpdateField => assert AllFields[20] == f;
    case SubscriptionPermissionUpdateField => assert AllFields[21] == f;
    case RefreshTokenField => assert AllFields[22] == f;
    case TrackUnpublishedField => assert AllFields[23] == f;
    case PongField => assert AllFields[24] == f;
  }

  function FirstNamed(s: string, fs: seq<FieldName>): (r: Option<FieldName>)
    ensures r.Some? ==> FieldNameText(r.value) == s && r.value in fs
    ensures r.None? ==> forall f :: f in fs ==> FieldNameText(f) != s
  {
    if |fs| == 0 then None
    else if FieldNameText(fs[0]) == s then Some(fs[0])
    else FirstNamed(s, fs[1..])
  }

  /** The field a keyword names, if any. */
  function FieldNamed(s: string): (r: Option<FieldName>)
    ensures r.Some? ==> FieldNameText(r.value) == s
    ensures r.None? ==> forall f: FieldName :: FieldNameText(f) != s
    ensures s == "offer" ==> r == Some(OfferField)
    ensures s == "answer" ==> r == Some(AnswerField)
  {
    assert AllFields[0] == OfferField && AllFields[1..][0] == AnswerField;
    assert s == "answer" ==> FieldNameText(OfferField) != s && FirstNamed(s, AllFields) == FirstNamed(s, AllFields[1..]);
    forall f: FieldName
      ensures f in AllFields
    {
      AllFieldsListed(f);
    }
    FirstNamed(s, AllFields)
  }
}
