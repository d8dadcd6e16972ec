# LiveKit signaling client, modelled in Dafny

This project models the core of a Python client for the LiveKit signaling protocol. The client talks to a LiveKit server over a websocket. Each frame is a protobuf `SignalRequest` (client to server) or `SignalResponse` (server to client), and the `message` oneof names what the frame carries. The model covers four parts.

* **The wrapper codec** (`src/livekit_signaling/livekit_types.py`).
  * Python dataclasses mirror the protobuf messages, and enum classes mirror the protobuf enums. Each has a `from_lk` (protobuf to wrapper) and a `to_lk` (wrapper to protobuf).
  * `LKBase` subclasses carry `__signal_request__` / `__signal_response__` tags. `init_maps` turns those tags into two dispatch tables.
  * The module-level `from_signal_request` / `from_signal_response` decode an envelope through those tables. `to_signal_request` builds one.
  * Modules: `Proto` (the protobuf messages as values, with the integer ranges the protobuf constructor enforces), `LkEnums`, `LkTypes` and `LkDispatch`.
* **The signaling session** (`src/livekit_signaling/signaling.py`), as the class `SignalingSession.Signaling`.
  * It records which listeners are registered and the `emit_all` flags.
  * It builds the connect URL and holds the socket.
  * `send`, `receive` and `run` are modelled. `_emit_response` / `_emit_request` route each envelope to an event name and a payload.
  * Every method is proved equal to a step function on a `Session` snapshot. The properties are proved about those step functions.
* **`wintolin`** (`src/livekit_signaling/utils.py`), in `TextUtil`.
* **The example subscriber** (`examples/subscriber/`).
  * The recorder's track table (`Recorder.FrameRecorder`): adding, disconnecting, stopping and the `can_start` gate.
  * The join, participant-update and stream-state handlers (`Subscriber`). They plan subscriptions and layer selections, issue calls, and disconnect and start tracks on the recorder.

Python exceptions are values of `Exceptions.PyError`. Every conversion that can raise returns a `Result`. The wrappers' integer fields are unbounded `int`s. Converting one to protobuf checks the field's declared width, as the protobuf constructor does, and raises `ValueError` outside it.

Three things the code does that a reader might not expect, and that the model follows:

* The envelope round trip `decode(encode(m)) == m` does not hold for every message. `TrickleRequest.to_lk` always raises, and an `UpdateTrackSettings` without a quality comes back with `LOW`. The model proves the round trip with exactly these exceptions (`LkDispatch.RequestEncodeDecode`, `LkDispatch.UpdateTrackSettingsDefaultQuality`).
* `from_signal_request` / `from_signal_response` raise `ValueError` for a message kind they have no table entry for. Only the session's event routing falls back to an `unknown` event (spelled `unkown` for requests).
* There is no reconnection and no back-off. `send` and `receive` call `connect()` first, and `run` stops at the first `None` from `receive`.

Two places where the model uses the evidently intended behaviour rather than the code as written (both are rows of "## Findings", whose as-written halves are modelled and exhibited separately):

* The enum classes `TrackSource`, `SignalTarget`, `ConnectionQuality` and `StreamState` are also `@dataclass`es, so as written all members of each compare equal and `to_lk` returns the first wire value for every member. `LkEnums.TrackSource.ToLk`, `SignalTarget.ToLk`, `ConnectionQuality.ToLk` and `StreamState.ToLk` are the corrected tables. Every codec that encodes one of these enums, and every round-trip lemma built on it, holds for the corrected tables; as written, a `TrackInfo` with source CAMERA is sent with UNKNOWN (0) and does not round-trip.
* `Recorder.FrameRecorder.AddTrack` annotates the track with its participant id, where recorder.py:80 writes the track id.

## Model

| member | source | states |
|---|---|---|
| LkEnums.ParticipantInfoState.ToLk | src/livekit_signaling/livekit_types.py:132-142 | to_lk maps every member to a wire number in 0..3 that from_lk maps back to it |
| LkEnums.ParticipantInfoState.FromLk | src/livekit_signaling/livekit_types.py:119-130 | from_lk succeeds exactly for wire numbers 0..3 and raises ValueError naming any other number |
| LkEnums.ParticipantInfoStateWireRoundTrip | src/livekit_signaling/livekit_types.py:119-142 | to_lk(from_lk(v)) is v for every wire number v that from_lk accepts |
| LkEnums.TrackType.ToLk | src/livekit_signaling/livekit_types.py:161-169 | to_lk maps every member to a wire number in 0..2 that from_lk maps back to it |
| LkEnums.TrackType.FromLk | src/livekit_signaling/livekit_types.py:150-159 | from_lk succeeds exactly for wire numbers 0..2 and raises ValueError naming any other number |
| LkEnums.TrackTypeWireRoundTrip | src/livekit_signaling/livekit_types.py:150-169 | to_lk(from_lk(v)) is v for every wire number v that from_lk accepts |
| LkEnums.TrackSource.ToLk | src/livekit_signaling/livekit_types.py:203-215 | to_lk raises ValueError exactly for the NONE placeholder; every other member maps to a wire number in 0..4 that from_lk maps back to it (the corrected table of "## Findings"; as written every member encodes as the first wire value) |
| LkEnums.TrackSource.FromLk | src/livekit_signaling/livekit_types.py:188-201 | from_lk succeeds exactly for wire numbers 0..4, never yields NONE, and raises ValueError naming any other number |
| LkEnums.TrackSourceWireRoundTrip | src/livekit_signaling/livekit_types.py:188-215 | to_lk(from_lk(v)) is v for every wire number v that from_lk accepts |
| LkEnums.VideoQuality.ToLk | src/livekit_signaling/livekit_types.py:244-254 | to_lk raises ValueError exactly for the NONE placeholder; every other member maps to a wire number in 0..3 that from_lk maps back to it |
| LkEnums.VideoQuality.FromLk | src/livekit_signaling/livekit_types.py:231-242 | from_lk succeeds exactly for wire numbers 0..3, never yields NONE, and raises ValueError naming any other number |
| LkEnums.VideoQualityWireRoundTrip | src/livekit_signaling/livekit_types.py:231-254 | to_lk(from_lk(v)) is v for every wire number v that from_lk accepts |
| LkEnums.ClientConfigSetting.ToLk | src/livekit_signaling/livekit_types.py:648-656 | to_lk maps every member to a wire number in 0..2 that from_lk maps back to it |
| LkEnums.ClientConfigSetting.FromLk | src/livekit_signaling/livekit_types.py:637-646 | from_lk succeeds exactly for wire numbers 0..2 and raises ValueError naming any other number |
| LkEnums.ClientConfigSettingWireRoundTrip | src/livekit_signaling/livekit_types.py:637-656 | to_lk(from_lk(v)) is v for every wire number v that from_lk accepts |
| LkEnums.ServerInfoEdition.ToLk | src/livekit_signaling/livekit_types.py:751-757 | to_lk raises ValueError exactly for the NONE placeholder; every other member maps to a wire number in 0..1 that from_lk maps back to it |
| LkEnums.ServerInfoEdition.FromLk | src/livekit_signaling/livekit_types.py:742-749 | from_lk succeeds exactly for wire numbers 0..1, never yields NONE, and raises ValueError naming any other number |
| LkEnums.ServerInfoEditionWireRoundTrip | src/livekit_signaling/livekit_types.py:742-757 | to_lk(from_lk(v)) is v for every wire number v that from_lk accepts |
| LkEnums.SignalTarget.ToLk | src/livekit_signaling/livekit_types.py:894-900 | to_lk raises ValueError exactly for the NONE placeholder; every other member maps to a wire number in 0..1 that from_lk maps back to it (the corrected table of "## Findings"; as written every member encodes as the first wire value) |
| LkEnums.SignalTarget.FromLk | src/livekit_signaling/livekit_types.py:885-892 | from_lk succeeds exactly for wire numbers 0..1, never yields NONE, and raises ValueError naming any other number |
| LkEnums.SignalTargetWireRoundTrip | src/livekit_signaling/livekit_types.py:885-900 | to_lk(from_lk(v)) is v for every wire number v that from_lk accepts |
| LkEnums.DisconnectReason.ToLk | src/livekit_signaling/livekit_types.py:1040-1058 | to_lk maps every member to a wire number in 0..7 that from_lk maps back to it |
| LkEnums.DisconnectReason.FromLk | src/livekit_signaling/livekit_types.py:1019-1038 | from_lk succeeds exactly for wire numbers 0..7 and raises ValueError naming any other number |
| LkEnums.DisconnectReasonWireRoundTrip | src/livekit_signaling/livekit_types.py:1019-1058 | to_lk(from_lk(v)) is v for every wire number v that from_lk accepts |
| LkEnums.ConnectionQuality.ToLk | src/livekit_signaling/livekit_types.py:1179-1187 | to_lk maps every member to a wire number in 0..2 that from_lk maps back to it (the corrected table of "## Findings"; as written every member encodes as the first wire value) |
| LkEnums.ConnectionQuality.FromLk | src/livekit_signaling/livekit_types.py:1168-1177 | from_lk succeeds exactly for wire numbers 0..2 and raises ValueError naming any other number |
| LkEnums.ConnectionQualityWireRoundTrip | src/livekit_signaling/livekit_types.py:1168-1187 | to_lk(from_lk(v)) is v for every wire number v that from_lk accepts |
| LkEnums.StreamState.ToLk | src/livekit_signaling/livekit_types.py:1255-1261 | to_lk maps every member to a wire number in 0..1 that from_lk maps back to it (the corrected table of "## Findings"; as written every member encodes as the first wire value) |
| LkEnums.StreamState.FromLk | src/livekit_signaling/livekit_types.py:1246-1253 | from_lk succeeds exactly for wire numbers 0..1 and raises ValueError naming any other number |
| LkEnums.StreamStateWireRoundTrip | src/livekit_signaling/livekit_types.py:1246-1261 | to_lk(from_lk(v)) is v for every wire number v that from_lk accepts |
| LkTypes.VideoLayerFromLk | src/livekit_signaling/livekit_types.py:274-282 | from_lk succeeds exactly when the quality wire number names a VideoQuality member (0-3); any other number raises ValueError naming it |
| LkTypes.VideoLayerToLk | src/livekit_signaling/livekit_types.py:284-291 | to_lk succeeds exactly when the quality is not the NONE placeholder and width, height, bitrate and ssrc fit uint32, and from_lk of the result is the original wrapper |
| LkTypes.VideoLayerDecodeEncode | src/livekit_signaling/livekit_types.py:274-291 | to_lk(from_lk(p)) is p for every protobuf message p that decodes |
| LkTypes.SimulcastCodecInfoFromLk | src/livekit_signaling/livekit_types.py:307-314 | from_lk succeeds exactly when every layer decodes |
| LkTypes.SimulcastCodecInfoToLk | src/livekit_signaling/livekit_types.py:316-322 | to_lk succeeds exactly when every layer encodes, and from_lk of the result is the original wrapper |
| LkTypes.SimulcastCodecInfoDecodeEncode | src/livekit_signaling/livekit_types.py:307-322 | to_lk(from_lk(p)) is p for every protobuf message p that decodes |
| LkTypes.TrackInfoFromLk | src/livekit_signaling/livekit_types.py:369-387 | from_lk succeeds exactly when the type (0-2) and source (0-4) wire numbers name members and every layer and codec decodes |
| LkTypes.TrackInfoToLk | src/livekit_signaling/livekit_types.py:389-406 | to_lk succeeds exactly when the source is not NONE, every layer and codec encodes and width and height fit uint32, and from_lk of the result is the original wrapper (over the corrected enum table of "## Findings") |
| LkTypes.TrackInfoDecodeEncode | src/livekit_signaling/livekit_types.py:369-406 | to_lk(from_lk(p)) is p for every protobuf message p that decodes |
| LkTypes.ParticipantPermissionToLk | src/livekit_signaling/livekit_types.py:439-446 | to_lk never fails, and from_lk of the result is the original wrapper |
| LkTypes.ParticipantPermissionDecodeEncode | src/livekit_signaling/livekit_types.py:429-446 | to_lk(from_lk(p)) is p for every protobuf message p |
| LkTypes.ParticipantInfoFromLk | src/livekit_signaling/livekit_types.py:490-504 | from_lk succeeds exactly when the state wire number (0-3) names a member and every track decodes |
| LkTypes.ParticipantInfoToLk | src/livekit_signaling/livekit_types.py:506-519 | to_lk succeeds exactly when every track encodes, joined_at fits int64 and version fits uint32, and from_lk of the result is the original wrapper |
| LkTypes.ParticipantInfoDecodeEncode | src/livekit_signaling/livekit_types.py:490-519 | to_lk(from_lk(p)) is p for every protobuf message p that decodes |
| LkTypes.CodecToLk | src/livekit_signaling/livekit_types.py:538-542 | to_lk never fails, and from_lk of the result is the original wrapper |
| LkTypes.CodecDecodeEncode | src/livekit_signaling/livekit_types.py:531-542 | to_lk(from_lk(p)) is p for every protobuf message p |
| LkTypes.RoomToLk | src/livekit_signaling/livekit_types.py:585-597 | to_lk succeeds exactly when empty_timeout, max_participants and num_participants fit uint32 and creation_time fits int64, and from_lk of the result is the original wrapper |
| LkTypes.RoomDecodeEncode | src/livekit_signaling/livekit_types.py:570-597 | to_lk(from_lk(p)) is p for every protobuf message p |
| LkTypes.ICEServerToLk | src/livekit_signaling/livekit_types.py:619-624 | to_lk never fails, and from_lk of the result is the original wrapper |
| LkTypes.ICEServerDecodeEncode | src/livekit_signaling/livekit_types.py:611-624 | to_lk(from_lk(p)) is p for every protobuf message p |
| LkTypes.VideoConfigurationFromLk | src/livekit_signaling/livekit_types.py:666-670 | from_lk succeeds exactly when hardware_encoder names a ClientConfigSetting (0-2) |
| LkTypes.VideoConfigurationToLk | src/livekit_signaling/livekit_types.py:672-675 | to_lk never fails, and from_lk of the result is the original wrapper |
| LkTypes.VideoConfigurationDecodeEncode | src/livekit_signaling/livekit_types.py:666-675 | to_lk(from_lk(p)) is p for every protobuf message p that decodes |
| LkTypes.DisabledCodecsToLk | src/livekit_signaling/livekit_types.py:691-694 | to_lk never fails, and from_lk of the result is the original wrapper |
| LkTypes.DisabledCodecsDecodeEncode | src/livekit_signaling/livekit_types.py:685-694 | to_lk(from_lk(p)) is p for every protobuf message p |
| LkTypes.ClientConfigurationFromLk | src/livekit_signaling/livekit_types.py:713-721 | from_lk succeeds exactly when all four ClientConfigSetting fields (video, screen, resume_connection, force_relay) are in range |
| LkTypes.ClientConfigurationToLk | src/livekit_signaling/livekit_types.py:723-730 | to_lk never fails, and from_lk of the result is the original wrapper |
| LkTypes.ClientConfigurationDecodeEncode | src/livekit_signaling/livekit_types.py:713-730 | to_lk(from_lk(p)) is p for every protobuf message p that decodes |
| LkTypes.ServerInfoFromLk | src/livekit_signaling/livekit_types.py:782-791 | from_lk succeeds exactly when the edition wire number names STANDARD or CLOUD (0-1) |
| LkTypes.ServerInfoToLk | src/livekit_signaling/livekit_types.py:793-801 | to_lk succeeds exactly when the edition is not NONE and protocol fits int32, and from_lk of the result is the original wrapper |
| LkTypes.ServerInfoDecodeEncode | src/livekit_signaling/livekit_types.py:782-801 | to_lk(from_lk(p)) is p for every protobuf message p that decodes |
| LkTypes.JoinResponseFromLk | src/livekit_signaling/livekit_types.py:841-856 | from_lk succeeds exactly when the participant, every other participant, the client configuration and the server info decode |
| LkTypes.JoinResponseToLk | src/livekit_signaling/livekit_types.py:858-872 | to_lk succeeds exactly when the room, the participant, every other participant and the server info encode and ping_timeout and ping_interval fit int32, and from_lk of the result is the original wrapper |
| LkTypes.JoinResponseDecodeEncode | src/livekit_signaling/livekit_types.py:841-872 | to_lk(from_lk(p)) is p for every protobuf message p that decodes |
| LkTypes.TrickleRequestFromLk | src/livekit_signaling/livekit_types.py:914-920 | with candidate parsing taken as total (see "## Left out"), from_lk succeeds exactly when the target names PUBLISHER or SUBSCRIBER; the candidate text and the target are kept |
| LkTypes.TrickleRequestToLk | src/livekit_signaling/livekit_types.py:922-927 | to_lk always fails: ValueError for the NONE target, otherwise TypeError because the converted candidate is not a string |
| LkTypes.MuteTrackRequestToLk | src/livekit_signaling/livekit_types.py:948-952 | to_lk never fails, and from_lk of the result is the original wrapper |
| LkTypes.MuteTrackRequestDecodeEncode | src/livekit_signaling/livekit_types.py:941-952 | to_lk(from_lk(p)) is p for every protobuf message p |
| LkTypes.ParticipantUpdateFromLk | src/livekit_signaling/livekit_types.py:963-967 | from_lk succeeds exactly when every participant decodes |
| LkTypes.ParticipantUpdateToLk | src/livekit_signaling/livekit_types.py:969-972 | to_lk succeeds exactly when every participant encodes, and from_lk of the result is the original wrapper |
| LkTypes.ParticipantUpdateDecodeEncode | src/livekit_signaling/livekit_types.py:963-972 | to_lk(from_lk(p)) is p for every protobuf message p that decodes |
| LkTypes.TrackPublishedResponseFromLk | src/livekit_signaling/livekit_types.py:985-990 | from_lk succeeds exactly when the track decodes |
| LkTypes.TrackPublishedResponseToLk | src/livekit_signaling/livekit_types.py:992-996 | to_lk succeeds exactly when the track encodes, and from_lk of the result is the original wrapper |
| LkTypes.TrackPublishedResponseDecodeEncode | src/livekit_signaling/livekit_types.py:985-996 | to_lk(from_lk(p)) is p for every protobuf message p that decodes |
| LkTypes.LeaveRequestFromLk | src/livekit_signaling/livekit_types.py:1074-1079 | from_lk succeeds exactly when the reason names a DisconnectReason (0-7) |
| LkTypes.LeaveRequestToLk | src/livekit_signaling/livekit_types.py:1081-1085 | to_lk never fails, and from_lk of the result is the original wrapper |
| LkTypes.LeaveRequestDecodeEncode | src/livekit_signaling/livekit_types.py:1074-1085 | to_lk(from_lk(p)) is p for every protobuf message p that decodes |
| LkTypes.SpeakerInfoToLk | src/livekit_signaling/livekit_types.py:1109-1114 | to_lk never fails, and from_lk of the result is the original wrapper |
| LkTypes.SpeakerInfoDecodeEncode | src/livekit_signaling/livekit_types.py:1101-1114 | to_lk(from_lk(p)) is p for every protobuf message p |
| LkTypes.SpeakersChangedToLk | src/livekit_signaling/livekit_types.py:1131-1134 | to_lk never fails, and from_lk of the result is the original wrapper |
| LkTypes.SpeakersChangedDecodeEncode | src/livekit_signaling/livekit_types.py:1125-1134 | to_lk(from_lk(p)) is p for every protobuf message p |
| LkTypes.RoomUpdateToLk | src/livekit_signaling/livekit_types.py:1151-1154 | to_lk succeeds exactly when the room encodes, and from_lk of the result is the original wrapper |
| LkTypes.RoomUpdateDecodeEncode | src/livekit_signaling/livekit_types.py:1145-1154 | to_lk(from_lk(p)) is p for every protobuf message p |
| LkTypes.ConnectionQualityInfoFromLk | src/livekit_signaling/livekit_types.py:1201-1207 | from_lk succeeds exactly when the quality names a ConnectionQuality (0-2) |
| LkTypes.ConnectionQualityInfoToLk | src/livekit_signaling/livekit_types.py:1209-1214 | to_lk never fails, and from_lk of the result is the original wrapper (over the corrected enum table of "## Findings") |
| LkTypes.ConnectionQualityInfoDecodeEncode | src/livekit_signaling/livekit_types.py:1201-1214 | to_lk(from_lk(p)) is p for every protobuf message p that decodes |
| LkTypes.ConnectionQualityUpdateFromLk | src/livekit_signaling/livekit_types.py:1225-1229 | from_lk succeeds exactly when every update decodes |
| LkTypes.ConnectionQualityUpdateToLk | src/livekit_signaling/livekit_types.py:1231-1234 | to_lk never fails, and from_lk of the result is the original wrapper |
| LkTypes.ConnectionQualityUpdateDecodeEncode | src/livekit_signaling/livekit_types.py:1225-1234 | to_lk(from_lk(p)) is p for every protobuf message p that decodes |
| LkTypes.StreamStateInfoFromLk | src/livekit_signaling/livekit_types.py:1275-1281 | from_lk succeeds exactly when the state names ACTIVE or PAUSED (0-1) |
| LkTypes.StreamStateInfoToLk | src/livekit_signaling/livekit_types.py:1283-1288 | to_lk never fails, and from_lk of the result is the original wrapper (over the corrected enum table of "## Findings") |
| LkTypes.StreamStateInfoDecodeEncode | src/livekit_signaling/livekit_types.py:1275-1288 | to_lk(from_lk(p)) is p for every protobuf message p that decodes |
| LkTypes.StreamStateUpdateFromLk | src/livekit_signaling/livekit_types.py:1299-1303 | from_lk succeeds exactly when every stream state decodes |
| LkTypes.StreamStateUpdateToLk | src/livekit_signaling/livekit_types.py:1305-1308 | to_lk never fails, and from_lk of the result is the original wrapper |
| LkTypes.StreamStateUpdateDecodeEncode | src/livekit_signaling/livekit_types.py:1299-1308 | to_lk(from_lk(p)) is p for every protobuf message p that decodes |
| LkTypes.SubscribedQualityFromLk | src/livekit_signaling/livekit_types.py:1320-1325 | from_lk succeeds exactly when the quality names a VideoQuality member (0-3) |
| LkTypes.SubscribedQualityToLk | src/livekit_signaling/livekit_types.py:1327-1331 | to_lk succeeds exactly when the quality is not NONE, and from_lk of the result is the original wrapper |
| LkTypes.SubscribedCodecFromLk | src/livekit_signaling/livekit_types.py:1343-1348 | from_lk succeeds exactly when every quality decodes |
| LkTypes.SubscribedCodecToLk | src/livekit_signaling/livekit_types.py:1350-1354 | to_lk succeeds exactly when every quality encodes, and from_lk of the result is the original wrapper |
| LkTypes.SubscribedCodecDecodeEncode | src/livekit_signaling/livekit_types.py:1343-1354 | to_lk(from_lk(p)) is p for every protobuf message p that decodes |
| LkTypes.SubscribedQualityUpdateFromLk | src/livekit_signaling/livekit_types.py:1369-1375 | from_lk succeeds exactly when every subscribed quality and codec decodes |
| LkTypes.SubscribedQualityUpdateToLk | src/livekit_signaling/livekit_types.py:1377-1382 | to_lk succeeds exactly when every subscribed quality and codec encodes, and from_lk of the result is the original wrapper |
| LkTypes.SubscribedQualityUpdateDecodeEncode | src/livekit_signaling/livekit_types.py:1369-1382 | to_lk(from_lk(p)) is p for every protobuf message p that decodes |
| LkTypes.SubscriptionPermissionUpdateToLk | src/livekit_signaling/livekit_types.py:1405-1410 | to_lk never fails, and from_lk of the result is the original wrapper |
| LkTypes.SubscriptionPermissionUpdateDecodeEncode | src/livekit_signaling/livekit_types.py:1397-1410 | to_lk(from_lk(p)) is p for every protobuf message p |
| LkTypes.TrackUnpublishedResponseToLk | src/livekit_signaling/livekit_types.py:1427-1430 | to_lk never fails, and from_lk of the result is the original wrapper |
| LkTypes.TrackUnpublishedResponseDecodeEncode | src/livekit_signaling/livekit_types.py:1421-1430 | to_lk(from_lk(p)) is p for every protobuf message p |
| LkTypes.SimulcastCodecToLk | src/livekit_signaling/livekit_types.py:1452-1457 | to_lk never fails, and from_lk of the result is the original wrapper |
| LkTypes.SimulcastCodecDecodeEncode | src/livekit_signaling/livekit_types.py:1444-1457 | to_lk(from_lk(p)) is p for every protobuf message p |
| LkTypes.AddTrackRequestFromLk | src/livekit_signaling/livekit_types.py:1501-1517 | from_lk succeeds exactly when the type (0-2) and source (0-4) name members and every layer decodes |
| LkTypes.AddTrackRequestToLk | src/livekit_signaling/livekit_types.py:1519-1534 | to_lk succeeds exactly when the source is not NONE, every layer encodes and width and height fit uint32, and from_lk of the result is the original wrapper (over the corrected enum table of "## Findings") |
| LkTypes.AddTrackRequestDecodeEncode | src/livekit_signaling/livekit_types.py:1501-1534 | to_lk(from_lk(p)) is p for every protobuf message p that decodes |
| LkTypes.ParticipantTracksToLk | src/livekit_signaling/livekit_types.py:1554-1558 | to_lk never fails, and from_lk of the result is the original wrapper |
| LkTypes.ParticipantTracksDecodeEncode | src/livekit_signaling/livekit_types.py:1547-1558 | to_lk(from_lk(p)) is p for every protobuf message p |
| LkTypes.UpdateSubscriptionToLk | src/livekit_signaling/livekit_types.py:1581-1586 | to_lk never fails, and from_lk of the result is the original wrapper |
| LkTypes.UpdateSubscriptionDecodeEncode | src/livekit_signaling/livekit_types.py:1573-1586 | to_lk(from_lk(p)) is p for every protobuf message p |
| LkTypes.UpdateTrackSettingsFromLk | src/livekit_signaling/livekit_types.py:1611-1620 | from_lk succeeds exactly when the quality names a VideoQuality member, and the decoded quality is then always present |
| LkTypes.UpdateTrackSettingsToLk | src/livekit_signaling/livekit_types.py:1622-1630 | to_lk succeeds exactly when the quality is not NONE and width, height and fps fit uint32; decoding the result gives the settings back, except that an absent quality comes back as LOW |
| LkTypes.UpdateTrackSettingsDecodeEncode | src/livekit_signaling/livekit_types.py:1611-1630 | to_lk(from_lk(p)) is p for every protobuf message p that decodes |
| LkTypes.UpdateVideoLayersFromLk | src/livekit_signaling/livekit_types.py:1643-1648 | from_lk succeeds exactly when every layer decodes |
| LkTypes.UpdateVideoLayersToLk | src/livekit_signaling/livekit_types.py:1650-1654 | to_lk succeeds exactly when every layer encodes, and from_lk of the result is the original wrapper |
| LkTypes.UpdateVideoLayersDecodeEncode | src/livekit_signaling/livekit_types.py:1643-1654 | to_lk(from_lk(p)) is p for every protobuf message p that decodes |
| LkTypes.TrackPermissionToLk | src/livekit_signaling/livekit_types.py:1680-1686 | to_lk never fails, and from_lk of the result is the original wrapper |
| LkTypes.TrackPermissionDecodeEncode | src/livekit_signaling/livekit_types.py:1671-1686 | to_lk(from_lk(p)) is p for every protobuf message p |
| LkTypes.SubscriptionPermissionToLk | src/livekit_signaling/livekit_types.py:1706-1710 | to_lk never fails, and from_lk of the result is the original wrapper |
| LkTypes.SubscriptionPermissionDecodeEncode | src/livekit_signaling/livekit_types.py:1699-1710 | to_lk(from_lk(p)) is p for every protobuf message p |
| LkTypes.SessionDescriptionToLk | src/livekit_signaling/livekit_types.py:1731-1735 | to_lk never fails, and from_lk of the result is the original wrapper |
| LkTypes.SessionDescriptionDecodeEncode | src/livekit_signaling/livekit_types.py:1724-1735 | to_lk(from_lk(p)) is p for every protobuf message p |
| LkTypes.DataChannelInfoFromLk | src/livekit_signaling/livekit_types.py:1783-1789 | from_lk succeeds exactly when the target names PUBLISHER or SUBSCRIBER |
| LkTypes.DataChannelInfoToLk | src/livekit_signaling/livekit_types.py:1791-1796 | to_lk succeeds exactly when the target is not NONE and id fits uint32, and from_lk of the result is the original wrapper (over the corrected enum table of "## Findings") |
| LkTypes.DataChannelInfoDecodeEncode | src/livekit_signaling/livekit_types.py:1783-1796 | to_lk(from_lk(p)) is p for every protobuf message p that decodes |
| LkTypes.SyncStateFromLk | src/livekit_signaling/livekit_types.py:1817-1825 | from_lk succeeds exactly when every published track and every data channel decodes |
| LkTypes.SyncStateToLk | src/livekit_signaling/livekit_types.py:1827-1837 | to_lk succeeds exactly when every published track and data channel encodes, and from_lk of the result is the original wrapper |
| LkTypes.SyncStateDecodeEncode | src/livekit_signaling/livekit_types.py:1817-1837 | to_lk(from_lk(p)) is p for every protobuf message p that decodes |
| LkEnums.TrackSourceToLkAsWritten | src/livekit_signaling/livekit_types.py:172-215 | as written, `to_lk` answers wire number 0 (UNKNOWN) for every member, because the dataclass `__eq__` makes the first test succeed |
| LkEnums.TrackSourceAsWrittenLosesMember | src/livekit_signaling/livekit_types.py:172-215 | as written, CAMERA is decoded back as UNKNOWN and NONE is accepted; the corrected `TrackSource.ToLk` round-trips CAMERA |
| LkEnums.SignalTargetToLkAsWritten | src/livekit_signaling/livekit_types.py:875-900 | as written, `to_lk` answers PUBLISHER's wire number for every member |
| LkEnums.SignalTargetAsWrittenLosesMember | src/livekit_signaling/livekit_types.py:875-900 | as written, SUBSCRIBER is decoded back as PUBLISHER and NONE is accepted; the corrected `SignalTarget.ToLk` rejects NONE |
| LkEnums.ConnectionQualityToLkAsWritten | src/livekit_signaling/livekit_types.py:1157-1187 | as written, `to_lk` answers POOR's wire number for every member |
| LkEnums.ConnectionQualityAsWrittenLosesMember | src/livekit_signaling/livekit_types.py:1157-1187 | as written, EXCELLENT is decoded back as POOR; the corrected `ConnectionQuality.ToLk` round-trips it |
| LkEnums.StreamStateToLkAsWritten | src/livekit_signaling/livekit_types.py:1237-1261 | as written, `to_lk` answers ACTIVE's wire number for every member |
| LkEnums.StreamStateAsWrittenLosesMember | src/livekit_signaling/livekit_types.py:1237-1261 | as written, PAUSED is decoded back as ACTIVE; the corrected `StreamState.ToLk` round-trips it |
| LkTypes.MapAll | src/livekit_signaling/livekit_types.py:381 | a list comprehension over a conversion that may raise: it succeeds exactly when every element converts, keeps length and order, and otherwise raises the error of the first element that fails |
| LkTypes.MapAllInverse | src/livekit_signaling/livekit_types.py:400 | converting a decoded list back element by element gives the original list whenever each element round-trips |
| Proto.CheckUint32 | src/livekit_signaling/livekit_types.py:284-291 | the protobuf constructor accepts a uint32 keyword exactly when it is in 0..2^32-1 and raises ValueError otherwise (the model tags the error with the field for readability; protobuf's message names only the value) |
| Proto.CheckInt32 | src/livekit_signaling/livekit_types.py:793-801 | the protobuf constructor accepts an int32 keyword exactly in -2^31..2^31-1 |
| Proto.CheckInt64 | src/livekit_signaling/livekit_types.py:506-519 | the protobuf constructor accepts an int64 keyword exactly in -2^63..2^63-1 |
| Proto.EnvelopeRequest | src/livekit_signaling/livekit_types.py:84 | `SignalRequest(**{msg: body})` succeeds exactly when `msg` is a request field whose type the body has, and then sets just that field to the body; an unknown keyword raises ValueError and a wrong type raises TypeError |
| Proto.NewSignalRequest | src/livekit_signaling/livekit_types.py:1741-1744 | for an arbitrary keyword string: a string naming no envelope field raises ValueError; otherwise as `EnvelopeRequest` |
| Proto.SessionDescriptionRequestFields | src/livekit_signaling/livekit_types.py:1741-1744 | a session description fits exactly the "offer" and "answer" fields of SignalRequest |
| FieldNames.FieldNamed | src/livekit_signaling/livekit_types.py:1743 | the field a keyword names, if any, has that keyword as its name; "offer" and "answer" name the offer and answer fields; when the lookup finds nothing, no field has that name |
| LkDispatch.TablesMatchTags | src/livekit_signaling/livekit_types.py:1887-1907 | a tag is in a class's `__signal_request__` (`__signal_response__`) attribute exactly when the request (response) table maps the tag to that class |
| LkDispatch.RegisterNamesEffect | src/livekit_signaling/livekit_types.py:1896-1897 | registering a list of tags adds exactly those keys, maps each to the class and leaves every other key unchanged |
| LkDispatch.RegisterClassEffect | src/livekit_signaling/livekit_types.py:1894-1905 | registering one class's tag attribute (absent, a name, or a list) adds exactly its names, maps them to the class and leaves every other key unchanged |
| LkDispatch.RegisterAllAgrees | src/livekit_signaling/livekit_types.py:1891-1905 | if a lookup agrees with every class's tags in the namespace, the table `init_maps` builds agrees with that lookup and holds every tag |
| LkDispatch.TableClassesInNamespace | src/livekit_signaling/livekit_types.py:1891-1892 | every class a dispatch table yields is a name of the module's namespace |
| LkDispatch.ModuleTablesAreIntended | src/livekit_signaling/livekit_types.py:1887-1907 | over the module's actual namespace, the tables `init_maps` builds are exactly the intended tag-to-class maps (no two classes share a tag, so no registration overwrites another) |
| LkDispatch.DispatchTables.constructor | src/livekit_signaling/livekit_types.py:1883-1884 | both tables start empty |
| LkDispatch.DispatchTables.InitMaps | src/livekit_signaling/livekit_types.py:1887-1905 | each table becomes the old table with every class's tags registered in namespace order |
| LkDispatch.AddTags | src/livekit_signaling/livekit_types.py:1894-1905 | the loop over one class's tag list registers exactly that class's tags |
| LkDispatch.ImportModule | src/livekit_signaling/livekit_types.py:1883-1907 | after the module is imported, looking any tag up in either table gives exactly the intended class, or nothing |
| LkDispatch.GetRequestName | src/livekit_signaling/livekit_types.py:109-110 | `get_request_name` raises AttributeError exactly for TrackPublishedResponse, which is not an LKBase |
| LkDispatch.RequestNameIsField | src/livekit_signaling/livekit_types.py:106-110 | whenever `to_signal_request` succeeds, `get_request_name` is the name of the field it set |
| LkDispatch.BaseToSignalRequest | src/livekit_signaling/livekit_types.py:80-85 | on success the envelope's one field is the class's own `__signal_request__` tag and holds `to_lk()`'s value, well typed; a class without the tag raises "Cannot convert" |
| LkDispatch.SessionDescriptionToSignalRequest | src/livekit_signaling/livekit_types.py:1741-1744 | succeeds exactly when the description's type is "offer" or "answer", and then sets that field to the converted description |
| LkDispatch.ToSignalRequest | src/livekit_signaling/livekit_types.py:80-85 | a successful envelope is well typed, sets a field among the class's request tags and holds the message's `to_lk()`; untagged classes raise "Cannot convert", TrackPublishedResponse has no such method, and a session description converts exactly for offer and answer |
| LkDispatch.ClassFromSignalRequest | src/livekit_signaling/livekit_types.py:98-104 | a non-LKBase class has no such method; an untagged class raises "Cannot convert"; an envelope whose field is not the class's tag raises "SignalRequest is not X"; SessionDescription accepts only offer and answer; success only from one of the class's tags |
| LkDispatch.ClassFromSignalResponse | src/livekit_signaling/livekit_types.py:88-96 | the same error cases for responses, and success only from one of the class's response tags |
| LkDispatch.FromSignalRequest | src/livekit_signaling/livekit_types.py:1922-1931 | an envelope with no field, or with a field no class is tagged with, raises "Unknown SignalResponse message"; an offer or answer decodes to a SessionDescription |
| LkDispatch.FromSignalResponse | src/livekit_signaling/livekit_types.py:1910-1920 | no field or an untabled field raises "Unknown"; `track_published` raises AttributeError (its class is not an LKBase); an offer or answer decodes to a SessionDescription |
| LkDispatch.BodyDecodingClass | src/livekit_signaling/livekit_types.py:73-75 | the wrapper `from_lk` builds has the class the body's type selects |
| LkDispatch.BodyDecodeEncode | src/livekit_signaling/livekit_types.py:73-78 | for every envelope body except trickle, `to_lk(from_lk(body))` is the body |
| LkDispatch.MessageEncodeDecode | src/livekit_signaling/livekit_types.py:73-78 | for every message whose `to_lk` succeeds (an UpdateTrackSettings must carry a quality), `from_lk(to_lk(m))` is m |
| LkDispatch.FromSignalRequestDecodes | src/livekit_signaling/livekit_types.py:1922-1931 | a successful decode found the field's class in the table and returned that class's `from_lk` of the field |
| LkDispatch.FromSignalResponseDecodes | src/livekit_signaling/livekit_types.py:1910-1920 | the same for responses |
| LkDispatch.DecodedRequestClass | src/livekit_signaling/livekit_types.py:1922-1931 | the decoded message's class is the one the request table maps the set field to |
| LkDispatch.DecodedResponseClass | src/livekit_signaling/livekit_types.py:1910-1920 | the decoded message's class is the one the response table maps the set field to |
| LkDispatch.RequestEncodeDecode | src/livekit_signaling/livekit_types.py:80-104 | `from_signal_request(m.to_signal_request())` is m for every message that converts, except an UpdateTrackSettings without quality |
| LkDispatch.UpdateTrackSettingsDefaultQuality | src/livekit_signaling/livekit_types.py:1622-1630 | an UpdateTrackSettings without quality comes back from the envelope with quality LOW |
| LkDispatch.SessionDescriptionRequestRoundTrip | src/livekit_signaling/livekit_types.py:1741-1763 | a session description survives the request envelope exactly when its type is "offer" or "answer" |
| LkDispatch.RequestDecodeEncode | src/livekit_signaling/livekit_types.py:1922-1931 | `from_signal_request(req).to_signal_request()` is req for every well-typed request that decodes, except trickle; an offer or answer must carry its own field name as type |
| LkDispatch.ResponseDecodeEncode | src/livekit_signaling/livekit_types.py:1910-1920 | `to_lk` of the decoded response is the envelope's body for every well-typed response that decodes, except trickle |
| LkDispatch.BareValuesRoundTrip | src/livekit_signaling/livekit_types.py:1839-1880 | Ping and Pong wrap the int64 time and give it back; RefreshToken gives back the token text |
| TextUtil.WintolinDropsPairedCr | src/livekit_signaling/utils.py:10-11 | replacing every CRLF by LF is the same as dropping each CR that immediately precedes an LF |
| TextUtil.WintolinLength | src/livekit_signaling/utils.py:10-11 | the result is shorter by exactly the number of CRLF pairs |
| TextUtil.WintolinKeepsLineFeeds | src/livekit_signaling/utils.py:10-11 | the number of line feeds is unchanged |
| TextUtil.WintolinWithoutCrlf | src/livekit_signaling/utils.py:10-11 | text without a CRLF is returned unchanged |
| TextUtil.WintolinNotIdempotent | src/livekit_signaling/utils.py:10-11 | a single pass can leave a CRLF: "\r\r\n" becomes "\r\n" |
| SignalingSession.ResponseEmission | src/livekit_signaling/signaling.py:237-273 | a recognised field emits the event named after it, with the field's value (an RTCSessionDescription for offer and answer, the candidate pair for trickle); no field or an unrecognised one emits "unknown" with the whole envelope; the candidate and session-description conversions are taken as total (see "## Left out") |
| SignalingSession.RequestEmission | src/livekit_signaling/signaling.py:280-308 | the same routing for requests; "leave" carries None and the fallback event is spelled "unkown"; the conversions are taken as total, as for responses |
| SignalingSession.ResponseRoutingTotal | src/livekit_signaling/signaling.py:237-273 | every field of a well-typed response is recognised: "unknown" is emitted exactly when no field is set, and otherwise the event name is the field's name |
| SignalingSession.RequestRoutingTotal | src/livekit_signaling/signaling.py:280-308 | the same for requests |
| SignalingSession.ResponseEmissions | src/livekit_signaling/signaling.py:237-278 | one emission, followed by an "all_messages" emission with the same payload exactly when `emit_all` is set |
| SignalingSession.RequestEmissions | src/livekit_signaling/signaling.py:280-315 | the same for the sent-events emitter |
| SignalingSession.QueryParams | src/livekit_signaling/signaling.py:93-98 | the five connect parameters in dictionary order: access_token (the token), auto_subscribe, then the profile's protocol, sdk and version |
| SignalingSession.QueryParamsInOrder | src/livekit_signaling/signaling.py:93-99 | when token, sdk and version contain no "&", splitting the query string at "&" gives back the five `key=value` assignments in order |
| SignalingSession.DecimalRoundTrip | src/livekit_signaling/signaling.py:99 | the decimal text of a number reads back as that number |
| SignalingSession.SplitJoin | src/livekit_signaling/signaling.py:99 | joining parts with a separator none of them contains and splitting again gives the parts back |
| SignalingSession.ConnectUrl | src/livekit_signaling/signaling.py:89-100 | raises KeyError exactly when the sdk name has no profile; port 443 gives a `wss://` URL and any other port `ws://` |
| SignalingSession.DefaultProfileIsPython | src/livekit_signaling/signaling.py:25 | connecting without an sdk name uses the "python" profile, which exists |
| SignalingSession.ConnectStep | src/livekit_signaling/signaling.py:89-106 | a held socket returns None and changes nothing; success exactly when no socket is held, the profile exists and the transport connects, and then the socket is opened on the connect URL; a failed connect keeps the state and holds no socket; a missing profile raises KeyError |
| SignalingSession.CloseStep | src/livekit_signaling/signaling.py:108-116 | afterwards no socket is held, and closing without a socket changes nothing |
| SignalingSession.CloseIdempotent | src/livekit_signaling/signaling.py:108-116 | closing twice is closing once |
| SignalingSession.SendStep | src/livekit_signaling/signaling.py:118-132 | a send succeeds exactly when a socket is held or the connect (to the default "python" profile) succeeds, and the write succeeds; without an `on_sent` registration the sent events are unchanged, and after one a successful send appends exactly the request's emissions; a failed send emits nothing; received events and the token never change |
| SignalingSession.Deliver | src/livekit_signaling/signaling.py:229-231 | a received response appends its emissions; the token changes only through the refresh handler, and then to the `refresh_token` text |
| SignalingSession.ReceiveStep | src/livekit_signaling/signaling.py:134-162 | returns None exactly when the read fails or no connection can be made, and then the socket is closed and nothing is emitted; otherwise returns the frame after emitting its events |
| SignalingSession.RunStopsAtNone | src/livekit_signaling/signaling.py:170-182 | the loop ends at the first None: later inputs are never read, and the socket is closed |
| SignalingSession.ReceiveKeepsRegistrations | src/livekit_signaling/signaling.py:134-162 | receiving never changes the listeners or the `emit_all` and `_emitting_requests` flags |
| SignalingSession.HandlerEffectsKeepRegistrations | src/livekit_signaling/signaling.py:229-235 | the token-refresh and leave handlers never change the registrations |
| SignalingSession.RunLoopKeepsRegistrations | src/livekit_signaling/signaling.py:170-182 | the receive loop never changes the registrations |
| SignalingSession.StepFlags | src/livekit_signaling/signaling.py:68-87 | after any one operation, received `emit_all` is set exactly if it was set or the operation registered "all_messages" with `on_recv`; likewise for `on_sent`; `_emitting_requests` becomes set only through `on_sent`, and until then no operation emits a sent event |
| SignalingSession.ReceivedEmitAllOnlyByRegistration | src/livekit_signaling/signaling.py:68-72 | over any sequence of operations, received `emit_all` is set exactly when it was set or `on_recv("all_messages")` occurred |
| SignalingSession.SentEmitAllOnlyByRegistration | src/livekit_signaling/signaling.py:78-83 | over any sequence of operations, sent `emit_all` is set exactly when it was set or `on_sent("all_messages")` occurred |
| SignalingSession.NoSentEventsWithoutOnSent | src/livekit_signaling/signaling.py:129-130 | a session on which `on_sent` is never called emits no sent events, whatever it sends |
| SignalingSession.Signaling.constructor | src/livekit_signaling/signaling.py:48-62 | the initial session: the given token, no socket, no listeners, no events, all flags off |
| SignalingSession.Signaling.OnRecv | src/livekit_signaling/signaling.py:68-76 | the new state is the `on_recv` step of the old one |
| SignalingSession.Signaling.OnSent | src/livekit_signaling/signaling.py:78-87 | the new state is the `on_sent` step of the old one |
| SignalingSession.Signaling.Connect | src/livekit_signaling/signaling.py:89-106 | the new state and the result are `ConnectStep` of the old state |
| SignalingSession.Signaling.Close | src/livekit_signaling/signaling.py:108-116 | the new state is `CloseStep` of the old one |
| SignalingSession.Signaling.EmitRequest | src/livekit_signaling/signaling.py:280-315 | only the sent events change: they gain the request's emissions |
| SignalingSession.Signaling.Send | src/livekit_signaling/signaling.py:118-132 | the new state and the result are `SendStep` of the old state |
| SignalingSession.Signaling.OnTokenRefresh | src/livekit_signaling/signaling.py:229-231 | only the token changes |
| SignalingSession.Signaling.OnLeave | src/livekit_signaling/signaling.py:233-235 | only a close is scheduled |
| SignalingSession.Signaling.EmitResponse | src/livekit_signaling/signaling.py:237-278 | the new state is `Deliver` of the old one: emissions appended, handlers run |
| SignalingSession.Signaling.Receive | src/livekit_signaling/signaling.py:134-162 | the new state and the result are `ReceiveStep` of the old state |
| SignalingSession.Signaling.Run | src/livekit_signaling/signaling.py:164-182 | installs the refresh-token and leave handlers, connects, then receives until None, as `RunStep` |
| Recorder.Annotation | examples/subscriber/recorder.py:79-80 | the track is annotated with its track id and its participant id |
| Recorder.AnnotationInjective | examples/subscriber/recorder.py:79-80 | distinct (participant, track) pairs give distinct annotations |
| Recorder.AnnotationAsWrittenLosesParticipant | examples/subscriber/recorder.py:80 | as written, the participant slot receives the track id, so the participant id is lost |
| Recorder.AnnotationAsWrittenNotInjective | examples/subscriber/recorder.py:80 | as written, two participants' tracks with one track id get the same annotation |
| Recorder.AddTrackStep | examples/subscriber/recorder.py:59-129 | audio is ignored; missing ids raise MediaStreamError without a change; an already-recorded id changes nothing; otherwise the id is appended to the table in insertion order with a fresh gated context and `track_added` is emitted; for a new video track with both ids, the result is Ok exactly when the I/O succeeds, and an I/O failure stops the recorder and re-raises |
| Recorder.DisconnectStep | examples/subscriber/recorder.py:131-146 | an unknown id changes nothing; otherwise the entry is removed from the table and the order, and `track_removed` is emitted |
| Recorder.DisconnectAll | examples/subscriber/recorder.py:131-146 | disconnecting a list of ids removes exactly those entries and leaves every other entry as it was |
| Recorder.DisconnectAllAppend | examples/subscriber/recorder.py:131-146 | disconnecting one list of ids and then another is disconnecting their concatenation |
| Recorder.StartRecordingStep | examples/subscriber/recorder.py:196-198 | raises KeyError exactly for an id not in the table |
| Recorder.StartRecordingOnlyNamed | examples/subscriber/recorder.py:196-198 | only the named entry's gate opens; every other entry, the order and the events are unchanged |
| Recorder.StepsKeepTable | examples/subscriber/recorder.py:59-198 | adding, disconnecting, stopping and starting keep the table valid: the order lists each key of the table exactly once |
| Recorder.StopKeepsTable | examples/subscriber/recorder.py:148-164 | stopping keeps the table valid |
| Recorder.StopKeepsEntries | examples/subscriber/recorder.py:148-164 | stop keeps every entry but closes each one's recording, emits `track_removed` per entry in order and then `recorder_stopped` |
| Recorder.AddTrackIdempotent | examples/subscriber/recorder.py:81-83 | adding the same track again after a successful add changes nothing |
| Recorder.AddThenDisconnect | examples/subscriber/recorder.py:59-146 | adding a new track and disconnecting it restores the table and leaves `track_added` then `track_removed` |
| Recorder.Without | examples/subscriber/recorder.py:132 | popping an id removes exactly that id from the key order |
| Recorder.WithoutDistinct | examples/subscriber/recorder.py:132 | popping keeps the key order free of duplicates |
| Recorder.Encoded | examples/subscriber/recorder.py:166-194 | the encoder never sees more frames than arrive |
| Recorder.ClosedGateEncodesNothing | examples/subscriber/recorder.py:181-182 | while `can_start` is false every frame is discarded |
| Recorder.OpenedGateEncodesSuffix | examples/subscriber/recorder.py:181-194 | once the gate opens, exactly the frames from then on are encoded, in order |
| Recorder.FrameRecorder.constructor | examples/subscriber/recorder.py:53-57 | an empty, valid table and no events |
| Recorder.FrameRecorder.AddTrack | examples/subscriber/recorder.py:59-129 | keeps the table valid; the new state and result are `AddTrackStep` of the old state; a video track with both ids is annotated with its track id and its participant id (the corrected annotation of "## Findings") |
| Recorder.FrameRecorder.DisconnectTrack | examples/subscriber/recorder.py:131-146 | keeps the table valid; the new state is `DisconnectStep` of the old one |
| Recorder.FrameRecorder.Stop | examples/subscriber/recorder.py:148-164 | keeps the table valid; the loop over the entries yields `StopStep` of the old state |
| Recorder.FrameRecorder.StartRecording | examples/subscriber/recorder.py:196-198 | opens the gate as `StartRecordingStep`, or raises KeyError and changes nothing |
| Recorder.FrameRecorder.RunTrack | examples/subscriber/recorder.py:166-194 | the frames passed to the encoder are exactly `Encoded` of the arrivals |
| Subscriber.Put | examples/subscriber/subscriber.py:165-173 | assigning a dictionary key appends a new key and keeps the position of an existing one |
| Subscriber.LookupPut | examples/subscriber/subscriber.py:165-173 | after assigning a key, reading it gives the new value and other keys are unaffected |
| Subscriber.PutPut | examples/subscriber/subscriber.py:165-173 | assigning a key twice is assigning it once, with the last value |
| Subscriber.TrackSids | examples/subscriber/subscriber.py:185 | the reference list of a participant's track sids in order; `SubscriptionEntries` proves it is the participant's subscription entry |
| Subscriber.DisconnectCalls | examples/subscriber/subscriber.py:228-230 | the reference list of one `disconnect_track` call per track of a departed participant, in order; `DisconnectTracks` and `DisconnectsLeaversTracks` prove the handler issues exactly these |
| Subscriber.SelectFromFindsFirstSmallest | examples/subscriber/subscriber.py:192-200 | the layer scan keeps the given ssrc when no layer with a nonzero ssrc is smaller than the bound, and otherwise returns the ssrc of the first layer of least area |
| Subscriber.SmallestLayer | examples/subscriber/subscriber.py:192-200 | from the bound 10000^2, the selection is None exactly when no candidate layer is smaller, and otherwise the first smallest candidate |
| Subscriber.SelectSmallestLayer | examples/subscriber/subscriber.py:192-200 | the loop computes `SelectFrom` from the initial bound |
| Subscriber.CollectLayers | examples/subscriber/subscriber.py:174-184 | the loop builds the track's layer table keyed by quality |
| Subscriber.CollectTracks | examples/subscriber/subscriber.py:170-187 | the loop yields the participant's track sids, layer tables and tracker calls |
| Subscriber.RequestSettings | examples/subscriber/subscriber.py:191-201 | the nested loops issue `SettingsCalls` of the collected layers |
| Subscriber.DisconnectTracks | examples/subscriber/subscriber.py:228-230 | the loop calls the recorder's `disconnect_track` for each of the departed participant's tracks, in order: the recorder ends as `DisconnectAll` of their sids, and the log is `DisconnectCalls` of the tracks |
| Subscriber.VisitParticipant | examples/subscriber/subscriber.py:226-255 | one iteration of the participant loop extends the plan as `AddParticipant` and disconnects the tracks of a departed participant only in the update handler |
| Subscriber.PlanSubscriptions | examples/subscriber/subscriber.py:220-269 | the handler loop issues exactly `HandlerCalls` of the participants, and the recorder loses the tracks of the departed participants in the update handler and nothing in the join handler |
| Subscriber.OnJoin | examples/subscriber/subscriber.py:155-201 | the join handler issues `HandlerCalls` of the other participants, skipping departed ones, and leaves the recorder unchanged |
| Subscriber.OnParticipantUpdate | examples/subscriber/subscriber.py:220-269 | the update handler issues `HandlerCalls` of the participants, and the recorder ends as `DisconnectAll` of the departed participants' track sids |
| Subscriber.PlanCounts | examples/subscriber/subscriber.py:160-187 | `tracks_added` counts the tracks of the participants still present, and the per-participant calls contain no request |
| Subscriber.RequestsIffTracksAdded | examples/subscriber/subscriber.py:188-189 | a subscription request is sent exactly when some track was added, right after the per-participant calls and with the collected subscriptions |
| Subscriber.SettingsAreFixedSize | examples/subscriber/subscriber.py:201 | every settings call asks for 320x200, whatever layer was selected |
| Subscriber.SubscriptionKeys | examples/subscriber/subscriber.py:161-168 | the subscriptions and the layer table have a key exactly for each participant that has not left |
| Subscriber.TrackLayersKeys | examples/subscriber/subscriber.py:235-236 | with distinct track sids, a participant's layer table is keyed by its track sids in order |
| Subscriber.SettingsFollowTracks | examples/subscriber/subscriber.py:233-269 | with distinct participant sids and distinct track sids within each participant, the settings requests are one 320x200 request per track of every participant that has not left, in participant then track order |
| Subscriber.HandlerRequests | examples/subscriber/subscriber.py:226-269 | under the same distinctness, a handler's calls are its loop's calls followed, exactly when a remaining participant has a track, by the subscription request and then those settings requests |
| Subscriber.TrackerAdds | examples/subscriber/subscriber.py:226-254 | `paxtracker.add_track(p, t)` is called exactly when a participant with sid p that has not left lists a track with sid t; a departed participant never reaches the tracker |
| Subscriber.UpdateDropsLeaversTracks | examples/subscriber/subscriber.py:226-231 | after an update the recorder holds a track exactly when it held it before and no departed participant lists it |
| Subscriber.SubscriptionEntries | examples/subscriber/subscriber.py:168-186 | with distinct participant sids, each remaining participant's entry lists its track sids |
| Subscriber.DisconnectsLeaversTracks | examples/subscriber/subscriber.py:227-231 | the update handler disconnects exactly the tracks of departed participants, in order; the join handler disconnects none |
| Subscriber.StartActive | examples/subscriber/subscriber.py:272-278 | the recorder's order, events and keys are unchanged; KeyError is raised exactly when an ACTIVE state names a track not in the table |
| Subscriber.StartActiveOpensActiveGates | examples/subscriber/subscriber.py:272-278 | when every ACTIVE track is in the table, a gate is open afterwards exactly when it was open or some ACTIVE state names it, and recording flags are untouched |
| Subscriber.OnStreamStateUpdate | examples/subscriber/subscriber.py:272-278 | keeps the recorder's table valid; the new recorder state and result are `StartActive` of the old state |

## Left out

- Protobuf serialisation (`SerializeToString`, `ParseFromString`): frames are modelled as already-parsed envelopes. A frame that fails to parse makes `receive` raise, and that path is not modelled.
- The websocket, `asyncio` and the `pyee` emitters. The socket's success or failure arrives as a boolean parameter. Listener invocation is recorded as the list of emissions. The `close()` coroutine that the leave handler schedules is recorded as a flag (`closeScheduled`), not run.
- ICE candidates: `proto_to_aio_candidate` and `aio_to_proto_candidate` (JSON and SDP parsing) are not modelled. A trickle's candidate is kept as its JSON text.
- LkTypes.TrickleRequestFromLk: takes `proto_to_aio_candidate` as total. In the code, a `candidateInit` that is not JSON with a "candidate" key makes `from_lk` raise (livekit_types.py:916, utils.py:20-22); the model succeeds whenever the target is in range.
- SignalingSession.ResponseEmission: takes `proto_to_aio_candidate` and aiortc's `RTCSessionDescription` as total. In the code, unparsable trickle candidate text (signaling.py:247), or an offer or answer whose type is not one `RTCSessionDescription` accepts (signaling.py:241, 243), makes `_emit_response` raise, so `receive` raises and `run` closes the socket; the model always emits.
- SignalingSession.RequestEmission: takes the same two conversions as total. In the code, such a request (signaling.py:282, 284, 288) makes `_emit_request` raise, so `send` raises after the frame has been written; the model always emits.
- LkEnums.TrackSource.ToLk, LkEnums.SignalTarget.ToLk, LkEnums.ConnectionQuality.ToLk and LkEnums.StreamState.ToLk are the corrected tables of "## Findings", not the code as written, and so are the codecs built on them: LkTypes.TrackInfoToLk, LkTypes.AddTrackRequestToLk, LkTypes.DataChannelInfoToLk, LkTypes.ConnectionQualityInfoToLk, LkTypes.StreamStateInfoToLk, LkTypes.TrickleRequestToLk's error, the messages containing them and the envelope round-trip lemmas of `LkDispatch`.
- Recorder.FrameRecorder.AddTrack: writes the corrected annotation of "## Findings" (participant id in `paxid`), not the track id that recorder.py:80 writes.
- LkTypes.TrickleRequestToLk always fails. It puts the SignalRequest that `aio_to_proto_candidate` returns into a string field, so trickle is excluded from every envelope round trip.
- Floats (`SpeakerInfo.level`, `ConnectionQualityInfo.score`) are Dafny `real`s. Rounding is not modelled.
- JWT token creation, logging, `__dump__`, `to_aiortc` and the `print` calls have no effect on the modelled state.
- `Signaling.send_answer`, `send_offer`, `send_add_track` and `send_subscription_permission` build a wrapper and call `send`. Only `to_signal_request` and `send` are modelled.
- `get_track_ids`, the participant tracker (`paxtracker`), `send_subscription_request` and `send_update_track_settings` are not part of this model. Their effect is recorded as the calls the handlers make. `get_track_ids`'s answers arrive as parameters of `AddTrack`.
- Recorder media I/O (`os.mkdir`, `av.open`, stream encoding and muxing) is a single success flag of `AddTrack`. A failure there stops the recorder and re-raises. `__run_track` is modelled on the sequence of frames it receives, each paired with the value of `can_start` at that moment.
- SignalingSession.Signaling.Run: the websocket loop is modelled on a finite list of incoming frames. It stops when the list runs out, as well as at the first `None`.
- The example's offer, trickle and debug handlers, and the script that starts it, only log or forward to `aiortc`.
- Subscriber handlers are modelled on the wrapper types their annotations name (`LK.JoinResponse`, `LK.ParticipantUpdate`, `LK.StreamStateUpdate`). The `Signaling` of src/livekit_signaling/signaling.py does not convert to them: `_emit_response` emits the raw protobuf body (signaling.py:239), on which `participant.state.name` (subscriber.py:162) would raise AttributeError, and the example calls `run(sdk="go")` (subscriber.py:301), which `run` (signaling.py:164) does not accept. The example evidently targets a different version of `Signaling`; the model takes the handlers on their annotated types.
- In the subscriber handlers, `LK.TrackType(track.type) == "audio"` compares an enum member with a string and never holds. The model follows the code: audio tracks are subscribed like video tracks. The `layer.ssrc == 0` test at the end of the layer loop skips nothing that follows it.
- `DataChannelInfo` and `TrackPublishedResponse` do not derive from `LKBase`. They have no `to_signal_request` and no `from_signal_*`, so `track_published` responses cannot be decoded through the module-level dispatch (`LkDispatch.FromSignalResponse`).
- `SimulateScenario` requests carry no modelled fields, and no wrapper class is tagged with `simulate`.

## Findings

| source | as written | input that shows it | evidently intended | confidence | as-written member | corrected member |
|---|---|---|---|---|---|---|
| src/livekit_signaling/livekit_types.py:172-215 | `@dataclass` on the `TrackSource` enum generates an `__eq__` under which all members are equal, so `to_lk` always returns UNKNOWN | `TrackSource.CAMERA.to_lk()` gives UNKNOWN (0), and `TrackSource.NONE.to_lk()` does not raise | each member maps to its own protobuf value and NONE raises ValueError | medium, not executed | LkEnums.TrackSourceAsWrittenLosesMember | LkEnums.TrackSource.ToLk |
| src/livekit_signaling/livekit_types.py:875-900 | the same for `SignalTarget`: `to_lk` always returns PUBLISHER | `SignalTarget.SUBSCRIBER.to_lk()` gives PUBLISHER (0) | SUBSCRIBER maps to 1 and NONE raises | medium, not executed | LkEnums.SignalTargetAsWrittenLosesMember | LkEnums.SignalTarget.ToLk |
| src/livekit_signaling/livekit_types.py:1157-1187 | the same for `ConnectionQuality`: `to_lk` always returns POOR | `ConnectionQuality.EXCELLENT.to_lk()` gives POOR (0) | EXCELLENT maps to 2 | medium, not executed | LkEnums.ConnectionQualityAsWrittenLosesMember | LkEnums.ConnectionQuality.ToLk |
| src/livekit_signaling/livekit_types.py:1237-1261 | the same for `StreamState`: `to_lk` always returns ACTIVE | `StreamState.PAUSED.to_lk()` gives ACTIVE (0) | PAUSED maps to 1 | medium, not executed | LkEnums.StreamStateAsWrittenLosesMember | LkEnums.StreamState.ToLk |
| examples/subscriber/recorder.py:80 | `track.paxid = track_id` stores the track id as the participant id | participant "PA_1" with track "TR_1" is annotated with paxid "TR_1"; "PA_2" with "TR_1" gets the same annotation | `track.paxid = pax_id` | high, not executed | Recorder.AnnotationAsWrittenNotInjective | Recorder.AnnotationInjective |
