/** The signaling session of src/livekit_signaling/signaling.py.

    A `Signaling` object holds an optional websocket, the access token, two event
    emitters (received and sent) with their `emit_all` flags, and the
    `_emitting_requests` switch. The emitters are modelled as append-only logs of
    the emissions they make, and the transport as parameters that say whether a
    connect, a write or a read succeeded. Every method is specified by a pure step
    function on a `Session` snapshot, and the properties are proved about those. */
module SignalingSession {
  import opened Wrappers
  import opened Exceptions
  import opened FieldNames
  import P = Proto

  // ---------------------------------------------------------------------------
  // Events and their routing
  // ---------------------------------------------------------------------------

  /** The event names the session emits: one per envelope field, the two fallbacks
      (spelled differently for the two directions) and the wildcard. */
  datatype Event =
    | FieldEvent(field: FieldName)
    | UnknownResponseEvent
    | UnknownRequestEvent
    | AllMessagesEvent

  function EventName(e: Event): string
  {
    match e
    case FieldEvent(f) => FieldNameText(f)
    case UnknownResponseEvent => "unknown"
    case UnknownRequestEvent => "unkown"
    case AllMessagesEvent => "all_messages"
  }

  /** What an emission hands to its listeners. */
  datatype Payload =
      /** The envelope field's own message or scalar. */
    | BodyPayload(body: P.Body)
      /** An `RTCSessionDescription(sdp, type)` built from an offer or answer. */
    | SessionPayload(sdp: string, sdpType: string)
      /** The pair (candidate, target); the candidate is kept as its JSON text. */
    | CandidatePayload(candidateInit: string, target: int)
      /** The whole envelope, for a tag no branch recognises. */
    | WholeResponse(response: P.SignalResponse)
    | WholeRequest(request: P.SignalRequest)
      /** Python's `None`. */
    | NoPayload

  datatype Emission = Emission(event: Event, payload: Payload)

  /** An offer or answer as an RTCSessionDescription; reading an unset submessage
      yields protobuf's empty default. */
  function SessionPayloadOf(b: P.Body): Payload
  {
    if b.SessionDescriptionBody? then SessionPayload(b.sessionDescription.sdp, b.sessionDescription.sdpType)
    else SessionPayload("", "")
  }

  function CandidatePayloadOf(b: P.Body): Payload
  {
    if b.TrickleBody? then CandidatePayload(b.trickle.candidateInit, b.trickle.target)
    else CandidatePayload("", 0)
  }

  /** The tags `_emit_response` names in its branches. */
  predicate RecognisedResponseTag(f: FieldName)
  {
    f in {JoinField, OfferField, AnswerField, TrickleField, UpdateField, TrackPublishedField,
          LeaveField, MuteField, SpeakersChangedField, RoomUpdateField, ConnectionQualityField,
          StreamStateUpdateField, SubscribedQualityUpdateField, SubscriptionPermissionUpdateField,
          RefreshTokenField, TrackUnpublishedField, PongField}
  }

  /** The tags `_emit_request` names in its branches. */
  predicate RecognisedRequestTag(f: FieldName)
  {
    f in {OfferField, AnswerField, TrickleField, AddTrackField, MuteField, SubscriptionField,
          TrackSettingField, LeaveField, UpdateLayersField, SubscriptionPermissionField,
          SyncStateField, SimulateField, PingField}
  }

  /** The kind-specific emission `_emit_response` makes for an inbound envelope. */
  function ResponseEmission(input: P.SignalResponse): (e: Emission)
    ensures e.event != AllMessagesEvent
    ensures input.message.Some? && RecognisedResponseTag(input.message.value.name) ==>
              e.event == FieldEvent(input.message.value.name)
    ensures e.event.FieldEvent? ==> input.message.Some? && e.event.field == input.message.value.name
    ensures e.event == UnknownResponseEvent <==>
              input.message.None? || !RecognisedResponseTag(input.message.value.name)
    ensures e.event == UnknownResponseEvent ==> e.payload == WholeResponse(input)
    ensures input.message.Some? && RecognisedResponseTag(input.message.value.name) &&
            input.message.value.name !in {OfferField, AnswerField, TrickleField} ==>
              e.payload == BodyPayload(input.message.value.value)
  {
    match input.message
    case None => Emission(UnknownResponseEvent, WholeResponse(input))
    case Some(fld) =>
      match fld.name
      case JoinField => Emission(FieldEvent(JoinField), BodyPayload(fld.value))
      case OfferField => Emission(FieldEvent(OfferField), SessionPayloadOf(fld.value))
      case AnswerField => Emission(FieldEvent(AnswerField), SessionPayloadOf(fld.value))
      case TrickleField => Emission(FieldEvent(TrickleField), CandidatePayloadOf(fld.value))
      case UpdateField => Emission(FieldEvent(UpdateField), BodyPayload(fld.value))
      case TrackPublishedField => Emission(FieldEvent(TrackPublishedField), BodyPayload(fld.value))
      case LeaveField => Emission(FieldEvent(LeaveField), BodyPayload(fld.value))
      case MuteField => Emission(FieldEvent(MuteField), BodyPayload(fld.value))
      case SpeakersChangedField => Emission(FieldEvent(SpeakersChangedField), BodyPayload(fld.value))
      case RoomUpdateField => Emission(FieldEvent(RoomUpdateField), BodyPayload(fld.value))
      case ConnectionQualityField => Emission(FieldEvent(ConnectionQualityField), BodyPayload(fld.value))
      case StreamStateUpdateField => Emission(FieldEvent(StreamStateUpdateField), BodyPayload(fld.value))
      case SubscribedQualityUpdateField =>
        Emission(FieldEvent(SubscribedQualityUpdateField), BodyPayload(fld.value))
      case SubscriptionPermissionUpdateField =>
        Emission(FieldEvent(SubscriptionPermissionUpdateField), BodyPayload(fld.value))
      case RefreshTokenField => Emission(FieldEvent(RefreshTokenField), BodyPayload(fld.value))
      case TrackUnpublishedField => Emission(FieldEvent(TrackUnpublishedField), BodyPayload(fld.value))
      case PongField => Emission(FieldEvent(PongField), BodyPayload(fld.value))
      case _ => Emission(UnknownResponseEvent, WholeResponse(input))
  }

  /** The kind-specific emission `_emit_request` makes for an outbound envelope. */
  function RequestEmission(input: P.SignalRequest): (e: Emission)
    ensures e.event != AllMessagesEvent
    ensures input.message.Some? && RecognisedRequestTag(input.message.value.name) ==>
              e.event == FieldEvent(input.message.value.name)
    ensures e.event.FieldEvent? ==> input.message.Some? && e.event.field == input.message.value.name
    ensures e.event == UnknownRequestEvent <==>
              input.message.None? || !RecognisedRequestTag(input.message.value.name)
    ensures e.event == UnknownRequestEvent ==> e.payload == WholeRequest(input)
    ensures e.event == FieldEvent(LeaveField) ==> e.payload == NoPayload
    ensures input.message.Some? && RecognisedRequestTag(input.message.value.name) &&
            input.message.value.name !in {OfferField, AnswerField, TrickleField, LeaveField} ==>
              e.payload == BodyPayload(input.message.value.value)
  {
    match input.message
    case None => Emission(UnknownRequestEvent, WholeRequest(input))
    case Some(fld) =>
      match fld.name
      case OfferField => Emission(FieldEvent(OfferField), SessionPayloadOf(fld.value))
      case AnswerField => Emission(FieldEvent(AnswerField), SessionPayloadOf(fld.value))
      case TrickleField => Emission(FieldEvent(TrickleField), CandidatePayloadOf(fld.value))
      case AddTrackField => Emission(FieldEvent(AddTrackField), BodyPayload(fld.value))
      case MuteField => Emission(FieldEvent(MuteField), BodyPayload(fld.value))
      case SubscriptionField => Emission(FieldEvent(SubscriptionField), BodyPayload(fld.value))
      case TrackSettingField => Emission(FieldEvent(TrackSettingField), BodyPayload(fld.value))
      case LeaveField => Emission(FieldEvent(LeaveField), NoPayload)
      case UpdateLayersField => Emission(FieldEvent(UpdateLayersField), BodyPayload(fld.value))
      case SubscriptionPermissionField =>
        Emission(FieldEvent(SubscriptionPermissionField), BodyPayload(fld.value))
      case SyncStateField => Emission(FieldEvent(SyncStateField), BodyPayload(fld.value))
      case SimulateField => Emission(FieldEvent(SimulateField), BodyPayload(fld.value))
      case PingField => Emission(FieldEvent(PingField), BodyPayload(fld.value))
      case _ => Emission(UnknownRequestEvent, WholeRequest(input))
  }

  /** Every field of the response envelope has its own branch, so a well-typed
      response falls back to "unknown" exactly when no field is set; the event is
      then named after the set field. */
  lemma ResponseRoutingTotal(input: P.SignalResponse)
    requires P.WellTypedResponse(input)
    ensures ResponseEmission(input).event == UnknownResponseEvent <==> input.message.None?
    ensures input.message.Some? ==> EventName(ResponseEmission(input).event) == FieldNameText(input.message.value.name)
  {
    if input.message.Some? {
      var f := input.message.value.name;
      assert P.ResponseFieldAccepts(f, input.message.value.value);
      assert RecognisedResponseTag(f) by {
        match f
        case JoinField =>
        case OfferField =>
        case AnswerField =>
        case TrickleField =>
        case UpdateField =>
        case TrackPublishedField =>
        case LeaveField =>
        case MuteField =>
        case SpeakersChangedField =>
        case RoomUpdateField =>
        case ConnectionQualityField =>
        case StreamStateUpdateField =>
        case SubscribedQualityUpdateField =>
        case SubscriptionPermissionUpdateField =>
        case RefreshTokenField =>
        case TrackUnpublishedField =>
        case PongField =>
        case _ => assert false;
      }
    }
  }

  /** The same for requests: "unkown" is reached only by an empty envelope. */
  lemma RequestRoutingTotal(input: P.SignalRequest)
    requires P.WellTypedRequest(input)
    ensures RequestEmission(input).event == UnknownRequestEvent <==> input.message.None?
    ensures input.message.Some? ==> EventName(RequestEmission(input).event) == FieldNameText(input.message.value.name)
  {
    if input.message.Some? {
      var f := input.message.value.name;
      assert P.RequestFieldAccepts(f, input.message.value.value);
      assert RecognisedRequestTag(f) by {
        match f
        case OfferField =>
        case AnswerField =>
        case TrickleField =>
        case AddTrackField =>
        case MuteField =>
        case SubscriptionField =>
        case TrackSettingField =>
        case LeaveField =>
        case UpdateLayersField =>
        case SubscriptionPermissionField =>
        case SyncStateField =>
        case SimulateField =>
        case PingField =>
        case _ => assert false;
      }
    }
  }

  /** A wildcard emission repeats the kind-specific one's payload. */
  function Wildcard(e: Emission, emitAll: bool): seq<Emission>
  {
    if emitAll then [Emission(AllMessagesEvent, e.payload)] else []
  }

  /** Everything `_emit_response` emits: one kind-specific event, then "all_messages"
      with the same payload iff `emit_all` is set. */
  function ResponseEmissions(input: P.SignalResponse, emitAll: bool): (es: seq<Emission>)
    ensures |es| == if emitAll then 2 else 1
    ensures es[0] == ResponseEmission(input) && es[0].event != AllMessagesEvent
    ensures forall i :: 1 <= i < |es| ==> es[i] == Emission(AllMessagesEvent, es[0].payload)
  {
    [ResponseEmission(input)] + Wildcard(ResponseEmission(input), emitAll)
  }

  /** Everything `_emit_request` emits. */
  function RequestEmissions(input: P.SignalRequest, emitAll: bool): (es: seq<Emission>)
    ensures |es| == if emitAll then 2 else 1
    ensures es[0] == RequestEmission(input) && es[0].event != AllMessagesEvent
    ensures forall i :: 1 <= i < |es| ==> es[i] == Emission(AllMessagesEvent, es[0].payload)
  {
    [RequestEmission(input)] + Wildcard(RequestEmission(input), emitAll)
  }

  // ---------------------------------------------------------------------------
  // The connection URL
  // ---------------------------------------------------------------------------

  function DigitChar(d: nat): char
    requires d < 10
  {
    "0123456789"[d]
  }

  function DigitValue(c: char): nat
  {
    if '0' <= c <= '9' then (c - '0') as nat else 0
  }

  predicate AllDigits(s: string)
  {
    forall i :: 0 <= i < |s| ==> '0' <= s[i] <= '9'
  }

  /** `str(n)` for a natural number. */
  function DecimalText(n: nat): (r: string)
    ensures |r| >= 1 && AllDigits(r)
  {
    if n < 10 then [DigitChar(n)] else DecimalText(n / 10) + [DigitChar(n % 10)]
  }

  /** `int(s)` for a string of decimal digits. */
  function DecimalValue(s: string): nat
  {
    if |s| == 0 then 0 else DecimalValue(s[..|s| - 1]) * 10 + DigitValue(s[|s| - 1])
  }

  /** Reading back the decimal text of a number gives the number. */
  lemma {:induction false} DecimalRoundTrip(n: nat)
    ensures DecimalValue(DecimalText(n)) == n
  {
    var s := DecimalText(n);
    if n < 10 {
      assert s[..|s| - 1] == [];
    } else {
      DecimalRoundTrip(n / 10);
      assert s[..|s| - 1] == DecimalText(n / 10);
    }
  }

  /** `str(i)` for an integer. */
  function IntText(i: int): string
  {
    if i < 0 then "-" + DecimalText(-i) else DecimalText(i)
  }

  /** `sep.join(parts)`. */
  function Join(parts: seq<string>, sep: char): string
  {
    if |parts| == 0 then "" else if |parts| == 1 then parts[0] else parts[0] + [sep] + Join(parts[1..], sep)
  }

  /** `s.split(sep)`: the pieces between separators, always at least one. */
  function Split(s: string, sep: char): (r: seq<string>)
    ensures |r| >= 1
  {
    if |s| == 0 then [""]
    else
      var rest := Split(s[1..], sep);
      if s[0] == sep then [""] + rest else [[s[0]] + rest[0]] + rest[1..]
  }

  lemma {:induction false} SplitWithoutSeparator(p: string, sep: char)
    requires sep !in p
    ensures Split(p, sep) == [p]
  {
    if |p| > 0 {
      SplitWithoutSeparator(p[1..], sep);
      assert [p[0]] + p[1..] == p;
    }
  }

  lemma {:induction false} SplitAtFirstSeparator(p: string, sep: char, rest: string)
    requires sep !in p
    ensures Split(p + [sep] + rest, sep) == [p] + Split(rest, sep)
  {
    var s := p + [sep] + rest;
    if |p| == 0 {
      assert s[1..] == rest;
    } else {
      assert s[1..] == p[1..] + [sep] + rest;
      SplitAtFirstSeparator(p[1..], sep, rest);
      assert [p[0]] + p[1..] == p;
    }
  }

  /** Splitting a join gives back the parts, when no part holds the separator. */
  lemma {:induction false} SplitJoin(parts: seq<string>, sep: char)
    requires |parts| >= 1
    requires forall i :: 0 <= i < |parts| ==> sep !in parts[i]
    ensures Split(Join(parts, sep), sep) == parts
  {
    if |parts| == 1 {
      SplitWithoutSeparator(parts[0], sep);
    } else {
      SplitJoin(parts[1..], sep);
      SplitAtFirstSeparator(parts[0], sep, Join(parts[1..], sep));
      assert [parts[0]] + parts[1..] == parts;
    }
  }

  /** One entry of `sdk_params`. */
  datatype Profile = Profile(protocol: int, sdk: string, version: string)

  /** `Signaling.sdk_params`: the client profiles the server is told about. */
  function SdkProfile(name: string): Option<Profile>
  {
    match name
    case "go" => Some(Profile(8, "go", "1.0.3"))
    case "js" => Some(Profile(8, "js", "1.3.2"))
    case "python" => Some(Profile(8, "python", "8"))
    case _ => None
  }

  /** `sdk or self.sdk`: an absent or empty profile name falls back to "python". */
  function ProfileKey(sdk: Option<string>): string
  {
    if sdk.None? || sdk.value == "" then "python" else sdk.value
  }

  /** `Signaling.auto_subscribe`. */
  const AutoSubscribe: int := 1

  /** The query parameters in dictionary order: the token and auto_subscribe, then
      the profile's entries. */
  function QueryParams(token: string, p: Profile): (r: seq<(string, string)>)
    ensures |r| == 5
    ensures r[0].0 == "access_token" && r[1].0 == "auto_subscribe" && r[2].0 == "protocol" &&
            r[3].0 == "sdk" && r[4].0 == "version"
    ensures r[0].1 == token && r[3].1 == p.sdk && r[4].1 == p.version
  {
    [("access_token", token), ("auto_subscribe", IntText(AutoSubscribe)),
     ("protocol", IntText(p.protocol)), ("sdk", p.sdk), ("version", p.version)]
  }

  function Assignments(ps: seq<(string, string)>): (r: seq<string>)
    ensures |r| == |ps|
    ensures forall i :: 0 <= i < |ps| ==> r[i] == ps[i].0 + "=" + ps[i].1
  {
    seq(|ps|, i requires 0 <= i < |ps| => ps[i].0 + "=" + ps[i].1)
  }

  /** `'&'.join(f"{k}={v}" ...)`. */
  function Query(ps: seq<(string, string)>): string
  {
    Join(Assignments(ps), '&')
  }

  /** `ws{secure}://{host}:{port}/rtc?{params}` for the chosen profile; an unknown
      profile name is a KeyError raised before any connection attempt. */
  function ConnectUrl(host: string, port: int, token: string, sdk: Option<string>): (r: Result<string, PyError>)
    ensures r.Err? <==> SdkProfile(ProfileKey(sdk)).None?
    ensures r.Err? ==> r.error == MissingKey(ProfileKey(sdk))
    ensures r.Ok? && port == 443 ==> |r.value| > 6 && r.value[..6] == "wss://"
    ensures r.Ok? && port != 443 ==> |r.value| > 5 && r.value[..5] == "ws://"
  {
    match SdkProfile(ProfileKey(sdk))
    case None => Err(MissingKey(ProfileKey(sdk)))
    case Some(p) =>
      var secure := if port == 443 then "s" else "";
      Ok("ws" + secure + "://" + host + ":" + IntText(port) + "/rtc" + "?" + Query(QueryParams(token, p)))
  }

  /** Without a profile argument the "python" profile is used, so connecting never
      raises; the URL is the one for `sdk="python"`. */
  lemma DefaultProfileIsPython(host: string, port: int, token: string)
    ensures ConnectUrl(host, port, token, None) == ConnectUrl(host, port, token, Some("python"))
    ensures ConnectUrl(host, port, token, None).Ok?
  {
    assert SdkProfile("python") == Some(Profile(8, "python", "8"));
  }

  /** The query string of the URL splits back, at '&', into the five assignments in
      order (a token never contains '&'). */
  lemma QueryParamsInOrder(token: string, p: Profile)
    requires '&' !in token && '&' !in p.sdk && '&' !in p.version
    ensures Split(Query(QueryParams(token, p)), '&') ==
              ["access_token=" + token, "auto_subscribe=" + IntText(AutoSubscribe),
               "protocol=" + IntText(p.protocol), "sdk=" + p.sdk, "version=" + p.version]
  {
    var ps := QueryParams(token, p);
    var a := Assignments(ps);
    forall i | 0 <= i < |a|
      ensures '&' !in a[i]
    {
      assert '&' !in ps[i].0 && '&' !in ps[i].1 by {
        if i == 1 || i == 2 {
          NoAmpersandInIntText(if i == 1 then AutoSubscribe else p.protocol);
        }
      }
      assert a[i] == ps[i].0 + "=" + ps[i].1;
    }
    SplitJoin(a, '&');
    assert ps == [("access_token", token), ("auto_subscribe", IntText(AutoSubscribe)),
                  ("protocol", IntText(p.protocol)), ("sdk", p.sdk), ("version", p.version)];
    assert a[0] == "access_token=" + token && a[1] == "auto_subscribe=" + IntText(AutoSubscribe);
    assert a[2] == "protocol=" + IntText(p.protocol) && a[3] == "sdk=" + p.sdk && a[4] == "version=" + p.version;
    assert a == ["access_token=" + token, "auto_subscribe=" + IntText(AutoSubscribe),
                 "protocol=" + IntText(p.protocol), "sdk=" + p.sdk, "version=" + p.version];
  }

  lemma NoAmpersandInIntText(i: int)
    ensures '&' !in IntText(i)
  {
    var d := DecimalText(if i < 0 then -i else i);
    assert AllDigits(d);
    assert forall k :: 0 <= k < |d| ==> d[k] != '&';
  }

  // ---------------------------------------------------------------------------
  // Session state
  // ---------------------------------------------------------------------------

  /** The open websocket, identified by the URL it was opened on. */
  datatype Socket = Socket(url: string)

  /** A listener registered on the received-events emitter: one of the caller's, or
      one of the two `run` installs. */
  datatype Listener = UserHandler(event: string) | TokenRefreshHandler | LeaveHandler

  /** A snapshot of a `Signaling` object. `closeScheduled` records that the leave
      handler has scheduled a `close()` task. */
  datatype Session = Session(
    host: string, port: int, token: string, ws: Option<Socket>,
    emittingRequests: bool, receivedEmitAll: bool, sentEmitAll: bool,
    recvListeners: seq<Listener>, sentListeners: seq<string>,
    received: seq<Emission>, sent: seq<Emission>, closeScheduled: bool)

  /** The state `__init__` builds; the token is the signed JWT it is given. */
  function Initial(host: string, port: int, token: string): Session
  {
    Session(host, port, token, None, false, false, false, [], [], [], [], false)
  }

  /** `on_recv(event, handler)`. */
  function OnRecvStep(s: Session, event: string): Session
  {
    s.(receivedEmitAll := s.receivedEmitAll || event == "all_messages",
       recvListeners := s.recvListeners + [UserHandler(event)])
  }

  /** `on_sent(event, handler)`: also switches on the emission of sent events. */
  function OnSentStep(s: Session, event: string): Session
  {
    s.(emittingRequests := true,
       sentEmitAll := s.sentEmitAll || event == "all_messages",
       sentListeners := s.sentListeners + [event])
  }

  /** `connect`'s result: Python's `None` when a socket is already held, `True`, `False`. */
  datatype ConnectOutcome = AlreadyConnected | Connected | ConnectFailed

  /** `connect(sdk)`, where `transportOk` says whether `websockets.connect` succeeds. */
  function ConnectStep(s: Session, sdk: Option<string>, transportOk: bool): (r: (Session, Result<ConnectOutcome, PyError>))
    ensures s.ws.Some? ==> r == (s, Ok(AlreadyConnected))
    ensures r.1 == Ok(Connected) <==> s.ws.None? && transportOk && SdkProfile(ProfileKey(sdk)).Some?
    ensures r.1 == Ok(Connected) ==> r.0 == s.(ws := Some(Socket(ConnectUrl(s.host, s.port, s.token, sdk).value)))
    ensures r.1 != Ok(Connected) ==> r.0 == s
    ensures r.1 == Ok(ConnectFailed) ==> r.0.ws.None?
    ensures r.1.Err? ==> sdk.Some? && r.1.error == MissingKey(ProfileKey(sdk))
  {
    if s.ws.Some? then (s, Ok(AlreadyConnected))
    else
      match ConnectUrl(s.host, s.port, s.token, sdk)
      case Err(e) => (s, Err(e))
      case Ok(url) => if transportOk then (s.(ws := Some(Socket(url))), Ok(Connected)) else (s, Ok(ConnectFailed))
  }

  /** `close()`: drops the socket; a failing close is caught, with the same effect. */
  function CloseStep(s: Session): (r: Session)
    ensures r.ws.None?
    ensures s.ws.None? ==> r == s
  {
    s.(ws := None)
  }

  lemma CloseIdempotent(s: Session)
    ensures CloseStep(CloseStep(s)) == CloseStep(s)
  {
  }

  /** `send(req)`: connect, write, then emit the sent events if `on_sent` was ever
      called. With no socket the write raises AttributeError. */
  function SendStep(s: Session, req: P.SignalRequest, connectOk: bool, writeOk: bool): (r: (Session, Result<(), PyError>))
    ensures |r.0.sent| != |s.sent| ==> s.emittingRequests && writeOk && r.1.Ok?
    ensures r.1.Ok? ==> r.0.ws.Some? && writeOk
    ensures r.1.Ok? && s.emittingRequests ==> r.0.sent == s.sent + RequestEmissions(req, s.sentEmitAll)
    ensures r.1.Err? ==> r.0.sent == s.sent
    ensures (s.ws.Some? || connectOk) && writeOk ==> r.1.Ok?
    ensures !s.emittingRequests ==> r.0.sent == s.sent
    ensures r.0.received == s.received && r.0.token == s.token
  {
    DefaultProfileIsPython(s.host, s.port, s.token);
    var c := ConnectStep(s, None, connectOk);
    var s1 := c.0;
    if s1.ws.None? then (s1, Err(MissingAttribute("send")))
    else if !writeOk then (s1, Err(TransportFailure))
    else if s1.emittingRequests then (s1.(sent := s1.sent + RequestEmissions(req, s1.sentEmitAll)), Ok(()))
    else (s1, Ok(()))
  }

  /** What the two listeners `run` installs do when an emission reaches them:
      a refresh_token body becomes the stored token, a leave schedules a close. */
  function HandlerEffects(s: Session, e: Emission): Session
  {
    var s1 :=
      if e.event == FieldEvent(RefreshTokenField) && TokenRefreshHandler in s.recvListeners &&
         e.payload.BodyPayload? && e.payload.body.StringBody?
      then s.(token := e.payload.body.text)
      else s;
    if e.event == FieldEvent(LeaveField) && LeaveHandler in s.recvListeners then s1.(closeScheduled := true) else s1
  }

  /** `_emit_response(input)` and the effect of the session's own listeners. */
  function Deliver(s: Session, input: P.SignalResponse): (r: Session)
    ensures r.received == s.received + ResponseEmissions(input, s.receivedEmitAll)
    ensures r.token != s.token ==>
              TokenRefreshHandler in s.recvListeners && input.message.Some? &&
              input.message.value.name == RefreshTokenField && input.message.value.value == P.StringBody(r.token)
    ensures TokenRefreshHandler in s.recvListeners && input.message.Some? &&
            input.message.value.name == RefreshTokenField && input.message.value.value.StringBody? ==>
              r.token == input.message.value.value.text
    ensures r.ws == s.ws && r.sent == s.sent
  {
    HandlerEffects(s, ResponseEmission(input)).(received := s.received + ResponseEmissions(input, s.receivedEmitAll))
  }

  /** `receive()`: connect, read one frame (`frame` is None when the read raises),
      emit it. Any read error, including the missing socket after a failed connect,
      closes the session and returns None. */
  function ReceiveStep(s: Session, connectOk: bool, frame: Option<P.SignalResponse>): (r: (Session, Option<P.SignalResponse>))
    ensures r.1.None? <==> frame.None? || (s.ws.None? && !connectOk)
    ensures r.1.None? ==> r.0.ws.None? && r.0.received == s.received
    ensures r.1.Some? ==>
              (r.1 == frame && r.0.ws.Some? &&
               r.0.received == s.received + ResponseEmissions(frame.value, s.receivedEmitAll))
    ensures r.0.sent == s.sent
  {
    var s1 := ConnectStep(s, None, connectOk).0;
    if s1.ws.None? || frame.None? then (CloseStep(s1), None)
    else (Deliver(s1, frame.value), frame)
  }

  /** One iteration's inputs to `run`'s loop. */
  datatype Incoming = Incoming(connectOk: bool, frame: Option<P.SignalResponse>)

  /** `run`'s loop: receive until `receive` returns None (or the inputs run out). */
  function RunLoop(s: Session, script: seq<Incoming>): Session
    decreases |script|
  {
    if |script| == 0 then s
    else
      var step := ReceiveStep(s, script[0].connectOk, script[0].frame);
      if step.1.None? then step.0 else RunLoop(step.0, script[1..])
  }

  /** `run()`: install the token-refresh and leave listeners, connect, loop. */
  function RunStep(s: Session, connectOk: bool, script: seq<Incoming>): Session
  {
    var s1 := s.(recvListeners := s.recvListeners + [TokenRefreshHandler, LeaveHandler]);
    RunLoop(ConnectStep(s1, None, connectOk).0, script)
  }

  /** Once a receive returns None the loop has stopped: nothing after it matters,
      and the session is closed. */
  lemma {:induction false} RunStopsAtNone(s: Session, before: seq<Incoming>, connectOk: bool, after: seq<Incoming>)
    ensures RunLoop(s, before + [Incoming(connectOk, None)] + after) == RunLoop(s, before + [Incoming(connectOk, None)])
    ensures RunLoop(s, before + [Incoming(connectOk, None)]).ws.None?
    decreases |before|
  {
    var x := Incoming(connectOk, None);
    if |before| == 0 {
      assert before + [x] + after == [x] + after;
      assert before + [x] == [x];
    } else {
      var step := ReceiveStep(s, before[0].connectOk, before[0].frame);
      assert (before + [x] + after)[1..] == before[1..] + [x] + after;
      assert (before + [x])[1..] == before[1..] + [x];
      if step.1.Some? {
        RunStopsAtNone(step.0, before[1..], connectOk, after);
      }
    }
  }

  /** The parts of the state that only the handler registrations change. */
  predicate SameRegistrations(s: Session, t: Session)
  {
    t.host == s.host && t.port == s.port && t.emittingRequests == s.emittingRequests &&
    t.receivedEmitAll == s.receivedEmitAll && t.sentEmitAll == s.sentEmitAll &&
    t.recvListeners == s.recvListeners && t.sentListeners == s.sentListeners && t.sent == s.sent
  }

  lemma ReceiveKeepsRegistrations(s: Session, connectOk: bool, frame: Option<P.SignalResponse>)
    ensures SameRegistrations(s, ReceiveStep(s, connectOk, frame).0)
  {
    var s1 := ConnectStep(s, None, connectOk).0;
    assert SameRegistrations(s, s1);
    if s1.ws.Some? && frame.Some? {
      HandlerEffectsKeepRegistrations(s1, ResponseEmission(frame.value));
    }
  }

  lemma HandlerEffectsKeepRegistrations(s: Session, e: Emission)
    ensures SameRegistrations(s, HandlerEffects(s, e))
  {
  }

  lemma {:induction false} RunLoopKeepsRegistrations(s: Session, script: seq<Incoming>)
    ensures SameRegistrations(s, RunLoop(s, script))
    decreases |script|
  {
    if |script| > 0 {
      var step := ReceiveStep(s, script[0].connectOk, script[0].frame);
      ReceiveKeepsRegistrations(s, script[0].connectOk, script[0].frame);
      if step.1.Some? {
        RunLoopKeepsRegistrations(step.0, script[1..]);
      }
    }
  }

  // ---------------------------------------------------------------------------
  // Traces of calls
  // ---------------------------------------------------------------------------

  /** The calls a client can make on a session. */
  datatype Action =
    | RecvHandlerAction(event: string)
    | SentHandlerAction(event: string)
    | ConnectAction(sdk: Option<string>, transportOk: bool)
    | CloseAction
    | SendAction(request: P.SignalRequest, connectOk: bool, writeOk: bool)
    | ReceiveAction(connectOk: bool, frame: Option<P.SignalResponse>)
    | RunAction(connectOk: bool, script: seq<Incoming>)
    | TokenRefreshAction(token: string)

  function Step(s: Session, a: Action): Session
  {
    match a
    case RecvHandlerAction(e) => OnRecvStep(s, e)
    case SentHandlerAction(e) => OnSentStep(s, e)
    case ConnectAction(sdk, ok) => ConnectStep(s, sdk, ok).0
    case CloseAction => CloseStep(s)
    case SendAction(req, c, w) => SendStep(s, req, c, w).0
    case ReceiveAction(c, f) => ReceiveStep(s, c, f).0
    case RunAction(c, script) => RunStep(s, c, script)
    case TokenRefreshAction(t) => s.(token := t)
  }

  function Steps(s: Session, trace: seq<Action>): Session
    decreases |trace|
  {
    if |trace| == 0 then s else Steps(Step(s, trace[0]), trace[1..])
  }

  /** One call sets a wildcard flag only by registering an "all_messages" handler,
      and never clears one; `_emitting_requests` is set only by `on_sent`. */
  lemma StepFlags(s: Session, a: Action)
    ensures Step(s, a).receivedEmitAll <==> s.receivedEmitAll || a == RecvHandlerAction("all_messages")
    ensures Step(s, a).sentEmitAll <==> s.sentEmitAll || a == SentHandlerAction("all_messages")
    ensures Step(s, a).emittingRequests <==> s.emittingRequests || a.SentHandlerAction?
    ensures !s.emittingRequests && !a.SentHandlerAction? ==> Step(s, a).sent == s.sent
  {
    match a
    case RunAction(c, script) =>
      var s1 := s.(recvListeners := s.recvListeners + [TokenRefreshHandler, LeaveHandler]);
      RunLoopKeepsRegistrations(ConnectStep(s1, None, c).0, script);
    case ReceiveAction(c, f) =>
      ReceiveKeepsRegistrations(s, c, f);
    case SendAction(req, c, w) =>
      var s1 := ConnectStep(s, None, c).0;
      assert SameRegistrations(s, s1);
    case _ =>
  }

  /** Over any sequence of calls, the received-events wildcard is on exactly when it
      was on at the start or an "all_messages" handler was registered. */
  lemma {:induction false} ReceivedEmitAllOnlyByRegistration(s: Session, trace: seq<Action>)
    ensures Steps(s, trace).receivedEmitAll <==> s.receivedEmitAll || RecvHandlerAction("all_messages") in trace
    decreases |trace|
  {
    if |trace| > 0 {
      StepFlags(s, trace[0]);
      ReceivedEmitAllOnlyByRegistration(Step(s, trace[0]), trace[1..]);
      assert trace == [trace[0]] + trace[1..];
    }
  }

  /** The same for the sent-events wildcard. */
  lemma {:induction false} SentEmitAllOnlyByRegistration(s: Session, trace: seq<Action>)
    ensures Steps(s, trace).sentEmitAll <==> s.sentEmitAll || SentHandlerAction("all_messages") in trace
    decreases |trace|
  {
    if |trace| > 0 {
      StepFlags(s, trace[0]);
      SentEmitAllOnlyByRegistration(Step(s, trace[0]), trace[1..]);
      assert trace == [trace[0]] + trace[1..];
    }
  }

  /** Until `on_sent` has been called, no sent event is ever emitted. */
  lemma {:induction false} NoSentEventsWithoutOnSent(s: Session, trace: seq<Action>)
    requires !s.emittingRequests
    requires forall i :: 0 <= i < |trace| ==> !trace[i].SentHandlerAction?
    ensures Steps(s, trace).sent == s.sent
    ensures !Steps(s, trace).emittingRequests
    decreases |trace|
  {
    if |trace| > 0 {
      StepFlags(s, trace[0]);
      NoSentEventsWithoutOnSent(Step(s, trace[0]), trace[1..]);
    }
  }

  // ---------------------------------------------------------------------------
  // The session object
  // ---------------------------------------------------------------------------

  class Signaling {
    const host: string
    const port: int
    var token: string
    var ws: Option<Socket>
    var emittingRequests: bool
    var receivedEmitAll: bool
    var sentEmitAll: bool
    var recvListeners: seq<Listener>
    var sentListeners: seq<string>
    /** The emissions of the received-events emitter, in order. */
    var received: seq<Emission>
    /** The emissions of the sent-events emitter, in order. */
    var sent: seq<Emission>
    var closeScheduled: bool

    function State(): Session
      reads this
    {
      Session(host, port, token, ws, emittingRequests, receivedEmitAll, sentEmitAll,
              recvListeners, sentListeners, received, sent, closeScheduled)
    }

    /** `Signaling(host, port, ...)`; `token` is the JWT `create_access_token` signs. */
    constructor(host: string, port: int, token: string)
      ensures State() == Initial(host, port, token)
    {
      this.host := host;
      this.port := port;
      this.token := token;
      ws := None;
      emittingRequests := false;
      receivedEmitAll := false;
      sentEmitAll := false;
      recvListeners := [];
      sentListeners := [];
      received := [];
      sent := [];
      closeScheduled := false;
    }

    method OnRecv(event: string)
      modifies this
      ensures State() == OnRecvStep(old(State()), event)
    {
      if event == "all_messages" {
        receivedEmitAll := true;
      }
      recvListeners := recvListeners + [UserHandler(event)];
    }

    method OnSent(event: string)
      modifies this
      ensures State() == OnSentStep(old(State()), event)
    {
      emittingRequests := true;
      if event == "all_messages" {
        sentEmitAll := true;
      }
      sentListeners := sentListeners + [event];
    }

    method Connect(sdk: Option<string>, transportOk: bool) returns (r: Result<ConnectOutcome, PyError>)
      modifies this
      ensures (State(), r) == ConnectStep(old(State()), sdk, transportOk)
    {
      if ws.Some? {
        return Ok(AlreadyConnected);
      }
      var url := ConnectUrl(host, port, token, sdk);
      if url.Err? {
        return Err(url.error);
      }
      if !transportOk {
        return Ok(ConnectFailed);
      }
      ws := Some(Socket(url.value));
      return Ok(Connected);
    }

    method Close()
      modifies this
      ensures State() == CloseStep(old(State()))
    {
      if ws.Some? {
        ws := None;
      }
    }

    method EmitRequest(input: P.SignalRequest)
      modifies this
      ensures State() == old(State()).(sent := old(sent) + RequestEmissions(input, old(sentEmitAll)))
    {
      var e := RequestEmission(input);
      sent := sent + [e];
      if sentEmitAll {
        sent := sent + [Emission(AllMessagesEvent, e.payload)];
      }
    }

    method Send(req: P.SignalRequest, connectOk: bool, writeOk: bool) returns (r: Result<(), PyError>)
      modifies this
      ensures (State(), r) == SendStep(old(State()), req, connectOk, writeOk)
    {
      var _ := Connect(None, connectOk);
      if ws.None? {
        return Err(MissingAttribute("send"));
      }
      if !writeOk {
        return Err(TransportFailure);
      }
      if emittingRequests {
        EmitRequest(req);
      }
      return Ok(());
    }

    /** `_on_token_refresh(token)`. */
    method OnTokenRefresh(newToken: string)
      modifies this
      ensures State() == old(State()).(token := newToken)
    {
      token := newToken;
    }

    /** `_on_leave(reason)`: schedules `close()` as a task. */
    method OnLeave()
      modifies this
      ensures State() == old(State()).(closeScheduled := true)
    {
      closeScheduled := true;
    }

    method EmitResponse(input: P.SignalResponse)
      modifies this
      ensures State() == Deliver(old(State()), input)
    {
      var e := ResponseEmission(input);
      received := received + [e];
      if e.event == FieldEvent(RefreshTokenField) && TokenRefreshHandler in recvListeners &&
         e.payload.BodyPayload? && e.payload.body.StringBody? {
        OnTokenRefresh(e.payload.body.text);
      }
      if e.event == FieldEvent(LeaveField) && LeaveHandler in recvListeners {
        OnLeave();
      }
      if receivedEmitAll {
        received := received + [Emission(AllMessagesEvent, e.payload)];
      }
    }

    method Receive(connectOk: bool, frame: Option<P.SignalResponse>) returns (r: Option<P.SignalResponse>)
      modifies this
      ensures (State(), r) == ReceiveStep(old(State()), connectOk, frame)
    {
      var _ := Connect(None, connectOk);
      if ws.None? || frame.None? {
        Close();
        return None;
      }
      EmitResponse(frame.value);
      return frame;
    }

    method Run(connectOk: bool, script: seq<Incoming>)
      modifies this
      ensures State() == RunStep(old(State()), connectOk, script)
    {
      recvListeners := recvListeners + [TokenRefreshHandler, LeaveHandler];
      var _ := Connect(None, connectOk);
      var i := 0;
      while i < |script|
        invariant 0 <= i <= |script|
        invariant RunLoop(State(), script[i..]) == RunStep(old(State()), connectOk, script)
        decreases |script| - i
      {
        var obj := Receive(script[i].connectOk, script[i].frame);
        if obj.None? {
          return;
        }
        assert script[i..][1..] == script[i + 1..];
        i := i + 1;
      }
    }
  }
}
