/** The subscription planning of the example subscriber, examples/subscriber/subscriber.py.

    On a join response (`on_join`) or a participant update (`on_participant_update`)
    the subscriber walks the participants, builds a participant -> track-sid
    subscription map and a participant -> track -> quality layer table, counts the
    tracks it added, and when that count is non-zero sends one subscription request
    and one track-settings request per track. A participant update also disconnects
    every track of a participant that left. A stream-state update starts the
    recording of every active track. The handlers' outside calls are recorded, in
    order, as a log of `Call`s. */
module Subscriber {
  import opened Wrappers
  import opened Exceptions
  import opened LkEnums
  import opened LkTypes
  import R = Recorder

  // ---------------------------------------------------------------------------
  // Insertion-ordered dictionaries
  // ---------------------------------------------------------------------------

  /** The keys of an insertion-ordered dictionary, in order. */
  function KeysOf<K, V>(m: seq<(K, V)>): (r: seq<K>)
    ensures |r| == |m|
    ensures forall i :: 0 <= i < |m| ==> r[i] == m[i].0
  {
    seq(|m|, i requires 0 <= i < |m| => m[i].0)
  }

  function Lookup<K(==), V>(m: seq<(K, V)>, k: K): Option<V>
  {
    if |m| == 0 then None else if m[0].0 == k then Some(m[0].1) else Lookup(m[1..], k)
  }

  /** `d[k] = v`: an existing key keeps its position, a new key goes last. */
  function Put<K(==,!new), V>(m: seq<(K, V)>, k: K, v: V): (r: seq<(K, V)>)
    ensures k !in KeysOf(m) ==> r == m + [(k, v)]
    ensures k in KeysOf(m) ==> KeysOf(r) == KeysOf(m)
    ensures forall k' :: k' in KeysOf(r) <==> k' in KeysOf(m) || k' == k
  {
    if |m| == 0 then
      assert KeysOf([(k, v)]) == [k];
      [(k, v)]
    else if m[0].0 == k then [(k, v)] + m[1..]
    else
      var r := [m[0]] + Put(m[1..], k, v);
      assert KeysOf(r) == [m[0].0] + KeysOf(Put(m[1..], k, v));
      assert KeysOf(m) == [m[0].0] + KeysOf(m[1..]);
      r
  }

  /** Reading back a key just written gives its value; other keys are unaffected. */
  lemma {:induction false} LookupPut<K(!new), V>(m: seq<(K, V)>, k: K, v: V, k': K)
    ensures Lookup(Put(m, k, v), k') == if k' == k then Some(v) else Lookup(m, k')
  {
    if |m| > 0 && m[0].0 != k {
      LookupPut(m[1..], k, v, k');
      assert ([m[0]] + Put(m[1..], k, v))[1..] == Put(m[1..], k, v);
    }
  }

  /** A second write to a key replaces the first. */
  lemma {:induction false} PutPut<K(!new), V>(m: seq<(K, V)>, k: K, v: V, w: V)
    ensures Put(Put(m, k, v), k, w) == Put(m, k, w)
  {
    if |m| > 0 && m[0].0 != k {
      PutPut(m[1..], k, v, w);
      assert ([m[0]] + Put(m[1..], k, v))[1..] == Put(m[1..], k, v);
    }
  }

  // ---------------------------------------------------------------------------
  // The plan
  // ---------------------------------------------------------------------------

  /** The layer description the handlers record for a (participant, track, quality). */
  datatype LayerEntry = LayerEntry(quality: VideoQuality, width: int, height: int, bitrate: int, ssrc: int)

  /** A track's layers keyed by quality (the source keys them by the quality's name,
      which is unique per member). */
  type LayerTable = seq<(VideoQuality, LayerEntry)>

  type TrackLayers = seq<(string, LayerTable)>

  /** The calls the handlers make outside the planning itself. */
  datatype Call =
      /** `recorder.disconnect_track(track_sid)`. */
    | DisconnectTrackCall(trackSid: string)
      /** `signaling.paxtracker.add_track(participant_sid, track_sid)`. */
    | TrackerAddCall(participantSid: string, trackSid: string)
      /** `signaling.send_subscription_request(subscriptions)`. */
    | SubscriptionRequestCall(subscriptions: seq<(string, seq<string>)>)
      /** `signaling.send_update_track_settings(track_id=..., width=..., height=...)`. */
    | TrackSettingsCall(trackSid: string, width: int, height: int)

  /** The size every settings request asks for, whatever layer was selected. */
  const SettingsWidth := 320
  const SettingsHeight := 200

  /** The handlers' local state after some participants: `subscriptions`, `layers`,
      `tracks_added` and the calls made so far. */
  datatype Plan = Plan(
    subscriptions: seq<(string, seq<string>)>, layers: seq<(string, TrackLayers)>,
    tracksAdded: nat, calls: seq<Call>)

  function Entry(l: VideoLayer): LayerEntry
  {
    LayerEntry(l.quality, l.width, l.height, l.bitrate, l.ssrc)
  }

  /** The table built from a track's layers, a later layer of the same quality
      replacing an earlier one. */
  function LayerTableOf(ls: seq<VideoLayer>): LayerTable
  {
    if |ls| == 0 then []
    else Put(LayerTableOf(ls[..|ls| - 1]), ls[|ls| - 1].quality, Entry(ls[|ls| - 1]))
  }

  /** A participant's track table after its first `|ts|` tracks. */
  function TrackLayersOf(ts: seq<TrackInfo>): TrackLayers
  {
    if |ts| == 0 then []
    else Put(TrackLayersOf(ts[..|ts| - 1]), ts[|ts| - 1].sid, LayerTableOf(ts[|ts| - 1].layers))
  }

  function TrackSids(ts: seq<TrackInfo>): (r: seq<string>)
    ensures |r| == |ts|
    ensures forall i :: 0 <= i < |ts| ==> r[i] == ts[i].sid
  {
    seq(|ts|, i requires 0 <= i < |ts| => ts[i].sid)
  }

  function TrackerCalls(participantSid: string, ts: seq<TrackInfo>): (r: seq<Call>)
    ensures |r| == |ts|
    ensures forall i :: 0 <= i < |ts| ==> r[i] == TrackerAddCall(participantSid, ts[i].sid)
  {
    seq(|ts|, i requires 0 <= i < |ts| => TrackerAddCall(participantSid, ts[i].sid))
  }

  function DisconnectCalls(ts: seq<TrackInfo>): (r: seq<Call>)
    ensures |r| == |ts|
    ensures forall i :: 0 <= i < |ts| ==> r[i] == DisconnectTrackCall(ts[i].sid)
  {
    seq(|ts|, i requires 0 <= i < |ts| => DisconnectTrackCall(ts[i].sid))
  }

  predicate Left(p: ParticipantInfo)
  {
    p.state == ParticipantInfoState.DISCONNECTED
  }

  /** One participant of the loop. A participant that left is skipped, its tracks
      disconnected when `disconnectLeavers` (the update handler) is set; any other
      gets fresh entries listing its tracks. */
  function AddParticipant(p: Plan, x: ParticipantInfo, disconnectLeavers: bool): Plan
  {
    if Left(x) then
      if disconnectLeavers then p.(calls := p.calls + DisconnectCalls(x.tracks)) else p
    else
      Plan(Put(p.subscriptions, x.sid, TrackSids(x.tracks)),
           Put(p.layers, x.sid, TrackLayersOf(x.tracks)),
           p.tracksAdded + |x.tracks|,
           p.calls + TrackerCalls(x.sid, x.tracks))
  }

  const EmptyPlan := Plan([], [], 0, [])

  function PlanOf(ps: seq<ParticipantInfo>, disconnectLeavers: bool): Plan
  {
    if |ps| == 0 then EmptyPlan
    else AddParticipant(PlanOf(ps[..|ps| - 1], disconnectLeavers), ps[|ps| - 1], disconnectLeavers)
  }

  /** One 320 x 200 settings request per track sid, in order. */
  function SettingsRequests(sids: seq<string>): (r: seq<Call>)
    ensures |r| == |sids|
    ensures forall i :: 0 <= i < |sids| ==> r[i] == TrackSettingsCall(sids[i], SettingsWidth, SettingsHeight)
  {
    seq(|sids|, i requires 0 <= i < |sids| => TrackSettingsCall(sids[i], SettingsWidth, SettingsHeight))
  }

  /** The settings requests for one participant's tracks, in table order. */
  function TrackSettingsCalls(tracks: TrackLayers): seq<Call>
  {
    SettingsRequests(KeysOf(tracks))
  }

  /** The settings requests for every participant, in table order. */
  function SettingsCalls(layers: seq<(string, TrackLayers)>): seq<Call>
  {
    if |layers| == 0 then [] else SettingsCalls(layers[..|layers| - 1]) + TrackSettingsCalls(layers[|layers| - 1].1)
  }

  /** Every call a handler makes: the loop's, then the requests iff a track was added. */
  function HandlerCalls(ps: seq<ParticipantInfo>, disconnectLeavers: bool): seq<Call>
  {
    var plan := PlanOf(ps, disconnectLeavers);
    plan.calls +
    (if plan.tracksAdded > 0 then [SubscriptionRequestCall(plan.subscriptions)] + SettingsCalls(plan.layers) else [])
  }

  // ---------------------------------------------------------------------------
  // The smallest layer
  // ---------------------------------------------------------------------------

  /** The bound the search starts from, `10000 ** 2`. */
  const InitialBound := 10000 * 10000

  function Area(l: LayerEntry): int
  {
    l.width * l.height
  }

  /** The search loop from its current state: a layer with ssrc 0 is skipped, one
      strictly smaller than the best so far becomes the best. */
  function SelectFrom(table: LayerTable, res: int, ssrc: Option<int>): Option<int>
  {
    if |table| == 0 then ssrc
    else
      var l := table[0].1;
      if l.ssrc == 0 then SelectFrom(table[1..], res, ssrc)
      else if Area(l) < res then SelectFrom(table[1..], Area(l), Some(l.ssrc))
      else SelectFrom(table[1..], res, ssrc)
  }

  predicate Candidate(table: LayerTable, i: int)
  {
    0 <= i < |table| && table[i].1.ssrc != 0
  }

  /** Entry `i` is the first candidate of least area, and that area is below `bound`. */
  ghost predicate FirstSmallest(table: LayerTable, bound: int, i: int)
  {
    Candidate(table, i) && Area(table[i].1) < bound &&
    (forall j :: Candidate(table, j) ==> Area(table[i].1) <= Area(table[j].1)) &&
    (forall j :: 0 <= j < i && Candidate(table, j) ==> Area(table[i].1) < Area(table[j].1))
  }

  /** The search returns its starting value when no candidate beats the bound, and
      otherwise the ssrc of the first candidate of least area. */
  lemma {:induction false} SelectFromFindsFirstSmallest(table: LayerTable, res: int, ssrc: Option<int>)
    ensures (forall j :: Candidate(table, j) ==> Area(table[j].1) >= res) ==> SelectFrom(table, res, ssrc) == ssrc
    ensures (exists j :: Candidate(table, j) && Area(table[j].1) < res) ==>
              exists i :: FirstSmallest(table, res, i) && SelectFrom(table, res, ssrc) == Some(table[i].1.ssrc)
    decreases |table|
  {
    if |table| > 0 {
      var l := table[0].1;
      var rest := table[1..];
      assert forall j :: 0 <= j < |rest| ==> rest[j] == table[j + 1];
      if l.ssrc == 0 || Area(l) >= res {
        SelectFromFindsFirstSmallest(rest, res, ssrc);
        if exists j :: Candidate(table, j) && Area(table[j].1) < res {
          var j :| Candidate(table, j) && Area(table[j].1) < res;
          assert j != 0;
          assert Candidate(rest, j - 1) && Area(rest[j - 1].1) < res;
          var i :| FirstSmallest(rest, res, i) && SelectFrom(rest, res, ssrc) == Some(rest[i].1.ssrc);
          assert FirstSmallest(table, res, i + 1) by {
            forall k | Candidate(table, k)
              ensures Area(table[i + 1].1) <= Area(table[k].1)
            {
              if k > 0 {
                assert Candidate(rest, k - 1);
              }
            }
            forall k | 0 <= k < i + 1 && Candidate(table, k)
              ensures Area(table[i + 1].1) < Area(table[k].1)
            {
              if k > 0 {
                assert Candidate(rest, k - 1);
              }
            }
          }
        } else {
          forall j | Candidate(rest, j)
            ensures Area(rest[j].1) >= res
          {
            assert Candidate(table, j + 1);
          }
        }
      } else {
        SelectFromFindsFirstSmallest(rest, Area(l), Some(l.ssrc));
        if exists j :: Candidate(rest, j) && Area(rest[j].1) < Area(l) {
          var i :| FirstSmallest(rest, Area(l), i) && SelectFrom(rest, Area(l), Some(l.ssrc)) == Some(rest[i].1.ssrc);
          assert FirstSmallest(table, res, i + 1) by {
            forall k | Candidate(table, k)
              ensures Area(table[i + 1].1) <= Area(table[k].1)
            {
              if k > 0 {
                assert Candidate(rest, k - 1);
              }
            }
          }
        } else {
          assert FirstSmallest(table, res, 0) by {
            forall k | Candidate(table, k)
              ensures Area(l) <= Area(table[k].1)
            {
              if k > 0 {
                assert Candidate(rest, k - 1);
              }
            }
          }
        }
      }
    }
  }

  /** The result of the minimum-area search over a track's layers: None when no
      layer with a non-zero ssrc is smaller than 10000 x 10000, otherwise the ssrc of
      the first such layer of least area. */
  lemma SmallestLayer(table: LayerTable)
    ensures SelectFrom(table, InitialBound, None).None? <==>
              forall j :: Candidate(table, j) ==> Area(table[j].1) >= InitialBound
    ensures SelectFrom(table, InitialBound, None).Some? ==>
              exists i :: FirstSmallest(table, InitialBound, i) && SelectFrom(table, InitialBound, None) == Some(table[i].1.ssrc)
  {
    SelectFromFindsFirstSmallest(table, InitialBound, None);
  }

  /** The search loop of the handlers; its result is not used by them. */
  method SelectSmallestLayer(table: LayerTable) returns (ssrc: Option<int>)
    ensures ssrc == SelectFrom(table, InitialBound, None)
  {
    ssrc := None;
    var res := InitialBound;
    var k := 0;
    while k < |table|
      invariant 0 <= k <= |table|
      invariant SelectFrom(table[k..], res, ssrc) == SelectFrom(table, InitialBound, None)
    {
      var layer := table[k].1;
      assert table[k..][1..] == table[k + 1..];
      if layer.ssrc != 0 && layer.width * layer.height < res {
        res := layer.width * layer.height;
        ssrc := Some(layer.ssrc);
      }
      k := k + 1;
    }
  }

  // ---------------------------------------------------------------------------
  // The handlers
  // ---------------------------------------------------------------------------

  /** The innermost loop: a track's layers keyed by quality. */
  method CollectLayers(ls: seq<VideoLayer>) returns (table: LayerTable)
    ensures table == LayerTableOf(ls)
  {
    table := [];
    var k := 0;
    while k < |ls|
      invariant 0 <= k <= |ls|
      invariant table == LayerTableOf(ls[..k])
    {
      assert ls[..k + 1][..k] == ls[..k];
      table := Put(table, ls[k].quality, Entry(ls[k]));
      k := k + 1;
    }
    assert ls[..k] == ls;
  }

  /** One more track extends the sid list, the tracker calls and the layer table by
      that track's entries. */
  lemma TrackListsGrow(participantSid: string, ts: seq<TrackInfo>, j: int)
    requires 0 <= j < |ts|
    ensures TrackSids(ts[..j + 1]) == TrackSids(ts[..j]) + [ts[j].sid]
    ensures TrackerCalls(participantSid, ts[..j + 1]) == TrackerCalls(participantSid, ts[..j]) + [TrackerAddCall(participantSid, ts[j].sid)]
    ensures TrackLayersOf(ts[..j + 1]) == Put(TrackLayersOf(ts[..j]), ts[j].sid, LayerTableOf(ts[j].layers))
  {
    assert ts[..j + 1][..j] == ts[..j];
  }

  /** The loop over the tracks of a participant still present: its subscription list,
      its layer table and one tracker call per track. The check
      `LK.TrackType(track.type) == "audio"` compares an enum member with a string,
      is never true and so filters nothing; the `ssrc == 0` check inside the layer
      loop only skips a log line. */
  method CollectTracks(x: ParticipantInfo) returns (sids: seq<string>, trackLayers: TrackLayers, trackerCalls: seq<Call>)
    ensures sids == TrackSids(x.tracks)
    ensures trackLayers == TrackLayersOf(x.tracks)
    ensures trackerCalls == TrackerCalls(x.sid, x.tracks)
  {
    sids := [];
    trackLayers := [];
    trackerCalls := [];
    var j := 0;
    while j < |x.tracks|
      invariant 0 <= j <= |x.tracks|
      invariant sids == TrackSids(x.tracks[..j])
      invariant trackLayers == TrackLayersOf(x.tracks[..j])
      invariant trackerCalls == TrackerCalls(x.sid, x.tracks[..j])
    {
      var t := x.tracks[j];
      TrackListsGrow(x.sid, x.tracks, j);
      // `layers[sid][track.sid] = {}`, then filled through the same dictionary.
      trackLayers := Put(trackLayers, t.sid, []);
      var table := CollectLayers(t.layers);
      PutPut(TrackLayersOf(x.tracks[..j]), t.sid, [], table);
      trackLayers := Put(trackLayers, t.sid, table);
      sids := sids + [t.sid];
      trackerCalls := trackerCalls + [TrackerAddCall(x.sid, t.sid)];
      j := j + 1;
    }
    assert x.tracks[..j] == x.tracks;
  }

  /** The settings loop: for each participant and each of its tracks, the
      minimum-area search (whose result goes unused) and one 320 x 200 request. */
  method RequestSettings(layers: seq<(string, TrackLayers)>) returns (settings: seq<Call>)
    ensures settings == SettingsCalls(layers)
  {
    settings := [];
    var p := 0;
    while p < |layers|
      invariant 0 <= p <= |layers|
      invariant settings == SettingsCalls(layers[..p])
    {
      var tracks := layers[p].1;
      assert layers[..p + 1][..p] == layers[..p];
      ghost var before := settings;
      var q := 0;
      while q < |tracks|
        invariant 0 <= q <= |tracks|
        invariant settings == before + TrackSettingsCalls(tracks[..q])
      {
        var _ := SelectSmallestLayer(tracks[q].1);
        assert TrackSettingsCalls(tracks[..q + 1]) == TrackSettingsCalls(tracks[..q]) + [TrackSettingsCall(tracks[q].0, SettingsWidth, SettingsHeight)];
        settings := settings + [TrackSettingsCall(tracks[q].0, SettingsWidth, SettingsHeight)];
        q := q + 1;
      }
      assert tracks[..q] == tracks;
      p := p + 1;
    }
    assert layers[..p] == layers;
  }

  /** One more participant extends the plan by that participant's step. */
  lemma PlanOfGrows(ps: seq<ParticipantInfo>, i: int, disconnectLeavers: bool)
    requires 0 <= i < |ps|
    ensures PlanOf(ps[..i + 1], disconnectLeavers) == AddParticipant(PlanOf(ps[..i], disconnectLeavers), ps[i], disconnectLeavers)
    ensures LeaverTrackSids(ps[..i + 1]) == LeaverTrackSids(ps[..i]) + (if Left(ps[i]) then TrackSids(ps[i].tracks) else [])
    ensures DisconnectedBy(ps[..i + 1], disconnectLeavers) ==
              DisconnectedBy(ps[..i], disconnectLeavers) + DisconnectedFor(ps[i], disconnectLeavers)
  {
    assert ps[..i + 1][..i] == ps[..i];
  }

  /** The loop of `on_participant_update` over the tracks of a participant that left:
      `recorder.disconnect_track` per track, in order, each call logged. */
  method DisconnectTracks(x: ParticipantInfo, recorder: R.FrameRecorder) returns (calls: seq<Call>)
    requires recorder.Valid()
    modifies recorder
    ensures recorder.Valid()
    ensures calls == DisconnectCalls(x.tracks)
    ensures recorder.State() == R.DisconnectAll(old(recorder.State()), TrackSids(x.tracks))
  {
    calls := [];
    var j := 0;
    while j < |x.tracks|
      invariant 0 <= j <= |x.tracks|
      invariant recorder.Valid()
      invariant calls == DisconnectCalls(x.tracks[..j])
      invariant recorder.State() == R.DisconnectAll(old(recorder.State()), TrackSids(x.tracks[..j]))
    {
      assert DisconnectCalls(x.tracks[..j + 1]) == DisconnectCalls(x.tracks[..j]) + [DisconnectTrackCall(x.tracks[j].sid)];
      TrackListsGrow(x.sid, x.tracks, j);
      R.DisconnectAllExtend(old(recorder.State()), TrackSids(x.tracks[..j]), x.tracks[j].sid);
      recorder.DisconnectTrack(x.tracks[j].sid);
      calls := calls + [DisconnectTrackCall(x.tracks[j].sid)];
      j := j + 1;
    }
    assert x.tracks[..j] == x.tracks;
  }

  /** One participant of the handlers' loop: a participant that left has its tracks
      disconnected in the update handler; any other gets its entries and tracker calls. */
  method VisitParticipant(plan: Plan, x: ParticipantInfo, disconnectLeavers: bool, recorder: R.FrameRecorder)
    returns (next: Plan)
    requires recorder.Valid()
    modifies recorder
    ensures recorder.Valid()
    ensures next == AddParticipant(plan, x, disconnectLeavers)
    ensures recorder.State() == R.DisconnectAll(old(recorder.State()), DisconnectedFor(x, disconnectLeavers))
  {
    next := plan;
    if x.state == ParticipantInfoState.DISCONNECTED {
      if disconnectLeavers {
        var disconnects := DisconnectTracks(x, recorder);
        next := next.(calls := next.calls + disconnects);
      }
    } else {
      // `subscriptions[sid] = []` and `layers[sid] = {}`, then filled in.
      PutPut(plan.subscriptions, x.sid, [], TrackSids(x.tracks));
      var subscriptions := Put(plan.subscriptions, x.sid, []);
      var sids, trackLayers, trackerCalls := CollectTracks(x);
      next := Plan(Put(subscriptions, x.sid, sids), Put(plan.layers, x.sid, trackLayers),
                   plan.tracksAdded + |x.tracks|, plan.calls + trackerCalls);
    }
  }

  /** The loop over participants shared by `on_join` (`disconnectLeavers` false) and
      `on_participant_update` (true), followed by the requests. The recorder loses
      the tracks of the participants that left, and only in the update handler. */
  method PlanSubscriptions(ps: seq<ParticipantInfo>, disconnectLeavers: bool, recorder: R.FrameRecorder) returns (calls: seq<Call>)
    requires recorder.Valid()
    modifies recorder
    ensures recorder.Valid()
    ensures calls == HandlerCalls(ps, disconnectLeavers)
    ensures recorder.State() == R.DisconnectAll(old(recorder.State()), DisconnectedBy(ps, disconnectLeavers))
  {
    ghost var s0 := recorder.State();
    var plan := EmptyPlan;
    var i := 0;
    while i < |ps|
      invariant 0 <= i <= |ps|
      invariant recorder.Valid()
      invariant plan == PlanOf(ps[..i], disconnectLeavers)
      invariant recorder.State() == R.DisconnectAll(s0, DisconnectedBy(ps[..i], disconnectLeavers))
    {
      PlanOfGrows(ps, i, disconnectLeavers);
      R.DisconnectAllAppend(s0, DisconnectedBy(ps[..i], disconnectLeavers), DisconnectedFor(ps[i], disconnectLeavers));
      plan := VisitParticipant(plan, ps[i], disconnectLeavers, recorder);
      i := i + 1;
    }
    assert ps[..i] == ps;
    calls := plan.calls;
    if plan.tracksAdded > 0 {
      var settings := RequestSettings(plan.layers);
      calls := calls + [SubscriptionRequestCall(plan.subscriptions)] + settings;
    }
  }

  /** The track sids a handler passes to `recorder.disconnect_track` for one participant. */
  function DisconnectedFor(x: ParticipantInfo, disconnectLeavers: bool): seq<string>
  {
    if disconnectLeavers && Left(x) then TrackSids(x.tracks) else []
  }

  /** The track sids a handler passes to `recorder.disconnect_track`. */
  function DisconnectedBy(ps: seq<ParticipantInfo>, disconnectLeavers: bool): seq<string>
  {
    if disconnectLeavers then LeaverTrackSids(ps) else []
  }

  /** `on_join(join)`: the recorder it closes over is left as it was. */
  method OnJoin(join: JoinResponse, recorder: R.FrameRecorder) returns (calls: seq<Call>)
    requires recorder.Valid()
    modifies recorder
    ensures recorder.Valid()
    ensures calls == HandlerCalls(join.otherParticipants, false)
    ensures recorder.State() == old(recorder.State())
  {
    calls := PlanSubscriptions(join.otherParticipants, false, recorder);
  }

  /** `on_participant_update(update)`: the recorder drops every track of every
      participant that left. */
  method OnParticipantUpdate(update: ParticipantUpdate, recorder: R.FrameRecorder) returns (calls: seq<Call>)
    requires recorder.Valid()
    modifies recorder
    ensures recorder.Valid()
    ensures calls == HandlerCalls(update.participants, true)
    ensures recorder.State() == R.DisconnectAll(old(recorder.State()), LeaverTrackSids(update.participants))
  {
    calls := PlanSubscriptions(update.participants, true, recorder);
  }

  // ---------------------------------------------------------------------------
  // Properties of the plan
  // ---------------------------------------------------------------------------

  /** The number of tracks of the participants that have not left. */
  function CountTracks(ps: seq<ParticipantInfo>): nat
  {
    if |ps| == 0 then 0 else CountTracks(ps[..|ps| - 1]) + (if Left(ps[|ps| - 1]) then 0 else |ps[|ps| - 1].tracks|)
  }

  predicate IsRequest(c: Call)
  {
    c.SubscriptionRequestCall? || c.TrackSettingsCall?
  }

  /** `tracks_added` counts every track of every participant still present; the
      loop itself sends no request. */
  lemma {:induction false} PlanCounts(ps: seq<ParticipantInfo>, d: bool)
    ensures PlanOf(ps, d).tracksAdded == CountTracks(ps)
    ensures forall i :: 0 <= i < |PlanOf(ps, d).calls| ==> !IsRequest(PlanOf(ps, d).calls[i])
  {
    if |ps| > 0 {
      PlanCounts(ps[..|ps| - 1], d);
    }
  }

  /** The subscription and settings requests are sent iff some participant still
      present has a track. */
  lemma RequestsIffTracksAdded(ps: seq<ParticipantInfo>, d: bool)
    ensures (exists i :: 0 <= i < |HandlerCalls(ps, d)| && IsRequest(HandlerCalls(ps, d)[i])) <==> CountTracks(ps) > 0
    ensures CountTracks(ps) > 0 ==>
              |PlanOf(ps, d).calls| < |HandlerCalls(ps, d)| &&
              HandlerCalls(ps, d)[|PlanOf(ps, d).calls|] == SubscriptionRequestCall(PlanOf(ps, d).subscriptions)
  {
    PlanCounts(ps, d);
    var plan := PlanOf(ps, d);
    if CountTracks(ps) > 0 {
      assert IsRequest(HandlerCalls(ps, d)[|plan.calls|]);
    } else {
      assert HandlerCalls(ps, d) == plan.calls;
    }
  }

  /** Every settings request asks for 320 x 200. */
  lemma {:induction false} SettingsAreFixedSize(layers: seq<(string, TrackLayers)>)
    ensures forall i :: 0 <= i < |SettingsCalls(layers)| && SettingsCalls(layers)[i].TrackSettingsCall? ==>
              SettingsCalls(layers)[i].width == SettingsWidth && SettingsCalls(layers)[i].height == SettingsHeight
    ensures forall i :: 0 <= i < |SettingsCalls(layers)| ==> SettingsCalls(layers)[i].TrackSettingsCall?
  {
    if |layers| > 0 {
      SettingsAreFixedSize(layers[..|layers| - 1]);
    }
  }

  /** The subscription map and the layer table have an entry exactly for the
      participants that have not left. */
  lemma {:induction false} SubscriptionKeys(ps: seq<ParticipantInfo>, d: bool, sid: string)
    ensures sid in KeysOf(PlanOf(ps, d).subscriptions) <==> exists i :: 0 <= i < |ps| && !Left(ps[i]) && ps[i].sid == sid
    ensures sid in KeysOf(PlanOf(ps, d).layers) <==> exists i :: 0 <= i < |ps| && !Left(ps[i]) && ps[i].sid == sid
  {
    if |ps| > 0 {
      var init := ps[..|ps| - 1];
      SubscriptionKeys(init, d, sid);
      if exists i :: 0 <= i < |init| && !Left(init[i]) && init[i].sid == sid {
        var i :| 0 <= i < |init| && !Left(init[i]) && init[i].sid == sid;
        assert ps[i] == init[i];
      }
      if exists i :: 0 <= i < |ps| && !Left(ps[i]) && ps[i].sid == sid {
        var i :| 0 <= i < |ps| && !Left(ps[i]) && ps[i].sid == sid;
        if i < |init| {
          assert init[i] == ps[i];
        }
      }
    }
  }

  /** With distinct participant sids, each participant still present is mapped to
      its track sids in their original order. */
  lemma {:induction false} SubscriptionEntries(ps: seq<ParticipantInfo>, d: bool, i: nat)
    requires forall a, b :: 0 <= a < b < |ps| ==> ps[a].sid != ps[b].sid
    requires i < |ps| && !Left(ps[i])
    ensures Lookup(PlanOf(ps, d).subscriptions, ps[i].sid) == Some(TrackSids(ps[i].tracks))
  {
    var init := ps[..|ps| - 1];
    var x := ps[|ps| - 1];
    if Left(x) {
      SubscriptionEntries(init, d, i);
    } else {
      LookupPut(PlanOf(init, d).subscriptions, x.sid, TrackSids(x.tracks), ps[i].sid);
      if i < |init| {
        SubscriptionEntries(init, d, i);
      }
    }
  }

  /** The track sids of the participants that left, in order. */
  function LeaverTrackSids(ps: seq<ParticipantInfo>): seq<string>
  {
    if |ps| == 0 then []
    else LeaverTrackSids(ps[..|ps| - 1]) + (if Left(ps[|ps| - 1]) then TrackSids(ps[|ps| - 1].tracks) else [])
  }

  /** The sids passed to `recorder.disconnect_track`, in call order. */
  function DisconnectedSids(calls: seq<Call>): seq<string>
  {
    if |calls| == 0 then []
    else DisconnectedSids(calls[..|calls| - 1]) +
         (if calls[|calls| - 1].DisconnectTrackCall? then [calls[|calls| - 1].trackSid] else [])
  }

  lemma {:induction false} DisconnectedSidsAppend(a: seq<Call>, b: seq<Call>)
    ensures DisconnectedSids(a + b) == DisconnectedSids(a) + DisconnectedSids(b)
    decreases |b|
  {
    if |b| == 0 {
      assert a + b == a;
    } else {
      assert (a + b)[..|a + b| - 1] == a + b[..|b| - 1];
      DisconnectedSidsAppend(a, b[..|b| - 1]);
    }
  }

  lemma {:induction false} DisconnectedSidsOf(ts: seq<TrackInfo>, pax: string)
    ensures DisconnectedSids(DisconnectCalls(ts)) == TrackSids(ts)
    ensures DisconnectedSids(TrackerCalls(pax, ts)) == []
  {
    if |ts| > 0 {
      DisconnectedSidsOf(ts[..|ts| - 1], pax);
      assert DisconnectCalls(ts)[..|ts| - 1] == DisconnectCalls(ts[..|ts| - 1]);
      assert TrackerCalls(pax, ts)[..|ts| - 1] == TrackerCalls(pax, ts[..|ts| - 1]);
      assert TrackSids(ts) == TrackSids(ts[..|ts| - 1]) + [ts[|ts| - 1].sid];
    }
  }

  /** A participant update disconnects exactly the tracks of the participants that
      left, in order; a join response disconnects none. */
  lemma {:induction false} DisconnectsLeaversTracks(ps: seq<ParticipantInfo>)
    ensures DisconnectedSids(PlanOf(ps, true).calls) == LeaverTrackSids(ps)
    ensures DisconnectedSids(PlanOf(ps, false).calls) == []
  {
    if |ps| > 0 {
      var init := ps[..|ps| - 1];
      var x := ps[|ps| - 1];
      DisconnectsLeaversTracks(init);
      DisconnectedSidsOf(x.tracks, x.sid);
      DisconnectedSidsAppend(PlanOf(init, true).calls, DisconnectCalls(x.tracks));
      DisconnectedSidsAppend(PlanOf(init, true).calls, TrackerCalls(x.sid, x.tracks));
      DisconnectedSidsAppend(PlanOf(init, false).calls, TrackerCalls(x.sid, x.tracks));
    }
  }

  /** After a participant update the recorder holds a track exactly when it held it
      before and no participant that left lists it. */
  lemma {:induction false} UpdateDropsLeaversTracks(s: R.RecorderState, ps: seq<ParticipantInfo>, t: string)
    ensures t in R.DisconnectAll(s, LeaverTrackSids(ps)).contexts <==>
              t in s.contexts && !exists i :: 0 <= i < |ps| && Left(ps[i]) && t in TrackSids(ps[i].tracks)
  {
    LeaverTrackSidsMembers(ps, t);
  }

  lemma {:induction false} LeaverTrackSidsMembers(ps: seq<ParticipantInfo>, t: string)
    ensures t in LeaverTrackSids(ps) <==> exists i :: 0 <= i < |ps| && Left(ps[i]) && t in TrackSids(ps[i].tracks)
  {
    if |ps| > 0 {
      var init := ps[..|ps| - 1];
      LeaverTrackSidsMembers(init, t);
      assert forall i :: 0 <= i < |init| ==> init[i] == ps[i];
    }
  }

  /** The track sids of the participants that have not left, in order. */
  function PresentTrackSids(ps: seq<ParticipantInfo>): (r: seq<string>)
    ensures |r| == CountTracks(ps)
  {
    if |ps| == 0 then []
    else PresentTrackSids(ps[..|ps| - 1]) + (if Left(ps[|ps| - 1]) then [] else TrackSids(ps[|ps| - 1].tracks))
  }

  predicate DistinctTrackSids(ts: seq<TrackInfo>)
  {
    forall a, b :: 0 <= a < b < |ts| ==> ts[a].sid != ts[b].sid
  }

  /** With distinct track sids, a participant's layer table is keyed by its tracks in order. */
  lemma {:induction false} TrackLayersKeys(ts: seq<TrackInfo>)
    requires DistinctTrackSids(ts)
    ensures KeysOf(TrackLayersOf(ts)) == TrackSids(ts)
  {
    if |ts| > 0 {
      var init := ts[..|ts| - 1];
      var x := ts[|ts| - 1];
      assert DistinctTrackSids(init) by {
        forall a, b | 0 <= a < b < |init|
          ensures init[a].sid != init[b].sid
        {
          assert init[a] == ts[a] && init[b] == ts[b];
        }
      }
      TrackLayersKeys(init);
      var m := TrackLayersOf(init);
      assert x.sid !in KeysOf(m) by {
        forall j | 0 <= j < |init|
          ensures TrackSids(init)[j] != x.sid
        {
          assert init[j] == ts[j];
        }
      }
      var e := (x.sid, LayerTableOf(x.layers));
      assert TrackLayersOf(ts) == m + [e];
      assert KeysOf(m + [e]) == KeysOf(m) + [x.sid];
      assert TrackSids(ts) == TrackSids(init) + [x.sid];
    }
  }

  /** With distinct participant sids, and distinct track sids within each participant,
      the settings requests are one 320 x 200 request per track of every participant
      that has not left, in participant and then track order. */
  lemma {:induction false} SettingsFollowTracks(ps: seq<ParticipantInfo>, d: bool)
    requires forall a, b :: 0 <= a < b < |ps| ==> ps[a].sid != ps[b].sid
    requires forall i :: 0 <= i < |ps| ==> DistinctTrackSids(ps[i].tracks)
    ensures SettingsCalls(PlanOf(ps, d).layers) == SettingsRequests(PresentTrackSids(ps))
  {
    if |ps| > 0 {
      var init := ps[..|ps| - 1];
      var x := ps[|ps| - 1];
      assert forall i :: 0 <= i < |init| ==> init[i] == ps[i];
      SettingsFollowTracks(init, d);
      var layers := PlanOf(init, d).layers;
      if !Left(x) {
        SubscriptionKeys(init, d, x.sid);
        assert x.sid !in KeysOf(layers);
        TrackLayersKeys(x.tracks);
        SettingsCallsSnoc(layers, x.sid, TrackLayersOf(x.tracks));
        SettingsRequestsAppend(PresentTrackSids(init), TrackSids(x.tracks));
      }
    }
  }

  lemma SettingsCallsSnoc(layers: seq<(string, TrackLayers)>, sid: string, tracks: TrackLayers)
    ensures SettingsCalls(layers + [(sid, tracks)]) == SettingsCalls(layers) + SettingsRequests(KeysOf(tracks))
  {
    var l2 := layers + [(sid, tracks)];
    assert l2[..|l2| - 1] == layers;
  }

  lemma SettingsRequestsAppend(a: seq<string>, b: seq<string>)
    ensures SettingsRequests(a + b) == SettingsRequests(a) + SettingsRequests(b)
  {
  }

  /** A handler's calls: its loop's calls, then, exactly when some participant still
      present has a track, the subscription request and the settings requests of
      `SettingsFollowTracks`. */
  lemma HandlerRequests(ps: seq<ParticipantInfo>, d: bool)
    requires forall a, b :: 0 <= a < b < |ps| ==> ps[a].sid != ps[b].sid
    requires forall i :: 0 <= i < |ps| ==> DistinctTrackSids(ps[i].tracks)
    ensures HandlerCalls(ps, d) ==
              PlanOf(ps, d).calls +
              if |PresentTrackSids(ps)| > 0
              then [SubscriptionRequestCall(PlanOf(ps, d).subscriptions)] + SettingsRequests(PresentTrackSids(ps))
              else []
  {
    PlanCounts(ps, d);
    SettingsFollowTracks(ps, d);
  }

  lemma TrackerCallsMembers(pax: string, ts: seq<TrackInfo>, p: string, t: string)
    ensures TrackerAddCall(p, t) in TrackerCalls(pax, ts) <==> p == pax && t in TrackSids(ts)
    ensures TrackerAddCall(p, t) !in DisconnectCalls(ts)
  {
    if p == pax && t in TrackSids(ts) {
      var j :| 0 <= j < |ts| && TrackSids(ts)[j] == t;
      assert TrackerCalls(pax, ts)[j] == TrackerAddCall(p, t);
    }
  }

  /** `paxtracker.add_track(p, t)` is called exactly when a participant with sid `p`
      that has not left lists a track with sid `t`: a participant that left never
      reaches the tracker. */
  lemma {:induction false} TrackerAdds(ps: seq<ParticipantInfo>, d: bool, p: string, t: string)
    ensures TrackerAddCall(p, t) in PlanOf(ps, d).calls <==>
              exists i :: 0 <= i < |ps| && !Left(ps[i]) && ps[i].sid == p && t in TrackSids(ps[i].tracks)
  {
    if |ps| > 0 {
      var init := ps[..|ps| - 1];
      var x := ps[|ps| - 1];
      assert forall i :: 0 <= i < |init| ==> init[i] == ps[i];
      TrackerAdds(init, d, p, t);
      TrackerCallsMembers(x.sid, x.tracks, p, t);
    }
  }

  // ---------------------------------------------------------------------------
  // Stream-state updates
  // ---------------------------------------------------------------------------

  /** `on_stream_state_update`: `start_recording` for each ACTIVE entry in order; the
      first unknown track id raises KeyError and ends the loop, keeping the gates
      already opened. */
  function StartActive(s: R.RecorderState, states: seq<StreamStateInfo>): (r: (R.RecorderState, Result<(), PyError>))
    ensures r.0.order == s.order && r.0.events == s.events && r.0.contexts.Keys == s.contexts.Keys
    ensures r.1.Err? <==> exists i :: 0 <= i < |states| && states[i].state == StreamState.ACTIVE && states[i].trackSid !in s.contexts
    ensures r.1.Err? ==> exists i :: 0 <= i < |states| && r.1 == Err(MissingKey(states[i].trackSid)) && states[i].trackSid !in s.contexts
    decreases |states|
  {
    if |states| == 0 then (s, Ok(()))
    else
      assert forall i :: 1 <= i < |states| ==> states[i] == states[1..][i - 1];
      if states[0].state == StreamState.ACTIVE then
        match R.StartRecordingStep(s, states[0].trackSid)
        case Err(e) => (s, Err(e))
        case Ok(t) => StartActive(t, states[1..])
      else StartActive(s, states[1..])
  }

  /** When every active track is known, exactly the active tracks have their gate
      opened and nothing else changes. */
  lemma {:induction false} StartActiveOpensActiveGates(s: R.RecorderState, states: seq<StreamStateInfo>, k: string)
    requires forall i :: 0 <= i < |states| && states[i].state == StreamState.ACTIVE ==> states[i].trackSid in s.contexts
    requires k in s.contexts
    ensures StartActive(s, states).1.Ok?
    ensures StartActive(s, states).0.contexts[k].canStart <==>
              s.contexts[k].canStart || exists i :: 0 <= i < |states| && states[i].state == StreamState.ACTIVE && states[i].trackSid == k
    ensures StartActive(s, states).0.contexts[k].recording == s.contexts[k].recording
    decreases |states|
  {
    if |states| > 0 {
      var rest := states[1..];
      assert forall i :: 1 <= i < |states| ==> states[i] == rest[i - 1];
      if states[0].state == StreamState.ACTIVE {
        var t := R.StartRecordingStep(s, states[0].trackSid).value;
        StartActiveOpensActiveGates(t, rest, k);
      } else {
        StartActiveOpensActiveGates(s, rest, k);
      }
    }
  }

  method OnStreamStateUpdate(update: StreamStateUpdate, recorder: R.FrameRecorder) returns (r: Result<(), PyError>)
    requires recorder.Valid()
    modifies recorder
    ensures recorder.Valid()
    ensures (recorder.State(), r) == StartActive(old(recorder.State()), update.streamStates)
  {
    var states := update.streamStates;
    var i := 0;
    while i < |states|
      invariant 0 <= i <= |states|
      invariant recorder.Valid()
      invariant StartActive(recorder.State(), states[i..]) == StartActive(old(recorder.State()), states)
    {
      assert states[i..][1..] == states[i + 1..];
      if states[i].state == StreamState.ACTIVE {
        var started := recorder.StartRecording(states[i].trackSid);
        if started.Err? {
          return started;
        }
      }
      i := i + 1;
    }
    return Ok(());
  }
}
