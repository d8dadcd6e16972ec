/** The track table of `FrameRecorder` in examples/subscriber/recorder.py.

    The recorder keeps a dictionary from track id to a stream context (its encoder
    task and output container, and the `can_start` gate), in insertion order, and
    emits `track_added`, `track_removed` and `recorder_stopped` events. The table
    is modelled as the insertion order of its keys plus a map, the events as an
    append-only log, and the media I/O as a parameter saying whether opening the
    output succeeded. */
module Recorder {
  import opened Wrappers
  import opened Exceptions

  type TrackId = string

  /** One table entry: whether frames may be encoded yet, and whether its encoder
      task and container are still live. */
  datatype StreamContext = StreamContext(canStart: bool, recording: bool)

  datatype RecorderEvent = TrackAdded(trackId: TrackId) | TrackRemoved(trackId: TrackId) | RecorderStopped

  /** A snapshot of a recorder: `order` lists the dictionary's keys in insertion order. */
  datatype RecorderState = RecorderState(order: seq<TrackId>, contexts: map<TrackId, StreamContext>, events: seq<RecorderEvent>)

  predicate Distinct(xs: seq<TrackId>)
  {
    forall i, j :: 0 <= i < j < |xs| ==> xs[i] != xs[j]
  }

  /** The order lists each key of the dictionary exactly once. */
  ghost predicate ValidTable(s: RecorderState)
  {
    Distinct(s.order) && (forall k :: k in s.order <==> k in s.contexts)
  }

  /** `xs` without `x`, the others keeping their order (a dictionary `pop`). */
  function Without(xs: seq<TrackId>, x: TrackId): (r: seq<TrackId>)
    ensures forall y :: y in r <==> y in xs && y != x
    ensures x !in xs ==> r == xs
  {
    if |xs| == 0 then []
    else if xs[0] == x then Without(xs[1..], x)
    else [xs[0]] + Without(xs[1..], x)
  }

  /** Popping a key keeps the remaining keys distinct. */
  lemma {:induction false} WithoutDistinct(xs: seq<TrackId>, x: TrackId)
    requires Distinct(xs)
    ensures Distinct(Without(xs, x))
  {
    if |xs| > 0 {
      assert Distinct(xs[1..]) by {
        forall i, j | 0 <= i < j < |xs[1..]|
          ensures xs[1..][i] != xs[1..][j]
        {
          assert xs[1..][i] == xs[i + 1] && xs[1..][j] == xs[j + 1];
        }
      }
      WithoutDistinct(xs[1..], x);
      if xs[0] != x {
        var rest := Without(xs[1..], x);
        assert xs[0] !in xs[1..] by {
          forall j | 0 <= j < |xs[1..]|
            ensures xs[1..][j] != xs[0]
          {
            assert xs[1..][j] == xs[j + 1];
          }
        }
        assert xs[0] !in rest;
        var r := [xs[0]] + rest;
        forall i, j | 0 <= i < j < |r|
          ensures r[i] != r[j]
        {
          if i == 0 {
            assert r[j] == rest[j - 1];
          } else {
            assert r[i] == rest[i - 1] && r[j] == rest[j - 1];
          }
        }
      }
    }
  }

  // ---------------------------------------------------------------------------
  // The track annotation (see the findings)
  // ---------------------------------------------------------------------------

  /** The identifiers `addTrack` writes onto the media track object. */
  datatype TrackAnnotation = TrackAnnotation(trid: TrackId, paxid: string)

  /** The annotation as line 80 of recorder.py writes it: the participant slot
      receives the track id. */
  function AnnotationAsWritten(paxId: string, trackId: TrackId): TrackAnnotation
  {
    TrackAnnotation(trackId, trackId)
  }

  /** The participant id is lost: a track of participant "PA_1" is labelled with its
      own track id "TR_1". */
  lemma AnnotationAsWrittenLosesParticipant()
    ensures AnnotationAsWritten("PA_1", "TR_1").paxid != "PA_1"
  {
    assert AnnotationAsWritten("PA_1", "TR_1").paxid == "TR_1";
    assert "TR_1"[0] != "PA_1"[0];
  }

  /** The evidently intended annotation: each slot receives its own id, so both can
      be read back. */
  function Annotation(paxId: string, trackId: TrackId): (a: TrackAnnotation)
    ensures a.paxid == paxId && a.trid == trackId
  {
    TrackAnnotation(trackId, paxId)
  }

  /** Distinct (participant, track) pairs get distinct annotations, which the
      as-written version does not guarantee. */
  lemma AnnotationInjective(p1: string, t1: TrackId, p2: string, t2: TrackId)
    requires (p1, t1) != (p2, t2)
    ensures Annotation(p1, t1) != Annotation(p2, t2)
  {
  }

  lemma AnnotationAsWrittenNotInjective()
    ensures AnnotationAsWritten("PA_1", "TR_1") == AnnotationAsWritten("PA_2", "TR_1")
  {
  }

  // ---------------------------------------------------------------------------
  // Step functions
  // ---------------------------------------------------------------------------

  const AddTrackMissingIds := "Track must have paxid and trid"

  /** `addTrack(track)`: `kind` is the track's kind, `paxId`/`trackId` what
      `get_track_ids` finds in it, and `ioOk` whether opening the output succeeds.
      A failure there stops the recorder and re-raises. */
  function AddTrackStep(s: RecorderState, kind: string, paxId: Option<string>, trackId: Option<TrackId>, ioOk: bool)
    : (r: (RecorderState, Result<(), PyError>))
    ensures kind == "audio" ==> r == (s, Ok(()))
    ensures kind != "audio" && (paxId.None? || trackId.None?) ==> r == (s, Err(MediaStreamFailure(AddTrackMissingIds)))
    ensures trackId.Some? && trackId.value in s.contexts ==> r.0 == s
    ensures r.1.Ok? && r.0 != s ==>
              kind != "audio" && paxId.Some? && trackId.Some? && trackId.value !in s.contexts &&
              r.0.order == s.order + [trackId.value] &&
              r.0.contexts == s.contexts[trackId.value := StreamContext(false, true)] &&
              r.0.events == s.events + [TrackAdded(trackId.value)]
    ensures r.1.Err? && r.1.error != MediaStreamFailure(AddTrackMissingIds) ==> r.0 == StopStep(s) && r.1.error == IoFailure
    ensures kind != "audio" && paxId.Some? && trackId.Some? && trackId.value !in s.contexts ==>
              (r.1.Ok? <==> ioOk) && (ioOk ==> r.0 != s) && (!ioOk ==> r == (StopStep(s), Err(IoFailure)))
  {
    if kind == "audio" then (s, Ok(()))
    else if paxId.None? || trackId.None? then (s, Err(MediaStreamFailure(AddTrackMissingIds)))
    else if trackId.value in s.contexts then (s, Ok(()))
    else if !ioOk then (StopStep(s), Err(IoFailure))
    else
      var id := trackId.value;
      (RecorderState(s.order + [id], s.contexts[id := StreamContext(false, true)], s.events + [TrackAdded(id)]), Ok(()))
  }

  /** `disconnect_track(track_id)`: pop the entry and, if there was one, report it. */
  function DisconnectStep(s: RecorderState, trackId: TrackId): (r: RecorderState)
    ensures trackId !in s.contexts ==> r == s
    ensures trackId in s.contexts ==>
              r.contexts == s.contexts - {trackId} && r.events == s.events + [TrackRemoved(trackId)]
    ensures trackId in s.contexts ==> r.order == Without(s.order, trackId)
  {
    if trackId in s.contexts then
      RecorderState(Without(s.order, trackId), s.contexts - {trackId}, s.events + [TrackRemoved(trackId)])
    else s
  }

  /** `disconnect_track` for each id in turn: the entries of those ids are gone and
      every other entry is as it was. */
  function DisconnectAll(s: RecorderState, ids: seq<TrackId>): (r: RecorderState)
    ensures forall k :: k in r.contexts <==> k in s.contexts && k !in ids
    ensures forall k :: k in r.contexts ==> r.contexts[k] == s.contexts[k]
  {
    if |ids| == 0 then s
    else
      assert ids == ids[..|ids| - 1] + [ids[|ids| - 1]];
      DisconnectStep(DisconnectAll(s, ids[..|ids| - 1]), ids[|ids| - 1])
  }

  lemma DisconnectAllExtend(s: RecorderState, ids: seq<TrackId>, id: TrackId)
    ensures DisconnectAll(s, ids + [id]) == DisconnectStep(DisconnectAll(s, ids), id)
  {
    assert (ids + [id])[..|ids|] == ids;
  }

  /** Disconnecting two lists of ids one after the other is disconnecting both. */
  lemma {:induction false} DisconnectAllAppend(s: RecorderState, a: seq<TrackId>, b: seq<TrackId>)
    ensures DisconnectAll(s, a + b) == DisconnectAll(DisconnectAll(s, a), b)
    decreases |b|
  {
    if |b| == 0 {
      assert a + b == a;
    } else {
      var b' := b[..|b| - 1];
      assert a + b == (a + b') + [b[|b| - 1]] && b == b' + [b[|b| - 1]];
      DisconnectAllAppend(s, a, b');
      DisconnectAllExtend(s, a + b', b[|b| - 1]);
      DisconnectAllExtend(DisconnectAll(s, a), b', b[|b| - 1]);
    }
  }

  /** One `track_removed` per id, in order. */
  function Removals(ids: seq<TrackId>): (r: seq<RecorderEvent>)
    ensures |r| == |ids|
    ensures forall i :: 0 <= i < |ids| ==> r[i] == TrackRemoved(ids[i])
  {
    seq(|ids|, i requires 0 <= i < |ids| => TrackRemoved(ids[i]))
  }

  /** The contexts after closing the entries of `ids`. */
  function Closed(contexts: map<TrackId, StreamContext>, ids: seq<TrackId>): (r: map<TrackId, StreamContext>)
    ensures r.Keys == contexts.Keys
    ensures forall k :: k in contexts && k in ids ==> r[k] == contexts[k].(recording := false)
    ensures forall k :: k in contexts && k !in ids ==> r[k] == contexts[k]
  {
    map k | k in contexts :: if k in ids then contexts[k].(recording := false) else contexts[k]
  }

  lemma ClosedExtend(contexts: map<TrackId, StreamContext>, ids: seq<TrackId>, id: TrackId)
    requires id in contexts
    ensures Closed(contexts, ids + [id]) == Closed(contexts, ids)[id := contexts[id].(recording := false)]
  {
  }

  lemma RemovalsExtend(ids: seq<TrackId>, id: TrackId)
    ensures Removals(ids + [id]) == Removals(ids) + [TrackRemoved(id)]
  {
  }

  /** `stop()`: close every entry and report it, in table order, then report the stop. */
  function StopStep(s: RecorderState): RecorderState
  {
    RecorderState(s.order, Closed(s.contexts, s.order), s.events + Removals(s.order) + [RecorderStopped])
  }

  /** `start_recording(track_id)`: a KeyError for an unknown id. */
  function StartRecordingStep(s: RecorderState, trackId: TrackId): (r: Result<RecorderState, PyError>)
    ensures r.Err? <==> trackId !in s.contexts
    ensures r.Err? ==> r.error == MissingKey(trackId)
  {
    if trackId in s.contexts then Ok(s.(contexts := s.contexts[trackId := s.contexts[trackId].(canStart := true)]))
    else Err(MissingKey(trackId))
  }

  // ---------------------------------------------------------------------------
  // Properties of the steps
  // ---------------------------------------------------------------------------

  /** Every step keeps the order and the dictionary in agreement. */
  lemma StepsKeepTable(s: RecorderState, kind: string, paxId: Option<string>, trackId: Option<TrackId>, ioOk: bool, t: TrackId)
    requires ValidTable(s)
    ensures ValidTable(AddTrackStep(s, kind, paxId, trackId, ioOk).0)
    ensures ValidTable(DisconnectStep(s, t))
    ensures ValidTable(StopStep(s))
    ensures StartRecordingStep(s, t).Ok? ==> ValidTable(StartRecordingStep(s, t).value)
  {
    if t in s.contexts {
      WithoutDistinct(s.order, t);
    }
    var r := AddTrackStep(s, kind, paxId, trackId, ioOk).0;
    if r.order != s.order && r.order != StopStep(s).order {
      var id := trackId.value;
      assert r.order == s.order + [id];
      forall i, j | 0 <= i < j < |r.order|
        ensures r.order[i] != r.order[j]
      {
        if j == |s.order| {
          assert r.order[i] == s.order[i];
          assert s.order[i] in s.contexts;
        }
      }
    }
  }

  /** The state `stop()` has reached once it has closed and reported the first `i`
      entries of the table. */
  function StopPrefix(s: RecorderState, i: nat): RecorderState
    requires i <= |s.order|
  {
    RecorderState(s.order, Closed(s.contexts, s.order[..i]), s.events + Removals(s.order[..i]))
  }

  /** One iteration of `stop`'s loop closes and reports the next entry. */
  lemma StopVisits(s: RecorderState, i: nat)
    requires ValidTable(s) && i < |s.order|
    ensures s.order[i] in StopPrefix(s, i).contexts
    ensures StopPrefix(s, i + 1) ==
              var p := StopPrefix(s, i);
              p.(contexts := p.contexts[s.order[i] := p.contexts[s.order[i]].(recording := false)],
                 events := p.events + [TrackRemoved(s.order[i])])
  {
    var id := s.order[i];
    assert s.order[..i + 1] == s.order[..i] + [id];
    assert id in s.contexts;
    ClosedExtend(s.contexts, s.order[..i], id);
    RemovalsExtend(s.order[..i], id);
  }

  lemma StopFinishes(s: RecorderState)
    ensures StopStep(s) == StopPrefix(s, |s.order|).(events := StopPrefix(s, |s.order|).events + [RecorderStopped])
  {
    assert s.order[..|s.order|] == s.order;
  }

  lemma StopKeepsTable(s: RecorderState)
    requires ValidTable(s)
    ensures ValidTable(StopStep(s))
  {
  }

  /** After `stop` the table has the same keys in the same order, and nothing is
      live any more. */
  lemma StopKeepsEntries(s: RecorderState)
    ensures StopStep(s).order == s.order && StopStep(s).contexts.Keys == s.contexts.Keys
    ensures forall k :: k in s.order && k in s.contexts ==> !StopStep(s).contexts[k].recording
    ensures StopStep(s).events[|s.events| + |s.order|] == RecorderStopped
    ensures |StopStep(s).events| == |s.events| + |s.order| + 1
  {
  }

  /** `start_recording` opens the gate of the named entry only. */
  lemma StartRecordingOnlyNamed(s: RecorderState, trackId: TrackId, other: TrackId)
    requires StartRecordingStep(s, trackId).Ok?
    requires other != trackId
    ensures StartRecordingStep(s, trackId).value.contexts[trackId].canStart
    ensures other in s.contexts ==> StartRecordingStep(s, trackId).value.contexts[other] == s.contexts[other]
    ensures StartRecordingStep(s, trackId).value.contexts.Keys == s.contexts.Keys
    ensures StartRecordingStep(s, trackId).value.order == s.order
    ensures StartRecordingStep(s, trackId).value.events == s.events
  {
  }

  /** Adding a track twice is the same as adding it once. */
  lemma AddTrackIdempotent(s: RecorderState, kind: string, paxId: Option<string>, trackId: Option<TrackId>, ioOk: bool)
    requires AddTrackStep(s, kind, paxId, trackId, ioOk).1.Ok?
    ensures var t := AddTrackStep(s, kind, paxId, trackId, ioOk).0;
            AddTrackStep(t, kind, paxId, trackId, ioOk) == (t, Ok(()))
  {
  }

  /** Disconnecting a track that was just added restores the table (the log keeps
      both events). */
  lemma AddThenDisconnect(s: RecorderState, kind: string, paxId: Option<string>, id: TrackId)
    requires ValidTable(s)
    requires kind != "audio" && paxId.Some? && id !in s.contexts
    ensures var t := DisconnectStep(AddTrackStep(s, kind, paxId, Some(id), true).0, id);
            t.order == s.order && t.contexts == s.contexts &&
            t.events == s.events + [TrackAdded(id), TrackRemoved(id)]
  {
    var a := AddTrackStep(s, kind, paxId, Some(id), true).0;
    assert id !in s.order;
    WithoutAppended(s.order, id);
    assert a.contexts - {id} == s.contexts;
  }

  lemma {:induction false} WithoutAppended(xs: seq<TrackId>, x: TrackId)
    requires x !in xs
    ensures Without(xs + [x], x) == xs
  {
    if |xs| > 0 {
      assert (xs + [x])[1..] == xs[1..] + [x];
      WithoutAppended(xs[1..], x);
      assert [xs[0]] + xs[1..] == xs;
    }
  }

  // ---------------------------------------------------------------------------
  // The frame gate
  // ---------------------------------------------------------------------------

  datatype Frame = Frame(pts: int)

  /** A frame delivered by the track, with the entry's `can_start` flag at that moment. */
  datatype Arrival = Arrival(frame: Frame, canStart: bool)

  /** The frames `__run_track` passes to the encoder: the others are discarded. */
  function Encoded(arrivals: seq<Arrival>): (r: seq<Frame>)
    ensures |r| <= |arrivals|
  {
    if |arrivals| == 0 then []
    else (if arrivals[0].canStart then [arrivals[0].frame] else []) + Encoded(arrivals[1..])
  }

  /** While the gate is closed nothing is encoded. */
  lemma {:induction false} ClosedGateEncodesNothing(arrivals: seq<Arrival>)
    requires forall i :: 0 <= i < |arrivals| ==> !arrivals[i].canStart
    ensures Encoded(arrivals) == []
  {
    if |arrivals| > 0 {
      ClosedGateEncodesNothing(arrivals[1..]);
    }
  }

  /** The gate is only ever opened, so once it opens every later frame is encoded:
      the recording is exactly the frames from the opening on. */
  lemma {:induction false} OpenedGateEncodesSuffix(arrivals: seq<Arrival>, k: nat)
    requires k <= |arrivals|
    requires forall i :: 0 <= i < k ==> !arrivals[i].canStart
    requires forall i :: k <= i < |arrivals| ==> arrivals[i].canStart
    ensures Encoded(arrivals) == seq(|arrivals| - k, i requires 0 <= i < |arrivals| - k => arrivals[k + i].frame)
    decreases |arrivals|
  {
    if |arrivals| > 0 {
      if k > 0 {
        OpenedGateEncodesSuffix(arrivals[1..], k - 1);
      } else {
        OpenedGateEncodesSuffix(arrivals[1..], 0);
      }
    }
  }

  // ---------------------------------------------------------------------------
  // The objects
  // ---------------------------------------------------------------------------

  /** The media track object, on which `addTrack` writes the two identifiers. */
  class MediaTrack {
    const id: string
    const kind: string
    var trid: Option<TrackId>
    var paxid: Option<string>

    constructor(id: string, kind: string)
      ensures this.id == id && this.kind == kind && trid.None? && paxid.None?
    {
      this.id := id;
      this.kind := kind;
      trid := None;
      paxid := None;
    }
  }

  class FrameRecorder {
    const path: string
    const recordFrames: bool
    var order: seq<TrackId>
    var contexts: map<TrackId, StreamContext>
    var events: seq<RecorderEvent>

    function State(): RecorderState
      reads this
    {
      RecorderState(order, contexts, events)
    }

    ghost predicate Valid()
      reads this
    {
      ValidTable(State())
    }

    constructor(path: string, recordFrames: bool)
      ensures Valid() && State() == RecorderState([], map[], [])
    {
      this.path := path;
      this.recordFrames := recordFrames;
      order := [];
      contexts := map[];
      events := [];
    }

    method AddTrack(track: MediaTrack, paxId: Option<string>, trackId: Option<TrackId>, ioOk: bool)
      returns (r: Result<(), PyError>)
      requires Valid()
      modifies this, track
      ensures Valid()
      ensures (State(), r) == AddTrackStep(old(State()), track.kind, paxId, trackId, ioOk)
      ensures track.kind != "audio" && paxId.Some? && trackId.Some? ==>
                track.trid == Some(Annotation(paxId.value, trackId.value).trid) &&
                track.paxid == Some(Annotation(paxId.value, trackId.value).paxid)
      ensures !(track.kind != "audio" && paxId.Some? && trackId.Some?) ==>
                track.trid == old(track.trid) && track.paxid == old(track.paxid)
    {
      StepsKeepTable(State(), track.kind, paxId, trackId, ioOk, "");
      if track.kind == "audio" {
        return Ok(());
      }
      if paxId.None? || trackId.None? {
        return Err(MediaStreamFailure(AddTrackMissingIds));
      }
      var id := trackId.value;
      var a := Annotation(paxId.value, id);
      track.trid := Some(a.trid);
      track.paxid := Some(a.paxid);
      if id in contexts {
        return Ok(());
      }
      if !ioOk {
        Stop();
        return Err(IoFailure);
      }
      order := order + [id];
      contexts := contexts[id := StreamContext(false, true)];
      events := events + [TrackAdded(id)];
      return Ok(());
    }

    method DisconnectTrack(trackId: TrackId)
      requires Valid()
      modifies this
      ensures Valid()
      ensures State() == DisconnectStep(old(State()), trackId)
    {
      StepsKeepTable(State(), "audio", None, None, true, trackId);
      if trackId in contexts {
        order := Without(order, trackId);
        contexts := contexts - {trackId};
        events := events + [TrackRemoved(trackId)];
      }
    }

    method Stop()
      requires Valid()
      modifies this
      ensures Valid()
      ensures State() == StopStep(old(State()))
    {
      ghost var s0 := State();
      var i := 0;
      while i < |order|
        invariant 0 <= i <= |s0.order|
        invariant State() == StopPrefix(s0, i)
      {
        var id := order[i];
        StopVisits(s0, i);
        contexts := contexts[id := contexts[id].(recording := false)];
        events := events + [TrackRemoved(id)];
        i := i + 1;
      }
      events := events + [RecorderStopped];
      StopFinishes(s0);
      StopKeepsTable(s0);
    }

    method StartRecording(trackId: TrackId) returns (r: Result<(), PyError>)
      requires Valid()
      modifies this
      ensures Valid()
      ensures StartRecordingStep(old(State()), trackId).Ok? ==> r.Ok? && State() == StartRecordingStep(old(State()), trackId).value
      ensures StartRecordingStep(old(State()), trackId).Err? ==>
                r == Err(StartRecordingStep(old(State()), trackId).error) && State() == old(State())
    {
      StepsKeepTable(State(), "audio", None, None, true, trackId);
      if trackId !in contexts {
        return Err(MissingKey(trackId));
      }
      contexts := contexts[trackId := contexts[trackId].(canStart := true)];
      return Ok(());
    }

    /** `__run_track`'s loop over the frames the track delivers until it ends. */
    method RunTrack(arrivals: seq<Arrival>) returns (encoded: seq<Frame>)
      ensures encoded == Encoded(arrivals)
    {
      encoded := [];
      var i := 0;
      while i < |arrivals|
        invariant 0 <= i <= |arrivals|
        invariant encoded + Encoded(arrivals[i..]) == Encoded(arrivals)
      {
        if arrivals[i].canStart {
          encoded := encoded + [arrivals[i].frame];
        }
        assert arrivals[i..][1..] == arrivals[i + 1..];
        i := i + 1;
      }
    }
  }
}
