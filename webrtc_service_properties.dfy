/** What `WebRTCService` (frontend/src/services/webrtcService.ts) guarantees, as lemmas about its specification. */
module WebRtcServiceProperties {
  import opened Js
  import opened Browser
  import opened WebRtcService

  /** The handler calls and state reports in a log, in order. */
  function HandlerCalls(events: seq<Event>): seq<Event> {
    if events == [] then []
    else (if events[0].Perform? then [] else [events[0]]) + HandlerCalls(events[1..])
  }

  /** The tracks handed to `addTrack` in a log, in order. */
  function AddedTracks(events: seq<Event>): seq<Handle> {
    if events == [] then []
    else (if events[0].Perform? && events[0].action.AddTrack? then [events[0].action.track] else [])
         + AddedTracks(events[1..])
  }

  predicate Acts(events: seq<Event>) {
    forall i :: 0 <= i < |events| ==> events[i].Perform?
  }

  predicate NoAddTrack(events: seq<Event>) {
    forall i :: 0 <= i < |events| ==> !(events[i].Perform? && events[i].action.AddTrack?)
  }

  lemma {:induction false} HandlerCallsAppend(a: seq<Event>, b: seq<Event>)
    ensures HandlerCalls(a + b) == HandlerCalls(a) + HandlerCalls(b)
  {
    if a == [] {
      assert a + b == b;
    } else {
      var head := if a[0].Perform? then [] else [a[0]];
      assert (a + b)[0] == a[0];
      assert (a + b)[1..] == a[1..] + b;
      HandlerCallsAppend(a[1..], b);
      calc {
        HandlerCalls(a + b);
        head + HandlerCalls((a + b)[1..]);
        head + (HandlerCalls(a[1..]) + HandlerCalls(b));
        (head + HandlerCalls(a[1..])) + HandlerCalls(b);
      }
    }
  }

  lemma {:induction false} AddedTracksAppend(a: seq<Event>, b: seq<Event>)
    ensures AddedTracks(a + b) == AddedTracks(a) + AddedTracks(b)
  {
    if a == [] {
      assert a + b == b;
    } else {
      var head := if a[0].Perform? && a[0].action.AddTrack? then [a[0].action.track] else [];
      assert (a + b)[0] == a[0];
      assert (a + b)[1..] == a[1..] + b;
      AddedTracksAppend(a[1..], b);
      calc {
        AddedTracks(a + b);
        head + AddedTracks((a + b)[1..]);
        head + (AddedTracks(a[1..]) + AddedTracks(b));
        (head + AddedTracks(a[1..])) + AddedTracks(b);
      }
    }
  }

  lemma {:induction false} ActsCallNoHandler(events: seq<Event>)
    requires Acts(events)
    ensures HandlerCalls(events) == []
  {
    if events != [] {
      ActsCallNoHandler(events[1..]);
    }
  }

  lemma {:induction false} NoAddTrackAddsNothing(events: seq<Event>)
    requires NoAddTrack(events)
    ensures AddedTracks(events) == []
  {
    if events != [] {
      NoAddTrackAddsNothing(events[1..]);
    }
  }

  // ---------------------------------------------------------------------------
  // close

  /** The rank of a step of `close`: tracks first, then the channel, then the peer connection. */
  function Rank(e: Event): nat {
    if e.Perform? && e.action.StopTrack? then 0
    else if e.Perform? && e.action.CloseChannel? then 1
    else if e.Perform? && e.action.ClosePeer? then 2
    else 3
  }

  predicate Ranked(events: seq<Event>) {
    forall i, j :: 0 <= i < j < |events| ==> Rank(events[i]) <= Rank(events[j])
  }

  /** `close` stops the tracks, then closes the channel, then the peer connection, and calls no handler. */
  lemma CloseOrder(s: Service)
    ensures Ranked(CloseEvents(s)) && Acts(CloseEvents(s))
    ensures s.dataChannel.Some? ==> Perform(CloseChannel(s.dataChannel.value)) in CloseEvents(s)
    ensures s.peerConnection.Some? ==> Perform(ClosePeer(s.peerConnection.value)) in CloseEvents(s)
    ensures s.mediaStream.Some? ==>
              forall t :: t in s.mediaStream.value.tracks ==> Perform(StopTrack(t)) in CloseEvents(s)
  {
    var a := if s.mediaStream.Some? then TrackStops(s.mediaStream.value.tracks) else [];
    var b := if s.dataChannel.Some? then [Perform(CloseChannel(s.dataChannel.value))] else [];
    var c := if s.peerConnection.Some? then [Perform(ClosePeer(s.peerConnection.value))] else [];
    var all := a + b + c;
    assert CloseEvents(s) == all;
    forall i | 0 <= i < |all|
      ensures Rank(all[i]) == if i < |a| then 0 else if i < |a| + |b| then 1 else 2
    {
      if i < |a| {
        assert all[i] == a[i];
      } else if i < |a| + |b| {
        assert all[i] == b[i - |a|];
      } else {
        assert all[i] == c[i - |a| - |b|];
      }
    }
    if s.dataChannel.Some? {
      assert all[|a|] == b[0];
    }
    if s.peerConnection.Some? {
      assert all[|a| + |b|] == c[0];
    }
    if s.mediaStream.Some? {
      forall t | t in s.mediaStream.value.tracks
        ensures Perform(StopTrack(t)) in all
      {
        var k :| 0 <= k < |s.mediaStream.value.tracks| && s.mediaStream.value.tracks[k] == t;
        assert all[k] == a[k];
      }
    }
  }

  /** After `close` nothing is held, none of it is open, and the handlers are untouched. */
  lemma CloseReleasesEverything(s: Service)
    ensures var t := CloseSpec(s);
            && t.mediaStream.None? && t.dataChannel.None? && t.peerConnection.None?
            && Held(s) !! t.live && t.live <= s.live && t.next == s.next
            && t.transcriptHandler == s.transcriptHandler && t.errorHandler == s.errorHandler
            && t.connectionStateHandler == s.connectionStateHandler
  {
  }

  /** A second `close` does nothing at all. */
  lemma CloseIdempotent(s: Service)
    ensures CloseSpec(CloseSpec(s)) == CloseSpec(s)
  {
    var c := CloseSpec(s);
    assert Held(c) == {};
    assert CloseEvents(c) == [];
    assert c.log + [] == c.log;
  }

  /** Once closed, the state handler reports nothing: the closure finds no peer connection. */
  lemma ClosedServiceReportsNothing(s: Service, state: PeerState)
    ensures StateChangeSpec(CloseSpec(s), state) == CloseSpec(s)
  {
  }

  // ---------------------------------------------------------------------------
  // initialize

  /** The microphone request names the chosen device exactly when a non-empty id is given, and never asks for video. */
  lemma ConstraintsFollowSelection(microphoneId: Option<string>)
    ensures !ConstraintsFor(microphoneId).video
    ensures ConstraintsFor(microphoneId).audio.ExactDevice? <==> microphoneId.Some? && microphoneId.value != ""
    ensures ConstraintsFor(microphoneId).audio.ExactDevice? ==>
              ConstraintsFor(microphoneId).audio.deviceId == microphoneId.value
  {
  }

  predicate Appends(a: seq<Event>, b: seq<Event>) {
    |a| <= |b| && b[..|a|] == a && Acts(b[|a|..])
  }

  lemma AppendsActs(a: seq<Event>, x: seq<Event>)
    requires Acts(x)
    ensures Appends(a, a + x)
  {
    assert (a + x)[..|a|] == a;
    assert (a + x)[|a|..] == x;
  }

  lemma AppendsTransitive(a: seq<Event>, b: seq<Event>, c: seq<Event>)
    requires Appends(a, b) && Appends(b, c)
    ensures Appends(a, c)
  {
    assert c[..|a|] == b[..|a|];
    forall i | 0 <= i < |c| - |a|
      ensures c[|a|..][i].Perform?
    {
      if |a| + i < |b| {
        assert c[|a| + i] == b[|a| + i] == b[|a|..][i];
      } else {
        assert c[|a| + i] == c[|b|..][|a| + i - |b|];
      }
    }
  }

  lemma OfferOnlyLogs(s: Service, pc: Handle, ephemeralToken: string, inputs: InitInputs)
    ensures var a := OfferSpec(s, pc, ephemeralToken, inputs);
            a.state == s.(log := a.state.log) && Appends(s.log, a.state.log)
            && NoAddTrack(a.state.log[|s.log|..])
  {
    var a := OfferSpec(s, pc, ephemeralToken, inputs);
    var x := a.state.log[|s.log|..];
    assert a.state.log == s.log + x;
  }

  /** Every handle open after the attempt was open before it, or was created by it and is held. */
  predicate CreatedAreHeld(s: Service, t: Service) {
    forall h :: h in t.live ==> h in s.live || (s.next <= h.id < t.next && h in Held(t))
  }

  lemma CaptureFacts(s: Service, pc: Handle, ephemeralToken: string, inputs: InitInputs)
    requires Valid(s) && s.peerConnection == Some(pc) && pc in s.live
    requires s.mediaStream.None? && s.dataChannel.None?
    ensures var a := CaptureSpec(s, pc, ephemeralToken, inputs);
            && Appends(s.log, a.state.log)
            && a.state.peerConnection == Some(pc)
            && a.state.transcriptHandler == s.transcriptHandler && a.state.errorHandler == s.errorHandler
            && a.state.connectionStateHandler == s.connectionStateHandler
            && s.next <= a.state.next
            && a.state.live == s.live + (Held(a.state) - {pc})
            && (forall h :: h in Held(a.state) - {pc} ==> s.next <= h.id < a.state.next)
            && Valid(a.state)
            && (a.failure.None? ==> a.state.mediaStream.Some? && a.state.dataChannel.Some?)
  {
    if inputs.media.Success? {
      var n := inputs.media.value;
      var stream := NewStream(s.next, n);
      assert forall t :: t in stream.tracks ==> s.next <= t.id < s.next + n;
      var s3 := s.(mediaStream := Some(stream), live := s.live + TrackSet(stream), next := s.next + n);
      if n == 0 {
        assert s3.log[..|s.log|] == s.log && s3.log[|s.log|..] == [];
      } else {
        var dc := Handle(s3.next);
        var x := [Perform(AddTrack(pc, stream.tracks[0])), Perform(CreateDataChannel(pc, EventsChannelLabel, dc)),
                  Perform(SetMessageHandler(dc)), Perform(CreateOffer(pc))];
        var s4 := s3.(dataChannel := Some(dc), live := s3.live + {dc}, next := s3.next + 1, log := s3.log + x);
        assert CaptureSpec(s, pc, ephemeralToken, inputs) == OfferSpec(s4, pc, ephemeralToken, inputs);
        AppendsActs(s.log, x);
        OfferOnlyLogs(s4, pc, ephemeralToken, inputs);
        AppendsTransitive(s.log, s4.log, CaptureSpec(s, pc, ephemeralToken, inputs).state.log);
        assert Held(s4) == TrackSet(stream) + {dc} + {pc};
      }
    } else {
      assert s.log[..|s.log|] == s.log && s.log[|s.log|..] == [];
    }
  }

  lemma AppendsCallNoHandler(a: seq<Event>, b: seq<Event>)
    requires Appends(a, b)
    ensures HandlerCalls(b[|a|..]) == []
  {
    ActsCallNoHandler(b[|a|..]);
  }

  /** Lines 31-49 up to the await: close, then a new peer connection and the microphone request. */
  lemma OpenFacts(s: Service, microphoneId: Option<string>)
    requires Valid(s)
    ensures var o := Opened(CloseSpec(s), microphoneId);
            && Appends(s.log, o.log)
            && Valid(o)
            && o.peerConnection == Some(Handle(s.next)) && o.mediaStream.None? && o.dataChannel.None?
            && o.live == (s.live - Held(s)) + {Handle(s.next)} && o.next == s.next + 1
            && o.transcriptHandler == s.transcriptHandler && o.errorHandler == s.errorHandler
            && o.connectionStateHandler == s.connectionStateHandler
  {
    var c := CloseSpec(s);
    CloseOrder(s);
    AppendsActs(s.log, CloseEvents(s));
    var pc := Handle(c.next);
    var x := [Perform(CreatePeerConnection(pc)), Perform(SetStateHandler(pc)),
              Perform(GetUserMedia(ConstraintsFor(microphoneId)))];
    AppendsActs(c.log, x);
    AppendsTransitive(s.log, c.log, Opened(c, microphoneId).log);
  }

  /**
   * The try block calls no handler. It first closes whatever was open, so afterwards nothing the
   * service held before is open, and every handle it opened is one it holds.
   */
  lemma AttemptFacts(s: Service, ephemeralToken: string, microphoneId: Option<string>, inputs: InitInputs)
    requires Valid(s)
    ensures var a := AttemptSpec(s, ephemeralToken, microphoneId, inputs);
            && |s.log| <= |a.state.log| && a.state.log[..|s.log|] == s.log
            && HandlerCalls(a.state.log[|s.log|..]) == []
            && a.state.peerConnection.Some?
            && a.state.transcriptHandler == s.transcriptHandler && a.state.errorHandler == s.errorHandler
            && a.state.connectionStateHandler == s.connectionStateHandler
            && Held(s) !! a.state.live
            && CreatedAreHeld(s, a.state)
            && (forall h :: h in Held(a.state) ==> s.next <= h.id < a.state.next)
            && Valid(a.state)
            && (a.failure.None? ==> a.state.mediaStream.Some? && a.state.dataChannel.Some?)
  {
    var o := Opened(CloseSpec(s), microphoneId);
    var pc := Handle(s.next);
    OpenFacts(s, microphoneId);
    CaptureFacts(o, pc, ephemeralToken, inputs);
    var a := CaptureSpec(o, pc, ephemeralToken, inputs);
    assert a == AttemptSpec(s, ephemeralToken, microphoneId, inputs);
    AppendsTransitive(s.log, o.log, a.state.log);
    AppendsCallNoHandler(s.log, a.state.log);
    assert Held(a.state) == (Held(a.state) - {pc}) + {pc};
  }

  /**
   * `initialize` rethrows exactly the error that stopped it. On success it holds a new peer
   * connection, data channel and stream and calls no handler; whatever the outcome, nothing the
   * service held before is open afterwards, and the handlers are kept.
   */
  lemma InitializeOutcome(s: Service, ephemeralToken: string, microphoneId: Option<string>, inputs: InitInputs)
    requires Valid(s)
    ensures var a := AttemptSpec(s, ephemeralToken, microphoneId, inputs);
            var r := InitializeSpec(s, ephemeralToken, microphoneId, inputs);
            && (r.outcome.Rejected? <==> a.failure.Some?)
            && (r.outcome.Rejected? ==> r.outcome.error == a.failure.value)
            && (r.outcome.Resolved? ==>
                  && r.state.peerConnection.Some? && r.state.dataChannel.Some? && r.state.mediaStream.Some?
                  && Held(r.state) <= r.state.live
                  && (forall h :: h in Held(r.state) ==> s.next <= h.id)
                  && HandlerCalls(r.state.log[|s.log|..]) == [])
            && Held(s) !! r.state.live
            && r.state.transcriptHandler == s.transcriptHandler && r.state.errorHandler == s.errorHandler
            && r.state.connectionStateHandler == s.connectionStateHandler
  {
    AttemptFacts(s, ephemeralToken, microphoneId, inputs);
    var a := AttemptSpec(s, ephemeralToken, microphoneId, inputs);
    if a.failure.None? {
      assert Held(a.state) == {a.state.dataChannel.value} + {a.state.peerConnection.value} + TrackSet(a.state.mediaStream.value);
      assert forall h :: h in Held(a.state) ==> h in a.state.live || h in s.live;
    }
  }

  lemma OneCall(e: Event)
    requires !e.Perform?
    ensures HandlerCalls([e]) == [e]
  {
    assert [e][1..] == [];
    assert HandlerCalls([e]) == [e] + HandlerCalls([]);
  }

  lemma ReleasesThenTold(base: seq<Event>, releases: seq<Event>, told: seq<Event>)
    requires Acts(releases)
    ensures |base| <= |base + releases + told| && (base + releases + told)[..|base|] == base
    ensures HandlerCalls((base + releases + told)[|base|..]) == HandlerCalls(told)
  {
    assert (base + releases + told)[|base|..] == releases + told;
    ActsCallNoHandler(releases);
    HandlerCallsAppend(releases, told);
  }

  /** Some event of `events` releases handle `h`: it stops it as a track, or closes it as a channel or a connection. */
  predicate ReleasedIn(events: seq<Event>, h: Handle) {
    Perform(StopTrack(h)) in events || Perform(CloseChannel(h)) in events || Perform(ClosePeer(h)) in events
  }

  /**
   * The `catch` closes first and calls the error handler after: the handler call, when there is
   * one, is the last event, and every release step comes before it.
   */
  lemma CloseBeforeHandler(m: Service, e: Exception)
    ensures var t := FailSpec(m, e);
            var k := |t.log| - (if m.errorHandler.Some? then 1 else 0);
            && |m.log| <= k <= |t.log| && t.log[..|m.log|] == m.log
            && (m.errorHandler.Some? ==> t.log[k] == Call(m.errorHandler.value, Str(FailureText(e))))
            && Acts(t.log[|m.log|..k])
            && forall h :: h in Held(m) ==> ReleasedIn(t.log[|m.log|..k], h)
  {
    var t := FailSpec(m, e);
    var k := |t.log| - (if m.errorHandler.Some? then 1 else 0);
    assert t.log[|m.log|..k] == CloseEvents(m);
    CloseOrder(m);
  }

  lemma FailLog(m: Service, e: Exception)
    ensures var t := FailSpec(m, e);
            && |m.log| <= |t.log| && t.log[..|m.log|] == m.log
            && HandlerCalls(t.log[|m.log|..]) ==
               (if m.errorHandler.Some? then [Call(m.errorHandler.value, Str(FailureText(e)))] else [])
  {
    CloseOrder(m);
    var told := if m.errorHandler.Some? then [Call(m.errorHandler.value, Str(FailureText(e)))] else [];
    ReleasesThenTold(m.log, CloseEvents(m), told);
    assert FailSpec(m, e).log == m.log + CloseEvents(m) + told;
    if m.errorHandler.Some? {
      OneCall(Call(m.errorHandler.value, Str(FailureText(e))));
    }
  }

  lemma ExtendedLog(base: seq<Event>, x: seq<Event>, y: seq<Event>)
    requires |base| <= |x| && x[..|base|] == base && |x| <= |y| && y[..|x|] == x
    ensures |base| <= |y| && y[..|base|] == base
    ensures HandlerCalls(y[|base|..]) == HandlerCalls(x[|base|..]) + HandlerCalls(y[|x|..])
  {
    assert y[|base|..] == x[|base|..] + y[|x|..];
    HandlerCallsAppend(x[|base|..], y[|x|..]);
  }

  /**
   * A failed `initialize` closes everything, leaves open nothing it created, and calls the error
   * handler once, with the error's message or the fixed fallback, when one is set, and no other.
   */
  lemma InitializeFailure(s: Service, ephemeralToken: string, microphoneId: Option<string>, inputs: InitInputs)
    requires Valid(s)
    requires InitializeSpec(s, ephemeralToken, microphoneId, inputs).outcome.Rejected?
    ensures var r := InitializeSpec(s, ephemeralToken, microphoneId, inputs);
            && r.state.peerConnection.None? && r.state.dataChannel.None? && r.state.mediaStream.None?
            && r.state.live <= s.live - Held(s)
            && |s.log| <= |r.state.log| && r.state.log[..|s.log|] == s.log
            && HandlerCalls(r.state.log[|s.log|..]) ==
               (if s.errorHandler.Some? then [Call(s.errorHandler.value, Str(FailureText(r.outcome.error)))] else [])
  {
    var a := AttemptSpec(s, ephemeralToken, microphoneId, inputs);
    AttemptFacts(s, ephemeralToken, microphoneId, inputs);
    FailLog(a.state, a.failure.value);
    ExtendedLog(s.log, a.state.log, FailSpec(a.state, a.failure.value).log);
  }

  /**
   * A failed `initialize` closes before it calls the error handler: after the attempt's own steps
   * come only release steps, one for every handle the attempt held, and then the handler call,
   * when a handler is set, as the last event.
   */
  lemma InitializeClosesFirst(s: Service, ephemeralToken: string, microphoneId: Option<string>, inputs: InitInputs)
    requires Valid(s)
    requires InitializeSpec(s, ephemeralToken, microphoneId, inputs).outcome.Rejected?
    ensures var a := AttemptSpec(s, ephemeralToken, microphoneId, inputs);
            var r := InitializeSpec(s, ephemeralToken, microphoneId, inputs);
            var k := |r.state.log| - (if s.errorHandler.Some? then 1 else 0);
            && |a.state.log| <= k <= |r.state.log| && r.state.log[..|a.state.log|] == a.state.log
            && (s.errorHandler.Some? ==> r.state.log[k] == Call(s.errorHandler.value, Str(FailureText(r.outcome.error))))
            && Acts(r.state.log[|a.state.log|..k])
            && forall h :: h in Held(a.state) ==> ReleasedIn(r.state.log[|a.state.log|..k], h)
  {
    var a := AttemptSpec(s, ephemeralToken, microphoneId, inputs);
    AttemptFacts(s, ephemeralToken, microphoneId, inputs);
    CloseBeforeHandler(a.state, a.failure.value);
  }

  /** A stream without an audio track makes `addTrack` throw: `initialize` rejects with that TypeError. */
  lemma NoAudioTrackRejects(s: Service, ephemeralToken: string, microphoneId: Option<string>, inputs: InitInputs)
    requires inputs.media == Success(0)
    ensures InitializeSpec(s, ephemeralToken, microphoneId, inputs).outcome == Rejected(MissingTrackError)
  {
  }

  lemma OneTrackAdded(before: seq<Event>, add: Event, rest: seq<Event>, after: seq<Event>)
    requires NoAddTrack(before) && NoAddTrack(rest) && NoAddTrack(after)
    requires add.Perform? && add.action.AddTrack?
    ensures AddedTracks(before + ([add] + rest) + after) == [add.action.track]
  {
    NoAddTrackAddsNothing(before);
    NoAddTrackAddsNothing(rest);
    NoAddTrackAddsNothing(after);
    assert ([add] + rest)[1..] == rest;
    assert AddedTracks([add] + rest) == [add.action.track] + AddedTracks(rest);
    AddedTracksAppend(before, [add] + rest);
    AddedTracksAppend(before + ([add] + rest), after);
  }

  /** A log that grows by one added track and then only by other events adds exactly that track. */
  lemma FirstTrackOnly(prefix: seq<Event>, add: Event, rest: seq<Event>, full: seq<Event>)
    requires add.Perform? && add.action.AddTrack? && NoAddTrack(rest)
    requires |prefix + ([add] + rest)| <= |full| && full[..|prefix + ([add] + rest)|] == prefix + ([add] + rest)
    requires NoAddTrack(full[|prefix + ([add] + rest)|..])
    ensures |prefix| <= |full| && full[..|prefix|] == prefix
    ensures AddedTracks(full[|prefix|..]) == [add.action.track]
  {
    var mid := prefix + ([add] + rest);
    var after := full[|mid|..];
    assert full == mid + after;
    assert full[..|prefix|] == prefix;
    assert full[|prefix|..] == [] + ([add] + rest) + after;
    OneTrackAdded([], add, rest, after);
  }

  lemma CaptureAddsFirstTrack(o: Service, pc: Handle, ephemeralToken: string, inputs: InitInputs)
    requires inputs.media.Success? && inputs.media.value > 0
    ensures var a := CaptureSpec(o, pc, ephemeralToken, inputs);
            && a.state.mediaStream.Some?
            && |o.log| <= |a.state.log| && a.state.log[..|o.log|] == o.log
            && AddedTracks(a.state.log[|o.log|..]) == [a.state.mediaStream.value.tracks[0]]
  {
    var n := inputs.media.value;
    var stream := NewStream(o.next, n);
    var dc := Handle(o.next + n);
    var add := Perform(AddTrack(pc, stream.tracks[0]));
    var rest := [Perform(CreateDataChannel(pc, EventsChannelLabel, dc)), Perform(SetMessageHandler(dc)),
                 Perform(CreateOffer(pc))];
    var s3 := o.(mediaStream := Some(stream), live := o.live + TrackSet(stream), next := o.next + n);
    var s4 := s3.(dataChannel := Some(dc), live := s3.live + {dc}, next := s3.next + 1, log := s3.log + ([add] + rest));
    assert CaptureSpec(o, pc, ephemeralToken, inputs) == OfferSpec(s4, pc, ephemeralToken, inputs);
    OfferOnlyLogs(s4, pc, ephemeralToken, inputs);
    FirstTrackOnly(o.log, add, rest, OfferSpec(s4, pc, ephemeralToken, inputs).state.log);
  }

  lemma OpenAddsNoTrack(s: Service, microphoneId: Option<string>)
    ensures var o := Opened(CloseSpec(s), microphoneId);
            |s.log| <= |o.log| && o.log[..|s.log|] == s.log && NoAddTrack(o.log[|s.log|..])
  {
    var o := Opened(CloseSpec(s), microphoneId);
    var x := o.log[|s.log|..];
    assert o.log == s.log + x;
    CloseOrder(s);
    assert NoAddTrack(CloseEvents(s));
  }

  lemma AddedAfterPrefix(base: seq<Event>, mid: seq<Event>, full: seq<Event>)
    requires |base| <= |mid| <= |full| && full[..|mid|] == mid && mid[..|base|] == base
    requires NoAddTrack(mid[|base|..])
    ensures AddedTracks(full[|base|..]) == AddedTracks(full[|mid|..])
  {
    assert full[|base|..] == mid[|base|..] + full[|mid|..];
    NoAddTrackAddsNothing(mid[|base|..]);
    AddedTracksAppend(mid[|base|..], full[|mid|..]);
  }

  /** Only the first track of the stream is added to the peer connection. */
  lemma OnlyFirstTrackAdded(s: Service, ephemeralToken: string, microphoneId: Option<string>, inputs: InitInputs)
    requires inputs.media.Success? && inputs.media.value > 0
    ensures var a := AttemptSpec(s, ephemeralToken, microphoneId, inputs);
            && a.state.mediaStream.Some?
            && |s.log| <= |a.state.log|
            && AddedTracks(a.state.log[|s.log|..]) == [a.state.mediaStream.value.tracks[0]]
  {
    var c := CloseSpec(s);
    var o := Opened(c, microphoneId);
    CaptureAddsFirstTrack(o, Handle(c.next), ephemeralToken, inputs);
    OpenAddsNoTrack(s, microphoneId);
    AddedAfterPrefix(s.log, o.log, AttemptSpec(s, ephemeralToken, microphoneId, inputs).state.log);
  }

  // ---------------------------------------------------------------------------
  // Handlers and messages

  /** `setHandlers` replaces all three handlers and nothing else. */
  lemma SetHandlersReplacesAll(s: Service, transcript: Handler, error: Handler, connectionState: Handler)
    ensures var t := SetHandlersSpec(s, transcript, error, connectionState);
            && t.transcriptHandler == Some(transcript) && t.errorHandler == Some(error)
            && t.connectionStateHandler == Some(connectionState)
            && t.(transcriptHandler := s.transcriptHandler, errorHandler := s.errorHandler,
                  connectionStateHandler := s.connectionStateHandler) == s
  {
  }

  /** A message changes nothing but the log, and adds at most one handler call. */
  lemma MessageCallsAtMostOnce(s: Service, m: MessageData)
    ensures var t := MessageSpec(s, m);
            && t == s.(log := t.log)
            && |s.log| <= |t.log| <= |s.log| + 1 && t.log[..|s.log|] == s.log
            && (forall i :: |s.log| <= i < |t.log| ==> t.log[i].Call?)
  {
  }

  /** A message the service cannot read (not JSON, or JSON null) is reported to the error handler. */
  lemma UnreadableMessageReported(s: Service, m: MessageData)
    requires m.Unparsable? || m.data.Null? || m.data.Undefined?
    requires s.errorHandler.Some?
    ensures MessageSpec(s, m).log == s.log + [Call(s.errorHandler.value, Str(ProcessingFailedMessage))]
  {
  }

  /** A `transcription` message goes to the transcript handler with its `text`, when one is set. */
  lemma TranscriptionForwarded(s: Service, fields: map<string, Value>)
    requires "type" in fields && fields["type"] == Str(TranscriptionTag)
    ensures var t := MessageSpec(s, Parsed(Obj(fields)));
            t.log == s.log + (if s.transcriptHandler.Some?
                              then [Call(s.transcriptHandler.value, if "text" in fields then fields["text"] else Undefined)]
                              else [])
  {
    assert |TranscriptionTag| != |ErrorTag|;
  }

  /**
   * An `error` message goes to the error handler with its `message`, or with the fixed fallback when
   * the message is missing or falsy; the argument is never falsy.
   */
  lemma ErrorForwarded(s: Service, fields: map<string, Value>)
    requires "type" in fields && fields["type"] == Str(ErrorTag)
    requires s.errorHandler.Some?
    ensures var t := MessageSpec(s, Parsed(Obj(fields)));
            var message := if "message" in fields then fields["message"] else Undefined;
            && t.log == s.log + [Call(s.errorHandler.value, if Truthy(message) then message else Str(UnknownOpenAiError))]
            && Truthy(t.log[|s.log|].argument)
  {
    assert |TranscriptionTag| != |ErrorTag|;
  }

  /** Any other JSON object, or a primitive, calls no handler. */
  lemma OtherMessagesIgnored(s: Service, data: Value)
    requires !data.Null? && !data.Undefined?
    requires OptMember(data, "type") != Str(TranscriptionTag) && OptMember(data, "type") != Str(ErrorTag)
    ensures MessageSpec(s, Parsed(data)) == s
  {
  }

  /** The state handler hears the state exactly when a peer connection and a handler are both present. */
  lemma StateReportedWhenConnected(s: Service, state: PeerState)
    ensures var t := StateChangeSpec(s, state);
            && t == s.(log := t.log)
            && (s.peerConnection.Some? && s.connectionStateHandler.Some? ==>
                  t.log == s.log + [Report(s.connectionStateHandler.value, state)])
            && (s.peerConnection.None? || s.connectionStateHandler.None? ==> t == s)
  {
  }
}
