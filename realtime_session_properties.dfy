/**
 * What `RealtimeTranscriptionService` (frontend/src/services/webrtc/index.ts)
 * guarantees, and what it does not, stated about the functions that specify
 * its methods in module RealtimeSession.
 */
module RealtimeSessionProperties {
  import opened Js
  import opened Browser
  import opened RealtimeEvents
  import opened RealtimeSession
  import TokenClient

  // ---------------------------------------------------------------------------
  // Logs

  /** Only browser calls, no callbacks. */
  predicate Acts(events: seq<Event>) {
    forall i :: 0 <= i < |events| ==> events[i].Perform?
  }

  /** `b` is `a` followed by browser calls only. */
  predicate Appends(a: seq<Event>, b: seq<Event>) {
    |a| <= |b| && b[..|a|] == a && Acts(b[|a|..])
  }

  lemma {:induction false} CallbacksAppend(a: seq<Event>, b: seq<Event>)
    ensures Callbacks(a + b) == Callbacks(a) + Callbacks(b)
  {
    if a == [] {
      assert a + b == b;
    } else {
      var head := if a[0].Notify? then [a[0].callback] else [];
      assert (a + b)[0] == a[0];
      assert (a + b)[1..] == a[1..] + b;
      CallbacksAppend(a[1..], b);
      calc {
        Callbacks(a + b);
        head + Callbacks((a + b)[1..]);
        head + (Callbacks(a[1..]) + Callbacks(b));
        (head + Callbacks(a[1..])) + Callbacks(b);
      }
    }
  }

  lemma {:induction false} ActsHaveNoCallbacks(events: seq<Event>)
    requires Acts(events)
    ensures Callbacks(events) == []
  {
    if events != [] {
      ActsHaveNoCallbacks(events[1..]);
    }
  }

  lemma AppendsTransitive(a: seq<Event>, b: seq<Event>, c: seq<Event>)
    requires Appends(a, b) && Appends(b, c)
    ensures Appends(a, c)
  {
    assert c[..|a|] == b[..|a|];
    forall i | 0 <= i < |c| - |a|
      ensures c[|a|..][i].Perform?
    {
      if |a| + i < |b| {
        assert c[|a| + i] == b[|a| + i] == b[|a|..][i];
      } else {
        assert c[|a| + i] == c[|b|..][|a| + i - |b|];
      }
    }
  }

  lemma AppendsActs(a: seq<Event>, x: seq<Event>)
    requires Acts(x)
    ensures Appends(a, a + x)
  {
    assert (a + x)[..|a|] == a;
    assert (a + x)[|a|..] == x;
  }

  // ---------------------------------------------------------------------------
  // stopTranscription

  /** The rank of a teardown step: channel, then peer connection, then tracks, then token, then the callback. */
  function Phase(e: Event): nat {
    match e
    case Notify(_) => 4
    case Perform(a) =>
      match a
      case RemoveMessageListener(_) => 0
      case CloseChannel(_) => 0
      case RemoveStateListener(_) => 1
      case ClosePeer(_) => 1
      case StopTrack(_) => 2
      case ForgetToken => 3
      case _ => 5
  }

  predicate InPhaseOrder(events: seq<Event>) {
    forall i, j :: 0 <= i < j < |events| ==> Phase(events[i]) <= Phase(events[j])
  }

  predicate AllInPhase(events: seq<Event>, p: nat) {
    forall i :: 0 <= i < |events| ==> Phase(events[i]) == p
  }

  predicate PhasesAtMost(events: seq<Event>, p: nat) {
    forall i :: 0 <= i < |events| ==> Phase(events[i]) <= p
  }

  lemma OrderedConcat(a: seq<Event>, b: seq<Event>, q: nat)
    requires InPhaseOrder(a) && PhasesAtMost(a, q) && AllInPhase(b, q)
    ensures InPhaseOrder(a + b) && PhasesAtMost(a + b, q)
  {
    forall i, j | 0 <= i < j < |a + b|
      ensures Phase((a + b)[i]) <= Phase((a + b)[j])
    {
      if j < |a| {
        assert (a + b)[i] == a[i] && (a + b)[j] == a[j];
      } else if i < |a| {
        assert (a + b)[i] == a[i] && (a + b)[j] == b[j - |a|];
      } else {
        assert (a + b)[i] == b[i - |a|] && (a + b)[j] == b[j - |a|];
      }
    }
    forall i | 0 <= i < |a + b|
      ensures Phase((a + b)[i]) <= q
    {
      if i < |a| {
        assert (a + b)[i] == a[i];
      } else {
        assert (a + b)[i] == b[i - |a|];
      }
    }
  }

  function ChannelRelease(s: Session): seq<Event> {
    if s.dataChannel.Some?
    then [Perform(RemoveMessageListener(s.dataChannel.value)), Perform(CloseChannel(s.dataChannel.value))]
    else []
  }

  function PeerRelease(s: Session): seq<Event> {
    if s.peerConnection.Some?
    then [Perform(RemoveStateListener(s.peerConnection.value)), Perform(ClosePeer(s.peerConnection.value))]
    else []
  }

  function TrackRelease(s: Session): seq<Event> {
    if s.mediaStream.Some? then TrackStops(s.mediaStream.value.tracks) else []
  }

  function StopNotice(s: Session): seq<Event> {
    if s.options.Some? then [Notify(OnStatusChange(Status.Disconnected))] else []
  }

  lemma StopEventsParts(s: Session)
    ensures StopEvents(s) == ChannelRelease(s) + PeerRelease(s) + TrackRelease(s) + [Perform(ForgetToken)]
                             + StopNotice(s)
  {
  }

  lemma ReleasePhases(s: Session)
    ensures AllInPhase(ChannelRelease(s), 0) && AllInPhase(PeerRelease(s), 1)
    ensures AllInPhase(TrackRelease(s), 2) && AllInPhase(StopNotice(s), 4)
  {
  }

  /**
   * Teardown releases in a fixed order: the data channel (listener removed, then closed), then the
   * peer connection, then every track, then the token, and only then tells the caller.
   */
  lemma StopReleasesInOrder(s: Session)
    ensures InPhaseOrder(StopEvents(s))
  {
    var a, b, c, e := ChannelRelease(s), PeerRelease(s), TrackRelease(s), StopNotice(s);
    StopEventsParts(s);
    ReleasePhases(s);
    assert InPhaseOrder(a) && PhasesAtMost(a, 1);
    OrderedConcat(a, b, 1);
    OrderedConcat(a + b, c, 2);
    OrderedConcat(a + b + c, [Perform(ForgetToken)], 3);
    OrderedConcat(a + b + c + [Perform(ForgetToken)], e, 4);
  }

  /** The last teardown step is the `disconnected` callback when options are set, else forgetting the token. */
  lemma StopEndsWithNotice(s: Session)
    ensures StopEvents(s)[|StopEvents(s)| - 1] ==
            if s.options.Some? then Notify(OnStatusChange(Status.Disconnected)) else Perform(ForgetToken)
  {
    StopEventsParts(s);
  }

  /** Teardown releases every handle the service holds. */
  lemma StopReleasesEveryHandle(s: Session)
    ensures s.dataChannel.Some? ==> Perform(CloseChannel(s.dataChannel.value)) in StopEvents(s)
    ensures s.peerConnection.Some? ==> Perform(ClosePeer(s.peerConnection.value)) in StopEvents(s)
    ensures s.mediaStream.Some? ==>
              forall t :: t in s.mediaStream.value.tracks ==> Perform(StopTrack(t)) in StopEvents(s)
  {
    var a, b, c, e := ChannelRelease(s), PeerRelease(s), TrackRelease(s), StopNotice(s);
    StopEventsParts(s);
    var all := a + b + c + [Perform(ForgetToken)] + e;
    if s.dataChannel.Some? {
      assert all[1] == Perform(CloseChannel(s.dataChannel.value));
    }
    if s.peerConnection.Some? {
      assert all[|a| + 1] == Perform(ClosePeer(s.peerConnection.value));
    }
    if s.mediaStream.Some? {
      forall t | t in s.mediaStream.value.tracks
        ensures Perform(StopTrack(t)) in StopEvents(s)
      {
        var k :| 0 <= k < |s.mediaStream.value.tracks| && s.mediaStream.value.tracks[k] == t;
        assert all[|a| + |b| + k] == c[k];
      }
    }
  }

  /** Some event of `events` releases handle `h`: it closes it as a channel or a connection, or stops it as a track. */
  predicate ReleasedIn(events: seq<Event>, h: Handle) {
    Perform(CloseChannel(h)) in events || Perform(ClosePeer(h)) in events || Perform(StopTrack(h)) in events
  }

  /** Every handle the service holds has its release step in the teardown. */
  lemma HeldReleased(s: Session)
    ensures forall h :: h in Held(s) ==> ReleasedIn(StopEvents(s), h)
  {
    StopReleasesEveryHandle(s);
  }

  /** The only callback teardown makes is `disconnected`, and only when options are set. */
  lemma StopCallbacks(s: Session)
    ensures Callbacks(StopEvents(s)) == if s.options.Some? then [OnStatusChange(Status.Disconnected)] else []
  {
    var releases := ChannelRelease(s) + PeerRelease(s) + TrackRelease(s) + [Perform(ForgetToken)];
    StopEventsParts(s);
    assert Acts(releases);
    ActsHaveNoCallbacks(releases);
    CallbacksAppend(releases, StopNotice(s));
    if s.options.Some? {
      assert StopNotice(s)[1..] == [];
    }
  }

  /** After a stop the service holds nothing, none of what it held is open, and nothing new is open. */
  lemma StopReleasesEverything(s: Session)
    ensures var t := StopSpec(s);
            && t.dataChannel.None? && t.peerConnection.None? && t.mediaStream.None? && t.ephemeralToken.None?
            && Held(s) !! t.live && t.live <= s.live
            && t.options == s.options && t.next == s.next
  {
  }

  /** A stop on a service that holds nothing releases nothing; it clears the token and repeats `disconnected`. */
  lemma StopWithNothingHeld(s: Session)
    requires s.dataChannel.None? && s.peerConnection.None? && s.mediaStream.None?
    ensures StopSpec(s) == s.(ephemeralToken := None,
                              log := s.log + [Perform(ForgetToken)]
                                     + (if s.options.Some? then [Notify(OnStatusChange(Status.Disconnected))] else []))
  {
    assert Held(s) == {};
  }

  /** Stopping twice releases exactly what stopping once does; the second stop only repeats the callback. */
  lemma StopTwice(s: Session)
    ensures var once := StopSpec(s);
            StopSpec(once) == once.(log := once.log + [Perform(ForgetToken)]
                                           + (if s.options.Some? then [Notify(OnStatusChange(Status.Disconnected))] else []))
  {
    StopWithNothingHeld(StopSpec(s));
  }

  // ---------------------------------------------------------------------------
  // startTranscription

  /** Every open handle is an old one or one the attempt created and still holds. */
  predicate CreatedAreHeld(s: Session, t: Session) {
    forall h :: h in t.live ==> h in s.live || (s.next <= h.id < t.next && h in Held(t))
  }

  /** A fully connected state: all three handles held and open, all created after `s`. */
  predicate FreshlyConnected(s: Session, t: Session) {
    && t.peerConnection.Some? && t.dataChannel.Some? && t.mediaStream.Some?
    && Held(t) <= t.live
    && (forall h :: h in Held(t) ==> s.next <= h.id < t.next)
  }

  lemma OfferOnlyLogs(s: Session, pc: Handle, token: string, inputs: StartInputs)
    ensures var n := OfferSpec(s, pc, token, inputs);
            n.state == s.(log := n.state.log) && Appends(s.log, n.state.log)
  {
    var n := OfferSpec(s, pc, token, inputs);
    var x := n.state.log[|s.log|..];
    assert n.state.log == s.log + x;
    assert Acts(x);
  }

  lemma ConnectFacts(s: Session, token: string, inputs: StartInputs)
    requires s.mediaStream.Some?
    ensures var n := ConnectSpec(s, token, inputs);
            && Appends(s.log, n.state.log)
            && n.state.options == s.options && n.state.ephemeralToken == s.ephemeralToken
            && n.state.mediaStream == s.mediaStream
            && n.state.next == s.next + 2
            && n.state.peerConnection == Some(Handle(s.next))
            && n.state.dataChannel == Some(Handle(s.next + 1))
            && n.state.live == s.live + {Handle(s.next), Handle(s.next + 1)}
  {
    var pc := Handle(s.next);
    var tracks := s.mediaStream.value.tracks;
    var s3 := s.(peerConnection := Some(pc), live := s.live + {pc}, next := s.next + 1,
                 log := s.log + [Perform(CreatePeerConnection(pc))] + AddTracks(pc, tracks));
    var dc := Handle(s3.next);
    var s4 := s3.(dataChannel := Some(dc), live := s3.live + {dc}, next := s3.next + 1,
                  log := s3.log + [Perform(CreateDataChannel(pc, EventsChannelLabel, dc)),
                                   Perform(AddMessageListener(dc))]);
    var s5 := Log(s4, CreateOffer(pc));
    AppendsActs(s.log, [Perform(CreatePeerConnection(pc))] + AddTracks(pc, tracks)
                       + [Perform(CreateDataChannel(pc, EventsChannelLabel, dc)), Perform(AddMessageListener(dc)),
                          Perform(CreateOffer(pc))]);
    assert s5.log == s.log + ([Perform(CreatePeerConnection(pc))] + AddTracks(pc, tracks)
                       + [Perform(CreateDataChannel(pc, EventsChannelLabel, dc)), Perform(AddMessageListener(dc)),
                          Perform(CreateOffer(pc))]);
    OfferOnlyLogs(s5, pc, token, inputs);
    AppendsTransitive(s.log, s5.log, ConnectSpec(s, token, inputs).state.log);
  }

  lemma CaptureAndConnect(s: Session, n: nat, token: string, inputs: StartInputs)
    requires Valid(s)
    ensures var r := ConnectSpec(Captured(s, n), token, inputs);
            && Appends(s.log, r.state.log)
            && r.state.options == s.options && r.state.ephemeralToken == s.ephemeralToken
            && s.next <= r.state.next
            && CreatedAreHeld(s, r.state)
            && Valid(r.state)
            && FreshlyConnected(s, r.state)
  {
    var c := Captured(s, n);
    var stream := NewStream(s.next, n);
    assert forall t :: t in stream.tracks ==> s.next <= t.id < s.next + n;
    ConnectFacts(c, token, inputs);
    var r := ConnectSpec(c, token, inputs);
    assert Held(r.state) == {Handle(c.next + 1)} + {Handle(c.next)} + TrackSet(stream);
    assert c.log == s.log && s.log[..|s.log|] == s.log && s.log[|s.log|..] == [];
  }

  lemma PrefixAppends(s: Session, x: seq<Event>)
    requires Acts(x)
    ensures Appends(s.log, s.log + x)
  {
    AppendsActs(s.log, x);
  }

  /** The token is obtained and the microphone is granted, so the peer connection gets created. */
  predicate Reached(inputs: StartInputs) {
    var r := TokenClient.GetEphemeralToken(inputs.token);
    r.Success? && TokenValue(r.value).Success? && inputs.media.Success?
  }

  /**
   * The try block performs browser calls only; it never calls back. Everything it opens it also
   * holds, and on success it holds a full set of new, open handles and the token.
   */
  lemma NegotiateFacts(s: Session, apiKey: string, opts: TranscriptionOptions, inputs: StartInputs)
    requires Valid(s)
    ensures var n := NegotiateSpec(s, apiKey, opts, inputs);
            && Appends(s.log, n.state.log)
            && n.state.options == s.options
            && s.next <= n.state.next
            && CreatedAreHeld(s, n.state)
            && Valid(n.state)
            && (n.failure.None? ==> FreshlyConnected(s, n.state) && n.state.ephemeralToken.Some?)
  {
    var s1 := Log(s, RequestToken(apiKey));
    PrefixAppends(s, [Perform(RequestToken(apiKey))]);
    var r := TokenClient.GetEphemeralToken(inputs.token);
    if r.Success? && TokenValue(r.value).Success? {
      var token := TokenValue(r.value).value;
      var s2 := Log(s1.(ephemeralToken := Some(token)), GetUserMedia(AudioFor(opts.selectedMicrophoneId)));
      PrefixAppends(s1, [Perform(GetUserMedia(AudioFor(opts.selectedMicrophoneId)))]);
      AppendsTransitive(s.log, s1.log, s2.log);
      assert Held(s2) == Held(s);
      if inputs.media.Success? {
        CaptureAndConnect(s2, inputs.media.value, ToJsString(token), inputs);
        AppendsTransitive(s.log, s2.log, NegotiateSpec(s, apiKey, opts, inputs).state.log);
      }
    } else {
      assert Held(s1) == Held(s);
    }
  }

  /** Once the peer connection is created, the service holds only new handles, and all that was open stays open. */
  lemma NegotiateReached(s: Session, apiKey: string, opts: TranscriptionOptions, inputs: StartInputs)
    requires Valid(s) && Reached(inputs)
    ensures var n := NegotiateSpec(s, apiKey, opts, inputs);
            FreshlyConnected(s, n.state) && s.live <= n.state.live
  {
    var token := TokenValue(TokenClient.GetEphemeralToken(inputs.token).value).value;
    var s2 := Log(Log(s, RequestToken(apiKey)).(ephemeralToken := Some(token)),
                  GetUserMedia(AudioFor(opts.selectedMicrophoneId)));
    CaptureAndConnect(s2, inputs.media.value, ToJsString(token), inputs);
    ConnectFacts(Captured(s2, inputs.media.value), ToJsString(token), inputs);
  }

  /** Before the peer connection is created, the attempt has opened and allocated nothing. */
  lemma NegotiateUnreached(s: Session, apiKey: string, opts: TranscriptionOptions, inputs: StartInputs)
    requires !Reached(inputs)
    ensures var n := NegotiateSpec(s, apiKey, opts, inputs);
            && n.failure.Some?
            && n.state.live == s.live && Held(n.state) == Held(s) && n.state.next == s.next
            && n.state.log[..|s.log|] == s.log && NoNegotiation(n.state.log[|s.log|..])
  {
    var n := NegotiateSpec(s, apiKey, opts, inputs);
    var x := n.state.log[|s.log|..];
    assert n.state.log == s.log + x;
    assert NoNegotiation(x);
  }

  /** What a log gains after `base`, when it first gains browser calls only and then `tail`. */
  lemma AppendedCallbacks(base: seq<Event>, b: seq<Event>, tail: seq<Event>)
    requires Appends(base, b)
    ensures |base| <= |b + tail| && (b + tail)[..|base|] == base
    ensures Callbacks((b + tail)[|base|..]) == Callbacks(tail)
  {
    var x := b[|base|..];
    assert b == base + x;
    assert (b + tail)[|base|..] == x + tail;
    ActsHaveNoCallbacks(x);
    CallbacksAppend(x, tail);
  }

  /** What the log gains over a start: `connecting`, browser calls only, then `tail`. */
  lemma StartTail(s: Session, opts: TranscriptionOptions, b: seq<Event>, tail: seq<Event>)
    requires Appends(Announced(s, opts).log, b)
    ensures |s.log| <= |b + tail| && (b + tail)[..|s.log|] == s.log
    ensures Callbacks((b + tail)[|s.log|..]) == [OnStatusChange(Status.Connecting)] + Callbacks(tail)
  {
    var c := [Notify(OnStatusChange(Status.Connecting))];
    var s0 := Announced(s, opts);
    assert s0.log == s.log + c;
    AppendedCallbacks(s0.log, b, tail);
    var rest := (b + tail)[|s0.log|..];
    assert b + tail == s0.log + rest;
    assert b + tail == s.log + (c + rest);
    assert (b + tail)[|s.log|..] == c + rest;
    CallbacksAppend(c, rest);
  }

  lemma ExtendedLog(base: seq<Event>, x: seq<Event>, y: seq<Event>)
    ensures |base| <= |base + x + y| && (base + x + y)[..|base|] == base
    ensures Callbacks((base + x + y)[|base|..]) == Callbacks(x) + Callbacks(y)
  {
    assert (base + x + y)[|base|..] == x + y;
    CallbacksAppend(x, y);
  }

  lemma TwoCallbacks(x: Callback, y: Callback)
    ensures Callbacks([Notify(x), Notify(y)]) == [x, y]
  {
    var one := [Notify(y)];
    assert one[1..] == [];
    assert Callbacks(one) == [y] + Callbacks([]);
    assert Callbacks(one) == [y];
    assert [Notify(x), Notify(y)][1..] == one;
    assert Callbacks([Notify(x), Notify(y)]) == [x] + Callbacks(one);
  }

  /** Reporting an error and tearing down tells the caller `error`, the error, then `disconnected`. */
  lemma TeardownAfterError(m: Session, e: Exception)
    requires m.options.Some?
    ensures var t := StopSpec(Tell(Tell(m, OnStatusChange(Status.Error)), OnError(e)));
            && |m.log| <= |t.log| && t.log[..|m.log|] == m.log
            && Callbacks(t.log[|m.log|..]) == [OnStatusChange(Status.Error), OnError(e), OnStatusChange(Status.Disconnected)]
  {
    var f := Tell(Tell(m, OnStatusChange(Status.Error)), OnError(e));
    var told := [Notify(OnStatusChange(Status.Error)), Notify(OnError(e))];
    assert StopSpec(f).log == m.log + told + StopEvents(f);
    StopCallbacks(f);
    TwoCallbacks(OnStatusChange(Status.Error), OnError(e));
    NoticeTrio(m.log, told, StopEvents(f), OnStatusChange(Status.Error), OnError(e), OnStatusChange(Status.Disconnected));
  }

  /**
   * The `catch` reports `error` and the error first, and only then releases what is held: the two
   * callbacks come right after the log so far, and every release step comes after them.
   */
  lemma ErrorBeforeTeardown(m: Session, e: Exception)
    ensures var t := StopSpec(Tell(Tell(m, OnStatusChange(Status.Error)), OnError(e)));
            && |m.log| + 2 <= |t.log|
            && t.log[|m.log|..|m.log| + 2] == [Notify(OnStatusChange(Status.Error)), Notify(OnError(e))]
            && forall h :: h in Held(m) ==> ReleasedIn(t.log[|m.log| + 2..], h)
  {
    var f := Tell(Tell(m, OnStatusChange(Status.Error)), OnError(e));
    assert Held(f) == Held(m);
    assert StopSpec(f).log[|m.log| + 2..] == StopEvents(f);
    HeldReleased(f);
  }

  lemma NoticeTrio(base: seq<Event>, told: seq<Event>, stop: seq<Event>, x: Callback, y: Callback, z: Callback)
    requires Callbacks(told) == [x, y] && Callbacks(stop) == [z]
    ensures |base| <= |base + told + stop| && (base + told + stop)[..|base|] == base
    ensures Callbacks((base + told + stop)[|base|..]) == [x, y, z]
  {
    ExtendedLog(base, told, stop);
  }

  /** A failed start tells its caller `connecting`, `error`, the error, then `disconnected`. */
  lemma StartFailureCallbacks(s: Session, apiKey: string, opts: TranscriptionOptions, inputs: StartInputs)
    requires Valid(s)
    requires NegotiateSpec(Announced(s, opts), apiKey, opts, inputs).failure.Some?
    ensures var e := NegotiateSpec(Announced(s, opts), apiKey, opts, inputs).failure.value;
            var t := StartSpec(s, apiKey, opts, inputs);
            && |s.log| <= |t.log| && t.log[..|s.log|] == s.log
            && Callbacks(t.log[|s.log|..]) == [OnStatusChange(Status.Connecting), OnStatusChange(Status.Error),
                                               OnError(e), OnStatusChange(Status.Disconnected)]
    ensures var n := NegotiateSpec(Announced(s, opts), apiKey, opts, inputs);
            var t := StartSpec(s, apiKey, opts, inputs);
            && |n.state.log| + 2 <= |t.log|
            && t.log[|n.state.log|..|n.state.log| + 2] ==
               [Notify(OnStatusChange(Status.Error)), Notify(OnError(n.failure.value))]
            && forall h :: h in Held(n.state) ==> ReleasedIn(t.log[|n.state.log| + 2..], h)
  {
    var s0 := Announced(s, opts);
    var n := NegotiateSpec(s0, apiKey, opts, inputs);
    NegotiateFacts(s0, apiKey, opts, inputs);
    var t := StartSpec(s, apiKey, opts, inputs);
    TeardownAfterError(n.state, n.failure.value);
    var tail := t.log[|n.state.log|..];
    assert t.log == n.state.log + tail;
    StartTail(s, opts, n.state.log, tail);
    ErrorBeforeTeardown(n.state, n.failure.value);
  }

  /** After a failed start the service holds nothing, and nothing the attempt opened is still open. */
  lemma StartFailureReleases(s: Session, apiKey: string, opts: TranscriptionOptions, inputs: StartInputs)
    requires Valid(s)
    requires NegotiateSpec(Announced(s, opts), apiKey, opts, inputs).failure.Some?
    ensures var t := StartSpec(s, apiKey, opts, inputs);
            && t.dataChannel.None? && t.peerConnection.None? && t.mediaStream.None? && t.ephemeralToken.None?
            && t.options == Some(opts)
            && (forall h :: h in t.live ==> h in s.live)
            && Valid(t)
  {
    var s0 := Announced(s, opts);
    var n := NegotiateSpec(s0, apiKey, opts, inputs);
    NegotiateFacts(s0, apiKey, opts, inputs);
    var f := Tell(Tell(n.state, OnStatusChange(Status.Error)), OnError(n.failure.value));
    assert Held(f) == Held(n.state);
    assert StartSpec(s, apiKey, opts, inputs).live == n.state.live - Held(n.state);
  }

  /** A start in which every step succeeds reports `connecting` then `connected`. */
  lemma StartSuccessCallbacks(s: Session, apiKey: string, opts: TranscriptionOptions, inputs: StartInputs)
    requires Valid(s)
    requires NegotiateSpec(Announced(s, opts), apiKey, opts, inputs).failure.None?
    ensures var t := StartSpec(s, apiKey, opts, inputs);
            && |s.log| <= |t.log| && t.log[..|s.log|] == s.log
            && Callbacks(t.log[|s.log|..]) == [OnStatusChange(Status.Connecting), OnStatusChange(Status.Connected)]
  {
    var s0 := Announced(s, opts);
    var n := NegotiateSpec(s0, apiKey, opts, inputs);
    NegotiateFacts(s0, apiKey, opts, inputs);
    var t := StartSpec(s, apiKey, opts, inputs);
    var tail := [Notify(OnStatusChange(Status.Connected))];
    assert t.log == n.state.log + tail;
    StartTail(s, opts, n.state.log, tail);
  }

  /** A successful start holds a peer connection, a data channel, a stream and a token, all new and open. */
  lemma StartSuccessHolds(s: Session, apiKey: string, opts: TranscriptionOptions, inputs: StartInputs)
    requires Valid(s)
    requires NegotiateSpec(Announced(s, opts), apiKey, opts, inputs).failure.None?
    ensures var t := StartSpec(s, apiKey, opts, inputs);
            && FreshlyConnected(s, t) && t.ephemeralToken.Some?
            && t.options == Some(opts)
            && Valid(t)
  {
    var s0 := Announced(s, opts);
    NegotiateFacts(s0, apiKey, opts, inputs);
    assert Held(StartSpec(s, apiKey, opts, inputs)) == Held(NegotiateSpec(s0, apiKey, opts, inputs).state);
  }

  /** A negotiation that succeeds stored a string token: any other value fails at the log line before the POST. */
  lemma NegotiatedTokenIsString(s: Session, apiKey: string, opts: TranscriptionOptions, inputs: StartInputs)
    requires NegotiateSpec(Announced(s, opts), apiKey, opts, inputs).failure.None?
    ensures var n := NegotiateSpec(Announced(s, opts), apiKey, opts, inputs);
            n.state.ephemeralToken.Some? && n.state.ephemeralToken.value.Str?
  {
  }

  /**
   * A token that is truthy but not a string, such as the `42` of `{"client_secret": {"value": 42}}`, fails
   * the start right after the local description is set: `substring` is not a function, and nothing is posted.
   */
  lemma NonStringTokenFailsBeforePost(s: Session, apiKey: string, opts: TranscriptionOptions, inputs: StartInputs)
    requires inputs.token.Answered?
    requires TokenValue(inputs.token.data).Success? && !TokenValue(inputs.token.data).value.Str?
    requires inputs.media.Success? && inputs.offer.Success? && inputs.setLocal.Resolved?
    ensures var n := NegotiateSpec(Announced(s, opts), apiKey, opts, inputs);
            && n.failure == Some(PreviewError)
            && n.state.peerConnection.Some? && n.state.log != []
            && n.state.log[|n.state.log| - 1] == Perform(SetLocalDescription(n.state.peerConnection.value, inputs.offer.value))
  {
  }

  // ---------------------------------------------------------------------------
  // What a start acquires, and in what order

  /** A browser call that opens something or starts the negotiation. */
  predicate Acquires(a: Action) {
    a.GetUserMedia? || a.CreatePeerConnection? || a.AddTrack? || a.CreateDataChannel? || a.CreateOffer?
  }

  predicate AcquiresNothing(events: seq<Event>) {
    forall i :: 0 <= i < |events| && events[i].Perform? ==> !Acquires(events[i].action)
  }

  lemma AcquiresNothingConcat(a: seq<Event>, b: seq<Event>)
    requires AcquiresNothing(a) && AcquiresNothing(b)
    ensures AcquiresNothing(a + b)
  {
    forall i | 0 <= i < |a + b| && (a + b)[i].Perform?
      ensures !Acquires((a + b)[i].action)
    {
      if i < |a| {
        assert (a + b)[i] == a[i];
      } else {
        assert (a + b)[i] == b[i - |a|];
      }
    }
  }

  lemma StopAcquiresNothing(s: Session)
    ensures AcquiresNothing(StopEvents(s))
  {
    StopEventsParts(s);
    var a, b, c, e := ChannelRelease(s), PeerRelease(s), TrackRelease(s), StopNotice(s);
    assert AcquiresNothing(a) && AcquiresNothing(b) && AcquiresNothing(c) && AcquiresNothing(e);
    AcquiresNothingConcat(a, b);
    AcquiresNothingConcat(a + b, c);
    AcquiresNothingConcat(a + b + c, [Perform(ForgetToken)]);
    AcquiresNothingConcat(a + b + c + [Perform(ForgetToken)], e);
  }

  /**
   * When the token request fails, or its body has no client secret, the start asks for no microphone,
   * creates no peer connection, allocates nothing, and leaves open no more than was open before.
   */
  lemma TokenFailureAcquiresNothing(s: Session, apiKey: string, opts: TranscriptionOptions, inputs: StartInputs)
    requires var r := TokenClient.GetEphemeralToken(inputs.token);
             r.Failure? || TokenValue(r.value).Failure?
    ensures var t := StartSpec(s, apiKey, opts, inputs);
            && |s.log| <= |t.log| && t.log[..|s.log|] == s.log
            && AcquiresNothing(t.log[|s.log|..])
            && t.next == s.next && t.live <= s.live
  {
    var s0 := Announced(s, opts);
    var n := NegotiateSpec(s0, apiKey, opts, inputs);
    assert n.state == Log(s0, RequestToken(apiKey)) && n.failure.Some?;
    var f := Tell(Tell(n.state, OnStatusChange(Status.Error)), OnError(n.failure.value));
    var head := [Notify(OnStatusChange(Status.Connecting)), Perform(RequestToken(apiKey)),
                 Notify(OnStatusChange(Status.Error)), Notify(OnError(n.failure.value))];
    assert f.log == s.log + head && f.next == s.next && f.live == s.live;
    assert StartSpec(s, apiKey, opts, inputs) == StopSpec(f);
    StopAcquiresNothing(f);
    AcquiresNothingAfter(s.log, head, StopEvents(f));
  }

  lemma AcquiresNothingAfter(base: seq<Event>, head: seq<Event>, tail: seq<Event>)
    requires AcquiresNothing(head) && AcquiresNothing(tail)
    ensures |base| <= |base + head + tail| && (base + head + tail)[..|base|] == base
    ensures AcquiresNothing((base + head + tail)[|base|..])
  {
    assert (base + head + tail)[|base|..] == head + tail;
    AcquiresNothingConcat(head, tail);
  }

  /** A call that takes part in the offer/answer exchange. */
  predicate Negotiates(e: Event) {
    e.Perform? && (e.action.CreateOffer? || e.action.SetLocalDescription? || e.action.PostOffer?
                   || e.action.SetRemoteDescription?)
  }

  predicate ListensAt(events: seq<Event>, i: int) {
    0 <= i < |events| && events[i].Perform? && events[i].action.AddMessageListener?
  }

  /** Every negotiation call comes after some message listener was attached. */
  predicate ListenerFirst(events: seq<Event>) {
    forall j :: 0 <= j < |events| && Negotiates(events[j]) ==> exists i :: 0 <= i < j && ListensAt(events, i)
  }

  predicate NoNegotiation(events: seq<Event>) {
    forall j :: 0 <= j < |events| ==> !Negotiates(events[j])
  }

  lemma ListenerPrefix(q: seq<Event>, rest: seq<Event>, k: nat)
    requires NoNegotiation(q) && ListensAt(q, k)
    ensures ListenerFirst(q + rest)
  {
    assert forall j :: 0 <= j < |q| ==> (q + rest)[j] == q[j];
    forall j | 0 <= j < |q + rest| && Negotiates((q + rest)[j])
      ensures exists i :: 0 <= i < j && ListensAt(q + rest, i)
    {
      assert (q + rest)[k] == q[k];
      assert ListensAt(q + rest, k);
    }
  }

  lemma NoNegotiationConcat(a: seq<Event>, b: seq<Event>)
    requires NoNegotiation(a) && NoNegotiation(b)
    ensures NoNegotiation(a + b)
  {
    forall j | 0 <= j < |a + b|
      ensures !Negotiates((a + b)[j])
    {
      if j < |a| {
        assert (a + b)[j] == a[j];
      } else {
        assert (a + b)[j] == b[j - |a|];
      }
    }
  }

  lemma StopNegotiatesNothing(s: Session)
    ensures NoNegotiation(StopEvents(s))
  {
    StopEventsParts(s);
    var a, b, c, e := ChannelRelease(s), PeerRelease(s), TrackRelease(s), StopNotice(s);
    assert NoNegotiation(a) && NoNegotiation(b) && NoNegotiation(c) && NoNegotiation(e);
    NoNegotiationConcat(a, b);
    NoNegotiationConcat(a + b, c);
    NoNegotiationConcat(a + b + c, [Perform(ForgetToken)]);
    NoNegotiationConcat(a + b + c + [Perform(ForgetToken)], e);
  }

  /** The calls `ConnectSpec` makes before the offer: the peer connection, its tracks, the channel and its listener. */
  function ListenerSetup(s: Session): seq<Event>
    requires s.mediaStream.Some?
  {
    var pc := Handle(s.next);
    var dc := Handle(s.next + 1);
    [Perform(CreatePeerConnection(pc))] + AddTracks(pc, s.mediaStream.value.tracks)
    + [Perform(CreateDataChannel(pc, EventsChannelLabel, dc)), Perform(AddMessageListener(dc))]
  }

  lemma ConnectBeginsWithSetup(s: Session, token: string, inputs: StartInputs)
    requires s.mediaStream.Some?
    ensures var log := ConnectSpec(s, token, inputs).state.log;
            && |s.log + ListenerSetup(s)| <= |log|
            && log[..|s.log + ListenerSetup(s)|] == s.log + ListenerSetup(s)
  {
    var pc := Handle(s.next);
    var s5log := s.log + ListenerSetup(s) + [Perform(CreateOffer(pc))];
    var s4 := s.(log := s5log);
    OfferOnlyLogs(s4, pc, token, inputs);
    var log := ConnectSpec(s, token, inputs).state.log;
    assert log[..|s5log|] == s5log;
    assert s5log[..|s.log + ListenerSetup(s)|] == s.log + ListenerSetup(s);
  }

  lemma FailureTailNegotiatesNothing(m: Session, e: Exception)
    ensures var t := StopSpec(Tell(Tell(m, OnStatusChange(Status.Error)), OnError(e)));
            t.log == m.log + t.log[|m.log|..] && NoNegotiation(t.log[|m.log|..])
  {
    var f := Tell(Tell(m, OnStatusChange(Status.Error)), OnError(e));
    var told := [Notify(OnStatusChange(Status.Error)), Notify(OnError(e))];
    StopNegotiatesNothing(f);
    NoNegotiationConcat(told, StopEvents(f));
    var t := StopSpec(f);
    assert t.log == m.log + (told + StopEvents(f));
    assert t.log[|m.log|..] == told + StopEvents(f);
  }

  lemma ReachedListenerFirst(s: Session, apiKey: string, opts: TranscriptionOptions, inputs: StartInputs)
    requires Reached(inputs)
    ensures var log := NegotiateSpec(Announced(s, opts), apiKey, opts, inputs).state.log;
            exists q :: |s.log + q| <= |log| && log[..|s.log + q|] == s.log + q && NoNegotiation(q) && ListensAt(q, |q| - 1)
  {
    var s0 := Announced(s, opts);
    var token := TokenValue(TokenClient.GetEphemeralToken(inputs.token).value).value;
    var s2 := Log(Log(s0, RequestToken(apiKey)).(ephemeralToken := Some(token)),
                  GetUserMedia(AudioFor(opts.selectedMicrophoneId)));
    var c := Captured(s2, inputs.media.value);
    ConnectBeginsWithSetup(c, ToJsString(token), inputs);
    var q := [Notify(OnStatusChange(Status.Connecting)), Perform(RequestToken(apiKey)),
              Perform(GetUserMedia(AudioFor(opts.selectedMicrophoneId)))] + ListenerSetup(c);
    assert c.log + ListenerSetup(c) == s.log + q;
    assert NoNegotiation(q);
    assert ListensAt(q, |q| - 1);
  }

  /** Whatever a start appends to the log after the negotiation: `connected`, or the teardown. */
  lemma StartAfterNegotiation(s: Session, apiKey: string, opts: TranscriptionOptions, inputs: StartInputs)
    ensures var log := NegotiateSpec(Announced(s, opts), apiKey, opts, inputs).state.log;
            var t := StartSpec(s, apiKey, opts, inputs);
            |log| <= |t.log| && t.log[..|log|] == log && NoNegotiation(t.log[|log|..])
  {
    var n := NegotiateSpec(Announced(s, opts), apiKey, opts, inputs);
    if n.failure.Some? {
      FailureTailNegotiatesNothing(n.state, n.failure.value);
    } else {
      assert StartSpec(s, apiKey, opts, inputs).log[|n.state.log|..] == [Notify(OnStatusChange(Status.Connected))];
    }
  }

  lemma ListenerFirstAfterSetup(base: seq<Event>, log: seq<Event>, tail: seq<Event>, q: seq<Event>)
    requires |base + q| <= |log| && log[..|base + q|] == base + q
    requires NoNegotiation(q) && ListensAt(q, |q| - 1)
    ensures |base| <= |log + tail| && ListenerFirst((log + tail)[|base|..])
  {
    var rest := (log + tail)[|base + q|..];
    assert (log + tail)[|base|..] == q + rest;
    ListenerPrefix(q, rest, |q| - 1);
  }

  lemma ListenerFirstWithoutNegotiation(base: seq<Event>, head: seq<Event>, tail: seq<Event>)
    requires NoNegotiation(head) && NoNegotiation(tail)
    ensures ListenerFirst((base + head + tail)[|base|..])
  {
    assert (base + head + tail)[|base|..] == head + tail;
    NoNegotiationConcat(head, tail);
  }

  /**
   * The message listener is attached before the offer is created, applied, posted, and before the
   * answer is applied, so no event of the channel can be missed; an attempt that fails earlier
   * negotiates nothing.
   */
  lemma ListenerBeforeNegotiation(s: Session, apiKey: string, opts: TranscriptionOptions, inputs: StartInputs)
    ensures var t := StartSpec(s, apiKey, opts, inputs);
            |s.log| <= |t.log| && ListenerFirst(t.log[|s.log|..])
  {
    var s0 := Announced(s, opts);
    var log := NegotiateSpec(s0, apiKey, opts, inputs).state.log;
    var t := StartSpec(s, apiKey, opts, inputs);
    StartAfterNegotiation(s, apiKey, opts, inputs);
    var tail := t.log[|log|..];
    assert t.log == log + tail;
    if Reached(inputs) {
      ReachedListenerFirst(s, apiKey, opts, inputs);
      var q :| |s.log + q| <= |log| && log[..|s.log + q|] == s.log + q && NoNegotiation(q) && ListensAt(q, |q| - 1);
      ListenerFirstAfterSetup(s.log, log, tail, q);
    } else {
      NegotiateUnreached(s0, apiKey, opts, inputs);
      var c := [Notify(OnStatusChange(Status.Connecting))];
      var head := c + log[|s0.log|..];
      NoNegotiationConcat(c, log[|s0.log|..]);
      assert log == s.log + head;
      ListenerFirstWithoutNegotiation(s.log, head, tail);
    }
  }

  // ---------------------------------------------------------------------------
  // A start while a session is open

  /**
   * `startTranscription` does not stop a session that is already open. When the new attempt gets as
   * far as creating its peer connection, the old peer connection stays open but is no longer held by
   * the service, whether the new attempt succeeds or fails; nothing can close it afterwards.
   */
  lemma RestartLeaksOpenSession(s: Session, apiKey: string, opts: TranscriptionOptions, inputs: StartInputs)
    requires Valid(s) && Reached(inputs)
    requires s.peerConnection.Some? && s.peerConnection.value in s.live
    ensures var t := StartSpec(s, apiKey, opts, inputs);
            s.peerConnection.value in t.live && t.peerConnection != s.peerConnection
  {
    var s0 := Announced(s, opts);
    var n := NegotiateSpec(s0, apiKey, opts, inputs);
    NegotiateReached(s0, apiKey, opts, inputs);
    var previous := s.peerConnection.value;
    assert previous !in Held(n.state);
    var f := Tell(Tell(n.state, OnStatusChange(Status.Error)), OnError(PlainError("")));
    assert Held(f) == Held(n.state);
  }

  /**
   * When the new attempt fails before the peer connection is created, its teardown closes what the
   * old session held.
   */
  lemma EarlyRestartFailureClosesOpenSession(s: Session, apiKey: string, opts: TranscriptionOptions, inputs: StartInputs)
    requires !Reached(inputs)
    ensures var t := StartSpec(s, apiKey, opts, inputs);
            && Held(s) !! t.live && t.live == s.live - Held(s)
            && t.peerConnection.None? && t.dataChannel.None? && t.mediaStream.None?
  {
    var s0 := Announced(s, opts);
    var n := NegotiateSpec(s0, apiKey, opts, inputs);
    NegotiateUnreached(s0, apiKey, opts, inputs);
    var f := Tell(Tell(n.state, OnStatusChange(Status.Error)), OnError(n.failure.value));
    assert Held(f) == Held(n.state) == Held(s);
  }

  /** A start followed by a stop leaves nothing open that the start created, on any outcome. */
  lemma StartThenStopReleasesAttempt(s: Session, apiKey: string, opts: TranscriptionOptions, inputs: StartInputs)
    requires Valid(s)
    ensures var t := StopSpec(StartSpec(s, apiKey, opts, inputs));
            && t.peerConnection.None? && t.dataChannel.None? && t.mediaStream.None? && t.ephemeralToken.None?
            && (forall h :: h in t.live ==> h in s.live)
  {
    var s0 := Announced(s, opts);
    var n := NegotiateSpec(s0, apiKey, opts, inputs);
    if n.failure.Some? {
      StartFailureReleases(s, apiKey, opts, inputs);
    } else {
      NegotiateFacts(s0, apiKey, opts, inputs);
      assert Held(StartSpec(s, apiKey, opts, inputs)) == Held(n.state);
    }
  }

  // ---------------------------------------------------------------------------
  // handleConnectionStateChange and handleTranscriptionEvent

  /**
   * A `failed` connection is reported as `error`, then as an error with the fixed message, then torn
   * down: afterwards the service holds nothing and none of what it held is open.
   */
  lemma FailedConnectionTearsDown(s: Session)
    requires s.peerConnection.Some? && s.options.Some?
    ensures var t := ConnectionStateSpec(s, PeerState.Failed);
            && |s.log| <= |t.log| && t.log[..|s.log|] == s.log
            && Callbacks(t.log[|s.log|..]) == [OnStatusChange(Status.Error), OnError(PlainError(ConnectionFailedMessage)),
                                               OnStatusChange(Status.Disconnected)]
            && t.peerConnection.None? && t.dataChannel.None? && t.mediaStream.None?
            && Held(s) !! t.live
    ensures var t := ConnectionStateSpec(s, PeerState.Failed);
            && |s.log| + 2 <= |t.log|
            && t.log[|s.log|..|s.log| + 2] ==
               [Notify(OnStatusChange(Status.Error)), Notify(OnError(PlainError(ConnectionFailedMessage)))]
            && forall h :: h in Held(s) ==> ReleasedIn(t.log[|s.log| + 2..], h)
  {
    TeardownAfterError(s, PlainError(ConnectionFailedMessage));
    ErrorBeforeTeardown(s, PlainError(ConnectionFailedMessage));
    var f := Tell(Tell(s, OnStatusChange(Status.Error)), OnError(PlainError(ConnectionFailedMessage)));
    assert Held(f) == Held(s);
  }

  /** `disconnected` and `closed` are only reported: the service keeps every handle and closes nothing. */
  lemma DroppedConnectionKeepsHandles(s: Session, state: PeerState)
    requires state == PeerState.Disconnected || state == PeerState.Closed
    ensures var t := ConnectionStateSpec(s, state);
            && t.live == s.live && Held(t) == Held(s)
            && t.peerConnection == s.peerConnection && t.dataChannel == s.dataChannel && t.mediaStream == s.mediaStream
            && |s.log| <= |t.log| && t.log[..|s.log|] == s.log
            && Callbacks(t.log[|s.log|..]) ==
               (if s.peerConnection.Some? && s.options.Some? then [OnStatusChange(Status.Disconnected)] else [])
  {
    var t := ConnectionStateSpec(s, state);
    if s.peerConnection.Some? && s.options.Some? {
      assert t.log[|s.log|..] == [Notify(OnStatusChange(Status.Disconnected))];
    } else {
      assert t.log[|s.log|..] == [];
    }
  }

  /** Without a peer connection or stored options, no connection state, `failed` included, changes anything. */
  lemma ConnectionStateGuard(s: Session, state: PeerState)
    requires s.peerConnection.None? || s.options.None?
    ensures ConnectionStateSpec(s, state) == s
  {
  }

  /** `connected` reports exactly `connected` and changes nothing else. */
  lemma ConnectedReported(s: Session)
    requires s.peerConnection.Some? && s.options.Some?
    ensures ConnectionStateSpec(s, PeerState.Connected) == Tell(s, OnStatusChange(Status.Connected))
  {
  }

  /** Only `failed` releases anything; every state change keeps the stored options. */
  lemma OnlyFailureReleases(s: Session, state: PeerState)
    requires state != PeerState.Failed
    ensures var t := ConnectionStateSpec(s, state);
            t == s.(log := t.log) && |t.log| <= |s.log| + 1 && t.log[..|s.log|] == s.log
  {
  }

  /**
   * A data-channel message changes nothing but the log: it adds the one callback `Classify` finds,
   * if the service has options, and never a status change.
   */
  lemma MessageForwardsAtMostOne(s: Session, m: MessageData)
    ensures var t := MessageSpec(s, m);
            && t == s.(log := t.log)
            && |s.log| <= |t.log| <= |s.log| + 1 && t.log[..|s.log|] == s.log
            && (forall i :: |s.log| <= i < |t.log| ==> t.log[i].Notify? && !t.log[i].callback.OnStatusChange?)
            && (|t.log| == |s.log| + 1 <==> s.options.Some? && Classify(m).Some?)
  {
  }

  /** No operation clears the stored options once set. */
  lemma OptionsNeverCleared(s: Session, apiKey: string, opts: TranscriptionOptions, inputs: StartInputs,
                            m: MessageData, state: PeerState)
    ensures StartSpec(s, apiKey, opts, inputs).options == Some(opts)
    ensures StopSpec(s).options == s.options
    ensures MessageSpec(s, m).options == s.options
    ensures ConnectionStateSpec(s, state).options == s.options
  {
    NegotiateOptions(Announced(s, opts), apiKey, opts, inputs);
  }

  lemma NegotiateOptions(s: Session, apiKey: string, opts: TranscriptionOptions, inputs: StartInputs)
    ensures NegotiateSpec(s, apiKey, opts, inputs).state.options == s.options
  {
    var r := TokenClient.GetEphemeralToken(inputs.token);
    if Reached(inputs) {
      var token := TokenValue(r.value).value;
      var s2 := Log(Log(s, RequestToken(apiKey)).(ephemeralToken := Some(token)),
                    GetUserMedia(AudioFor(opts.selectedMicrophoneId)));
      ConnectFacts(Captured(s2, inputs.media.value), ToJsString(token), inputs);
    }
  }

  // ---------------------------------------------------------------------------
  // Every operation extends the log and keeps `Valid`

  /** A start only appends to the log, always at least `connecting`, and keeps the service valid. */
  lemma StartExtendsLog(s: Session, apiKey: string, opts: TranscriptionOptions, inputs: StartInputs)
    requires Valid(s)
    ensures var t := StartSpec(s, apiKey, opts, inputs);
            && |s.log| < |t.log| && t.log[..|s.log|] == s.log && Valid(t)
            && Callbacks(t.log[|s.log|..]) != []
            && Callbacks(t.log[|s.log|..])[0] == OnStatusChange(Status.Connecting)
  {
    var t := StartSpec(s, apiKey, opts, inputs);
    if NegotiateSpec(Announced(s, opts), apiKey, opts, inputs).failure.Some? {
      StartFailureCallbacks(s, apiKey, opts, inputs);
      StartFailureReleases(s, apiKey, opts, inputs);
    } else {
      StartSuccessCallbacks(s, apiKey, opts, inputs);
      StartSuccessHolds(s, apiKey, opts, inputs);
    }
  }

  /** A stop only appends to the log and keeps the service valid. */
  lemma StopExtendsLog(s: Session)
    ensures var t := StopSpec(s);
            && |s.log| <= |t.log| && t.log[..|s.log|] == s.log && (Valid(s) ==> Valid(t))
  {
    assert StopSpec(s).log[..|s.log|] == s.log;
  }

  /** A connection-state change only appends to the log and keeps the service valid. */
  lemma ConnectionStateExtendsLog(s: Session, state: PeerState)
    ensures var t := ConnectionStateSpec(s, state);
            && |s.log| <= |t.log| && t.log[..|s.log|] == s.log && (Valid(s) ==> Valid(t))
  {
    if state == PeerState.Failed && s.peerConnection.Some? && s.options.Some? {
      FailedConnectionTearsDown(s);
      StopExtendsLog(Tell(Tell(s, OnStatusChange(Status.Error)), OnError(PlainError(ConnectionFailedMessage))));
    } else if state != PeerState.Failed {
      OnlyFailureReleases(s, state);
    }
  }
}
