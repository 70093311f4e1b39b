/** The client side of a live stream (`start_live_stream`'s generator): the
    checks made before attaching to a tab, the server-sent-events framing of
    every event (section 9.2 of the WHATWG HTML Living Standard), and the
    loop that drains the event queue with keepalives and ends on the first
    error.

    JSON encoding is an input (`encode`); all that is assumed of it is what
    `json.dumps` guarantees by default, that its output holds no raw line
    feed. */
module StreamPublisher {
  import opened Wrappers
  import opened Text
  import opened Seqs
  import opened ChromeSupervisor
  import opened TabSelection
  import opened Screencast

  // ------------------------------------------------------------ framing

  const DataPrefix := "data: "

  /** One server-sent event carrying `payload` as its data. */
  function Chunk(payload: string): (c: string)
    ensures StartsWith(c, DataPrefix) && EndsWith(c, "\n\n")
    ensures |c| == |payload| + 8
  {
    DataPrefix + payload + "\n\n"
  }

  /** The bytes on the wire for a sequence of payloads. */
  function Wire(payloads: seq<string>): string {
    if |payloads| == 0 then "" else Chunk(payloads[0]) + Wire(payloads[1..])
  }

  predicate IsLineFeed(c: char) { c == '\n' }

  /** Reads back an event stream made of `data: <payload>` lines each followed
      by a blank line; fails on anything else. */
  function ParseStream(s: string): (r: Option<seq<string>>)
    decreases |s|
  {
    if |s| == 0 then Some([])
    else if !StartsWith(s, DataPrefix) then None
    else
      var body := s[|DataPrefix|..];
      match FirstIndex(body, IsLineFeed)
      case None => None
      case Some(k) =>
        if k + 1 < |body| && body[k + 1] == '\n' then
          match ParseStream(body[k + 2..])
          case None => None
          case Some(rest) => Some([body[..k]] + rest)
        else None
  }

  /** An event whose payload holds no line feed is read back whole, ahead
      of whatever follows it. */
  lemma ParseChunk(p: string, w: string)
    requires '\n' !in p
    ensures ParseStream(Chunk(p) + w) == (match ParseStream(w)
                                          case None => None
                                          case Some(rest) => Some([p] + rest))
  {
    var s := Chunk(p) + w;
    assert s == DataPrefix + (p + "\n\n" + w);
    assert StartsWith(s, DataPrefix) by {
      assert s[..|DataPrefix|] == DataPrefix;
    }
    var body := s[|DataPrefix|..];
    assert body == p + "\n\n" + w;
    assert body[|p|] == '\n';
    var k := FirstIndex(body, IsLineFeed);
    assert k.Some?;
    forall j | 0 <= j < |p| ensures !IsLineFeed(body[j]) {
      assert body[j] == p[j];
      assert p[j] in p;
    }
    assert k.value == |p|;
    assert body[..|p|] == p;
    assert body[|p| + 1] == '\n';
    assert body[|p| + 2..] == w;
  }

  /** A client that splits the stream into events recovers every payload, in
      order, as long as no payload holds a line feed. */
  lemma {:induction false} WireRoundTrip(payloads: seq<string>)
    requires forall i :: 0 <= i < |payloads| ==> '\n' !in payloads[i]
    ensures ParseStream(Wire(payloads)) == Some(payloads)
  {
    if |payloads| > 0 {
      ParseChunk(payloads[0], Wire(payloads[1..]));
      WireRoundTrip(payloads[1..]);
      assert [payloads[0]] + payloads[1..] == payloads;
    }
  }

  // ------------------------------------------------------------ before attaching

  /** How the generator starts: a single event and the end of the stream, or
      the tab to attach to. */
  datatype StreamStart = Rejected(event: StreamEvent) | Attach(port: int, tab: Tab)

  const NotStartedMessage := "Browser not started yet. Please wait..."
  const StillStartingMessage := "Browser is still starting up..."
  const NoTabsMessage := "No browser tabs found"
  const NoSocketMessage := "No WebSocket URL available for browser tab"

  /** The checks `generate_frames` makes before opening the DevTools socket. */
  function StartStream(instances: map<string, Instance>, taskId: string, probe: TabProbe): (r: StreamStart)
    ensures r.Attach? <==> taskId in instances && instances[taskId].status == Running &&
                           probe.ProbeOk? && |probe.tabs| > 0 &&
                           probe.tabs[StreamTabIndex(probe.tabs).value].wsUrl != ""
    ensures r.Attach? ==> r.port == instances[taskId].port &&
                          r.tab == probe.tabs[StreamTabIndex(probe.tabs).value]
    ensures taskId !in instances ==> r == Rejected(ErrorEvent(NotStartedMessage))
    ensures taskId in instances && instances[taskId].status == Starting ==>
              r == Rejected(ErrorEvent(StillStartingMessage))
    ensures r.Rejected? && r.event.UntypedError? <==>
              taskId in instances && instances[taskId].status == Running && probe.ProbeOk? &&
              (|probe.tabs| == 0 || probe.tabs[StreamTabIndex(probe.tabs).value].wsUrl == "")
    ensures taskId in instances && instances[taskId].status == Running && probe.ProbeOk? && |probe.tabs| == 0 ==>
              r == Rejected(UntypedError(NoTabsMessage))
  {
    if taskId !in instances then Rejected(ErrorEvent(NotStartedMessage))
    else
      var instance := instances[taskId];
      if instance.status != Running then Rejected(ErrorEvent(StillStartingMessage))
      else
        match probe
        case ProbeRaised(reason) => Rejected(ErrorEvent(reason))
        case ProbeNotOk => Rejected(ErrorEvent("Cannot connect to browser on port " + IntToString(instance.port)))
        case ProbeOk(tabs) =>
          if |tabs| == 0 then Rejected(UntypedError(NoTabsMessage))
          else
            var tab := tabs[StreamTabIndex(tabs).value];
            if tab.wsUrl == "" then Rejected(UntypedError(NoSocketMessage))
            else Attach(instance.port, tab)
  }

  // ------------------------------------------------------------ draining the queue

  /** What one 30-second wait on the queue produced. */
  datatype Arrival = Got(event: StreamEvent) | Timeout(now: int)

  /** The event yielded for an arrival: the event itself, or a keepalive. */
  function Yielded(a: Arrival): StreamEvent {
    match a
    case Got(e) => e
    case Timeout(now) => Keepalive(now)
  }

  /** Only an event typed 'error' ends the loop. */
  predicate EndsStream(a: Arrival) { a.Got? && a.event.ErrorEvent? }

  /** The events the loop yields for the arrivals it sees, and whether it ended
      on an error.  Running out of arrivals is the client going away. */
  function Relay(arrivals: seq<Arrival>): (r: (seq<StreamEvent>, bool))
  {
    if |arrivals| == 0 then ([], false)
    else if EndsStream(arrivals[0]) then ([Yielded(arrivals[0])], true)
    else
      var rest := Relay(arrivals[1..]);
      ([Yielded(arrivals[0])] + rest.0, rest.1)
  }

  /** The loop yields one event per arrival up to and including the first
      error, and nothing after it; it ends on an error exactly when one
      arrived. */
  lemma {:induction false} RelayYieldsUpToFirstError(arrivals: seq<Arrival>)
    ensures Relay(arrivals).1 <==> exists i :: 0 <= i < |arrivals| && EndsStream(arrivals[i])
    ensures var n := FirstIndex(arrivals, EndsStream);
            |Relay(arrivals).0| == if n.Some? then n.value + 1 else |arrivals|
    ensures forall j :: 0 <= j < |Relay(arrivals).0| ==> Relay(arrivals).0[j] == Yielded(arrivals[j])
  {
    if |arrivals| > 0 && !EndsStream(arrivals[0]) {
      RelayYieldsUpToFirstError(arrivals[1..]);
      var rest := Relay(arrivals[1..]);
      forall j | 1 <= j < |Relay(arrivals).0|
        ensures Relay(arrivals).0[j] == Yielded(arrivals[j])
      {
        assert Relay(arrivals).0[j] == rest.0[j - 1];
        assert arrivals[1..][j - 1] == arrivals[j];
      }
      if exists i :: 0 <= i < |arrivals| && EndsStream(arrivals[i]) {
        var i :| 0 <= i < |arrivals| && EndsStream(arrivals[i]);
        assert arrivals[1..][i - 1] == arrivals[i];
      }
    }
  }

  /** The JSON payloads of a sequence of events. */
  function Encoded(events: seq<StreamEvent>, encode: StreamEvent -> string): (r: seq<string>)
    ensures |r| == |events|
    ensures forall i :: 0 <= i < |events| ==> r[i] == encode(events[i])
  {
    if |events| == 0 then [] else [encode(events[0])] + Encoded(events[1..], encode)
  }

  /** Relaying from arrival `i` yields that arrival's event and stops on an
      error, or goes on from the next arrival. */
  lemma RelayFrom(arrivals: seq<Arrival>, i: nat)
    requires i < |arrivals|
    ensures EndsStream(arrivals[i]) ==> Relay(arrivals[i..]) == ([Yielded(arrivals[i])], true)
    ensures !EndsStream(arrivals[i]) ==>
              Relay(arrivals[i..]) == ([Yielded(arrivals[i])] + Relay(arrivals[i + 1..]).0, Relay(arrivals[i + 1..]).1)
  {
    assert arrivals[i..][0] == arrivals[i];
    assert arrivals[i..][1..] == arrivals[i + 1..];
  }

  /** Framing one more event appends its chunk to the wire. */
  lemma WireOfOneMore(events: seq<StreamEvent>, e: StreamEvent, encode: StreamEvent -> string)
    ensures Wire(Encoded(events + [e], encode)) == Wire(Encoded(events, encode)) + Chunk(encode(e))
  {
    WireAppend(Encoded(events, encode), encode(e));
    assert Encoded(events + [e], encode) == Encoded(events, encode) + [encode(e)];
  }

  /** One `yield`: the event is added to those sent and framed onto the
      wire. */
  method Forward(events: seq<StreamEvent>, wire: string, e: StreamEvent, encode: StreamEvent -> string)
    returns (events': seq<StreamEvent>, wire': string)
    requires wire == Wire(Encoded(events, encode))
    ensures events' == events + [e]
    ensures wire' == Wire(Encoded(events', encode))
  {
    WireOfOneMore(events, e, encode);
    events' := events + [e];
    wire' := wire + Chunk(encode(e));
  }

  /** The `while True` loop: every yielded event is framed, and the loop
      leaves on the first event typed 'error'. */
  method DrainQueue(arrivals: seq<Arrival>, encode: StreamEvent -> string)
    returns (yielded: seq<StreamEvent>, wire: string, stopped: bool)
    ensures yielded == Relay(arrivals).0 && stopped == Relay(arrivals).1
    ensures wire == Wire(Encoded(yielded, encode))
  {
    yielded := [];
    wire := "";
    stopped := false;
    var i := 0;
    assert arrivals[0..] == arrivals;
    while i < |arrivals|
      invariant 0 <= i <= |arrivals|
      invariant yielded + Relay(arrivals[i..]).0 == Relay(arrivals).0
      invariant Relay(arrivals[i..]).1 == Relay(arrivals).1
      invariant wire == Wire(Encoded(yielded, encode))
      decreases |arrivals| - i
    {
      var e := Yielded(arrivals[i]);
      RelayFrom(arrivals, i);
      var before := yielded;
      yielded, wire := Forward(yielded, wire, e, encode);
      if EndsStream(arrivals[i]) {
        stopped := true;
        assert before + [e] == yielded;
        return;
      }
      AppendAssoc(before, [e], Relay(arrivals[i + 1..]).0);
      i := i + 1;
    }
    assert arrivals[|arrivals|..] == [];
  }

  /** The loop and its clean-up: `Page.stopScreencast` is sent only after an
      error ended the loop; a client that goes away leaves the screencast
      running. */
  method RunStream(session: ScreencastSession, arrivals: seq<Arrival>, encode: StreamEvent -> string)
    returns (yielded: seq<StreamEvent>, wire: string)
    modifies session
    ensures yielded == Relay(arrivals).0
    ensures wire == Wire(Encoded(yielded, encode))
    ensures session.sent == old(session.sent) + (if Relay(arrivals).1 then [StopCommand] else [])
    ensures session.queue == old(session.queue) && session.frameCount == old(session.frameCount)
  {
    var stopped;
    yielded, wire, stopped := DrainQueue(arrivals, encode);
    if stopped {
      session.StopScreencast();
    }
  }

  lemma {:induction false} WireAppend(ps: seq<string>, p: string)
    ensures Wire(ps + [p]) == Wire(ps) + Chunk(p)
  {
    if |ps| == 0 {
      assert ps + [p] == [p];
    } else {
      assert (ps + [p])[1..] == ps[1..] + [p];
      WireAppend(ps[1..], p);
    }
  }
}
