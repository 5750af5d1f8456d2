/**
 * The poll-driven streams layered over a subscription socket and its monitor
 * socket, and the handshake wait.
 *
 * Each inner source (the subscription socket, the monitor socket) is a
 * script: the outcomes its successive polls give. Polling takes the head of
 * the script; a source whose script is used up stays pending.
 */
module Stream {
  import opened Wrappers
  import opened Codec

  /** One poll of a stream, `Poll<Option<T>>`: not ready, an item, or the end. */
  datatype PollNext<+T> = Pending | Ready(item: T) | End

  type Script<T> = seq<PollNext<T>>

  /** A frame group as the transport delivers it. */
  type Multipart = seq<Bytes>

  function Head<T>(s: Script<T>): PollNext<T> {
    if s == [] then Pending else s[0]
  }

  function Tail<T>(s: Script<T>): Script<T> {
    if s == [] then [] else s[1..]
  }

  /** The source never reports its end (the source unwraps what it polls). */
  predicate NoEnd<T>(s: Script<T>) {
    forall i :: 0 <= i < |s| ==> !s[i].End?
  }

  datatype SocketEvent = HandshakeSucceeded | Disconnected(fd: int) | OtherEvent(code: nat)

  datatype EventMessage = EventMessage(event: SocketEvent, sourceUrl: string)

  /** An item of the merged stream: a notification or a connection event. */
  datatype SocketMessage = Data(message: Message) | Event(event: EventMessage)

  /**
   * The decoders this model does not see: `recv_internal`, which decodes a
   * frame group into a notification, and `EventMessage::parse_from`.
   */
  datatype Decoders = Decoders(recv: Multipart -> Result<Message>, parseEvent: Multipart -> EventMessage)

  // ---------------------------------------------------------------------
  // MessageStream

  /** What one poll of `MessageStream` yields, given what the socket's poll gave. */
  function MessagePoll(recv: Multipart -> Result<Message>, p: PollNext<Result<Multipart>>): (r: PollNext<Result<Message>>)
    ensures r.Pending? <==> p.Pending?
    ensures r.End? <==> p.End?
    ensures p.Ready? && p.item.Err? ==> r == Ready(Err(p.item.error))
    ensures p.Ready? && p.item.Ok? ==> r == Ready(recv(p.item.value))
  {
    match p
    case Pending => Pending
    case End => End
    case Ready(Ok(mp)) => Ready(recv(mp))
    case Ready(Err(e)) => Ready(Err(e))
  }

  class MessageStream {
    /** The subscription socket, as the script of its poll outcomes. */
    var transport: Script<Result<Multipart>>
    const recv: Multipart -> Result<Message>

    constructor(recv: Multipart -> Result<Message>, transport: Script<Result<Multipart>>)
      ensures this.recv == recv && this.transport == transport
    {
      this.recv := recv;
      this.transport := transport;
    }

    method PollNext() returns (p: PollNext<Result<Message>>)
      modifies this
      ensures p == MessagePoll(recv, Head(old(transport)))
      ensures transport == Tail(old(transport))
    {
      var polled := Head(transport);
      transport := Tail(transport);
      match polled
      case Pending => p := Pending;
      case End => p := End;
      case Ready(Ok(mp)) => p := Ready(recv(mp));
      case Ready(Err(e)) => p := Ready(Err(e));
    }

    /** The stream never reports termination. */
    function IsTerminated(): (terminated: bool)
      ensures !terminated
    {
      false
    }
  }

  // ---------------------------------------------------------------------
  // SocketMessageStream

  /** The state of the merged stream: its monitor socket and its subscription socket. */
  datatype SocketState = SocketState(monitor: Script<Result<Multipart>>, transport: Script<Result<Multipart>>)

  function LiftMessage(p: PollNext<Result<Message>>): PollNext<Result<SocketMessage>> {
    match p
    case Pending => Pending
    case End => End
    case Ready(Ok(m)) => Ready(Ok(Data(m)))
    case Ready(Err(e)) => Ready(Err(e))
  }

  /**
   * One poll of `SocketMessageStream`: the monitor first; the data stream only
   * when the monitor is pending.
   */
  function SocketPoll(d: Decoders, s: SocketState): (r: (PollNext<Result<SocketMessage>>, SocketState))
    requires !Head(s.monitor).End?
    ensures r.1.monitor == Tail(s.monitor)
    ensures Head(s.monitor).Ready? ==> r.1.transport == s.transport
    ensures Head(s.monitor).Pending? ==> r.1.transport == Tail(s.transport)
    ensures Head(s.monitor).Ready? && Head(s.monitor).item.Ok? ==>
      r.0 == Ready(Ok(Event(d.parseEvent(Head(s.monitor).item.value))))
    ensures Head(s.monitor).Ready? && Head(s.monitor).item.Err? ==>
      r.0 == Ready(Err(Head(s.monitor).item.error))
    ensures Head(s.monitor).Pending? ==> r.0 == LiftMessage(MessagePoll(d.recv, Head(s.transport)))
    ensures r.0.Pending? <==> Head(s.monitor).Pending? && Head(s.transport).Pending?
    ensures r.0.End? <==> Head(s.monitor).Pending? && Head(s.transport).End?
  {
    var polled: PollNext<Result<Multipart>> := Head(s.monitor);
    match polled
    case Ready(Ok(mp)) => (Ready(Ok(Event(d.parseEvent(mp)))), s.(monitor := Tail(s.monitor)))
    case Ready(Err(e)) => (Ready(Err(e)), s.(monitor := Tail(s.monitor)))
    case Pending =>
      (LiftMessage(MessagePoll(d.recv, Head(s.transport))), SocketState(Tail(s.monitor), Tail(s.transport)))
  }

  class SocketMessageStream {
    const messages: MessageStream
    /** The monitor socket, as the script of its poll outcomes. */
    var monitor: Script<Result<Multipart>>
    const parseEvent: Multipart -> EventMessage

    constructor(messages: MessageStream, parseEvent: Multipart -> EventMessage, monitor: Script<Result<Multipart>>)
      ensures this.messages == messages && this.parseEvent == parseEvent && this.monitor == monitor
    {
      this.messages := messages;
      this.parseEvent := parseEvent;
      this.monitor := monitor;
    }

    function State(): SocketState
      reads this, messages
    {
      SocketState(monitor, messages.transport)
    }

    function Decoding(): Decoders {
      Decoders(messages.recv, parseEvent)
    }

    method PollNext() returns (p: PollNext<Result<SocketMessage>>)
      requires !Head(monitor).End?
      modifies this, messages
      ensures (p, State()) == SocketPoll(Decoding(), old(State()))
    {
      var event := Head(monitor);
      monitor := Tail(monitor);
      match event
      case Ready(Ok(mp)) =>
        p := Ready(Ok(Event(parseEvent(mp))));
      case Ready(Err(e)) =>
        p := Ready(Err(e));
      case Pending =>
        var q := messages.PollNext();
        p := LiftMessage(q);
    }

    /** The stream never reports termination. */
    function IsTerminated(): (terminated: bool)
      ensures !terminated
    {
      false
    }
  }

  // ---------------------------------------------------------------------
  // FiniteMessageStream

  function IsDisconnect(d: Decoders, p: PollNext<Result<Multipart>>): bool {
    p.Ready? && p.item.Ok? && d.parseEvent(p.item.value).event.Disconnected?
  }

  /** A monitor outcome the finite stream consumes without yielding. */
  function IsQuietEvent(d: Decoders, p: PollNext<Result<Multipart>>): bool {
    p.Ready? && p.item.Ok? && !d.parseEvent(p.item.value).event.Disconnected?
  }

  /** The outcome of one poll of an open `FiniteMessageStream`. */
  datatype FiniteStep = FiniteStep(out: PollNext<Result<Message>>, state: SocketState, closed: bool)

  /**
   * One poll of an open `FiniteMessageStream`: poll the merged stream until it
   * yields a notification, an error, pending, or a Disconnected event (which
   * closes the stream); other events are consumed.
   */
  function FinitePoll(d: Decoders, s: SocketState): (r: FiniteStep)
    requires NoEnd(s.monitor) && NoEnd(s.transport)
    ensures NoEnd(r.state.monitor) && NoEnd(r.state.transport)
    decreases |s.monitor|
  {
    var (q, s') := SocketPoll(d, s);
    if q.Pending? then FiniteStep(Pending, s', false)
    else if q.End? then assert false; FiniteStep(End, s', true)
    else match q.item
      case Err(e) => FiniteStep(Ready(Err(e)), s', false)
      case Ok(Data(m)) => FiniteStep(Ready(Ok(m)), s', false)
      case Ok(Event(ev)) =>
        if ev.event.Disconnected? then FiniteStep(End, s', true)
        else FinitePoll(d, s')
  }

  class FiniteMessageStream {
    /** The merged stream while open; null once closed. */
    var inner: SocketMessageStream?
    ghost var Repr: set<object>

    ghost predicate Valid()
      reads this, Repr
    {
      this in Repr && (inner != null ==> inner in Repr && inner.messages in Repr)
    }

    constructor(inner: SocketMessageStream)
      ensures Valid() && this.inner == inner
      ensures Repr == {this, inner, inner.messages}
    {
      this.inner := inner;
      Repr := {this, inner, inner.messages};
    }

    /** Open: poll the merged stream; closed: the end, for ever. */
    method PollNext() returns (p: PollNext<Result<Message>>)
      requires Valid()
      requires inner != null ==> NoEnd(inner.monitor) && NoEnd(inner.messages.transport)
      modifies Repr
      ensures Valid() && Repr == old(Repr)
      ensures old(inner) == null ==> p == End && inner == null
      ensures old(inner) != null ==>
        var step := FinitePoll(old(inner).Decoding(), old(inner.State()));
        && p == step.out
        && (inner == null <==> step.closed)
        && (inner != null ==> inner == old(inner))
        && old(inner).State() == step.state
    {
      if inner == null {
        return End;
      }
      var s := inner;
      ghost var d := s.Decoding();
      ghost var start := s.State();
      while true
        invariant Valid() && inner == s && Repr == old(Repr)
        invariant NoEnd(s.monitor) && NoEnd(s.messages.transport)
        invariant FinitePoll(d, s.State()) == FinitePoll(d, start)
        decreases |s.monitor|
      {
        ghost var before := s.State();
        var q := s.PollNext();
        match q
        case Pending =>
          return Pending;
        case End =>
          assert false;
        case Ready(Err(e)) =>
          return Ready(Err(e));
        case Ready(Ok(Data(m))) =>
          return Ready(Ok(m));
        case Ready(Ok(Event(ev))) =>
          if ev.event.Disconnected? {
            inner := null;
            return End;
          }
          assert FinitePoll(d, before) == FinitePoll(d, s.State());
      }
    }

    function IsTerminated(): (terminated: bool)
      reads this
      ensures terminated <==> inner == null
    {
      inner == null
    }
  }

  /**
   * A poll of the finite stream closes it exactly when it reports the end; it
   * consumes a prefix of the monitor's outcomes, and when it closes, the last
   * one consumed is a Disconnected event and the data stream is untouched.
   */
  lemma {:induction false} FinitePollConsumes(d: Decoders, s: SocketState)
    requires NoEnd(s.monitor) && NoEnd(s.transport)
    ensures var r := FinitePoll(d, s);
      && (r.closed <==> r.out.End?)
      && |r.state.monitor| <= |s.monitor|
      && r.state.monitor == s.monitor[|s.monitor| - |r.state.monitor|..]
      && (r.closed ==>
            && r.state.transport == s.transport
            && |r.state.monitor| < |s.monitor|
            && IsDisconnect(d, s.monitor[|s.monitor| - |r.state.monitor| - 1]))
    decreases |s.monitor|
  {
    var (q, s') := SocketPoll(d, s);
    if q.Ready? && q.item.Ok? && q.item.value.Event? && !q.item.value.event.event.Disconnected? {
      FinitePollConsumes(d, s');
    }
  }

  /** Quiet events ahead of the monitor's next outcome are consumed without effect. */
  lemma {:induction false} FiniteSkipsQuietEvents(d: Decoders, quiet: Script<Result<Multipart>>, s: SocketState)
    requires NoEnd(s.monitor) && NoEnd(s.transport)
    requires forall i :: 0 <= i < |quiet| ==> IsQuietEvent(d, quiet[i])
    ensures NoEnd(quiet + s.monitor)
    ensures FinitePoll(d, SocketState(quiet + s.monitor, s.transport)) == FinitePoll(d, s)
    decreases |quiet|
  {
    if quiet == [] {
      assert quiet + s.monitor == s.monitor;
    } else {
      var whole := SocketState(quiet + s.monitor, s.transport);
      assert Head(whole.monitor) == quiet[0];
      assert Tail(whole.monitor) == quiet[1..] + s.monitor;
      FiniteSkipsQuietEvents(d, quiet[1..], s);
      var (q, s') := SocketPoll(d, whole);
      assert q == Ready(Ok(Event(d.parseEvent(quiet[0].item.value))));
      assert s' == SocketState(quiet[1..] + s.monitor, s.transport);
      assert FinitePoll(d, whole) == FinitePoll(d, s');
    }
  }

  /**
   * After any quiet events, a Disconnected event closes the stream, and the
   * data stream is not polled.
   */
  lemma FiniteClosesOnDisconnect(d: Decoders, quiet: Script<Result<Multipart>>, mp: Multipart,
                                 rest: Script<Result<Multipart>>, transport: Script<Result<Multipart>>)
    requires NoEnd(rest) && NoEnd(transport)
    requires forall i :: 0 <= i < |quiet| ==> IsQuietEvent(d, quiet[i])
    requires d.parseEvent(mp).event.Disconnected?
    ensures NoEnd(quiet + [Ready(Ok(mp))] + rest)
    ensures FinitePoll(d, SocketState(quiet + [Ready(Ok(mp))] + rest, transport))
      == FiniteStep(End, SocketState(rest, transport), true)
  {
    var s := SocketState([Ready(Ok(mp))] + rest, transport);
    assert NoEnd(s.monitor);
    FiniteSkipsQuietEvents(d, quiet, s);
    assert quiet + [Ready(Ok(mp))] + rest == quiet + s.monitor;
    assert s.monitor[1..] == rest;
  }

  /**
   * After any quiet events, with the monitor pending, a notification ready on
   * the data stream is forwarded as is; the monitor's later outcomes stay queued.
   */
  lemma FiniteForwardsData(d: Decoders, quiet: Script<Result<Multipart>>, rest: Script<Result<Multipart>>,
                           mp: Multipart, transport: Script<Result<Multipart>>)
    requires NoEnd(rest) && NoEnd(transport)
    requires forall i :: 0 <= i < |quiet| ==> IsQuietEvent(d, quiet[i])
    requires Head(rest).Pending?
    ensures NoEnd(quiet + rest)
    ensures FinitePoll(d, SocketState(quiet + rest, [Ready(Ok(mp))] + transport))
      == FiniteStep(Ready(d.recv(mp)), SocketState(Tail(rest), transport), false)
  {
    var s := SocketState(rest, [Ready(Ok(mp))] + transport);
    FiniteSkipsQuietEvents(d, quiet, s);
    assert s.transport[1..] == transport;
  }

  /** After any quiet events, with both sockets pending, the poll is pending and the stream stays open. */
  lemma FinitePending(d: Decoders, quiet: Script<Result<Multipart>>, rest: Script<Result<Multipart>>,
                      transport: Script<Result<Multipart>>)
    requires NoEnd(rest) && NoEnd(transport)
    requires forall i :: 0 <= i < |quiet| ==> IsQuietEvent(d, quiet[i])
    requires Head(rest).Pending? && Head(transport).Pending?
    ensures NoEnd(quiet + rest)
    ensures FinitePoll(d, SocketState(quiet + rest, transport))
      == FiniteStep(Pending, SocketState(Tail(rest), Tail(transport)), false)
  {
    FiniteSkipsQuietEvents(d, quiet, SocketState(rest, transport));
  }

  /** After any quiet events, an error from the monitor is returned and the stream stays open. */
  lemma FiniteMonitorErrorForwarded(d: Decoders, quiet: Script<Result<Multipart>>, e: Error,
                                    rest: Script<Result<Multipart>>, transport: Script<Result<Multipart>>)
    requires NoEnd(rest) && NoEnd(transport)
    requires forall i :: 0 <= i < |quiet| ==> IsQuietEvent(d, quiet[i])
    ensures NoEnd(quiet + [Ready(Err(e))] + rest)
    ensures FinitePoll(d, SocketState(quiet + [Ready(Err(e))] + rest, transport))
      == FiniteStep(Ready(Err(e)), SocketState(rest, transport), false)
  {
    var s := SocketState([Ready(Err(e))] + rest, transport);
    assert NoEnd(s.monitor);
    FiniteSkipsQuietEvents(d, quiet, s);
    assert quiet + [Ready(Err(e))] + rest == quiet + s.monitor;
    assert s.monitor[1..] == rest;
  }

  /**
   * After any quiet events, with the monitor pending, an error from the data
   * socket is returned and the stream stays open.
   */
  lemma FiniteTransportErrorForwarded(d: Decoders, quiet: Script<Result<Multipart>>, rest: Script<Result<Multipart>>,
                                      e: Error, transport: Script<Result<Multipart>>)
    requires NoEnd(rest) && NoEnd(transport)
    requires forall i :: 0 <= i < |quiet| ==> IsQuietEvent(d, quiet[i])
    requires Head(rest).Pending?
    ensures NoEnd(quiet + rest)
    ensures FinitePoll(d, SocketState(quiet + rest, [Ready(Err(e))] + transport))
      == FiniteStep(Ready(Err(e)), SocketState(Tail(rest), transport), false)
  {
    var s := SocketState(rest, [Ready(Err(e))] + transport);
    FiniteSkipsQuietEvents(d, quiet, s);
    assert s.transport[1..] == transport;
  }

  // ---------------------------------------------------------------------
  // The handshake wait

  datatype Handshake = Connected | Failed(error: Error) | Waiting(connecting: nat)

  /** How one monitor outcome changes the number of endpoints still connecting. */
  function Delta(parse: Multipart -> EventMessage, p: PollNext<Result<Multipart>>): (delta: int)
    ensures -1 <= delta <= 1
  {
    if p.Ready? && p.item.Ok? then
      match parse(p.item.value).event
      case HandshakeSucceeded => -1
      case Disconnected(_) => 1
      case OtherEvent(_) => 0
    else 0
  }

  /** The counter after the outcomes of `items`, starting from `n`. */
  function Connecting(parse: Multipart -> EventMessage, n: int, items: Script<Result<Multipart>>): int
    decreases |items|
  {
    if items == [] then n else Connecting(parse, n + Delta(parse, items[0]), items[1..])
  }

  predicate IsError(p: PollNext<Result<Multipart>>) {
    p.Ready? && p.item.Err?
  }

  predicate NoErrors(items: Script<Result<Multipart>>) {
    forall i :: 0 <= i < |items| ==> !IsError(items[i])
  }

  /**
   * The loop of `subscribe_async_wait_handshake`, on the monitor's outcomes:
   * the outcome and what is left of the monitor. A pending poll only
   * suspends the wait; the counter is at least one before every event.
   */
  function HandshakeLoop(parse: Multipart -> EventMessage, connecting: nat, monitor: Script<Result<Multipart>>)
    : (r: (Handshake, Script<Result<Multipart>>))
    requires connecting >= 1 && NoEnd(monitor)
    ensures |r.1| <= |monitor|
    ensures r.0.Waiting? ==> r.1 == [] && r.0.connecting >= 1
    decreases |monitor|
  {
    if monitor == [] then (Waiting(connecting), [])
    else if IsError(monitor[0]) then (Failed(monitor[0].item.error), monitor[1..])
    else if connecting + Delta(parse, monitor[0]) == 0 then (Connected, monitor[1..])
    else HandshakeLoop(parse, connecting + Delta(parse, monitor[0]), monitor[1..])
  }

  /** `subscribe_async_wait_handshake` after the socket is made: no endpoints, no wait. */
  function WaitHandshake(parse: Multipart -> EventMessage, endpoints: nat, monitor: Script<Result<Multipart>>)
    : (r: (Handshake, Script<Result<Multipart>>))
    requires NoEnd(monitor)
    ensures endpoints == 0 ==> r == (Connected, monitor)
  {
    if endpoints == 0 then (Connected, monitor) else HandshakeLoop(parse, endpoints, monitor)
  }

  /** One turn of the handshake loop on an outcome that is not an error. */
  lemma HandshakeStep(parse: Multipart -> EventMessage, connecting: nat, monitor: Script<Result<Multipart>>)
    requires connecting >= 1 && NoEnd(monitor) && monitor != [] && !IsError(monitor[0])
    ensures NoEnd(monitor[1..])
    ensures connecting + Delta(parse, monitor[0]) == 0 ==>
      HandshakeLoop(parse, connecting, monitor) == (Connected, monitor[1..])
    ensures connecting + Delta(parse, monitor[0]) >= 1 ==>
      HandshakeLoop(parse, connecting, monitor)
        == HandshakeLoop(parse, connecting + Delta(parse, monitor[0]), monitor[1..])
  {
  }

  /** The counter and the absence of errors over a non-empty prefix, one outcome at a time. */
  lemma ConnectingStep(parse: Multipart -> EventMessage, n: int, s: Script<Result<Multipart>>, j: nat)
    requires 1 <= j <= |s|
    ensures Connecting(parse, n, s[..j]) == Connecting(parse, n + Delta(parse, s[0]), s[1..][..j - 1])
    ensures NoErrors(s[..j]) <==> !IsError(s[0]) && NoErrors(s[1..][..j - 1])
  {
    assert s[..j][0] == s[0];
    assert s[..j][1..] == s[1..][..j - 1];
    if !IsError(s[0]) && NoErrors(s[1..][..j - 1]) {
      forall i | 1 <= i < j
        ensures !IsError(s[..j][i])
      {
        assert s[..j][i] == s[1..][..j - 1][i - 1];
      }
    }
  }

  /**
   * The wait completes at the first event that brings the counter to zero: the
   * consumed outcomes hold no error, end with the counter at zero, and every
   * shorter prefix leaves it at one or more.
   */
  lemma {:induction false} ConnectedAtFirstZero(parse: Multipart -> EventMessage, n: nat, monitor: Script<Result<Multipart>>)
    requires n >= 1 && NoEnd(monitor)
    requires HandshakeLoop(parse, n, monitor).0 == Connected
    ensures var k := |monitor| - |HandshakeLoop(parse, n, monitor).1|;
      && 0 < k
      && NoErrors(monitor[..k])
      && Connecting(parse, n, monitor[..k]) == 0
      && forall j :: 0 <= j < k ==> Connecting(parse, n, monitor[..j]) >= 1
    decreases |monitor|
  {
    var r := HandshakeLoop(parse, n, monitor);
    var k := |monitor| - |r.1|;
    assert monitor != [];
    var tail := monitor[1..];
    var n' := n + Delta(parse, monitor[0]);
    assert Connecting(parse, n, monitor[..0]) == n by { assert monitor[..0] == []; }
    if n' == 0 {
      assert k == 1;
      ConnectingStep(parse, n, monitor, 1);
      assert tail[..0] == [];
    } else {
      ConnectedAtFirstZero(parse, n', tail);
      ConnectingStep(parse, n, monitor, k);
      forall j | 1 <= j < k
        ensures Connecting(parse, n, monitor[..j]) >= 1
      {
        ConnectingStep(parse, n, monitor, j);
      }
    }
  }

  /**
   * Conversely, if some error-free prefix of the monitor's outcomes brings the
   * counter to zero, the wait completes.
   */
  lemma {:induction false} ZeroConnects(parse: Multipart -> EventMessage, n: nat, monitor: Script<Result<Multipart>>, k: nat)
    requires n >= 1 && NoEnd(monitor) && k <= |monitor|
    requires NoErrors(monitor[..k]) && Connecting(parse, n, monitor[..k]) == 0
    ensures HandshakeLoop(parse, n, monitor).0 == Connected
    decreases |monitor|
  {
    if k > 0 {
      ConnectingStep(parse, n, monitor, k);
      var n' := n + Delta(parse, monitor[0]);
      if n' >= 1 {
        ZeroConnects(parse, n', monitor[1..], k - 1);
      }
    }
  }

  /** The first error from the monitor, before the counter reaches zero, fails the wait. */
  lemma {:induction false} ErrorFailsWait(parse: Multipart -> EventMessage, n: nat, monitor: Script<Result<Multipart>>, k: nat)
    requires n >= 1 && NoEnd(monitor) && k < |monitor|
    requires NoErrors(monitor[..k]) && IsError(monitor[k])
    requires forall j :: 0 <= j <= k ==> Connecting(parse, n, monitor[..j]) >= 1
    ensures HandshakeLoop(parse, n, monitor) == (Failed(monitor[k].item.error), monitor[k + 1..])
    decreases |monitor|
  {
    if k > 0 {
      var tail := monitor[1..];
      var n' := n + Delta(parse, monitor[0]);
      ConnectingStep(parse, n, monitor, 1);
      assert tail[..0] == [];
      ConnectingStep(parse, n, monitor, k);
      forall j | 0 <= j <= k - 1
        ensures Connecting(parse, n', tail[..j]) >= 1
      {
        ConnectingStep(parse, n, monitor, j + 1);
      }
      ErrorFailsWait(parse, n', tail, k - 1);
      assert tail[k - 1 + 1..] == monitor[k + 1..];
    }
  }

  /**
   * Conversely, a failed wait failed on a monitor error: the last outcome it
   * consumed is that error, the outcomes before it hold none, and the counter
   * stayed at one or more up to it.
   */
  lemma {:induction false} FailedOnlyOnError(parse: Multipart -> EventMessage, n: nat, monitor: Script<Result<Multipart>>)
    requires n >= 1 && NoEnd(monitor)
    ensures var r := HandshakeLoop(parse, n, monitor);
      r.0.Failed? ==>
        var k := |monitor| - |r.1| - 1;
        && 0 <= k < |monitor|
        && IsError(monitor[k]) && monitor[k].item.error == r.0.error
        && NoErrors(monitor[..k])
        && forall j :: 0 <= j <= k ==> Connecting(parse, n, monitor[..j]) >= 1
    decreases |monitor|
  {
    var r := HandshakeLoop(parse, n, monitor);
    if r.0.Failed? {
      var k := |monitor| - |r.1| - 1;
      assert Connecting(parse, n, monitor[..0]) == n by { assert monitor[..0] == []; }
      if !IsError(monitor[0]) {
        var n' := n + Delta(parse, monitor[0]);
        FailedOnlyOnError(parse, n', monitor[1..]);
        assert 1 <= k;
        ConnectingStep(parse, n, monitor, k);
        forall j | 1 <= j <= k
          ensures Connecting(parse, n, monitor[..j]) >= 1
        {
          ConnectingStep(parse, n, monitor, j);
        }
      }
    }
  }

  /** What the wait leaves of the monitor is the rest after the outcomes it consumed. */
  lemma {:induction false} LoopLeavesSuffix(parse: Multipart -> EventMessage, n: nat, monitor: Script<Result<Multipart>>)
    requires n >= 1 && NoEnd(monitor)
    ensures var r := HandshakeLoop(parse, n, monitor); r.1 == monitor[|monitor| - |r.1|..]
    decreases |monitor|
  {
    if monitor != [] && !IsError(monitor[0]) && n + Delta(parse, monitor[0]) != 0 {
      LoopLeavesSuffix(parse, n + Delta(parse, monitor[0]), monitor[1..]);
    }
  }

  /**
   * `subscribe_async_wait_handshake` on an already made socket: count
   * handshakes and disconnections on the monitor until none is pending.
   * Running out of monitor outcomes leaves the wait pending.
   */
  method SubscribeWaitHandshake(endpoints: nat, stream: SocketMessageStream)
    returns (h: Handshake, finite: FiniteMessageStream?)
    requires NoEnd(stream.monitor)
    modifies stream
    ensures (h, stream.monitor) == WaitHandshake(stream.parseEvent, endpoints, old(stream.monitor))
    ensures h.Connected? <==> finite != null
    ensures finite != null ==> fresh(finite) && finite.Valid() && finite.inner == stream
    ensures finite != null ==> finite.Repr == {finite, stream, stream.messages}
  {
    var connecting := endpoints;
    if connecting == 0 {
      finite := new FiniteMessageStream(stream);
      return Connected, finite;
    }
    var parse := stream.parseEvent;
    var monitor := stream.monitor;
    while true
      invariant connecting >= 1 && NoEnd(monitor)
      invariant HandshakeLoop(parse, connecting, monitor) == HandshakeLoop(parse, endpoints, old(stream.monitor))
      decreases |monitor|
    {
      if monitor == [] {
        stream.monitor := monitor;
        return Waiting(connecting), null;
      }
      var next := monitor[0];
      if !IsError(next) {
        HandshakeStep(parse, connecting, monitor);
      }
      monitor := monitor[1..];
      match next
      case Pending =>
      case End =>
        assert false;
      case Ready(Err(e)) =>
        stream.monitor := monitor;
        return Failed(e), null;
      case Ready(Ok(mp)) =>
        match parse(mp).event
        case HandshakeSucceeded =>
          connecting := connecting - 1;
          if connecting == 0 {
            stream.monitor := monitor;
            finite := new FiniteMessageStream(stream);
            return Connected, finite;
          }
        case Disconnected(_) =>
          connecting := connecting + 1;
        case OtherEvent(_) =>
    }
  }

  // ---------------------------------------------------------------------
  // The handshake wait with a timeout

  /** The outcome of racing two futures: the left or the right finished first. */
  datatype Either<+L, +R> = Left(left: L) | Right(right: R)

  /** `subscribe_async_wait_handshake_timeout`: the handshake's result, or none if the timer won. */
  function TimeoutOutcome<T>(race: Either<T, ()>): (r: Option<T>)
    ensures r.Some? <==> race.Left?
    ensures race.Left? ==> r.value == race.left
  {
    match race
    case Left(res) => Some(res)
    case Right(_) => None
  }
}
