/**
 * The timer behind the handshake timeout: a shared three-state cell that the
 * waiting task polls and the timer thread fires once its delay has passed.
 * The two sides are modelled as sequential operations on the cell.
 */
module Timer {
  import opened Wrappers

  /** The handle a pending poll leaves behind so that the firing side can resume its task. */
  datatype Waker = Waker(task: nat)

  datatype SleepReadyState = Pending | PendingPolled(waker: Waker) | Done

  /** `Sleep::poll`: ready once fired; otherwise the caller's waker is stored. */
  function PollSleep(s: SleepReadyState, w: Waker): (r: (bool, SleepReadyState))
    ensures r.0 <==> s.Done?
    ensures r.0 ==> r.1 == Done
    ensures !r.0 ==> r.1 == PendingPolled(w)
  {
    if s.Done? then (true, Done) else (false, PendingPolled(w))
  }

  /** The timer thread after its delay: the state becomes Done, and a stored waker is woken. */
  function FireSleep(s: SleepReadyState): (r: (Option<Waker>, SleepReadyState))
    ensures r.1 == Done
    ensures r.0.Some? <==> s.PendingPolled?
    ensures s.PendingPolled? ==> r.0 == Some(s.waker)
  {
    match s
    case PendingPolled(w) => (Some(w), Done)
    case _ => (None, Done)
  }

  datatype SleepOp = Poll(waker: Waker) | Fire

  /** What an operation reports: whether the poll was ready, or whom the firing woke. */
  datatype Observation = Polled(ready: bool) | Fired(woken: Option<Waker>)

  /** An interleaving of polls and firings, run one after another from state `s`. */
  function Run(s: SleepReadyState, ops: seq<SleepOp>): (r: (seq<Observation>, SleepReadyState))
    ensures |r.0| == |ops|
    decreases |ops|
  {
    if ops == [] then ([], s)
    else
      var (o, s') := match ops[0]
        case Poll(w) => var (ready, t) := PollSleep(s, w); (Polled(ready), t)
        case Fire => var (woken, t) := FireSleep(s); (Fired(woken), t);
      var (rest, last) := Run(s', ops[1..]);
      ([o] + rest, last)
  }

  /** Done is never left: every later poll is ready and every later firing wakes no one. */
  lemma {:induction false} DoneAbsorbing(ops: seq<SleepOp>)
    ensures Run(Done, ops).1 == Done
    ensures forall i :: 0 <= i < |ops| ==>
      Run(Done, ops).0[i] == if ops[i].Poll? then Polled(true) else Fired(None)
    decreases |ops|
  {
    if ops != [] {
      DoneAbsorbing(ops[1..]);
      var r := Run(Done, ops);
      assert r.0 == [Run(Done, ops).0[0]] + Run(Done, ops[1..]).0;
      forall i | 1 <= i < |ops|
        ensures r.0[i] == if ops[i].Poll? then Polled(true) else Fired(None)
      {
        assert r.0[i] == Run(Done, ops[1..]).0[i - 1];
        assert ops[1..][i - 1] == ops[i];
      }
    }
  }

  /** The operations `Poll(ws[0]), ..., Poll(ws[|ws| - 1])`. */
  function Polls(ws: seq<Waker>): (ops: seq<SleepOp>)
    ensures |ops| == |ws|
    ensures forall i :: 0 <= i < |ws| ==> ops[i] == Poll(ws[i])
  {
    seq(|ws|, i requires 0 <= i < |ws| => Poll(ws[i]))
  }

  /**
   * Before the timer fires, every poll is pending and the cell holds the
   * waker of the latest poll; the firing then wakes exactly that poller, and
   * the cell is Done.
   */
  lemma {:induction false} PollsThenFire(s: SleepReadyState, ws: seq<Waker>)
    requires !s.Done?
    ensures var r := Run(s, Polls(ws) + [Fire]);
      && r.1 == Done
      && (forall i :: 0 <= i < |ws| ==> r.0[i] == Polled(false))
      && r.0[|ws|] == Fired(if ws == [] then (if s.PendingPolled? then Some(s.waker) else None)
                            else Some(ws[|ws| - 1]))
    decreases |ws|
  {
    var ops := Polls(ws) + [Fire];
    if ws == [] {
      assert ops == [Fire];
    } else {
      var t := PendingPolled(ws[0]);
      assert ops[0] == Poll(ws[0]);
      assert ops[1..] == Polls(ws[1..]) + [Fire];
      PollsThenFire(t, ws[1..]);
      var r := Run(s, ops);
      var tail := Run(t, ops[1..]);
      assert r.0 == [Polled(false)] + tail.0;
      forall i | 1 <= i < |ws|
        ensures r.0[i] == Polled(false)
      {
        assert r.0[i] == tail.0[i - 1];
      }
      assert r.0[|ws|] == tail.0[|ws| - 1];
    }
  }

  /** `Sleep`: the state cell shared by the waiting task and the timer thread. */
  class Sleep {
    var state: SleepReadyState

    /** `sleep`: a fresh timer, not yet fired and not yet polled. */
    constructor()
      ensures state == Pending
    {
      state := Pending;
    }

    method Poll(w: Waker) returns (ready: bool)
      modifies this
      ensures (ready, state) == PollSleep(old(state), w)
    {
      if state.Done? {
        ready := true;
      } else {
        state := PendingPolled(w);
        ready := false;
      }
    }

    /** The timer thread's step once the delay has passed. */
    method Fire() returns (woken: Option<Waker>)
      modifies this
      ensures (woken, state) == FireSleep(old(state))
    {
      var prior := state;
      state := Done;
      if prior.PendingPolled? {
        woken := Some(prior.waker);
      } else {
        woken := None;
      }
    }
  }
}
