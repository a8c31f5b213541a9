/**
  The liveness counter (CamApp::loopUsers_) and the callbacks the event loop
  dispatches while the tool waits: capture completion, camera hotplug and the
  interrupt that requests the loop to quit. The counter is a 32-bit unsigned
  atomic in the C++ code; its wrap-around is written out here.
 */
module Liveness {

  const UINT_MODULUS: int := 0x1_0000_0000

  /** Values of an unsigned 32-bit integer. */
  type uint32 = x: int | 0 <= x < UINT_MODULUS

  /** `loopUsers_++`: one more reason to keep the loop running. */
  function Increment(c: uint32): (r: uint32)
    ensures c + 1 < UINT_MODULUS ==> r == c + 1
    ensures c == UINT_MODULUS - 1 ==> r == 0
  {
    (c + 1) % UINT_MODULUS
  }

  /** `--loopUsers_`: undoes one Increment, wrapping from 0 to the largest value. */
  function Decrement(c: uint32): (r: uint32)
    ensures Increment(r) == c
    ensures c > 0 ==> r == c - 1
  {
    (c - 1) % UINT_MODULUS
  }

  /** What the loop-related state of the application is between callbacks. */
  datatype Loop = Loop(users: uint32, exitRequested: bool)

  /**
    CamApp::captureDone: decrement the counter and ask the event loop to exit
    exactly when the decrement leaves it at zero.
   */
  function CaptureDone(l: Loop): (r: Loop)
    ensures Increment(r.users) == l.users
    ensures l.users >= 1 ==> r.users == l.users - 1
    ensures r.exitRequested <==> l.exitRequested || l.users == 1
  {
    var users := Decrement(l.users);
    Loop(users, l.exitRequested || users == 0)
  }

  /** CamApp::cameraAdded only prints: the counter and the exit request are untouched. */
  function CameraAdded(l: Loop, id: string): (r: Loop)
    ensures r.users == l.users && r.exitRequested == l.exitRequested
  {
    l
  }

  /** CamApp::cameraRemoved only prints: the counter and the exit request are untouched. */
  function CameraRemoved(l: Loop, id: string): (r: Loop)
    ensures r.users == l.users && r.exitRequested == l.exitRequested
  {
    l
  }

  /** CamApp::quit, reached from the SIGINT handler: exit is requested whatever the counter. */
  function Quit(l: Loop): (r: Loop)
    ensures r.exitRequested && r.users == l.users
  {
    Loop(l.users, true)
  }

  /** The asynchronous events the loop dispatches. */
  datatype Event = Done | Added(id: string) | Removed(id: string) | Interrupt

  predicate IsHotplug(e: Event)
  {
    e.Added? || e.Removed?
  }

  /** Dispatches one event to its callback. */
  function Step(l: Loop, e: Event): (r: Loop)
    ensures !e.Done? ==> r.users == l.users
    ensures r.exitRequested <==> l.exitRequested || e.Interrupt? || (e.Done? && l.users == 1)
  {
    match e
    case Done => CaptureDone(l)
    case Added(id) => CameraAdded(l, id)
    case Removed(id) => CameraRemoved(l, id)
    case Interrupt => Quit(l)
  }

  /** The loop state when the loop returns, and how many events it dispatched. */
  datatype LoopRun = LoopRun(final: Loop, consumed: nat)

  /** The loop state after the first n events have been dispatched, in order. */
  function FoldN(l: Loop, events: seq<Event>, n: nat): Loop
    requires n <= |events|
    decreases n
  {
    if n == 0 then l else FoldN(Step(l, events[0]), events[1..], n - 1)
  }

  /** No exit had been requested before any of the first n events was dispatched. */
  predicate LiveFor(l: Loop, events: seq<Event>, n: nat)
    requires n <= |events|
    decreases n
  {
    n == 0 || (!l.exitRequested && LiveFor(Step(l, events[0]), events[1..], n - 1))
  }

  /**
    The event loop: dispatch events in order until one of them requests exit;
    events after that are not dispatched.
   */
  function Dispatch(l: Loop, events: seq<Event>): (r: LoopRun)
    ensures r.consumed <= |events| && r.final == FoldN(l, events, r.consumed)
    ensures r.consumed <= |events| && LiveFor(l, events, r.consumed)
    ensures r.final.exitRequested || r.consumed == |events|
    decreases |events|
  {
    if l.exitRequested || |events| == 0 then LoopRun(l, 0)
    else
      var rest := Dispatch(Step(l, events[0]), events[1..]);
      LoopRun(rest.final, rest.consumed + 1)
  }

  /** LiveFor means that every state before the n-th dispatch is free of an exit request. */
  lemma {:induction false} LiveForNoEarlierExit(l: Loop, events: seq<Event>, n: nat, k: nat)
    requires n <= |events| && LiveFor(l, events, n) && k < n
    ensures !FoldN(l, events, k).exitRequested
    decreases k
  {
    if k > 0 {
      LiveForNoEarlierExit(Step(l, events[0]), events[1..], n - 1, k - 1);
    }
  }

  /** Number of capture-completion events in a sequence. */
  function CountDone(events: seq<Event>): nat
  {
    if |events| == 0 then 0
    else (if events[0].Done? then 1 else 0) + CountDone(events[1..])
  }

  predicate NoInterrupt(events: seq<Event>)
  {
    forall i :: 0 <= i < |events| ==> !events[i].Interrupt?
  }

  /** Hotplug notifications, however many, never change the counter or end the loop. */
  lemma {:induction false} HotplugKeepsCounter(l: Loop, events: seq<Event>)
    requires !l.exitRequested
    requires forall i :: 0 <= i < |events| ==> IsHotplug(events[i])
    ensures Dispatch(l, events) == LoopRun(l, |events|)
    decreases |events|
  {
    if |events| > 0 {
      assert Step(l, events[0]) == l;
      HotplugKeepsCounter(l, events[1..]);
    }
  }

  /**
    Without an interrupt, a loop entered with n >= 1 users is asked to exit iff
    at least n capture completions arrive; it stops right after the n-th, with
    the counter at zero, and otherwise the counter has dropped by one per
    completion and every event was dispatched.
   */
  lemma {:induction false} DoneCountDecidesExit(l: Loop, events: seq<Event>)
    requires !l.exitRequested && l.users >= 1
    requires NoInterrupt(events)
    ensures var r := Dispatch(l, events);
      && (r.final.exitRequested <==> CountDone(events) >= l.users)
      && (!r.final.exitRequested ==> r.final.users == l.users - CountDone(events))
      && (r.final.exitRequested ==>
            && r.final.users == 0
            && r.consumed >= 1
            && events[r.consumed - 1].Done?
            && CountDone(events[..r.consumed]) == l.users)
    decreases |events|
  {
    if |events| > 0 {
      var e := events[0];
      var next := Step(l, e);
      var rest := Dispatch(next, events[1..]);
      if e.Done? && l.users == 1 {
        assert Dispatch(l, events) == LoopRun(next, 1);
        assert events[..1] == [e];
        assert CountDone(events[..1]) == 1 + CountDone(events[..1][1..]);
      } else {
        assert NoInterrupt(events[1..]) by {
          forall i | 0 <= i < |events[1..]|
            ensures !events[1..][i].Interrupt?
          {
            assert events[1..][i] == events[i + 1];
          }
        }
        DoneCountDecidesExit(next, events[1..]);
        if rest.final.exitRequested {
          var k := rest.consumed;
          assert events[..k + 1][1..] == events[1..][..k];
          assert CountDone(events[..k + 1]) == (if e.Done? then 1 else 0) + CountDone(events[1..][..k]);
        }
      }
    }
  }

  /**
    An interrupt ends the loop as soon as it is dispatched, whatever the
    counter: the loop stops after it with the counter as the earlier events left it.
   */
  lemma {:induction false} InterruptEndsLoop(l: Loop, pre: seq<Event>, post: seq<Event>)
    requires !l.exitRequested && l.users >= 1
    requires NoInterrupt(pre) && CountDone(pre) < l.users
    ensures Dispatch(l, pre + [Interrupt] + post) ==
              LoopRun(Loop(l.users - CountDone(pre), true), |pre| + 1)
    decreases |pre|
  {
    var events := pre + [Interrupt] + post;
    if |pre| == 0 {
      assert events[0] == Interrupt;
      assert Dispatch(Quit(l), events[1..]) == LoopRun(Quit(l), 0);
    } else {
      var e := pre[0];
      assert !e.Interrupt?;
      var next := Step(l, e);
      assert CountDone(pre) == (if e.Done? then 1 else 0) + CountDone(pre[1..]);
      assert !next.exitRequested && next.users >= 1;
      assert NoInterrupt(pre[1..]) by {
        forall i | 0 <= i < |pre[1..]|
          ensures !pre[1..][i].Interrupt?
        {
          assert pre[1..][i] == pre[i + 1];
        }
      }
      assert events[1..] == pre[1..] + [Interrupt] + post;
      InterruptEndsLoop(next, pre[1..], post);
    }
  }
}
