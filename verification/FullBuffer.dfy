/**
 What happens when the batch buffer is full: the read from the pts is made with size 0, and its result 0
 is taken for an end of file.
 */
module FullBuffer {
  import opened Common
  import opened Session
  import opened SessionControl
  import opened SessionFlow
  import T = SessionTheorems
  import W = Writen

  lemma ReadStep(c: Config, s: State, data: seq<byte>, intr: bool)
    requires Shape(c, s) && Data(c, s) && c.Batched() && s.pc.PtsRead? && data != []
    ensures var r := Step(c, s, Got(data, intr));
            && (r.h.read == s.h.read <==> s.b.total == c.bufferSize)
            && r.done == (if s.b.total == c.bufferSize then 6 else s.done)
            && (s.b.total == c.bufferSize ==> s.b.minlimit > c.bufferSize)
  {
    var d := Take(data, s.b.free);
    assert |s.h.read + d| == |s.h.read| + |d|;
    hide Conserved, Growing, Delivered, Blit;
  }

  /**
   Data waiting on the pts is not read exactly when the batch fills the buffer, and then the session is
   closed as at an end of file.  That needs a threshold beyond the buffer size.
   */
  lemma FullBufferReadsAsEof(c: Config, events: seq<Event>, states: seq<State>, k: nat)
    requires Behaviour(c, events, states) && k < |events| && c.Batched()
    requires states[k].pc.PtsRead? && events[k].Got? && events[k].data != []
    ensures var s := states[k]; var r := states[k + 1];
            && (r.h.read == s.h.read <==> s.b.total == c.bufferSize)
            && r.done == (if s.b.total == c.bufferSize then 6 else s.done)
            && (s.b.total == c.bufferSize ==> s.b.minlimit > c.bufferSize)
  {
    T.Kept(c, events, states, k);
    ReadStep(c, states[k], events[k].data, events[k].intr);
    hide Behaviour, Step, Shape, Control, Data;
  }

  // ---------------------------------------------------------------------------------------------
  // In every batched configuration some undisturbed session loses a whole buffer this way.

  const PTS_READY := Polled(NO_EVENTS, Revents(true, false, false, false), false)

  /** Nothing goes wrong outside: polls succeed, data is there, writes are taken. */
  predicate Undisturbed(e: Event) {
    e.Tick? || e == Poll(Ready, PTS_READY) || (e.Got? && e.data != []) || e.Wrote?
  }

  ghost predicate Smooth(events: seq<Event>) { forall i :: 0 <= i < |events| ==> Undisturbed(events[i]) }

  /** At the loop head, with a batch of `total` bytes and no flush pending. */
  ghost predicate Resting(c: Config, s: State) {
    s.pc.Head? && s.done == 0 && !s.b.timerEx && !s.b.limitEx && c.Batched()
  }

  /** The poll has reported data on the pts. */
  function AtRead(s: State): State {
    s.(timers := s.timers.(watch := WatchDog), revents := PTS_READY, pc := PtsRead)
  }

  lemma ReachesRead(c: Config, s: State)
    requires Shape(c, s) && Resting(c, s)
    ensures Step(c, Step(c, Step(c, s, Tick), Poll(Ready, PTS_READY)), Tick) == AtRead(s)
  {
    hide PtsReadStep, SockReadStep, PtsWriteStep, FlushStep, SockWriteStep, InterStep, PipeStep, ClosingStep;
  }

  lemma ReadsAndDecides(c: Config, s: State, d: seq<byte>)
    requires Shape(c, s) && Resting(c, s) && d != [] && |d| <= s.b.free
    ensures var r := Step(c, Step(c, AtRead(s), Got(d, false)), Tick);
            && r.h.read == s.h.read + d && r.h.sent == s.h.sent && r.done == 0
            && r.b.total == s.b.total + |d| && r.b.lastWs == (s.b.lastWs || r.pc.SockWrite?)
            && if r.b.total >= Threshold(s.b, r.b.total)
               then r.pc.SockWrite? && r.cur.n == r.b.total + 1 && r.cur.left == r.b.total
                    && !r.b.timerEx && !r.b.limitEx
               else Resting(c, r) && r.b.minlimit == Threshold(s.b, r.b.total)
  {
    hide SockReadStep, PtsWriteStep, SockWriteStep, InterStep, PipeStep, ClosingStep, CheckStep, PollStep, Blit;
    assert Step(c, AtRead(s), Got(d, false)) == ReadInto(c, AtRead(s), d);
  }

  lemma OverflowsAndLeaves(c: Config, s: State, d: seq<byte>)
    requires Shape(c, s) && Resting(c, s) && d != [] && s.b.free == 0
    ensures var r := Step(c, Step(c, Step(c, AtRead(s), Got(d, false)), Tick), Tick);
            r.pc.Left? && r.h.code == 6 && r.h.read == s.h.read && r.h.sent == s.h.sent
  {
    hide SockReadStep, PtsWriteStep, SockWriteStep, InterStep, PipeStep, ClosingStep, CheckStep, PollStep, Blit;
    assert s.h.read + [] == s.h.read;
    assert Step(c, AtRead(s), Got(d, false)) == AtRead(s).(done := 6, pc := Flush);
  }

  function Iteration(d: seq<byte>): seq<Event> {
    [Tick, Poll(Ready, PTS_READY), Tick, Got(d, false), Tick]
  }

  lemma RunIteration(c: Config, events: seq<Event>, d: seq<byte>)
    requires c.Valid() && Resting(c, Run(c, events))
    ensures Run(c, events + Iteration(d))
            == Step(c, Step(c, AtRead(Run(c, events)), Got(d, false)), Tick)
  {
    hide *;
    var e1 := events + [Tick];
    var e2 := e1 + [Poll(Ready, PTS_READY)];
    var e3 := e2 + [Tick];
    var e4 := e3 + [Got(d, false)];
    RunSnoc(c, events, Tick);
    RunSnoc(c, e1, Poll(Ready, PTS_READY));
    RunSnoc(c, e2, Tick);
    RunSnoc(c, e3, Got(d, false));
    RunSnoc(c, e4, Tick);
    IterationSteps(events, d);
    ReachesRead(c, Run(c, events));
  }

  lemma IterationSteps(events: seq<Event>, d: seq<byte>)
    ensures events + Iteration(d)
         == events + [Tick] + [Poll(Ready, PTS_READY)] + [Tick] + [Got(d, false)] + [Tick]
  {
  }

  /** A batch that is written in one packet is gone from the buffer, and the threshold looks one byte beyond it. */
  lemma WritesBatch(c: Config, s: State)
    requires Shape(c, s) && s.pc.SockWrite? && s.done == 0 && c.Batched()
    requires s.cur.left + 1 == s.cur.n == s.b.total + 1 && !s.b.timerEx && !s.b.limitEx
    ensures var r := Step(c, s, Wrote(s.cur.n));
            && Resting(c, r) && r.b.free == c.bufferSize && r.b.total == 0 && r.h.read == s.h.read
            && r.b.lastWrite == s.cur.n && r.b.lastWs == s.b.lastWs
  {
    hide PtsReadStep, SockReadStep, PtsWriteStep, FlushStep, InterStep, PipeStep, ClosingStep, CheckStep, PollStep;
    hide W.Packet, W.Reframe;
  }

  /** From a full buffer at rest the session ends with code 6 and drops the batch. */
  lemma FullBufferEnds(c: Config, events: seq<Event>, d: seq<byte>) returns (all: seq<Event>)
    requires c.Valid() && Resting(c, Run(c, events)) && Smooth(events)
    requires d != [] && Run(c, events).b.free == 0
    ensures Smooth(all)
    ensures var s := Run(c, all);
            s.pc.Left? && s.h.code == 6 && |s.h.read| == |W.Payloads(s.h.sent)| + c.bufferSize
  {
    all := events + Iteration(d) + [Tick];
    RunIteration(c, events, d);
    RunSnoc(c, events + Iteration(d), Tick);
    OverflowsAndLeaves(c, Run(c, events), d);
    RunData(c, events);
    RestingIsWhole(c, Run(c, events));
    StaysSmooth(events, d);
    SmoothNext(events + Iteration(d), Tick);
    hide *;
  }

  lemma StaysSmooth(events: seq<Event>, d: seq<byte>)
    requires Smooth(events) && d != []
    ensures Smooth(events + Iteration(d))
  {
  }

  lemma SmoothNext(events: seq<Event>, e: Event)
    requires Smooth(events) && Undisturbed(e)
    ensures Smooth(events + [e])
  {
  }

  lemma RestingIsWhole(c: Config, s: State)
    requires Shape(c, s) && Data(c, s) && Resting(c, s)
    ensures |s.h.read| == |W.Payloads(s.h.sent)| + s.b.total && s.b.total + s.b.free == c.bufferSize
  {
    hide Bounded, Unstranded, Growing, Delivered, W.Payloads;
    assert |s.h.read| == |W.Payloads(s.h.sent) + s.b.buf[1..1 + s.b.total]|;
  }

  /** Reading a whole buffer into an empty batch: it is either flushed at once, or full and at rest. */
  lemma Fills(c: Config, events: seq<Event>, d: seq<byte>) returns (all: seq<Event>)
    requires c.Valid() && Resting(c, Run(c, events)) && Smooth(events)
    requires Run(c, events).b.total == 0 && |d| == c.bufferSize && d != []
    ensures Smooth(all)
    ensures var b := Run(c, events).b; var r := Run(c, all);
            && Resting(c, r)
            && if c.bufferSize < Threshold(b, c.bufferSize) then r.b.free == 0
               else r.b.total == 0 && r.b.lastWs && r.b.lastWrite == c.bufferSize + 1
  {
    var s := Run(c, events);
    all := events + Iteration(d);
    RunIteration(c, events, d);
    ReadsAndDecides(c, s, d);
    StaysSmooth(events, d);
    hide Run, Step, Iteration;
    var r := Run(c, all);
    if r.pc.SockWrite? {
      WritesBatch(c, r);
      RunSnoc(c, all, Wrote(r.cur.n));
      SmoothNext(all, Wrote(r.cur.n));
      all := all + [Wrote(r.cur.n)];
    }
  }

  lemma OverflowingRun(c: Config) returns (all: seq<Event>)
    requires c.Valid() && c.Batched()
    ensures Smooth(all)
    ensures var s := Run(c, all);
            s.pc.Left? && s.h.code == 6 && |s.h.read| == |W.Payloads(s.h.sent)| + c.bufferSize
  {
    assert Run(c, []) == Init(c);
    if c.bufferSize == 0 {
      all := FullBufferEnds(c, [], [65]);
      return;
    }
    hide Run, Step;
    var d := seq(c.bufferSize, _ => 65);
    var events := Fills(c, [], d);
    if Run(c, events).b.free != 0 {
      events := Fills(c, events, d);
    }
    all := FullBufferEnds(c, events, d);
  }

  /**
   Whatever the configuration, an undisturbed batched session can end with code 6, as if the login side had
   closed the pts, and without the last `bufferSize` bytes that it read.
   */
  lemma UndisturbedSessionLosesData(c: Config) returns (events: seq<Event>, states: seq<State>)
    requires c.Valid() && c.Batched()
    ensures Behaviour(c, events, states) && Smooth(events)
    ensures var s := states[|events|];
            s.pc.Left? && s.h.code == 6 && |s.h.read| == |W.Payloads(s.h.sent)| + c.bufferSize
  {
    events := OverflowingRun(c);
    states := RunBehaves(c, events);
  }
}
