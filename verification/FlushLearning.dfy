/**
 What a flush by the forward timer teaches the flush policy.  It lowers the threshold; whether the lower
 threshold is ever used depends on what happens before the next read from the pts.
 */
module FlushLearning {
  import opened Common
  import opened Session
  import opened SessionControl
  import opened SessionFlow
  import T = SessionTheorems
  import W = Writen

  /** The main thread flushes a batch because the forward timer expired, and no read has raised the threshold. */
  predicate TimerFlush(s: State, e: Event) {
    s.pc.Flush? && e.Tick? && s.b.timerEx && !s.b.raised && s.b.total > 0
  }

  /** The threshold that such a flush leaves behind. */
  function Learned(s: State): int { s.b.total - s.b.lastRead / 4 }

  /** A read from the pts that brings data. */
  predicate ReadsData(s: State, e: Event) { s.pc.PtsRead? && e.Got? && e.data != [] }

  // ---------------------------------------------------------------------------------------------
  // The histories only grow.

  predicate Grows(s: State, r: State) {
    && |s.h.read| <= |r.h.read|
    && |s.h.flushes| <= |r.h.flushes|
    && |s.inb.frames| <= |r.inb.frames|
  }

  lemma SockGrows(c: Config, s: State, e: Event)
    requires Shape(c, s) && (s.pc.SockRead? || s.pc.SockWrite? || s.pc.PtsWrite?)
    ensures Grows(s, LoopStep(c, s, e))
  {
    hide Shape, W.Ok, Blit, Take, Clip, W.Advance, W.Reframe, W.Packet, W.Result;
  }

  lemma LoopGrows(c: Config, s: State, e: Event)
    requires Shape(c, s) && InLoop(s.pc)
    ensures Grows(s, LoopStep(c, s, e))
  {
    if s.pc.SockRead? || s.pc.SockWrite? || s.pc.PtsWrite? {
      SockGrows(c, s, e);
    } else {
      PtsGrows(c, s, e);
    }
  }

  lemma PtsGrows(c: Config, s: State, e: Event)
    requires Shape(c, s) && InLoop(s.pc) && !s.pc.SockRead? && !s.pc.SockWrite? && !s.pc.PtsWrite?
    ensures Grows(s, LoopStep(c, s, e))
  {
    hide Shape, InterStep, Blit, Take, Threshold, W.Begin;
    if s.pc.Inter? { InterEffect(c, s, e); }
  }

  lemma StepGrows(c: Config, s: State, e: Event)
    requires Shape(c, s)
    ensures var r := Step(c, s, e); Grows(s, r) && (InLoop(r.pc) ==> InLoop(s.pc))
  {
    hide Shape, LoopStep, ClosingStep;
    if !Environment(e) && InLoop(s.pc) { LoopGrows(c, s, e); }
  }

  lemma GrowsOn(s: State, m: State, r: State)
    ensures Grows(s, m) && Grows(m, r) ==> Grows(s, r)
    ensures Grows(s, s)
  {
  }

  lemma {:induction false} RunGrows(c: Config, events: seq<Event>, states: seq<State>, i: nat, j: nat)
    requires Behaviour(c, events, states) && i <= j < |states|
    ensures Grows(states[i], states[j]) && (InLoop(states[j].pc) ==> InLoop(states[i].pc))
    decreases j
  {
    hide *;
    if i < j {
      T.Kept(c, events, states, j - 1);
      RunGrows(c, events, states, i, j - 1);
      StepGrows(c, states[j - 1], events[j - 1]);
      GrowsOn(states[i], states[j - 1], states[j]);
    } else {
      GrowsOn(states[i], states[i], states[i]);
    }
  }

  // ---------------------------------------------------------------------------------------------
  // From the flush to the next read.

  /** Nothing waits in the buffer but what is being sent. */
  predicate Emptied(s: State) { Sending(s.pc) || s.b.total == 0 }

  lemma QuietSockStep(c: Config, s: State, e: Event)
    requires Shape(c, s) && c.Batched() && (s.pc.SockRead? || s.pc.PtsWrite?) && Emptied(s)
    requires var r := LoopStep(c, s, e); InLoop(r.pc) && |r.h.read| == |s.h.read|
    ensures var r := LoopStep(c, s, e);
            r.b.minlimit == s.b.minlimit && r.h.flushes == s.h.flushes && Emptied(r)
  {
    hide Shape, Blit, Take, Clip;
  }

  lemma QuietWriteStep(c: Config, s: State, e: Event)
    requires Shape(c, s) && c.Batched() && s.pc.SockWrite?
    requires var r := LoopStep(c, s, e); InLoop(r.pc) && |r.h.read| == |s.h.read|
    ensures var r := LoopStep(c, s, e);
            r.b.minlimit == s.b.minlimit && r.h.flushes == s.h.flushes && Emptied(r)
  {
    if e.Wrote? { AfterWriteFields(s, Clip(e.k, s.cur.left + 1)); }
    hide Shape, W.Ok, Clip, AfterWrite, W.Result, WriteReturn;
    if e.Wrote? {
      WriteReturnFields(c, AfterWrite(s, Clip(e.k, s.cur.left + 1)));
    } else {
      WriteReturnFields(c, s.(done := 10));
    }
  }

  lemma WriteReturnFields(c: Config, s: State)
    requires c.Batched()
    ensures Returning(c, s) ==>
              var r := WriteReturn(c, s);
              r.b.minlimit == s.b.minlimit && r.h == s.h && r.b.total == 0
  {
    hide W.Result, Shape;
  }

  lemma AfterWriteFields(s: State, k: nat)
    requires W.Ok(s.b.buf, s.cur) && 1 <= k <= s.cur.left + 1
    ensures var r := AfterWrite(s, k);
            r.pc == s.pc && r.b == s.b.(buf := r.b.buf) && r.h == s.h.(sent := r.h.sent)
  {
    hide W.Ok, W.Advance, W.Reframe, W.Packet;
  }

  lemma QuietLoopStep(c: Config, s: State, e: Event)
    requires Shape(c, s) && c.Batched() && InLoop(s.pc) && !s.pc.Inter? && Emptied(s)
    requires var r := LoopStep(c, s, e); InLoop(r.pc) && |r.h.read| == |s.h.read|
    ensures var r := LoopStep(c, s, e);
            r.b.minlimit == s.b.minlimit && r.h.flushes == s.h.flushes && Emptied(r)
  {
    hide LoopStep, Shape;
    if s.pc.SockWrite? {
      QuietWriteStep(c, s, e);
    } else if s.pc.SockRead? || s.pc.PtsWrite? {
      QuietSockStep(c, s, e);
    } else if s.pc.PtsRead? || s.pc.Flush? {
      QuietPtsStep(c, s, e);
    } else {
      QuietPollStep(c, s, e);
    }
  }

  lemma QuietPtsStep(c: Config, s: State, e: Event)
    requires Shape(c, s) && c.Batched() && (s.pc.PtsRead? || s.pc.Flush?) && Emptied(s)
    requires var r := LoopStep(c, s, e); InLoop(r.pc) && |r.h.read| == |s.h.read|
    ensures var r := LoopStep(c, s, e);
            r.b.minlimit == s.b.minlimit && r.h.flushes == s.h.flushes && Emptied(r)
  {
    hide Shape, Blit, Forwarded, Flushing, Threshold;
  }

  lemma PollKeepsBatch(c: Config, s: State, e: Event)
    requires Shape(c, s) && (s.pc.Head? || s.pc.Polling? || s.pc.PipeRead? || s.pc.Check?)
    ensures var r := LoopStep(c, s, e);
            r.b == s.b && r.h == s.h.(code := r.h.code) && !Sending(r.pc)
  {
    hide Shape, Blit, Drained;
  }

  lemma QuietPollStep(c: Config, s: State, e: Event)
    requires Shape(c, s) && c.Batched() && (s.pc.Head? || s.pc.Polling? || s.pc.PipeRead? || s.pc.Check?)
    requires Emptied(s)
    requires var r := LoopStep(c, s, e); InLoop(r.pc) && |r.h.read| == |s.h.read|
    ensures var r := LoopStep(c, s, e);
            r.b.minlimit == s.b.minlimit && r.h.flushes == s.h.flushes && Emptied(r)
  {
    hide Shape, LoopStep;
    PollKeepsBatch(c, s, e);
  }

  lemma QuietStep(c: Config, s: State, e: Event)
    requires Shape(c, s) && c.Batched() && InLoop(s.pc) && Emptied(s)
    requires var r := Step(c, s, e); InLoop(r.pc) && |r.h.read| == |s.h.read|
    ensures var r := Step(c, s, e);
            r.b.minlimit == s.b.minlimit && r.h.flushes == s.h.flushes && Emptied(r)
  {
    hide Shape, LoopStep;
    if !Environment(e) {
      if s.pc.Inter? {
        InterQuiet(c, s, e);
      } else {
        QuietLoopStep(c, s, e);
      }
    }
  }

  lemma InterQuiet(c: Config, s: State, e: Event)
    requires Shape(c, s) && c.Batched() && s.pc.Inter? && Emptied(s)
    ensures var r := LoopStep(c, s, e);
            r.b.minlimit == s.b.minlimit && r.h.flushes == s.h.flushes && Emptied(r)
  {
    hide Shape, InterStep;
    InterEffect(c, s, e);
  }

  lemma FlushTeaches(c: Config, s: State)
    requires Shape(c, s) && c.Batched() && TimerFlush(s, Tick)
    ensures Taught(s, Step(c, s, Tick)) && Step(c, s, Tick).h.read == s.h.read
  {
    hide Shape, W.Begin;
  }

  lemma NothingBetween(s: State, m: State, r: State)
    requires Grows(s, m) && Grows(m, r)
    ensures |r.h.read| == |s.h.read| ==> |m.h.read| == |s.h.read|
    ensures |r.h.flushes| == |s.h.flushes| ==> |m.h.flushes| == |s.h.flushes|
  {
  }

  /** The flush has taught `r` the threshold, and nothing has been read since. */
  predicate Taught(s: State, r: State) {
    && r.b.minlimit == Learned(s) && Emptied(r)
    && r.h.flushes == s.h.flushes + [FlushNote(s.b.total, s.b.limitEx, s.h.seen, |s.inb.frames|)]
  }

  lemma TaughtStep(c: Config, start: State, s: State, e: Event)
    requires Shape(c, s) && c.Batched() && InLoop(s.pc) && Taught(start, s)
    requires var r := Step(c, s, e); InLoop(r.pc) && |r.h.read| == |s.h.read|
    ensures Taught(start, Step(c, s, e))
  {
    QuietStep(c, s, e);
    hide Step, Shape, Emptied;
  }

  /** Until data is read again the learned threshold and the flush stay what they are. */
  lemma {:induction false} QuietUntilRead(c: Config, events: seq<Event>, states: seq<State>, i: nat, j: nat)
    requires Behaviour(c, events, states) && c.Batched() && i < j < |states|
    requires TimerFlush(states[i], events[i]) && InLoop(states[j].pc)
    requires |states[j].h.read| == |states[i].h.read|
    ensures Taught(states[i], states[j])
    decreases j
  {
    hide *;
    T.Kept(c, events, states, j - 1);
    RunGrows(c, events, states, i, j - 1);
    RunGrows(c, events, states, j - 1, j);
    NothingBetween(states[i], states[j - 1], states[j]);
    TickOf(states[i], events[i]);
    if j == i + 1 {
      FlushTeaches(c, states[i]);
    } else {
      QuietUntilRead(c, events, states, i, j - 1);
      TaughtStep(c, states[i], states[j - 1], events[j - 1]);
    }
  }

  lemma TickOf(s: State, e: Event)
    requires TimerFlush(s, e)
    ensures e == Tick
  {
  }

  /** The read that ends the quiet: what it takes for its threshold depends on an answer from the circuit. */
  lemma NextRead(c: Config, s: State, e: Event, learned: int, note: FlushNote)
    requires Shape(c, s) && Data(c, s) && c.Batched() && ReadsData(s, e)
    requires s.b.minlimit == learned <= note.n && Emptied(s)
    requires s.h.flushes != [] && s.h.flushes[|s.h.flushes| - 1] == note
    ensures var r := Step(c, s, e);
            && (if note.seenAtFlush == |s.inb.frames| then r.b.minlimit > note.n else r.b.minlimit == learned)
            && r.b.lastWs == (note.seenAtFlush == |s.inb.frames|)
            && InLoop(r.pc) && !Sending(r.pc) && r.h.flushes == s.h.flushes
  {
    var d := Take(e.data, s.b.free);
    assert d != [];
    hide Conserved, Delivered, Unstranded, Blit, Bounded;
  }

  /**
   The learned threshold governs the next data from the pts if and only if a data frame came from the circuit
   after the flush.  Otherwise that read takes a threshold beyond the flushed batch, and a batch of that size
   waits for the timer again.
   */
  lemma LearnedIffAnswered(c: Config, events: seq<Event>, states: seq<State>, i: nat, j: nat)
    requires Behaviour(c, events, states) && c.Batched() && i < j < |events|
    requires TimerFlush(states[i], events[i]) && ReadsData(states[j], events[j])
    requires |states[j].h.read| == |states[i].h.read|
    ensures var answered := |states[j].inb.frames| > |states[i].inb.frames|; var b := states[j + 1].b;
            && (b.minlimit == Learned(states[i]) <==> answered)
            && (b.minlimit > states[i].b.total <==> !answered)
            && b.lastWs == !answered
  {
    var s := states[i];
    T.Kept(c, events, states, j);
    RunGrows(c, events, states, i, j);
    QuietUntilRead(c, events, states, i, j);
    var note := FlushNote(s.b.total, s.b.limitEx, s.h.seen, |s.inb.frames|);
    assert Taught(s, states[j]);
    hide Behaviour, Step, Shape, Control, Data, Emptied;
    NextRead(c, states[j], events[j], Learned(s), note);
  }

  // ---------------------------------------------------------------------------------------------
  // From that read to the next flush.

  lemma SettledSockStep(c: Config, s: State, e: Event)
    requires Shape(c, s) && c.Batched() && (s.pc.SockRead? || s.pc.PtsWrite?) && !s.b.lastWs
    requires var r := LoopStep(c, s, e); InLoop(r.pc) && |r.h.flushes| == |s.h.flushes|
    ensures var r := LoopStep(c, s, e); r.b.minlimit == s.b.minlimit && !r.b.lastWs && !Sending(r.pc)
  {
    hide Shape, Blit, Take, Clip;
  }

  lemma SettledLoopStep(c: Config, s: State, e: Event)
    requires Shape(c, s) && c.Batched() && InLoop(s.pc) && !s.pc.Inter? && !Sending(s.pc) && !s.b.lastWs
    requires var r := LoopStep(c, s, e); InLoop(r.pc) && |r.h.flushes| == |s.h.flushes|
    ensures var r := LoopStep(c, s, e); r.b.minlimit == s.b.minlimit && !r.b.lastWs && !Sending(r.pc)
  {
    hide LoopStep, Shape;
    if s.pc.SockRead? || s.pc.PtsWrite? {
      SettledSockStep(c, s, e);
    } else if s.pc.PtsRead? || s.pc.Flush? {
      SettledPtsStep(c, s, e);
    } else {
      SettledPollStep(c, s, e);
    }
  }

  lemma SettledPtsStep(c: Config, s: State, e: Event)
    requires Shape(c, s) && c.Batched() && (s.pc.PtsRead? || s.pc.Flush?) && !s.b.lastWs
    requires var r := LoopStep(c, s, e); InLoop(r.pc) && |r.h.flushes| == |s.h.flushes|
    ensures var r := LoopStep(c, s, e); r.b.minlimit == s.b.minlimit && !r.b.lastWs && !Sending(r.pc)
  {
    hide Shape, Blit, Forwarded, W.Begin, Take;
  }

  lemma SettledPollStep(c: Config, s: State, e: Event)
    requires Shape(c, s) && c.Batched() && (s.pc.Head? || s.pc.Polling? || s.pc.PipeRead? || s.pc.Check?)
    requires !s.b.lastWs
    requires var r := LoopStep(c, s, e); InLoop(r.pc) && |r.h.flushes| == |s.h.flushes|
    ensures var r := LoopStep(c, s, e); r.b.minlimit == s.b.minlimit && !r.b.lastWs && !Sending(r.pc)
  {
    hide Shape, LoopStep;
    PollKeepsBatch(c, s, e);
  }

  lemma SettledStep(c: Config, s: State, e: Event)
    requires Shape(c, s) && c.Batched() && InLoop(s.pc) && !Sending(s.pc) && !s.b.lastWs
    requires var r := Step(c, s, e); InLoop(r.pc) && |r.h.flushes| == |s.h.flushes|
    ensures var r := Step(c, s, e); r.b.minlimit == s.b.minlimit && !r.b.lastWs && !Sending(r.pc)
  {
    hide Shape, LoopStep;
    if !Environment(e) {
      if s.pc.Inter? {
        InterSettled(c, s, e);
      } else {
        SettledLoopStep(c, s, e);
      }
    }
  }

  lemma InterSettled(c: Config, s: State, e: Event)
    requires Shape(c, s) && c.Batched() && s.pc.Inter? && !Sending(s.pc) && !s.b.lastWs
    ensures var r := LoopStep(c, s, e); r.b.minlimit == s.b.minlimit && !r.b.lastWs && !Sending(r.pc)
  {
    hide Shape, InterStep;
    InterEffect(c, s, e);
  }

  lemma {:induction false} SettledUntilFlush(c: Config, events: seq<Event>, states: seq<State>, j: nat, k: nat)
    requires Behaviour(c, events, states) && c.Batched() && j <= k < |states|
    requires InLoop(states[k].pc) && |states[k].h.flushes| == |states[j].h.flushes|
    requires !Sending(states[j].pc) && !states[j].b.lastWs
    ensures states[k].b.minlimit == states[j].b.minlimit && !states[k].b.lastWs && !Sending(states[k].pc)
    decreases k
  {
    hide *;
    if j < k {
      T.Kept(c, events, states, k - 1);
      RunGrows(c, events, states, j, k - 1);
      RunGrows(c, events, states, k - 1, k);
      NothingBetween(states[j], states[k - 1], states[k]);
      SettledUntilFlush(c, events, states, j, k - 1);
      SettledStep(c, states[k - 1], events[k - 1]);
    }
  }

  lemma ThresholdDecides(c: Config, s: State)
    requires Shape(c, s) && Data(c, s) && c.Batched() && InLoop(s.pc) && !Sending(s.pc)
    ensures s.pc.Head? ==> s.b.total < s.b.minlimit
    ensures s.pc.Flush? ==>
              (|Step(c, s, Tick).h.flushes| > |s.h.flushes| <==>
               s.b.total > 0 && (s.b.total >= s.b.minlimit || s.b.timerEx || s.done == 3))
  {
    hide Conserved, Delivered, Unstranded, Growing, W.Begin;
  }

  /**
   Once the learned threshold governs, it does so until the next flush: a batch is flushed in the iteration in
   which it reaches the learned threshold, and before that only by the timer or a pts hang-up.
   */
  lemma LearnedThresholdFlushes(c: Config, events: seq<Event>, states: seq<State>, i: nat, j: nat, k: nat)
    requires Behaviour(c, events, states) && c.Batched() && i < j < k < |states|
    requires TimerFlush(states[i], events[i]) && ReadsData(states[j], events[j])
    requires |states[j].h.read| == |states[i].h.read| && |states[j].inb.frames| > |states[i].inb.frames|
    requires InLoop(states[k].pc) && |states[k].h.flushes| == |states[j].h.flushes|
    ensures var s := states[k]; var learned := Learned(states[i]);
            && (s.pc.Head? ==> s.b.total < learned)
            && (s.pc.Flush? && k < |events| && events[k].Tick? ==>
                  (|states[k + 1].h.flushes| > |s.h.flushes| <==>
                   s.b.total > 0 && (s.b.total >= learned || s.b.timerEx || s.done == 3)))
  {
    T.Kept(c, events, states, j);
    T.Kept(c, events, states, k);
    LearnedIffAnswered(c, events, states, i, j);
    RunGrows(c, events, states, j, j + 1);
    RunGrows(c, events, states, j + 1, k);
    ReadDoesNotSend(c, states[j], events[j]);
    hide Behaviour, Step, Shape, Control, Data, InLoop, Sending, Learned;
    SettledUntilFlush(c, events, states, j + 1, k);
    ThresholdDecides(c, states[k]);
  }

  lemma ReadDoesNotSend(c: Config, s: State, e: Event)
    requires Shape(c, s) && c.Batched() && ReadsData(s, e)
    ensures !Sending(Step(c, s, e).pc)
  {
    hide Shape, Blit, Take, Threshold;
  }
}
