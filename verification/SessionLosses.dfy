/** What a session loses of the bytes that it read from the pts. */
module SessionLosses {
  import opened Common
  import opened Session
  import opened SessionControl
  import opened SessionFlow
  import T = SessionTheorems
  import W = Writen

  /** A data write returns less than it was given. */
  predicate Short(s: State, r: State) {
    Sending(s.pc) && InLoop(r.pc) && !Sending(r.pc) && W.Result(r.cur) < r.cur.n
  }

  ghost predicate ShortBefore(states: seq<State>, k: nat)
    requires k < |states|
  {
    exists i :: 0 <= i < k && Short(states[i], states[i + 1])
  }

  /** Where neither a write is under way nor the process has ended. */
  predicate Settles(pc: Pc) { if InLoop(pc) then !Sending(pc) else !pc.Exited? }

  ghost predicate Sound(c: Config, s: State)
    requires Shape(c, s)
  {
    Settles(s.pc) ==> Whole(c, s)
  }

  // ---------------------------------------------------------------------------------------------
  // Without a short write everything read is sent or in the batch.

  lemma WholeStays(c: Config, s: State, r: State)
    requires Shape(c, s) && Shape(c, r) && Whole(c, s)
    requires r.h.read == s.h.read && r.h.sent == s.h.sent && r.b.buf == s.b.buf && r.b.total == s.b.total
    ensures Whole(c, r)
  {
  }

  /** A step that touches neither the batch nor the history of the pts side. */
  predicate Unmoved(s: State, r: State) {
    r.h.read == s.h.read && r.h.sent == s.h.sent && r.b.buf == s.b.buf && r.b.total == s.b.total
  }

  lemma PollUnmoved(c: Config, s: State, e: Event)
    requires Shape(c, s) && (s.pc.Head? || s.pc.Polling? || s.pc.PipeRead? || s.pc.Check?)
    ensures Unmoved(s, LoopStep(c, s, e))
  {
    hide Shape, Blit, Drained;
  }

  lemma SockUnmoved(c: Config, s: State, e: Event)
    requires Shape(c, s) && (s.pc.SockRead? || s.pc.PtsWrite?)
    ensures Unmoved(s, LoopStep(c, s, e)) && InLoop(LoopStep(c, s, e).pc) && !Sending(LoopStep(c, s, e).pc)
  {
    hide Shape, Blit, Take, Clip;
  }

  lemma FlushUnmoved(c: Config, s: State, e: Event)
    requires Shape(c, s) && s.pc.Flush?
    ensures var r := LoopStep(c, s, e);
            Sending(r.pc) || (Unmoved(s, r) && (r.pc.Head? || r.pc.Flush?) && r.done == s.done)
  {
    hide Shape, Flushing, W.Begin;
    if s.b.total > 0 { FlushingSends(c, s); }
  }

  lemma FlushingSends(c: Config, s: State)
    requires Shape(c, s) && s.b.total > 0
    ensures Sending(Flushing(c, s).pc)
  {
    hide Shape, W.Begin;
  }

  lemma InterUnmoved(c: Config, s: State, e: Event)
    requires Shape(c, s) && s.pc.Inter? && !Sending(s.pc)
    ensures var r := LoopStep(c, s, e); Unmoved(s, r) && InLoop(r.pc) && !Sending(r.pc)
  {
    hide Shape, InterStep;
    InterEffect(c, s, e);
  }

  lemma PtsReadSound(c: Config, s: State, e: Event)
    requires Shape(c, s) && Whole(c, s) && s.pc.PtsRead?
    ensures Sound(c, PtsReadStep(c, s, e))
  {
    match e
    case Got(data, intr) =>
      var d := Take(data, if c.Batched() then s.b.free else c.bufferSize);
      if d != [] && c.Batched() {
        ReadWhole(c, s, d);
        ReadStepIs(c, s, data, intr, d);
        hide PtsReadStep, Whole, ReadInto;
      } else {
        assert s.h.read + [] == s.h.read;
        hide W.Payloads, Blit, Appended;
      }
    case _ =>
      hide W.Payloads, Blit, Take;
  }

  lemma ReadStepIs(c: Config, s: State, data: seq<byte>, intr: bool, d: seq<byte>)
    requires Shape(c, s) && s.pc.PtsRead? && c.Batched() && d == Take(data, s.b.free) && d != []
    ensures |d| <= s.b.free && PtsReadStep(c, s, Got(data, intr)) == ReadInto(c, s, d)
  {
    hide Blit, Appended;
  }

  /** A write that ends the call of `writensockint`, in full. */
  lemma WroteAll(c: Config, s: State, k0: nat)
    requires Shape(c, s) && Data(c, s) && s.pc.SockWrite?
    requires AfterWrite(s, Clip(k0, s.cur.left + 1)).cur.left == 0
    ensures Whole(c, SockWriteStep(c, s, Wrote(k0)))
  {
    var k := Clip(k0, s.cur.left + 1);
    SentBytes(c, s, k);
    NoBatchSent(c, s);
    var r := SockWriteStep(c, s, Wrote(k0));
    var sent := W.Payloads(r.h.sent);
    assert r.b.total == 0 && r.h.sent == AfterWrite(s, k).h.sent && r.h.read == s.h.read;
    hide Relayed, Delivered, W.Payloads, AfterWrite, SockWriteStep, W.Unsent;
    assert sent + [] == sent;
    assert r.b.buf[1..1] == [];
  }

  lemma NoBatchSent(c: Config, s: State)
    requires Shape(c, s) && Data(c, s)
    ensures !c.Batched() ==> s.b.total == 0
  {
  }

  lemma SockWriteSound(c: Config, s: State, e: Event)
    requires Shape(c, s) && Data(c, s) && s.pc.SockWrite? && !Short(s, SockWriteStep(c, s, e))
    ensures Sound(c, SockWriteStep(c, s, e))
  {
    if e.Wrote? && AfterWrite(s, Clip(e.k, s.cur.left + 1)).cur.left == 0 {
      WroteAll(c, s, e.k);
    } else {
      hide Data, Whole, W.Reframe, W.Packet, W.Payloads, Clip;
    }
  }

  lemma InterSendSound(c: Config, s: State, e: Event)
    requires Shape(c, s) && s.pc.Inter? && Sending(s.pc) && !Short(s, InterStep(c, s, e))
    ensures Sending(InterStep(c, s, e).pc)
  {
    InterEffect(c, s, e);
    hide InterStep, WriteReturn;
  }

  lemma LoopSound(c: Config, s: State, e: Event)
    requires Shape(c, s) && Data(c, s) && InLoop(s.pc) && Sound(c, s) && !Short(s, LoopStep(c, s, e))
    ensures Sound(c, LoopStep(c, s, e))
  {
    hide Data, Shape, Whole, LoopStep;
    LoopIs(c, s, e);
    if s.pc.SockWrite? {
      SockWriteSound(c, s, e);
    } else if s.pc.Inter? && Sending(s.pc) {
      InterSendSound(c, s, e);
    } else if s.pc.PtsRead? {
      PtsReadSound(c, s, e);
    } else {
      if s.pc.Inter? { InterUnmoved(c, s, e); }
      else if s.pc.Flush? { FlushUnmoved(c, s, e); }
      else if s.pc.SockRead? || s.pc.PtsWrite? { SockUnmoved(c, s, e); }
      else { PollUnmoved(c, s, e); }
      if Settles(LoopStep(c, s, e).pc) { WholeStays(c, s, LoopStep(c, s, e)); }
    }
  }

  lemma LoopIs(c: Config, s: State, e: Event)
    requires Shape(c, s) && InLoop(s.pc)
    ensures s.pc.SockWrite? ==> LoopStep(c, s, e) == SockWriteStep(c, s, e)
    ensures s.pc.PtsRead? ==> LoopStep(c, s, e) == PtsReadStep(c, s, e)
    ensures s.pc.Inter? ==> LoopStep(c, s, e) == InterStep(c, s, e)
  {
    hide SockWriteStep, PtsReadStep, InterStep, Shape;
  }

  lemma StepSound(c: Config, s: State, e: Event)
    requires Shape(c, s) && Data(c, s) && Sound(c, s) && !Short(s, Step(c, s, e))
    ensures Sound(c, Step(c, s, e))
  {
    hide Data, Shape, Whole, LoopStep, ClosingStep;
    if Environment(e) {
      if !e.Killed? || s.pc.Finished? { SignalUnmoved(c, s, e); WholeOrNot(c, s, Step(c, s, e)); }
    } else if InLoop(s.pc) {
      LoopSound(c, s, e);
    } else {
      WholeOrNot(c, s, ClosingStep(c, s, e));
    }
  }

  lemma SignalUnmoved(c: Config, s: State, e: Event)
    requires Shape(c, s) && Environment(e) && (!e.Killed? || s.pc.Finished?)
    ensures var r := Step(c, s, e); Unmoved(s, r) && r.pc == s.pc
  {
    hide Shape;
  }

  lemma WholeOrNot(c: Config, s: State, r: State)
    requires Shape(c, s) && Shape(c, r) && Sound(c, s) && Unmoved(s, r)
    requires Settles(r.pc) ==> Settles(s.pc)
    ensures Sound(c, r)
  {
    if Settles(r.pc) { WholeStays(c, s, r); }
  }

  lemma InitSound(c: Config)
    requires c.Valid()
    ensures Sound(c, Init(c))
  {
  }

  lemma {:induction false} SoundUntilShort(c: Config, events: seq<Event>, states: seq<State>, k: nat)
    requires Behaviour(c, events, states) && k < |states| && !ShortBefore(states, k)
    ensures Shape(c, states[k]) && Sound(c, states[k])
  {
    hide *;
    T.Kept(c, events, states, k);
    if k == 0 {
      StartsSound(c, events, states);
    } else {
      T.Kept(c, events, states, k - 1);
      ShortIsBefore(states, k);
      SoundUntilShort(c, events, states, k - 1);
      StepSound(c, states[k - 1], events[k - 1]);
    }
  }

  lemma StartsSound(c: Config, events: seq<Event>, states: seq<State>)
    requires Behaviour(c, events, states) && Shape(c, states[0])
    ensures Sound(c, states[0])
  {
    InitSound(c);
    hide Shape, Sound, Step;
  }

  lemma ShortIsBefore(states: seq<State>, k: nat)
    requires 0 < k < |states|
    ensures ShortBefore(states, k - 1) || Short(states[k - 1], states[k]) ==> ShortBefore(states, k)
  {
    hide Short;
    assert Short(states[k - 1], states[k - 1 + 1]) ==> ShortBefore(states, k);
  }

  // ---------------------------------------------------------------------------------------------
  // After a short write something is missing for good.

  /** Bytes are missing, and the loop is on its way out without another read or data packet. */
  ghost predicate Missing(c: Config, s: State) {
    && |W.Payloads(s.h.sent)| < |s.h.read|
    && (InLoop(s.pc) ==> s.done != 0 && s.b.total == 0 && (s.pc.Head? || (!c.Batched() && AfterRead(s.pc))))
  }

  lemma ShortMisses(c: Config, s: State, e: Event)
    requires Shape(c, s) && Control(s) && Data(c, s) && Short(s, Step(c, s, e))
    ensures Missing(c, Step(c, s, e))
  {
    var r := Step(c, s, e);
    T.ShortStep(c, s, e);
    ShortPlace(c, s, e);
    SendingFacts(c, s);
    NoBatchSent(c, s);
    UnsentLength(c, s);
    hide Shape, Control, Data, Step, W.Payloads, W.Unsent, AfterRead;
  }

  lemma UnsentLength(c: Config, s: State)
    requires Shape(c, s) && Sending(s.pc)
    ensures |W.Unsent(s.b.buf, s.cur)| == s.cur.left > 0
  {
  }

  /** Where a short write returns to, and what it leaves alone. */
  lemma ShortPlace(c: Config, s: State, e: Event)
    requires Shape(c, s) && Short(s, Step(c, s, e))
    ensures var r := Step(c, s, e);
            && r.h.read == s.h.read && r.h.sent == s.h.sent
            && (if c.Batched() then r.pc.Head? && r.b.total == 0 else AfterRead(r.pc) && r.b.total == s.b.total)
  {
    hide Shape, LoopStep, ClosingStep;
    LoopIsSend(c, s, e);
    if s.pc.SockWrite? {
      ShortSockWrite(c, s, e);
    } else {
      InterEffect(c, s, e);
      hide InterStep;
    }
  }

  lemma LoopIsSend(c: Config, s: State, e: Event)
    requires Shape(c, s) && Short(s, Step(c, s, e))
    ensures Step(c, s, e) == if s.pc.SockWrite? then SockWriteStep(c, s, e) else InterStep(c, s, e)
  {
    hide SockWriteStep, InterStep, Shape;
  }

  lemma ShortSockWrite(c: Config, s: State, e: Event)
    requires Shape(c, s) && s.pc.SockWrite? && Short(s, SockWriteStep(c, s, e))
    ensures var r := SockWriteStep(c, s, e);
            && r.h.read == s.h.read && r.h.sent == s.h.sent
            && (if c.Batched() then r.pc.Head? && r.b.total == 0 else AfterRead(r.pc) && r.b.total == s.b.total)
  {
    hide W.Reframe, W.Packet, Clip;
  }

  lemma LeavesMissing(c: Config, s: State, e: Event)
    requires Shape(c, s) && s.pc.Head? && s.done != 0
    ensures var r := LoopStep(c, s, e); Unmoved(s, r) && (r == s || !InLoop(r.pc))
  {
    hide Shape;
  }

  lemma AfterReadMissing(c: Config, s: State, e: Event)
    requires Shape(c, s) && AfterRead(s.pc) && s.b.total == 0 && s.done != 0 && !c.Batched()
    ensures var r := LoopStep(c, s, e); Unmoved(s, r) && r.done != 0 && (r.pc.Head? || AfterRead(r.pc))
  {
    hide Shape, LoopStep;
    if s.pc.Inter? {
      InterUnmoved(c, s, e);
      InterStaysAfter(c, s, e);
    } else if s.pc.Flush? {
      NothingToFlush(c, s, e);
    } else {
      SockUnmoved(c, s, e);
      SockStaysAfter(c, s, e);
    }
  }

  lemma InterStaysAfter(c: Config, s: State, e: Event)
    requires Shape(c, s) && s.pc.Inter? && AfterRead(s.pc) && s.done != 0
    ensures var r := LoopStep(c, s, e); r.done != 0 && AfterRead(r.pc)
  {
    hide Shape, InterStep;
    InterEffect(c, s, e);
  }

  lemma NothingToFlush(c: Config, s: State, e: Event)
    requires Shape(c, s) && s.pc.Flush? && s.b.total == 0
    ensures var r := LoopStep(c, s, e); Unmoved(s, r) && r.done == s.done && (r.pc.Head? || r == s)
  {
    hide Shape;
  }

  lemma SockStaysAfter(c: Config, s: State, e: Event)
    requires Shape(c, s) && (s.pc.SockRead? || s.pc.PtsWrite?) && s.done != 0
    ensures var r := LoopStep(c, s, e); r.done != 0 && AfterRead(r.pc)
  {
    hide Shape, Blit, Take, Clip;
  }

  lemma StepMissing(c: Config, s: State, e: Event)
    requires Shape(c, s) && Missing(c, s)
    ensures Missing(c, Step(c, s, e))
  {
    hide Shape, LoopStep, ClosingStep, W.Payloads;
    if Environment(e) {
      SignalKeepsMissing(c, s, e);
    } else if !InLoop(s.pc) {
      hide AfterRead;
    } else if s.pc.Head? {
      LeavesMissing(c, s, e);
    } else {
      AfterReadMissing(c, s, e);
    }
  }

  lemma SignalKeepsMissing(c: Config, s: State, e: Event)
    requires Shape(c, s) && Environment(e) && Missing(c, s)
    ensures Missing(c, Step(c, s, e))
  {
    hide Shape, W.Payloads;
  }

  lemma {:induction false} ShortStaysMissing(c: Config, events: seq<Event>, states: seq<State>, k: nat)
    requires Behaviour(c, events, states) && k < |states| && ShortBefore(states, k)
    ensures Missing(c, states[k])
  {
    hide *;
    LastOrBefore(states, k);
    T.Kept(c, events, states, k - 1);
    if ShortBefore(states, k - 1) {
      ShortStaysMissing(c, events, states, k - 1);
      StepMissing(c, states[k - 1], events[k - 1]);
    } else {
      ShortMisses(c, states[k - 1], events[k - 1]);
    }
  }

  lemma LastOrBefore(states: seq<State>, k: nat)
    requires k < |states| && ShortBefore(states, k)
    ensures k > 0 && (ShortBefore(states, k - 1) || Short(states[k - 1], states[k]))
  {
    hide Short;
    var i :| 0 <= i < k && Short(states[i], states[i + 1]);
    assert i < k - 1 ==> ShortBefore(states, k - 1);
  }

  lemma WholeIff(c: Config, s: State)
    requires Shape(c, s) && Whole(c, s)
    ensures W.Payloads(s.h.sent) == s.h.read <==> s.b.total == 0
  {
    hide W.Payloads;
    assert |s.h.read| == |W.Payloads(s.h.sent)| + s.b.total;
    if s.b.total == 0 { assert W.Payloads(s.h.sent) + [] == W.Payloads(s.h.sent); }
  }

  /**
   What a session loses.  Once the loop is left, the bytes read that were not sent are exactly the batch, unless
   some data write returned short; and nothing is lost if and only if the batch is empty and no write was short.
   */
  lemma LossIsTheBatch(c: Config, events: seq<Event>, states: seq<State>, k: nat)
    requires Behaviour(c, events, states) && k < |states| && !InLoop(states[k].pc) && !states[k].pc.Exited?
    ensures var s := states[k]; var sent := W.Payloads(s.h.sent);
            && 1 + s.b.total <= |s.b.buf|
            && (!ShortBefore(states, k) ==> sent + s.b.buf[1..1 + s.b.total] == s.h.read)
            && (sent == s.h.read <==> s.b.total == 0 && !ShortBefore(states, k))
  {
    T.Kept(c, events, states, k);
    hide Behaviour, Step, Control, Data, W.Payloads, W.Ok;
    if ShortBefore(states, k) {
      ShortStaysMissing(c, events, states, k);
    } else {
      SoundUntilShort(c, events, states, k);
      WholeIff(c, states[k]);
    }
  }
}
