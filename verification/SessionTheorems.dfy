/**
 The promises of a session.  They hold of every behaviour: every configuration, every sequence of events and
 every state on the way.
 */
module SessionTheorems {
  import opened Common
  import opened Session
  import opened SessionControl
  import opened SessionFlow
  import W = Writen

  /** What holds of all runs holds of every state of a behaviour. */
  lemma Kept(c: Config, events: seq<Event>, states: seq<State>, k: nat)
    requires Behaviour(c, events, states) && k < |states|
    ensures |states| == |events| + 1 && Shape(c, states[k]) && Control(states[k]) && Data(c, states[k])
    ensures k < |events| ==> states[k + 1] == Step(c, states[k], events[k])
  {
    BehaviourRuns(c, events, states, k);
    RunControl(c, events[..k]);
    RunData(c, events[..k]);
    hide Run, Init, Step, Control, Data, Shape;
    assert k < |events| ==> Leads(c, states[k], events[k], states[k + 1]);
  }

  // ---------------------------------------------------------------------------------------------
  // From the pts to the circuit.

  /**
   Outbound conservation.  What was sent is always a prefix of what was read; between two iterations the
   rest is exactly the batch; after a pts hang-up nothing is missing.
   */
  lemma OutboundConservation(c: Config, events: seq<Event>, states: seq<State>, k: nat)
    requires Behaviour(c, events, states) && k < |states|
    ensures var s := states[k]; var sent := W.Payloads(s.h.sent);
            && sent <= s.h.read
            && (s.pc.Head? && s.done == 0 ==>
                  1 + s.b.total <= |s.b.buf| && sent + s.b.buf[1..1 + s.b.total] == s.h.read)
            && (!InLoop(s.pc) && s.h.code == 3 ==> sent == s.h.read)
  {
    Kept(c, events, states, k);
  }

  /** Every data packet starts with Q byte 0, except that immediate mode sends what `malloc` left in the buffer. */
  lemma DataPacketsKeepQByte(c: Config, events: seq<Event>, states: seq<State>, k: nat, i: nat)
    requires Behaviour(c, events, states) && k < |states| && i < |states[k].h.sent|
    ensures var p := states[k].h.sent[i];
            p != [] && (p[0] == 0 <==> c.Batched() || c.bufd[0] == 0)
  {
    Kept(c, events, states, k);
  }

  /** The geometry of the batch buffer and the range of the adaptive threshold. */
  lemma BatchGeometry(c: Config, events: seq<Event>, states: seq<State>, k: nat)
    requires Behaviour(c, events, states) && k < |states| && c.Batched() && states[k].pc.Head?
    ensures var b := states[k].b;
            && b.free + b.total == c.bufferSize
            && b.at == 1 + b.total
            && (b.total > 0 ==> b.lastRead <= b.total)
            && b.total < b.minlimit <= Max(c.minLength, c.bufferSize + 1 + c.bufferSize / 2)
  {
    Kept(c, events, states, k);
  }

  lemma DoneInLoopStep(c: Config, s: State, e: Event)
    requires Shape(c, s) && InLoop(s.pc) && s.done != 0
    ensures Step(c, s, e).done != 0
  {
    hide Blit, Take, Clip, Threshold, W.Begin, W.Advance, W.Packet, W.Reframe, W.Result, Raise, Lower;
  }

  lemma DoneStep(c: Config, s: State, e: Event)
    requires Shape(c, s) && InLoop(Step(c, s, e).pc)
    ensures InLoop(s.pc) && (s.done != 0 ==> Step(c, s, e).done != 0)
  {
    hide Step, Shape;
    if !InLoop(s.pc) { DataStays(c, s, e); }
    if s.done != 0 { DoneInLoopStep(c, s, e); }
  }

  /** Inside the loop a `Done` that was set stays set. */
  lemma {:induction false} DoneStaysSet(c: Config, events: seq<Event>, states: seq<State>, i: nat, j: nat)
    requires Behaviour(c, events, states) && i <= j < |states|
    requires states[i].done != 0 && InLoop(states[j].pc)
    ensures states[j].done != 0 && InLoop(states[i].pc)
    decreases j
  {
    hide *;
    if i < j {
      Kept(c, events, states, j - 1);
      DoneStep(c, states[j - 1], events[j - 1]);
      DoneStaysSet(c, events, states, i, j - 1);
    }
  }

  lemma ShortReturn(c: Config, s: State, e: Event)
    requires Shape(c, s) && s.pc.SockWrite?
    ensures var r := SockWriteStep(c, s, e); !Sending(r.pc) && r.cur.left > 0 ==> r.done == 10
  {
    hide Shape, W.Ok, W.Reframe, W.Packet, Clip;
  }

  lemma ShortStep(c: Config, s: State, e: Event)
    requires Shape(c, s) && Control(s) && Sending(s.pc)
    ensures var r := Step(c, s, e);
            InLoop(r.pc) && !Sending(r.pc) && r.cur.left > 0 ==> r.done != 0
  {
    hide Shape, SockWriteStep, InterStep, Control;
    if s.pc.SockWrite? {
      ShortReturn(c, s, e);
    } else {
      InterEffect(c, s, e);
      InterGo(s);
    }
  }

  /** A data write that returns short leaves `Done` set, so the session ends. */
  lemma ShortWriteEndsSession(c: Config, events: seq<Event>, states: seq<State>, k: nat)
    requires Behaviour(c, events, states) && k < |events|
    requires Sending(states[k].pc) && InLoop(states[k + 1].pc) && !Sending(states[k + 1].pc)
    requires W.Result(states[k + 1].cur) < states[k + 1].cur.n
    ensures states[k + 1].done != 0
  {
    Kept(c, events, states, k);
    hide Behaviour, Shape, Step, Control, Data, Sending, InLoop;
    ShortStep(c, states[k], events[k]);
  }

  // ---------------------------------------------------------------------------------------------
  // Geometric growth.

  /** A size-triggered flush with no inbound data since the previous one more than doubles its payload. */
  lemma BatchesDouble(c: Config, events: seq<Event>, states: seq<State>, k: nat, i: nat)
    requires Behaviour(c, events, states) && k < |states| && i + 1 < |states[k].h.flushes|
    ensures var fs := states[k].h.flushes;
            Follows(fs[i], fs[i + 1]) ==> fs[i + 1].n >= 2 * fs[i].n + 1
  {
    Kept(c, events, states, k);
  }

  /** Flushes `i` to `i + k - 1` follow one another. */
  ghost predicate Chain(fs: seq<FlushNote>, i: nat, k: nat) {
    && i + k <= |fs|
    && forall j :: i <= j < i + k - 1 ==> Follows(fs[j], fs[j + 1])
  }

  lemma {:induction false} ChainGrows(c: Config, fs: seq<FlushNote>, i: nat, k: nat)
    requires Doubling(c, fs) && Chain(fs, i, k) && k > 0
    ensures fs[i + k - 1].n + 1 >= Pow2(k)
  {
    if k == 1 {
      assert Pow2(1) == 2 * Pow2(0);
    } else {
      ChainGrows(c, fs, i, k - 1);
      assert Follows(fs[i + k - 2], fs[i + k - 2 + 1]);
    }
  }

  /** So at most log2(Buffer_size + 1) such flushes follow one another. */
  lemma ChainsAreShort(c: Config, events: seq<Event>, states: seq<State>, k: nat, i: nat, n: nat)
    requires Behaviour(c, events, states) && k < |states| && n > 0 && Chain(states[k].h.flushes, i, n)
    ensures Pow2(n) <= c.bufferSize + 1
  {
    Kept(c, events, states, k);
    ChainGrows(c, states[k].h.flushes, i, n);
  }

  // ---------------------------------------------------------------------------------------------
  // From the circuit to the pts.

  /** The pts receives, frame by frame, proper prefixes left by failed tries and then the whole payload. */
  lemma InboundDelivery(c: Config, events: seq<Event>, states: seq<State>, k: nat)
    requires Behaviour(c, events, states) && k < |states|
    requires !Delivering(states[k].pc) && !states[k].pc.Exited?
    ensures var inb := states[k].inb;
            && |inb.frames| == |inb.tries|
            && (forall i :: 0 <= i < |inb.frames| ==> Proper(inb.frames[i], inb.tries[i]))
            && inb.out == Deliveries(inb.frames, inb.tries)
  {
    Kept(c, events, states, k);
  }

  predicate Clean(failed: seq<nat>) { forall i :: 0 <= i < |failed| ==> failed[i] == 0 }

  lemma {:induction false} LeavesNothingIff(p: seq<byte>, failed: seq<nat>)
    requires Proper(p, failed)
    ensures Prefixes(p, failed) == [] <==> Clean(failed)
  {
    if failed != [] {
      var k := |failed| - 1;
      assert forall i :: 0 <= i < k ==> failed[..k][i] == failed[i];
      LeavesNothingIff(p, failed[..k]);
    }
  }

  /** Deliveries are at least as long as the frames, and exactly the frames when no failed try left anything. */
  lemma {:induction false} DeliveriesIff(frames: seq<seq<byte>>, tries: seq<seq<nat>>)
    requires |frames| == |tries| && forall i :: 0 <= i < |tries| ==> Proper(frames[i], tries[i])
    ensures |Deliveries(frames, tries)| >= |Concat(frames)|
    ensures |Deliveries(frames, tries)| == |Concat(frames)| <==> forall i :: 0 <= i < |tries| ==> Clean(tries[i])
    ensures |Deliveries(frames, tries)| == |Concat(frames)| ==> Deliveries(frames, tries) == Concat(frames)
  {
    hide Prefixes, Clean, Proper;
    if frames != [] {
      var k := |frames| - 1;
      assert forall i :: 0 <= i < k ==> tries[..k][i] == tries[i] && frames[..k][i] == frames[i];
      DeliveriesIff(frames[..k], tries[..k]);
      LeavesNothingIff(frames[k], tries[k]);
      var before := Deliveries(frames[..k], tries[..k]);
      assert before + [] + frames[k] == before + frames[k];
    }
  }

  /**
   The pts receives exactly the payloads in order if and only if no failed try had written anything: a retry
   starts again from the first byte.
   */
  lemma InboundExact(c: Config, events: seq<Event>, states: seq<State>, k: nat)
    requires Behaviour(c, events, states) && k < |states|
    requires !Delivering(states[k].pc) && !states[k].pc.Exited?
    ensures var inb := states[k].inb;
            inb.out == Concat(inb.frames) <==> forall i :: 0 <= i < |inb.tries| ==> Clean(inb.tries[i])
  {
    InboundDelivery(c, events, states, k);
    hide *;
    DeliveriesIff(states[k].inb.frames, states[k].inb.tries);
  }

  // ---------------------------------------------------------------------------------------------
  // The end of a session.

  /** The loop is left with one of nine codes, and the closing acts follow in one order. */
  lemma Shutdown(c: Config, events: seq<Event>, states: seq<State>, k: nat)
    requires Behaviour(c, events, states) && k < |states|
    ensures var s := states[k]; var h := s.h;
            && (InLoop(s.pc) ==> h.acts == [] && h.control == [])
            && (!InLoop(s.pc) && !s.pc.Exited? ==> h.code in {1, 2, 3, 6, 7, 8, 9, 10, 11})
            && (s.pc.Finished? ==>
                  h.acts == [PtsClosed, RemovalSent]
                            + (if h.code in {1, 3, 6, 7, 8, 11} then [ClearInvited] else [])
                            + [SockClosed])
            && forall i :: 0 <= i < |h.control| ==> h.control[i] != [] && h.control[i][0] == 1
  {
    Kept(c, events, states, k);
    hide Behaviour, Data;
  }

  lemma DataStays(c: Config, s: State, e: Event)
    requires Shape(c, s) && !InLoop(s.pc)
    ensures var r := Step(c, s, e); !InLoop(r.pc) && r.h.sent == s.h.sent && r.h.code == s.h.code
  {
    hide ClosingStep, Shape;
  }

  /** Once the loop is left, the session sends no other data packet, and its code is fixed. */
  lemma {:induction false} DataEndsWithLoop(c: Config, events: seq<Event>, states: seq<State>, i: nat, j: nat)
    requires Behaviour(c, events, states) && i <= j < |states| && !InLoop(states[i].pc)
    ensures !InLoop(states[j].pc) && states[j].h.sent == states[i].h.sent && states[j].h.code == states[i].h.code
    decreases j
  {
    hide *;
    if i < j {
      DataEndsWithLoop(c, events, states, i, j - 1);
      Kept(c, events, states, j - 1);
      DataStays(c, states[j - 1], events[j - 1]);
    }
  }

  /** A poll that reports the circuit dead. */
  predicate CircuitDead(revents: Polled) { revents.sock.err || revents.sock.nval || revents.sock.hup }

  /** The same poll reports an error on the pts, which is looked at first. */
  predicate PtsBroken(revents: Polled) { revents.pts.err || revents.pts.nval }

  lemma DeadCircuitStep(c: Config, s: State)
    requires Shape(c, s) && s.pc.Check? && CircuitDead(s.revents)
    ensures var r := Step(c, s, Tick);
            r.pc.Left? && if PtsBroken(s.revents) then r.h.code == 1 else CircuitLost(r.h.code)
  {
    hide Shape;
  }

  /**
   A session whose poll reported the circuit dead attempts an Invitation to Clear on it exactly if the pts had
   an error as well.
   */
  lemma DeadCircuitInvitedIff(c: Config, events: seq<Event>, states: seq<State>, k: nat, j: nat)
    requires Behaviour(c, events, states) && k < |events| && k < j < |states|
    requires states[k].pc.Check? && events[k].Tick? && CircuitDead(states[k].revents)
    ensures !PtsBroken(states[k].revents) ==> ClearInvited !in states[j].h.acts
    ensures states[j].pc.Finished? ==> (ClearInvited in states[j].h.acts <==> PtsBroken(states[k].revents))
  {
    Kept(c, events, states, k);
    Kept(c, events, states, j);
    DeadCircuitStep(c, states[k]);
    DataEndsWithLoop(c, events, states, k + 1, j);
    hide Behaviour, Shape, Data, Step, CircuitDead, PtsBroken;
  }
}
