/** What the events of a run say about the histories, the flush policy and the timers of the relay. */
module SessionAccounts {
  import opened Common
  import opened Session
  import opened SessionControl
  import opened SessionFlow
  import F = FlushLearning
  import G = SessionSignals
  import N = SessionEnds
  import T = SessionTheorems
  import W = Writen

  // ---------------------------------------------------------------------------------------------
  // What one event brings.

  /** The bytes that a step takes from the pts. */
  function BytesOf(c: Config, s: State, e: Event): seq<byte> {
    if s.pc.PtsRead? && e.Got? then Take(e.data, N.Room(c, s)) else []
  }

  /** The packet that a step takes from the circuit, cut at the buffer. */
  function PacketOf(c: Config, s: State, e: Event): seq<byte> {
    if s.pc.SockRead? && e.Got? then Take(e.data, c.bufferSize + 1) else []
  }

  /** The payload in it, if it is a data packet. */
  function FrameOf(c: Config, s: State, e: Event): seq<seq<byte>> {
    var p := PacketOf(c, s, e);
    if |p| >= 2 && p[0] == 0 then [p[1..]] else []
  }

  /** It is an Invitation to Clear or an Indication of Break. */
  predicate ShortensWatch(p: seq<byte>) { |p| >= 2 && p[0] != 0 && (p[1] == 1 || p[1] == 3) }

  function PtsBytes(c: Config, events: seq<Event>, states: seq<State>, k: nat): seq<byte>
    requires k <= |events| && k <= |states|
  {
    if k == 0 then [] else PtsBytes(c, events, states, k - 1) + BytesOf(c, states[k - 1], events[k - 1])
  }

  function Frames(c: Config, events: seq<Event>, states: seq<State>, k: nat): seq<seq<byte>>
    requires k <= |events| && k <= |states|
  {
    if k == 0 then [] else Frames(c, events, states, k - 1) + FrameOf(c, states[k - 1], events[k - 1])
  }

  // ---------------------------------------------------------------------------------------------
  // The effects of one step.

  /** What a step adds to the histories of what was read. */
  predicate Records(c: Config, s: State, e: Event, r: State) {
    && r.h.read == s.h.read + BytesOf(c, s, e)
    && r.inb.frames == s.inb.frames + FrameOf(c, s, e)
  }

  /** The step decides about a flush. */
  predicate DecidesFlush(s: State, e: Event) { s.pc.Flush? && e.Tick? }

  /** What a step does to the flush policy. */
  predicate Adapts(c: Config, s: State, e: Event, r: State) {
    var d := BytesOf(c, s, e);
    var flushes := |r.h.flushes| > |s.h.flushes|;
    && r.b.timerEx == (!DecidesFlush(s, e) && (s.b.timerEx || G.Serves(s, e, Idle)))
    && r.b.raised == (!flushes && (s.b.raised || (d != [] && s.b.lastWs)))
    && r.b.lastRead == (if d != [] then |d| else s.b.lastRead)
    && r.b.minlimit == if d != [] && s.b.lastWs then s.b.lastWrite + (s.b.total + |d|) / 2
                       else if DecidesFlush(s, e) && s.b.total > 0 && s.b.timerEx && !s.b.raised
                       then s.b.total - s.b.lastRead / 4
                       else s.b.minlimit
  }

  /** What a step does to the timers. */
  predicate Times(c: Config, s: State, e: Event, r: State) {
    && r.timers.read == (if e.ReadTimerExpires? then false
                         else if c.Batched() && BytesOf(c, s, e) != [] then r.b.total < r.b.minlimit
                         else s.timers.read)
    && r.timers.watch == (if e.WatchTimerExpires? then Off
                          else if s.pc.Head? && e.Tick? then WatchDog
                          else if ShortensWatch(PacketOf(c, s, e)) then NetTimeout
                          else s.timers.watch)
  }

  /** All of it; the policy and the timers matter only in the loop, and the policy in batched mode. */
  ghost predicate Accounted(c: Config, s: State, e: Event, r: State) {
    Records(c, s, e, r) && (InLoop(r.pc) ==> Times(c, s, e, r) && (c.Batched() ==> Adapts(c, s, e, r)))
  }

  /** Nothing of it changes. */
  predicate Unchanged(s: State, r: State) {
    && r.h.read == s.h.read && r.h.flushes == s.h.flushes && r.inb.frames == s.inb.frames && r.timers == s.timers
    && r.b.timerEx == s.b.timerEx && r.b.raised == s.b.raised && r.b.lastRead == s.b.lastRead
    && r.b.minlimit == s.b.minlimit
  }

  lemma UnchangedAccounts(c: Config, s: State, e: Event, r: State)
    requires Unchanged(s, r) && !Environment(e) && !s.pc.PtsRead? && !s.pc.SockRead? && !s.pc.Flush?
    requires !(s.pc.Head? && e.Tick?) && !G.Serves(s, e, Idle)
    ensures Accounted(c, s, e, r)
  {
    assert s.h.read + [] == s.h.read && s.inb.frames + [] == s.inb.frames;
  }

  lemma NothingRead(s: State)
    ensures s.h.read + [] == s.h.read && s.inb.frames + [] == s.inb.frames
  {
  }

  lemma AppendAccounts(c: Config, s: State, e: Event)
    requires Shape(c, s) && Bounded(c, s) && s.pc.PtsRead? && c.Batched() && !Environment(e)
    ensures Accounted(c, s, e, LoopStep(c, s, e))
  {
    hide *;
    AppendRecords(c, s, e);
    AppendAdapts(c, s, e);
    PartsAccount(c, s, e, LoopStep(c, s, e));
  }

  lemma AppendRecords(c: Config, s: State, e: Event)
    requires Shape(c, s) && s.pc.PtsRead? && c.Batched() && !Environment(e)
    ensures Records(c, s, e, LoopStep(c, s, e))
  {
    NothingRead(s);
    hide Shape, Blit;
  }

  lemma AppendAdapts(c: Config, s: State, e: Event)
    requires Shape(c, s) && Bounded(c, s) && s.pc.PtsRead? && c.Batched() && !Environment(e)
    ensures Times(c, s, e, LoopStep(c, s, e)) && Adapts(c, s, e, LoopStep(c, s, e))
  {
    hide Blit, Take;
  }

  lemma PartsAccount(c: Config, s: State, e: Event, r: State)
    requires Records(c, s, e, r) && Times(c, s, e, r) && Adapts(c, s, e, r)
    ensures Accounted(c, s, e, r)
  {
    hide Records, Times, Adapts, InLoop;
  }

  lemma ForwardAccounts(c: Config, s: State, e: Event)
    requires Shape(c, s) && s.pc.PtsRead? && !c.Batched() && !Environment(e)
    ensures Accounted(c, s, e, LoopStep(c, s, e))
  {
    NothingRead(s);
    hide Shape, Blit, W.Begin, Adapts;
  }

  lemma FlushAccounts(c: Config, s: State, e: Event)
    requires Shape(c, s) && s.pc.Flush? && !Environment(e)
    ensures Accounted(c, s, e, LoopStep(c, s, e))
  {
    NothingRead(s);
    hide Shape, W.Begin;
  }

  lemma SockAccounts(c: Config, s: State, e: Event)
    requires Shape(c, s) && s.pc.SockRead? && !Environment(e)
    ensures Accounted(c, s, e, LoopStep(c, s, e))
  {
    NothingRead(s);
    hide Shape, Blit;
  }

  lemma DeliveryUnchanged(c: Config, s: State, e: Event)
    requires Shape(c, s) && s.pc.PtsWrite?
    ensures Unchanged(s, LoopStep(c, s, e))
  {
    hide Shape, Clip;
  }

  lemma WriteUnchanged(c: Config, s: State, e: Event)
    requires Shape(c, s) && s.pc.SockWrite?
    ensures Unchanged(s, LoopStep(c, s, e))
  {
    hide Shape, W.Ok, Clip, W.Advance, W.Packet, W.Reframe, W.Result;
  }

  lemma PollUnchanged(c: Config, s: State, e: Event)
    requires Shape(c, s) && (s.pc.Polling? || s.pc.PipeRead? || s.pc.Check?)
    ensures Unchanged(s, LoopStep(c, s, e))
  {
    hide Shape, Blit, Drained;
  }

  lemma HeadAccounts(c: Config, s: State, e: Event)
    requires Shape(c, s) && s.pc.Head? && !Environment(e)
    ensures Accounted(c, s, e, LoopStep(c, s, e))
  {
    NothingRead(s);
    hide Shape;
  }

  /** What a step of `do_inter` does to the policy. */
  predicate Interrupts(s: State, r: State, idle: bool) {
    && r.h.read == s.h.read && r.h.flushes == s.h.flushes && r.inb.frames == s.inb.frames && r.timers == s.timers
    && r.b.timerEx == (s.b.timerEx || idle) && r.b.raised == s.b.raised && r.b.lastRead == s.b.lastRead
    && r.b.minlimit == s.b.minlimit
  }

  lemma InterNextUnchanged(c: Config, s: State, f: Flag, go: bool)
    requires Shape(c, s) && s.pc.Inter?
    ensures Unchanged(s, InterNext(c, s, f, go, s.pc.site))
  {
    hide Shape, W.Ok, W.Result;
  }

  lemma ServedInterrupts(s: State, f: Flag)
    ensures Interrupts(s, Served(s, f), f.Idle?)
  {
    hide Lower;
  }

  lemma InterInterrupts(c: Config, s: State, e: Event)
    requires Shape(c, s) && s.pc.Inter?
    ensures Interrupts(s, InterStep(c, s, e), G.Serves(s, e, Idle))
  {
    var Inter(f, phase, go, site) := s.pc;
    G.ServedShape(c, s, f);
    hide Shape, InterNext, Served;
    if e.Tick? && phase.Clear? {
      ServedInterrupts(s, f);
      InterNextUnchanged(c, Served(s, f), f, go && !f.Alrm? && !f.Exit?);
    } else if e.Tick? && phase.Test? && !s.sig.Up(f) {
      InterNextUnchanged(c, s, f, go);
    }
  }

  lemma InterruptsAccount(c: Config, s: State, e: Event, r: State)
    requires s.pc.Inter? && !Environment(e) && Interrupts(s, r, G.Serves(s, e, Idle))
    ensures Accounted(c, s, e, r)
  {
    NothingRead(s);
    hide G.Serves, InLoop, Take;
  }

  lemma LoopAccounts(c: Config, s: State, e: Event)
    requires Shape(c, s) && Bounded(c, s) && InLoop(s.pc) && !Environment(e)
    ensures Accounted(c, s, e, LoopStep(c, s, e))
  {
    hide Shape, Bounded, LoopStep, Accounted, Unchanged, Interrupts;
    if s.pc.PtsRead? {
      if c.Batched() { AppendAccounts(c, s, e); } else { ForwardAccounts(c, s, e); }
    } else if s.pc.SockRead? {
      SockAccounts(c, s, e);
    } else if s.pc.Flush? {
      FlushAccounts(c, s, e);
    } else if s.pc.Head? {
      HeadAccounts(c, s, e);
    } else if s.pc.Inter? {
      InterInterrupts(c, s, e);
      InterruptsAccount(c, s, e, InterStep(c, s, e));
      G.LoopIsInter(c, s, e);
    } else {
      OtherAccounts(c, s, e);
    }
  }

  lemma OtherAccounts(c: Config, s: State, e: Event)
    requires Shape(c, s) && InLoop(s.pc) && !s.pc.PtsRead? && !s.pc.SockRead? && !s.pc.Flush? && !s.pc.Head?
    requires !s.pc.Inter? && !Environment(e)
    ensures Accounted(c, s, e, LoopStep(c, s, e))
  {
    hide Shape, LoopStep, Accounted, Unchanged;
    if s.pc.PtsWrite? {
      DeliveryUnchanged(c, s, e);
    } else if s.pc.SockWrite? {
      WriteUnchanged(c, s, e);
    } else {
      PollUnchanged(c, s, e);
    }
    UnchangedAccounts(c, s, e, LoopStep(c, s, e));
  }

  lemma StepAccounts(c: Config, s: State, e: Event)
    requires Shape(c, s) && Bounded(c, s)
    ensures Accounted(c, s, e, Step(c, s, e))
  {
    NothingRead(s);
    if Environment(e) {
      EnvironmentAccounts(c, s, e);
    } else if InLoop(s.pc) {
      hide Shape, Bounded, LoopStep, ClosingStep, Accounted;
      LoopAccounts(c, s, e);
    } else {
      hide Shape, Bounded, LoopStep, ClosingStep, Times, Adapts;
    }
  }

  lemma EnvironmentAccounts(c: Config, s: State, e: Event)
    requires Shape(c, s) && Environment(e)
    ensures Accounted(c, s, e, Step(c, s, e))
  {
    NothingRead(s);
    hide Shape, LoopStep, ClosingStep;
  }

  // ---------------------------------------------------------------------------------------------
  // The histories.

  /** The two histories of a session are what the pts and the circuit gave it: nothing more, in this order. */
  lemma {:induction false} HistoriesAreTheReads(c: Config, events: seq<Event>, states: seq<State>, k: nat)
    requires Behaviour(c, events, states) && k < |states|
    ensures |states| == |events| + 1
    ensures states[k].h.read == PtsBytes(c, events, states, k) && states[k].inb.frames == Frames(c, events, states, k)
  {
    hide *;
    T.Kept(c, events, states, k);
    if k == 0 {
      NothingAtStart(c, events, states);
    } else {
      HistoriesAreTheReads(c, events, states, k - 1);
      T.Kept(c, events, states, k - 1);
      DataBounds(c, states[k - 1]);
      StepAccounts(c, states[k - 1], events[k - 1]);
      HistoriesNext(c, events, states, k);
    }
  }

  lemma NothingAtStart(c: Config, events: seq<Event>, states: seq<State>)
    requires Behaviour(c, events, states)
    ensures states[0].h.read == PtsBytes(c, events, states, 0) && states[0].inb.frames == Frames(c, events, states, 0)
  {
  }

  lemma HistoriesNext(c: Config, events: seq<Event>, states: seq<State>, k: nat)
    requires 0 < k <= |events| && k < |states| && Accounted(c, states[k - 1], events[k - 1], states[k])
    requires states[k - 1].h.read == PtsBytes(c, events, states, k - 1)
    requires states[k - 1].inb.frames == Frames(c, events, states, k - 1)
    ensures states[k].h.read == PtsBytes(c, events, states, k)
    ensures states[k].inb.frames == Frames(c, events, states, k)
  {
    hide Times, Adapts, BytesOf, FrameOf, InLoop;
  }

  // ---------------------------------------------------------------------------------------------
  // The flush policy.

  /** Flag_Idle has been served since the last decision about a flush. */
  predicate IdleSince(events: seq<Event>, states: seq<State>, k: nat)
    requires k <= |events| && k <= |states|
  {
    k > 0 && !DecidesFlush(states[k - 1], events[k - 1])
    && (G.Serves(states[k - 1], events[k - 1], Idle) || IdleSince(events, states, k - 1))
  }

  /** Since the last flush no data frame has come from the circuit. */
  predicate Unanswered(s: State) {
    s.h.flushes != [] && s.h.flushes[|s.h.flushes| - 1].seenAtFlush == |s.inb.frames|
  }

  /** Since the last flush the pts has been read while that flush was unanswered. */
  predicate ReadUnanswered(c: Config, events: seq<Event>, states: seq<State>, k: nat)
    requires k <= |events| && k < |states|
  {
    k > 0 && |states[k].h.flushes| <= |states[k - 1].h.flushes|
    && ((BytesOf(c, states[k - 1], events[k - 1]) != [] && Unanswered(states[k - 1]))
        || ReadUnanswered(c, events, states, k - 1))
  }

  /** The size of the last read that brought data. */
  function LastSize(c: Config, events: seq<Event>, states: seq<State>, k: nat): nat
    requires k <= |events| && k <= |states|
  {
    if k == 0 then 10
    else
      var d := BytesOf(c, states[k - 1], events[k - 1]);
      if d != [] then |d| else LastSize(c, events, states, k - 1)
  }

  /** The flags of the policy mean what their names say. */
  ghost predicate PolicyTold(c: Config, events: seq<Event>, states: seq<State>, k: nat)
    requires k <= |events| && k < |states|
  {
    InLoop(states[k].pc) ==>
      && states[k].b.timerEx == IdleSince(events, states, k)
      && states[k].b.raised == ReadUnanswered(c, events, states, k)
      && states[k].b.lastRead == LastSize(c, events, states, k)
  }

  lemma LastWsMeans(c: Config, s: State)
    requires Shape(c, s) && Data(c, s) && c.Batched() && InLoop(s.pc)
    ensures s.b.lastWs == Unanswered(s)
  {
    hide Shape, Bounded, Unstranded, Conserved, Delivered, Doubling;
  }

  lemma PolicyNext(c: Config, events: seq<Event>, states: seq<State>, k: nat)
    requires 0 < k <= |events| && k < |states| && PolicyTold(c, events, states, k - 1)
    requires InLoop(states[k].pc) && InLoop(states[k - 1].pc)
    requires states[k - 1].b.lastWs == Unanswered(states[k - 1])
    requires Adapts(c, states[k - 1], events[k - 1], states[k])
    ensures PolicyTold(c, events, states, k)
  {
    hide BytesOf, Unanswered, InLoop, DecidesFlush, G.Serves;
  }

  lemma {:induction false} PolicyFollowed(c: Config, events: seq<Event>, states: seq<State>, k: nat)
    requires Behaviour(c, events, states) && |states| == |events| + 1 && k < |states| && c.Batched()
    ensures PolicyTold(c, events, states, k)
  {
    hide *;
    T.Kept(c, events, states, k);
    if k == 0 {
      PolicyAtStart(c, events, states);
    } else {
      T.Kept(c, events, states, k - 1);
      PolicyFollowed(c, events, states, k - 1);
      DataBounds(c, states[k - 1]);
      StepAccounts(c, states[k - 1], events[k - 1]);
      if InLoop(states[k].pc) {
        F.StepGrows(c, states[k - 1], events[k - 1]);
        AccountsAdapt(c, states[k - 1], events[k - 1], states[k]);
        LastWsMeans(c, states[k - 1]);
        PolicyNext(c, events, states, k);
      } else {
        OutOfLoop(c, events, states, k);
      }
    }
  }

  lemma DataBounds(c: Config, s: State)
    requires Shape(c, s) && Data(c, s)
    ensures Bounded(c, s)
  {
    hide Shape, Bounded;
  }

  lemma AccountsAdapt(c: Config, s: State, e: Event, r: State)
    requires Accounted(c, s, e, r) && InLoop(r.pc)
    ensures Times(c, s, e, r) && (c.Batched() ==> Adapts(c, s, e, r))
  {
    hide InLoop, Records, Times, Adapts;
  }

  lemma OutOfLoop(c: Config, events: seq<Event>, states: seq<State>, k: nat)
    requires k <= |events| && k < |states| && !InLoop(states[k].pc)
    ensures PolicyTold(c, events, states, k)
  {
    hide InLoop;
  }

  lemma PolicyAtStart(c: Config, events: seq<Event>, states: seq<State>)
    requires Behaviour(c, events, states)
    ensures PolicyTold(c, events, states, 0)
  {
  }

  /** How a step of the relay moves the threshold, told by what was read and flushed before. */
  ghost predicate ThresholdTold(c: Config, events: seq<Event>, states: seq<State>, k: nat)
    requires k < |events| && k + 1 < |states|
  {
    var s, r, d := states[k], states[k + 1], BytesOf(c, states[k], events[k]);
    if d != [] && Unanswered(s)
    then r.b.minlimit == s.h.flushes[|s.h.flushes| - 1].n + 1 + (s.b.total + |d|) / 2
    else if DecidesFlush(s, events[k]) && s.b.total > 0 && IdleSince(events, states, k)
            && !ReadUnanswered(c, events, states, k)
    then r.b.minlimit == s.b.total - LastSize(c, events, states, k) / 4
    else r.b.minlimit == s.b.minlimit
  }

  lemma ThresholdNext(c: Config, events: seq<Event>, states: seq<State>, k: nat)
    requires k < |events| && k + 1 < |states| && PolicyTold(c, events, states, k) && InLoop(states[k].pc)
    requires Adapts(c, states[k], events[k], states[k + 1])
    requires states[k].b.lastWs == Unanswered(states[k])
    requires BytesOf(c, states[k], events[k]) != [] && Unanswered(states[k]) ==>
               states[k].b.lastWrite == states[k].h.flushes[|states[k].h.flushes| - 1].n + 1
    ensures ThresholdTold(c, events, states, k)
  {
    hide BytesOf, InLoop, DecidesFlush, G.Serves, IdleSince, ReadUnanswered, LastSize;
  }

  /**
   The flush threshold starts as DatalengthMin and moves at two occasions only.  A read that follows an unanswered
   flush sets it to the size of that flush and half of what is now in the batch.  A flush, with the forward timer
   expired since the last decision and no such read since the last flush, sets it to the batch less a quarter of
   the last read.
   */
  lemma ThresholdMoves(c: Config, events: seq<Event>, states: seq<State>, k: nat)
    requires Behaviour(c, events, states) && k < |events| && c.Batched() && InLoop(states[k + 1].pc)
    ensures |states| == |events| + 1 && states[0].b.minlimit == c.minLength
    ensures ThresholdTold(c, events, states, k)
  {
    hide *;
    StartsAtMinimum(c, events, states);
    var s, e := states[k], events[k];
    T.Kept(c, events, states, k);
    PolicyFollowed(c, events, states, k);
    DataBounds(c, s);
    StepAccounts(c, s, e);
    F.StepGrows(c, s, e);
    AccountsAdapt(c, s, e, states[k + 1]);
    LastWsMeans(c, s);
    if BytesOf(c, s, e) != [] && Unanswered(s) { ReadFollowsFlush(c, s, e); }
    ThresholdNext(c, events, states, k);
  }

  lemma StartsAtMinimum(c: Config, events: seq<Event>, states: seq<State>)
    requires Behaviour(c, events, states)
    ensures |states| == |events| + 1 && states[0].b.minlimit == c.minLength
  {
  }

  lemma ReadFollowsFlush(c: Config, s: State, e: Event)
    requires Shape(c, s) && Data(c, s) && c.Batched() && BytesOf(c, s, e) != [] && Unanswered(s)
    ensures s.b.lastWrite == s.h.flushes[|s.h.flushes| - 1].n + 1
  {
    hide Shape, Bounded, Unstranded, Conserved, Delivered, Doubling;
  }

  /**
   The relay flushes the whole batch exactly if there is one and the threshold is reached, or the forward timer
   has expired since the last decision, or the pts has hung up; otherwise it goes back to its head.
   */
  lemma FlushIff(c: Config, events: seq<Event>, states: seq<State>, k: nat)
    requires Behaviour(c, events, states) && k < |events| && c.Batched() && DecidesFlush(states[k], events[k])
    ensures |states| == |events| + 1
    ensures var s, r := states[k], states[k + 1];
            if s.b.total > 0 && (s.b.total >= s.b.minlimit || IdleSince(events, states, k) || s.done == 3)
            then r.pc == SockWrite && r.cur.n == s.b.total + 1 else r.pc == Head
  {
    T.Kept(c, events, states, k);
    PolicyFollowed(c, events, states, k);
    DecisionMeans(c, states[k]);
    DecidesInLoop(states[k], events[k]);
    hide Behaviour, Step, Shape, Control, Data, InLoop, IdleSince, ReadUnanswered, LastSize;
  }

  lemma DecidesInLoop(s: State, e: Event)
    requires DecidesFlush(s, e)
    ensures InLoop(s.pc) && s.pc.Flush? && e == Tick
  {
  }

  lemma DecisionMeans(c: Config, s: State)
    requires Shape(c, s) && Data(c, s) && c.Batched() && s.pc.Flush?
    ensures var r := Step(c, s, Tick);
            if s.b.total > 0 && (s.b.total >= s.b.minlimit || s.b.timerEx || s.done == 3)
            then r.pc == SockWrite && r.cur.n == s.b.total + 1 else r.pc == Head
  {
    hide Shape, Conserved, Delivered, Unstranded, Growing;
  }

  // ---------------------------------------------------------------------------------------------
  // The timers.

  /**
   In the loop the read timer is set and stopped by reads of data only, set while the batch is below the threshold.
   The watchdog is set at the head, and shortened by an Invitation to Clear and an Indication of Break only.
   */
  lemma TimersMove(c: Config, events: seq<Event>, states: seq<State>, k: nat)
    requires Behaviour(c, events, states) && k < |events| && InLoop(states[k + 1].pc)
    ensures |states| == |events| + 1 && states[0].timers == Timers(false, Off)
    ensures var s, e, r := states[k], events[k], states[k + 1];
            && r.timers.read == (if e.ReadTimerExpires? then false
                                 else if c.Batched() && BytesOf(c, s, e) != [] then r.b.total < r.b.minlimit
                                 else s.timers.read)
            && r.timers.watch == (if e.WatchTimerExpires? then Off
                                  else if s.pc.Head? && e.Tick? then WatchDog
                                  else if ShortensWatch(PacketOf(c, s, e)) then NetTimeout
                                  else s.timers.watch)
  {
    T.Kept(c, events, states, k);
    TimersOff(c, events, states);
    DataBounds(c, states[k]);
    StepAccounts(c, states[k], events[k]);
    AccountsAdapt(c, states[k], events[k], states[k + 1]);
    hide Behaviour, Step, Shape, Control, Data, Accounted, BytesOf, PacketOf, InLoop, ShortensWatch;
  }

  lemma TimersOff(c: Config, events: seq<Event>, states: seq<State>)
    requires Behaviour(c, events, states)
    ensures |states| == |events| + 1 && states[0].timers == Timers(false, Off)
  {
  }
}
