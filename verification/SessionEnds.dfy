/** Why a session ends: what each end code comes from, and what each closing wait waits for. */
module SessionEnds {
  import opened Common
  import opened Session
  import opened SessionControl
  import opened SessionFlow
  import G = SessionSignals
  import T = SessionTheorems
  import W = Writen

  // ---------------------------------------------------------------------------------------------
  // End codes.

  datatype Cause =
    | PtsFault
    | PtsHangUp
    | PtsEnd
    | CircuitFault
    | CircuitHangUp
    | CircuitEnd
    | Alarm
    | ExitSignal
    | PollFault

  predicate OnCircuit(cause: Cause) { cause.CircuitFault? || cause.CircuitHangUp? || cause.CircuitEnd? }

  function CodeOf(cause: Cause): nat {
    match cause
    case PtsFault => 1
    case CircuitHangUp => 2
    case PtsHangUp => 3
    case PtsEnd => 6
    case Alarm => 7
    case ExitSignal => 8
    case CircuitEnd => 9
    case CircuitFault => 10
    case PollFault => 11
  }

  /** What a poll reports; errors of the pts come first, and a pts hang-up last. */
  function Reported(revents: Polled): Option<Cause> {
    if revents.pts.err || revents.pts.nval then Some(PtsFault)
    else if revents.sock.err || revents.sock.nval then Some(CircuitFault)
    else if revents.sock.hup then Some(CircuitHangUp)
    else if revents.pts.hup then Some(PtsHangUp)
    else None
  }

  /** The bytes that a read from the pts may take. */
  function Room(c: Config, s: State): nat { if c.Batched() then s.b.free else c.bufferSize }

  /** The reason to end the session that an event gives where it meets the relay loop. */
  function CauseOf(c: Config, s: State, e: Event): Option<Cause> {
    if s.pc.Polling? && e.Poll? && e.code.Broken? then Some(PollFault)
    else if s.pc.Check? && e.Tick? then Reported(s.revents)
    else if (s.pc.PtsRead? || s.pc.PtsWrite?) && e.Refused? && !e.intr then Some(PtsFault)
    else if s.pc.PtsRead? && e.Got? && (e.data == [] || Room(c, s) == 0) then Some(PtsEnd)
    else if s.pc.SockRead? && e.Got? && e.data == [] then Some(CircuitEnd)
    else if s.pc.SockRead? && e.Got? && (|e.data| == 1 || c.bufferSize == 0) && !e.intr then Some(CircuitFault)
    else if s.pc.SockRead? && e.Refused? && !e.intr then Some(CircuitFault)
    else if s.pc.SockWrite? && e.Refused? && !e.intr && s.cur.errors == 2 then Some(CircuitFault)
    else if s.pc.Inter? && s.pc.phase.Clear? && s.pc.f.Alrm? && e.Tick? then Some(Alarm)
    else if s.pc.Inter? && s.pc.phase.Clear? && s.pc.f.Exit? && e.Tick? then Some(ExitSignal)
    else None
  }

  /** The last reason that came up before state `k`. */
  function LastCause(c: Config, events: seq<Event>, states: seq<State>, k: nat): Option<Cause>
    requires k <= |events| && k <= |states|
  {
    if k == 0 then None
    else
      var now := CauseOf(c, states[k - 1], events[k - 1]);
      if now.Some? then now else LastCause(c, events, states, k - 1)
  }

  /** The code that a reason leaves in `Done`. */
  function Code(cause: Option<Cause>): nat { if cause.None? then 0 else CodeOf(cause.value) }

  function After(before: Option<Cause>, now: Option<Cause>): Option<Cause> { if now.Some? then now else before }

  /** `Done` tells the last reason, in the loop as itself and afterwards as the code the loop ended with. */
  ghost predicate Told(s: State, cause: Option<Cause>) {
    if InLoop(s.pc) then s.done == Code(cause)
    else s.pc.Exited? || (cause.Some? && s.h.code == CodeOf(cause.value))
  }

  lemma PollTells(c: Config, s: State, e: Event, cause: Option<Cause>)
    requires Shape(c, s) && Told(s, cause)
    requires s.pc.Head? || s.pc.Polling? || s.pc.PipeRead? || s.pc.Check?
    ensures Told(LoopStep(c, s, e), After(cause, CauseOf(c, s, e)))
  {
    hide Shape, Blit, Drained;
  }

  lemma PtsTells(c: Config, s: State, e: Event, cause: Option<Cause>)
    requires Shape(c, s) && Told(s, cause) && (s.pc.PtsRead? || s.pc.Flush?)
    ensures Told(LoopStep(c, s, e), After(cause, CauseOf(c, s, e)))
  {
    hide Shape, Blit, Threshold, W.Begin;
  }

  lemma PtsWriteTells(c: Config, s: State, e: Event, cause: Option<Cause>)
    requires Shape(c, s) && Told(s, cause) && s.pc.PtsWrite?
    ensures Told(LoopStep(c, s, e), After(cause, CauseOf(c, s, e)))
  {
    hide Shape, Clip;
  }

  lemma SockReadTells(c: Config, s: State, e: Event, cause: Option<Cause>)
    requires Shape(c, s) && Told(s, cause) && s.pc.SockRead?
    ensures Told(LoopStep(c, s, e), After(cause, CauseOf(c, s, e)))
  {
    hide Shape, Blit;
  }

  lemma SockWriteTells(c: Config, s: State, e: Event, cause: Option<Cause>)
    requires Shape(c, s) && Told(s, cause) && s.pc.SockWrite?
    ensures Told(LoopStep(c, s, e), After(cause, CauseOf(c, s, e)))
  {
    hide Clip, W.Advance, W.Packet, W.Reframe, W.Result;
  }

  lemma InterTells(c: Config, s: State, e: Event, cause: Option<Cause>)
    requires Shape(c, s) && Told(s, cause) && s.pc.Inter?
    ensures Told(LoopStep(c, s, e), After(cause, CauseOf(c, s, e)))
  {
    InterDone(c, s, e);
    hide Shape, LoopStep;
  }

  lemma InterDone(c: Config, s: State, e: Event)
    requires Shape(c, s) && s.pc.Inter?
    ensures var r := LoopStep(c, s, e);
            && InLoop(r.pc)
            && r.done == if s.pc.phase.Clear? && e.Tick? && s.pc.f.Alrm? then 7
                         else if s.pc.phase.Clear? && e.Tick? && s.pc.f.Exit? then 8 else s.done
  {
    hide W.Ok, W.Result, Lower;
  }

  lemma LoopTells(c: Config, s: State, e: Event, cause: Option<Cause>)
    requires Shape(c, s) && Told(s, cause) && InLoop(s.pc)
    ensures Told(LoopStep(c, s, e), After(cause, CauseOf(c, s, e)))
  {
    hide Shape, LoopStep, Told, CauseOf, After;
    match s.pc
    case Inter(_, _, _, _) => InterTells(c, s, e, cause);
    case PtsRead => PtsTells(c, s, e, cause);
    case Flush => PtsTells(c, s, e, cause);
    case PtsWrite => PtsWriteTells(c, s, e, cause);
    case SockRead => SockReadTells(c, s, e, cause);
    case SockWrite => SockWriteTells(c, s, e, cause);
    case _ => PollTells(c, s, e, cause);
  }

  lemma StepTells(c: Config, s: State, e: Event, cause: Option<Cause>)
    requires Shape(c, s) && Told(s, cause)
    ensures Told(Step(c, s, e), After(cause, CauseOf(c, s, e)))
  {
    hide Shape, LoopStep, ClosingStep;
    if !Environment(e) && InLoop(s.pc) {
      hide Told, CauseOf;
      LoopTells(c, s, e, cause);
    }
  }

  lemma {:induction false} DoneTellsLastCause(c: Config, events: seq<Event>, states: seq<State>, k: nat)
    requires Behaviour(c, events, states) && k < |states| && |states| == |events| + 1
    ensures Told(states[k], LastCause(c, events, states, k))
  {
    if k == 0 {
      hide Shape;
    } else {
      T.Kept(c, events, states, k - 1);
      DoneTellsLastCause(c, events, states, k - 1);
      StepTells(c, states[k - 1], events[k - 1], LastCause(c, events, states, k - 1));
      hide Behaviour, Step, Shape, Control, Data, Told, CauseOf;
    }
  }

  /** The loop ends with the code of the last reason that came up; while there is none it goes on. */
  lemma EndCodeIsLastCause(c: Config, events: seq<Event>, states: seq<State>, k: nat)
    requires Behaviour(c, events, states) && k < |states| && !states[k].pc.Exited?
    ensures var cause := LastCause(c, events, states, k);
            if InLoop(states[k].pc) then states[k].done == Code(cause)
            else cause.Some? && states[k].h.code == CodeOf(cause.value)
  {
    DoneTellsLastCause(c, events, states, k);
    hide Behaviour, LastCause;
  }

  lemma InvitedByCode(s: State)
    requires Control(s) && s.pc.Finished?
    ensures ClearInvited in s.h.acts <==> s.h.code in {1, 3, 6, 7, 8, 11}
  {
  }

  /** A session invites the peer to clear exactly if its last reason to end was not on the circuit. */
  lemma InvitedIffNotOnCircuit(c: Config, events: seq<Event>, states: seq<State>, k: nat)
    requires Behaviour(c, events, states) && k < |states| && states[k].pc.Finished?
    ensures var cause := LastCause(c, events, states, k);
            cause.Some? && (ClearInvited in states[k].h.acts <==> !OnCircuit(cause.value))
  {
    EndCodeIsLastCause(c, events, states, k);
    T.Kept(c, events, states, k);
    InvitedByCode(states[k]);
    hide Behaviour, LastCause, Control, Data, Shape, Step;
  }

  // ---------------------------------------------------------------------------------------------
  // The closing waits.

  /** The events that end the wait for the circuit or for the child. */
  predicate EndsWait(s: State, e: Event, w: Waiter) {
    || (s.pc == WaitPoll(w) && e.Poll? && e.code.Broken?)
    || (s.pc == WaitCheck(Net) && w.Net? && e.Tick?
        && (s.revents.sock.err || s.revents.sock.nval || s.revents.sock.hup))
    || (s.pc == WaitRead(Net) && w.Net? && e.Refused? && !e.intr)
    || (s.pc == WaitRead(Net) && w.Net? && e.Got? && |e.data| <= 1 && !e.intr)
    || (s.pc.WaitTest? && s.pc.w == w && s.pc.phase.Clear? && e.Tick?
        && (s.pc.f.Alrm? || s.pc.f.Exit? || (s.pc.f.Chld? && w.Child?)))
  }

  ghost predicate EndedBetween(events: seq<Event>, states: seq<State>, i: nat, j: nat, w: Waiter)
    requires j <= |events| && j <= |states|
  {
    exists k :: i < k < j && EndsWait(states[k], events[k], w)
  }

  /** In the wait `w`, and nothing has ended it. */
  predicate WaitsOn(pc: Pc, done: nat, w: Waiter) { InWait(pc) && pc.w == w && !pc.Disarm? && (done == 0 || pc.Arm?) }

  /** In the wait `w` for the last time, or past it. */
  predicate WaitsNoMore(pc: Pc, done: nat, w: Waiter) {
    || pc.Finished? || pc.Exited?
    || (w.Net? && (pc.CloseSock? || pc.ChildCheck? || (InWait(pc) && pc.w.Child?)))
    || (InWait(pc) && pc.w == w && (pc.Disarm? || (done != 0 && !pc.Arm? && !pc.WaitPoll? && !pc.WaitPipe?)))
  }

  lemma WaitHeadEnds(c: Config, s: State, e: Event, w: Waiter)
    requires Shape(c, s) && Guarded(s) && WaitsOn(s.pc, s.done, w) && !s.pc.WaitTest?
    ensures var r := WaitStep(c, s, e);
            if EndsWait(s, e, w) then WaitsNoMore(r.pc, r.done, w) else WaitsOn(r.pc, r.done, w)
  {
    hide Shape, Over, Drained;
  }

  lemma WaitTestEnds(c: Config, s: State, e: Event, w: Waiter)
    requires Shape(c, s) && Guarded(s) && WaitsOn(s.pc, s.done, w) && s.pc.WaitTest?
    ensures var r := WaitTestStep(c, s, e);
            if EndsWait(s, e, w) then WaitsNoMore(r.pc, r.done, w) else WaitsOn(r.pc, r.done, w)
  {
    hide Shape, Over, Lower;
  }

  lemma WaitEndsStep(c: Config, s: State, e: Event, w: Waiter)
    requires Shape(c, s) && Guarded(s) && WaitsOn(s.pc, s.done, w) && !Step(c, s, e).pc.Exited?
    ensures var r := Step(c, s, e);
            if EndsWait(s, e, w) then WaitsNoMore(r.pc, r.done, w) else WaitsOn(r.pc, r.done, w)
  {
    if Environment(e) {
      hide Shape, Guarded, LoopStep, ClosingStep;
    } else {
      G.ClosingIs(c, s, e);
      hide Shape, Guarded, EndsWait, LoopStep, ClosingStep, WaitTestStep;
      if s.pc.WaitTest? { WaitTestEnds(c, s, e, w); } else { WaitHeadEnds(c, s, e, w); }
      hide WaitStep;
    }
  }

  lemma WaitStaysOver(c: Config, s: State, e: Event, w: Waiter)
    requires Shape(c, s) && InWait(s.pc) && WaitsNoMore(s.pc, s.done, w)
    ensures var r := WaitStep(c, s, e); WaitsNoMore(r.pc, r.done, w)
  {
    hide Shape, Over, Drained, WaitTestStep;
    if s.pc.WaitTest? { WaitTestStaysOver(c, s, e, w); }
  }

  lemma WaitTestStaysOver(c: Config, s: State, e: Event, w: Waiter)
    requires Shape(c, s) && s.pc.WaitTest? && WaitsNoMore(s.pc, s.done, w)
    ensures var r := WaitTestStep(c, s, e); WaitsNoMore(r.pc, r.done, w)
  {
    hide Shape, Over, Lower;
  }

  lemma OverStep(c: Config, s: State, e: Event, w: Waiter)
    requires Shape(c, s) && WaitsNoMore(s.pc, s.done, w)
    ensures var r := Step(c, s, e); WaitsNoMore(r.pc, r.done, w)
  {
    if Environment(e) {
      hide Shape, LoopStep, ClosingStep;
    } else if InWait(s.pc) {
      G.ClosingIs(c, s, e);
      WaitStaysOver(c, s, e, w);
      hide Shape, LoopStep, ClosingStep, WaitStep;
    } else {
      hide Shape, Over, WaitStep, InviteStep, InviteInterStep, SwitchStep, LoopStep;
    }
  }

  /** How a closing wait stands at state `j`. */
  ghost predicate WaitStands(events: seq<Event>, states: seq<State>, i: nat, j: nat, w: Waiter)
    requires j <= |events| && j < |states|
  {
    if EndedBetween(events, states, i, j, w) then WaitsNoMore(states[j].pc, states[j].done, w)
    else WaitsOn(states[j].pc, states[j].done, w)
  }

  lemma {:induction false} WaitFollowed(c: Config, events: seq<Event>, states: seq<State>, i: nat, j: nat, w: Waiter)
    requires Behaviour(c, events, states) && i <= j < |states| && |states| == |events| + 1
    requires states[i].pc == Arm(w) && !states[j].pc.Exited?
    ensures WaitStands(events, states, i, j, w)
    decreases j
  {
    hide *;
    if i == j {
      StandsAtFirst(events, states, i, w);
    } else {
      T.Kept(c, events, states, j - 1);
      Guards(states[j - 1]);
      AliveBefore(c, states[j - 1], events[j - 1]);
      WaitFollowed(c, events, states, i, j - 1, w);
      if EndedBetween(events, states, i, j - 1, w) {
        StandsOver(events, states, i, j - 1, w);
        OverStep(c, states[j - 1], events[j - 1], w);
      } else {
        StandsOn(events, states, i, j - 1, w);
        WaitEndsStep(c, states[j - 1], events[j - 1], w);
      }
      StandsNext(events, states, i, j, w);
    }
  }

  lemma Guards(s: State)
    requires Control(s)
    ensures Guarded(s)
  {
  }

  lemma AliveBefore(c: Config, s: State, e: Event)
    requires Shape(c, s)
    ensures s.pc.Exited? ==> Step(c, s, e).pc.Exited?
  {
    hide Shape, LoopStep;
  }

  lemma StandsAtFirst(events: seq<Event>, states: seq<State>, i: nat, w: Waiter)
    requires i <= |events| && i < |states| && states[i].pc == Arm(w)
    ensures WaitStands(events, states, i, i, w)
  {
  }

  lemma StandsOver(events: seq<Event>, states: seq<State>, i: nat, j: nat, w: Waiter)
    requires j <= |events| && j < |states| && WaitStands(events, states, i, j, w)
    requires EndedBetween(events, states, i, j, w)
    ensures WaitsNoMore(states[j].pc, states[j].done, w)
  {
  }

  lemma StandsOn(events: seq<Event>, states: seq<State>, i: nat, j: nat, w: Waiter)
    requires j <= |events| && j < |states| && WaitStands(events, states, i, j, w)
    requires !EndedBetween(events, states, i, j, w)
    ensures WaitsOn(states[j].pc, states[j].done, w)
  {
  }

  lemma StandsNext(events: seq<Event>, states: seq<State>, i: nat, j: nat, w: Waiter)
    requires i < j <= |events| && j < |states|
    requires states[i].pc == Arm(w)
    requires if EndedBetween(events, states, i, j - 1, w) || EndsWait(states[j - 1], events[j - 1], w)
             then WaitsNoMore(states[j].pc, states[j].done, w) else WaitsOn(states[j].pc, states[j].done, w)
    ensures WaitStands(events, states, i, j, w)
  {
    hide EndsWait, WaitsOn, WaitsNoMore;
    assert EndedBetween(events, states, i, j - 1, w) ==> EndedBetween(events, states, i, j, w);
    if EndsWait(states[j - 1], events[j - 1], w) {
      if i == j - 1 { ArmEndsNothing(states[i], events[i], w); }
    }
  }

  lemma ArmEndsNothing(s: State, e: Event, w: Waiter)
    requires s.pc == Arm(w)
    ensures !EndsWait(s, e, w)
  {
  }

  /**
   A closing wait goes on, poll after poll, until one of its events comes, and it is never polled again after
   that: a broken poll, a served alarm or exit signal; for the circuit, a dead socket or a read that fails or
   ends; for the child, a served SIGCHLD.
   */
  lemma WaitEndsIff(c: Config, events: seq<Event>, states: seq<State>, i: nat, j: nat, w: Waiter)
    requires Behaviour(c, events, states) && i < j < |states|
    requires states[i].pc == Arm(w) && !states[j].pc.Exited?
    ensures if EndedBetween(events, states, i, j, w) then WaitsNoMore(states[j].pc, states[j].done, w)
            else WaitsOn(states[j].pc, states[j].done, w)
  {
    WaitFollowed(c, events, states, i, j, w);
    hide Behaviour, EndedBetween;
  }

  /** What the circuit still delivers, a packet of two or more bytes, never ends the wait for it. */
  lemma LatePacketIsDropped(c: Config, events: seq<Event>, states: seq<State>, j: nat)
    requires Behaviour(c, events, states) && j < |events|
    requires WaitsOn(states[j].pc, states[j].done, Net) && events[j].Got? && |events[j].data| >= 2
    ensures WaitsOn(states[j + 1].pc, states[j + 1].done, Net)
  {
    T.Kept(c, events, states, j);
    Guards(states[j]);
    hide Behaviour, Step, Shape, Control, Data, WaitsOn, WaitsNoMore, Guarded;
    if !states[j + 1].pc.Exited? {
      WaitEndsStep(c, states[j], events[j], Net);
    } else {
      NoExit(c, states[j], events[j]);
    }
  }

  lemma NoExit(c: Config, s: State, e: Event)
    requires Shape(c, s) && WaitsOn(s.pc, s.done, Net) && e.Got?
    ensures !Step(c, s, e).pc.Exited?
  {
    hide Shape, Over, LoopStep, WaitTestStep, Drained;
    if s.pc.WaitTest? { WaitTestNoExit(c, s, e); }
  }

  lemma WaitTestNoExit(c: Config, s: State, e: Event)
    requires Shape(c, s) && s.pc.WaitTest?
    ensures !WaitTestStep(c, s, e).pc.Exited?
  {
    hide Shape, Over, Lower;
  }

  // ---------------------------------------------------------------------------------------------
  // Which waits there are.

  /** The wait `w` has begun before or at state `k`. */
  ghost predicate Waited(states: seq<State>, k: nat, w: Waiter)
    requires k < |states|
  {
    exists i :: 0 <= i <= k && states[i].pc == Arm(w)
  }

  predicate BeforeWaits(pc: Pc) {
    InLoop(pc) || pc.Left? || pc.ClosePts? || pc.Record? || pc.Switch? || pc.Invite? || pc.InviteInter?
  }

  /** What the place of a session says about the waits behind it. */
  ghost predicate WaitsTell(s: State, net: bool, child: bool) {
    && (BeforeWaits(s.pc) ==> !net && !child)
    && (InWait(s.pc) && s.pc.w.Net? ==> net && !child)
    && (s.pc.CloseSock? || s.pc.ChildCheck? ==> net == NeedsInvite(s.h.code) && !child)
    && (InWait(s.pc) && s.pc.w.Child? ==> net == NeedsInvite(s.h.code) && child)
    && (s.pc.Finished? ==> net == NeedsInvite(s.h.code) && (child || s.reaped))
  }

  lemma SignalWaitsTell(c: Config, s: State, e: Event, net: bool, child: bool)
    requires Shape(c, s) && Environment(e) && WaitsTell(s, net, child)
    requires s.pc == Arm(Net) ==> net
    requires s.pc == Arm(Child) ==> child
    ensures var r := Step(c, s, e); WaitsTell(r, net || r.pc == Arm(Net), child || r.pc == Arm(Child))
    ensures var r := Step(c, s, e); r.pc.Arm? ==> r.pc == s.pc
  {
    hide Shape;
  }

  lemma StillBefore(s: State, r: State, net: bool, child: bool)
    requires WaitsTell(s, net, child) && InLoop(s.pc) && (InLoop(r.pc) || r.pc.Left?)
    ensures WaitsTell(r, net || r.pc == Arm(Net), child || r.pc == Arm(Child)) && !r.pc.Arm?
  {
  }

  lemma ArmTells(s: State, net: bool, child: bool)
    requires WaitsTell(s, net, child)
    ensures (s.pc == Arm(Net) ==> net) && (s.pc == Arm(Child) ==> child)
  {
  }

  lemma WaitsTellStep(c: Config, s: State, e: Event, net: bool, child: bool)
    requires Shape(c, s) && Control(s) && WaitsTell(s, net, child)
    ensures var r := Step(c, s, e); WaitsTell(r, net || r.pc == Arm(Net), child || r.pc == Arm(Child))
    ensures Step(c, s, e).pc == Arm(Child) && s.pc != Arm(Child) ==> !s.reaped && !Step(c, s, e).reaped
  {
    hide Shape, LoopStep, ClosingStep, WaitStep, Guarded, Coded, Closing, WaitsTell;
    if Environment(e) {
      ArmTells(s, net, child);
      SignalWaitsTell(c, s, e, net, child);
      hide Step;
    } else if InLoop(s.pc) {
      LoopWaitsTell(c, s, e);
      StillBefore(s, LoopStep(c, s, e), net, child);
    } else if InWait(s.pc) {
      G.ClosingIs(c, s, e);
      WaitTells(c, s, e, net, child);
    } else {
      ClosingTells(c, s, e, net, child);
    }
  }

  lemma LoopWaitsTell(c: Config, s: State, e: Event)
    requires Shape(c, s) && InLoop(s.pc)
    ensures var r := LoopStep(c, s, e); InLoop(r.pc) || r.pc.Left?
  {
    hide Shape, LoopStep;
    if s.pc.Inter? {
      InterDone(c, s, e);
    } else if s.pc.SockRead? || s.pc.PtsWrite? || s.pc.SockWrite? {
      SockStays(c, s, e);
    } else {
      PtsStays(c, s, e);
    }
  }

  lemma SockStays(c: Config, s: State, e: Event)
    requires Shape(c, s) && (s.pc.SockRead? || s.pc.PtsWrite? || s.pc.SockWrite?)
    ensures InLoop(LoopStep(c, s, e).pc)
  {
    hide Shape, Blit, Take, Clip, W.Result, W.Advance, W.Packet, W.Reframe;
  }

  lemma PtsStays(c: Config, s: State, e: Event)
    requires Shape(c, s) && InLoop(s.pc) && !s.pc.SockRead? && !s.pc.PtsWrite? && !s.pc.SockWrite? && !s.pc.Inter?
    ensures var r := LoopStep(c, s, e); InLoop(r.pc) || r.pc.Left?
  {
    if s.pc.PtsRead? || s.pc.Flush? {
      hide Shape, Blit, Take, Threshold, W.Begin;
    } else {
      PollStays(c, s, e);
    }
  }

  lemma PollStays(c: Config, s: State, e: Event)
    requires Shape(c, s) && (s.pc.Head? || s.pc.Polling? || s.pc.PipeRead? || s.pc.Check?)
    ensures var r := LoopStep(c, s, e); InLoop(r.pc) || r.pc.Left?
  {
    hide Shape, Blit, Drained;
  }

  lemma WaitTells(c: Config, s: State, e: Event, net: bool, child: bool)
    requires Shape(c, s) && Closing(s) && InWait(s.pc) && WaitsTell(s, net, child)
    ensures var r := WaitStep(c, s, e); WaitsTell(r, net || r.pc == Arm(Net), child || r.pc == Arm(Child))
    ensures var r := WaitStep(c, s, e); r.pc == Arm(Child) ==> s.pc == Arm(Child)
  {
    WaitLeads(c, s, e);
    if s.pc.w.Net? { InvitesFirst(s); }
    hide Shape, WaitStep, Closing, NeedsInvite;
  }

  /** A closing wait goes on, or is over. */
  lemma WaitLeads(c: Config, s: State, e: Event)
    requires Shape(c, s) && InWait(s.pc)
    ensures var r := WaitStep(c, s, e);
            && r.h.code == s.h.code
            && if InWait(r.pc) then r.pc.w == s.pc.w && (r.pc.Arm? ==> s.pc.Arm?)
               else s.pc.Disarm? && r.pc == if s.pc.w.Net? then CloseSock else Finished
  {
    hide Shape, Drained, WaitTestStep, Over;
    if s.pc.WaitTest? { WaitTestTells(c, s, e); }
  }

  lemma InvitesFirst(s: State)
    requires Closing(s) && InWait(s.pc) && s.pc.w.Net?
    ensures NeedsInvite(s.h.code)
  {
    hide NeedsInvite;
  }

  lemma WaitTestTells(c: Config, s: State, e: Event)
    requires Shape(c, s) && s.pc.WaitTest?
    ensures var r := WaitTestStep(c, s, e); InWait(r.pc) && !r.pc.Arm? && r.pc.w == s.pc.w && r.h == s.h
  {
    hide Shape, Lower;
  }

  lemma ClosingTells(c: Config, s: State, e: Event, net: bool, child: bool)
    requires Shape(c, s) && Control(s) && !InLoop(s.pc) && !InWait(s.pc) && WaitsTell(s, net, child)
    ensures var r := ClosingStep(c, s, e); WaitsTell(r, net || r.pc == Arm(Net), child || r.pc == Arm(Child))
    ensures var r := ClosingStep(c, s, e); r.pc == Arm(Child) ==> !s.reaped && !r.reaped
  {
    hide Guarded;
    if s.pc.Invite? || s.pc.InviteInter? {
      InviteTells(c, s, e);
      hide ClosingStep, Shape;
    } else {
      hide Shape, WaitStep, InviteStep, InviteInterStep, W.Begin;
    }
  }

  lemma InviteTells(c: Config, s: State, e: Event)
    requires Shape(c, s) && (s.pc.Invite? || s.pc.InviteInter?)
    ensures var r := ClosingStep(c, s, e);
            (r.pc.Invite? || r.pc.InviteInter? || r.pc == Arm(Net) || r.pc.Exited?) && r.h.code == s.h.code
  {
    if s.pc.Invite? {
      hide Shape, W.Ok, Clip, W.Advance, W.Packet, W.Reframe, WaitStep, InviteInterStep, SwitchStep;
    } else {
      hide Shape, Lower, WaitStep, InviteStep, SwitchStep;
    }
  }

  lemma {:induction false} WaitsFollowed(c: Config, events: seq<Event>, states: seq<State>, k: nat)
    requires Behaviour(c, events, states) && k < |states| && |states| == |events| + 1
    ensures WaitsTell(states[k], Waited(states, k, Net), Waited(states, k, Child))
    ensures states[k].pc == Arm(Child) ==> !states[k].reaped
  {
    hide *;
    if k == 0 {
      NoWaitAtFirst(c, events, states);
    } else {
      T.Kept(c, events, states, k - 1);
      WaitsFollowed(c, events, states, k - 1);
      WaitsTellStep(c, states[k - 1], events[k - 1], Waited(states, k - 1, Net), Waited(states, k - 1, Child));
      WaitedNext(states, k, Net);
      WaitedNext(states, k, Child);
      if states[k].pc == Arm(Child) && states[k - 1].pc == Arm(Child) {
        ArmStays(c, states[k - 1], events[k - 1]);
      }
    }
  }

  lemma NoWaitAtFirst(c: Config, events: seq<Event>, states: seq<State>)
    requires Behaviour(c, events, states)
    ensures WaitsTell(states[0], Waited(states, 0, Net), Waited(states, 0, Child)) && states[0].pc.Head?
  {
  }

  lemma WaitedNext(states: seq<State>, k: nat, w: Waiter)
    requires 0 < k < |states|
    ensures Waited(states, k, w) <==> Waited(states, k - 1, w) || states[k].pc == Arm(w)
  {
  }

  lemma ArmStays(c: Config, s: State, e: Event)
    requires Shape(c, s) && s.pc.Arm? && Step(c, s, e).pc.Arm?
    ensures Step(c, s, e).reaped == s.reaped
  {
    hide Shape, LoopStep, Over;
  }

  /**
   A finished session has waited for the circuit exactly if it invited the peer to clear, and for the child
   unless it had its exit status; it waits for the child only without one.
   */
  lemma WaitsAsNeeded(c: Config, events: seq<Event>, states: seq<State>, k: nat)
    requires Behaviour(c, events, states) && k < |states|
    ensures states[k].pc == Arm(Child) ==> !states[k].reaped
    ensures states[k].pc.Finished? ==>
              && (Waited(states, k, Net) <==> states[k].h.code in {1, 3, 6, 7, 8, 11})
              && (Waited(states, k, Child) || states[k].reaped)
  {
    WaitsFollowed(c, events, states, k);
    hide Behaviour, Waited;
  }
}
