/** What every step of a session keeps about timers, `Done` and the closing acts. */
module SessionControl {
  import opened Common
  import opened Session
  import W = Writen

  /** The flags that the closing waits look at. */
  predicate Watched(f: Flag) { f.Alrm? || f.Exit? || f.Chld? }

  /** Some timer will end the next poll, or the reason to end it is already there. */
  ghost predicate Guarded(s: State) {
    && (s.pc.Polling? ==> s.timers.watch != Off || s.sig.pipe > 0)
    && (InWait(s.pc) && !s.pc.Arm? && !s.pc.Disarm? ==>
          s.timers.watch != Off || s.done != 0 || s.sig.alrm)
    && (s.pc.WaitPoll? ==> s.done == 0)
    && (s.pc.WaitTest? ==> Watched(s.pc.f))
    && (s.pc.WaitRead? ==> s.pc.w.Net?)
    && (s.pc.InviteInter? ==> s.pc.f.Hup? || s.pc.f.Alrm? || s.pc.f.Exit?)
  }

  // ---------------------------------------------------------------------------------------------
  // Done codes and the order of the closing acts.

  predicate LoopCode(done: nat) { done != 2 && done != 4 && done != 5 && done < 11 }

  predicate ExitCode(code: nat) { NeedsInvite(code) || CircuitLost(code) }

  ghost predicate Coded(s: State) {
    && (InLoop(s.pc) ==> LoopCode(s.done))
    && (s.pc.Inter? && !s.pc.go ==> (s.done == 7 || s.done == 8))
    && (!InLoop(s.pc) && !s.pc.Exited? ==> ExitCode(s.h.code))
    && (s.pc.Left? || s.pc.ClosePts? || s.pc.Record? || s.pc.Switch? ==> s.done == s.h.code)
  }

  function ActsBeforeClose(code: nat): seq<Act> {
    [PtsClosed, RemovalSent] + if NeedsInvite(code) then [ClearInvited] else []
  }

  ghost predicate Closing(s: State) {
    && (InLoop(s.pc) || s.pc.Left? || s.pc.ClosePts? ==> s.h.acts == [])
    && (s.pc.Record? ==> s.h.acts == [PtsClosed])
    && (s.pc.Switch? ==> s.h.acts == [PtsClosed, RemovalSent])
    && (s.pc.Invite? || s.pc.InviteInter? || (InWait(s.pc) && s.pc.w.Net?) ==>
          NeedsInvite(s.h.code) && s.h.acts == ActsBeforeClose(s.h.code))
    && (s.pc.CloseSock? ==> s.h.acts == ActsBeforeClose(s.h.code))
    && (s.pc.ChildCheck? || (InWait(s.pc) && s.pc.w.Child?) || s.pc.Finished? ==>
          s.h.acts == ActsBeforeClose(s.h.code) + [SockClosed])
    && (!InLoop(s.pc) && !NeedsInvite(s.h.code) ==> ClearInvited !in s.h.acts)
    && (InLoop(s.pc) || s.pc.Left? || s.pc.ClosePts? || s.pc.Record? || s.pc.Switch? ==> s.h.control == [])
    && (s.pc.Invite? || s.pc.InviteInter? ==> s.cur.q == 1)
    && forall i :: 0 <= i < |s.h.control| ==> s.h.control[i] != [] && s.h.control[i][0] == 1
  }

  // ---------------------------------------------------------------------------------------------
  // Control: timers, Done and the closing acts.

  ghost predicate Control(s: State) { Guarded(s) && Coded(s) && Closing(s) }

  /** A step to another place of the loop that leaves signals and acts alone. */
  lemma MoveControl(s: State, r: State)
    requires Control(s) && InLoop(s.pc) && !s.pc.Inter? && InLoop(r.pc) && !r.pc.Polling?
    requires r.h.acts == s.h.acts && r.h.control == s.h.control
    requires r.pc.Inter? ==> r.pc.go
    requires LoopCode(r.done)
    ensures Control(r)
  {
  }

  lemma LeaveControl(s: State, r: State)
    requires Control(s) && InLoop(s.pc) && !s.pc.Inter? && r.pc.Left?
    requires r.h.acts == s.h.acts && r.h.control == s.h.control
    requires r.done == r.h.code && ExitCode(r.done)
    ensures Control(r)
  {
  }

  lemma DoneInLoop(s: State)
    requires Control(s) && InLoop(s.pc)
    ensures LoopCode(s.done)
  {
  }

  /** The pts and flush steps of the loop. */
  lemma PtsControl(c: Config, s: State, e: Event)
    requires Shape(c, s) && Control(s)
    requires s.pc.PtsRead? || s.pc.PtsWrite? || s.pc.Flush?
    ensures Control(LoopStep(c, s, e))
  {
    hide Control, W.Ok, Blit, Take, Threshold, W.Begin, Clip;
    var r := LoopStep(c, s, e);
    DoneInLoop(s);
    if r != s { MoveControl(s, r); }
  }

  /** The socket steps of the loop. */
  lemma SockControl(c: Config, s: State, e: Event)
    requires Shape(c, s) && Control(s)
    requires s.pc.SockRead? || s.pc.SockWrite?
    ensures Control(LoopStep(c, s, e))
  {
    hide Control, W.Ok, Blit, Take, W.Advance, W.Packet, W.Reframe, W.Result, Clip;
    var r := LoopStep(c, s, e);
    DoneInLoop(s);
    if r != s { MoveControl(s, r); }
  }

  lemma PollControl(c: Config, s: State, e: Event)
    requires Shape(c, s) && Control(s)
    requires s.pc.Polling? || s.pc.Check?
    ensures Control(LoopStep(c, s, e))
  {
    hide Control, Shape;
    var r := LoopStep(c, s, e);
    DoneInLoop(s);
    if r.pc.Left? { LeaveControl(s, r); } else if r != s { MoveControl(s, r); }
  }

  lemma HeadControl(c: Config, s: State)
    requires Shape(c, s) && Control(s) && s.pc.Head?
    ensures Control(HeadStep(c, s))
  {
    if s.done != 0 { LeaveControl(s, Leave(s)); }
  }

  lemma PipeControl(c: Config, s: State, e: Event)
    requires Shape(c, s) && Control(s) && s.pc.PipeRead?
    ensures Control(PipeStep(c, s, e))
  {
    hide Blit;
  }

  /** Leaving a flag behind. */
  lemma InterMoveControl(s: State, r: State)
    requires Control(s) && s.pc.Inter? && r.h == s.h && r.done == s.done && InLoop(r.pc) && !r.pc.Polling?
    requires r.pc.Inter? && !r.pc.go ==> s.done == 7 || s.done == 8
    ensures Control(r)
  {
  }

  lemma InterNextControl(c: Config, s: State, f: Flag, go: bool, site: Site)
    requires Shape(c, s) && Control(s) && s.pc.Inter? && s.pc.f == f && s.pc.site == site
    requires !go ==> s.done == 7 || s.done == 8
    ensures Control(InterNext(c, s, f, go, site))
  {
    hide Control, W.Result;
    InterMoveControl(s, InterNext(c, s, f, go, site));
  }

  /** Seeing the flag up, or having waited for the child. */
  lemma InterStayControl(s: State, r: State)
    requires Control(s) && s.pc.Inter? && r.pc.Inter? && r.pc == Inter(s.pc.f, r.pc.phase, s.pc.go, s.pc.site)
    requires r.h == s.h && r.done == s.done
    ensures Control(r)
  {
  }

  lemma ServedDone(s: State)
    requires Control(s) && s.pc.Inter?
    ensures var f := s.pc.f; var r := Served(s, f);
            r.pc == s.pc && r.h == s.h && r.timers == s.timers
            && ((s.pc.go && !f.Alrm? && !f.Exit?) || r.done == 7 || r.done == 8)
            && (r.done == s.done || r.done == 7 || r.done == 8)
  {
    InterGo(s);
    hide Control, Lower;
  }

  lemma ServedControl(s: State)
    requires Control(s) && s.pc.Inter?
    ensures Control(Served(s, s.pc.f))
  {
    ServedDone(s);
    ServedClosing(s);
    hide Served, Closing;
  }

  lemma ServedClosing(s: State)
    requires Closing(s) && s.pc.Inter?
    ensures Closing(Served(s, s.pc.f))
  {
  }

  lemma InterControl(c: Config, s: State, e: Event)
    requires Shape(c, s) && Control(s) && s.pc.Inter?
    ensures Control(InterStep(c, s, e))
  {
    hide Control, InterNext;
    var Inter(f, phase, go, site) := s.pc;
    if e.Tick? && phase.Clear? {
      ServedControl(s);
      ServedDone(s);
      InterNextControl(c, Served(s, f), f, go && !f.Alrm? && !f.Exit?, site);
    } else if e.Tick? && phase.Test? && !s.sig.Up(f) {
      InterGo(s);
      InterNextControl(c, s, f, go, site);
    } else {
      InterStayControl(s, InterStep(c, s, e));
    }
  }

  lemma InterGo(s: State)
    requires Control(s) && s.pc.Inter?
    ensures !s.pc.go ==> s.done == 7 || s.done == 8
  {
  }

  lemma SignalControl(s: State, f: Flag, timers: Timers)
    requires Control(s)
    requires timers.watch == s.timers.watch || f == Alrm
    ensures Control(s.(sig := Raise(s.sig, f), timers := timers))
  {
  }

  lemma InviteControl(c: Config, s: State, e: Event)
    requires Shape(c, s) && Control(s) && s.pc.Invite?
    ensures Control(InviteStep(c, s, e))
  {
  }

  lemma InviteInterControl(c: Config, s: State)
    requires Shape(c, s) && Control(s) && s.pc.InviteInter?
    ensures Control(InviteInterStep(c, s))
  {
    hide Shape, Lower;
  }

  /** A step of a closing wait that clears no flag. */
  lemma WaitMoveControl(s: State, r: State)
    requires Control(s) && InWait(s.pc) && !s.pc.Disarm? && InWait(r.pc) && r.pc.w == s.pc.w
    requires r.sig.alrm == s.sig.alrm && r.h == s.h
    requires r.pc.WaitTest? ==> Watched(r.pc.f)
    requires r.pc.WaitRead? ==> r.pc.w.Net?
    requires r.timers.watch != Off || (!s.pc.Arm? && r.timers == s.timers && (s.done != 0 ==> r.done != 0))
             || r.pc.Disarm?
    requires r.pc.WaitPoll? ==> r.done == 0
    ensures Control(r)
  {
  }

  lemma WaitLowerControl(s: State, r: State)
    requires Control(s) && s.pc.WaitTest? && r.pc == s.pc
    requires r.sig == Lower(s.sig, s.pc.f) && r.h == s.h && r.timers == s.timers
    requires r.done == s.done || r.done == 1
    requires s.pc.f.Alrm? ==> r.done == 1
    ensures Control(r)
  {
  }

  lemma WaitTestControl(c: Config, s: State, e: Event)
    requires Shape(c, s) && Control(s) && s.pc.WaitTest?
    ensures Control(WaitTestStep(c, s, e))
  {
    hide Control;
    var WaitTest(w, f, phase) := s.pc;
    var r := WaitTestStep(c, s, e);
    InTest(s);
    if e.Tick? && phase.Clear? {
      var s1 := s.(sig := Lower(s.sig, f), done := r.done);
      WaitLowerControl(s, s1);
      WaitMoveControl(s1, r);
    } else if r != s {
      WaitMoveControl(s, r);
    }
  }

  lemma InTest(s: State)
    requires Control(s) && s.pc.WaitTest?
    ensures Watched(s.pc.f)
  {
  }

  lemma WaitControl(c: Config, s: State, e: Event)
    requires Shape(c, s) && Control(s) && InWait(s.pc)
    ensures Control(WaitStep(c, s, e))
  {
    hide Control, WaitTestStep;
    var r := WaitStep(c, s, e);
    if s.pc.WaitTest? {
      WaitTestControl(c, s, e);
    } else if s.pc.Disarm? {
      DisarmControl(c, s, e);
    } else if r != s {
      WaitMoveControl(s, r);
    }
  }

  lemma DisarmControl(c: Config, s: State, e: Event)
    requires Shape(c, s) && Control(s) && s.pc.Disarm?
    ensures Control(WaitStep(c, s, e))
  {
  }

  lemma SwitchControl(c: Config, s: State)
    requires Shape(c, s) && Control(s) && s.pc.Switch?
    ensures Control(SwitchStep(c, s))
  {
  }

  lemma OrderControl(c: Config, s: State, e: Event)
    requires Shape(c, s) && Control(s) && !InLoop(s.pc)
    requires !InWait(s.pc) && !s.pc.Invite? && !s.pc.InviteInter?
    ensures Control(ClosingStep(c, s, e))
  {
    if s.pc.Switch? { SwitchControl(c, s); }
    hide Shape, SwitchStep, WaitStep, InviteStep, InviteInterStep;
  }

  lemma StepControl(c: Config, s: State, e: Event)
    requires Shape(c, s) && Control(s)
    ensures Control(Step(c, s, e))
  {
    hide Control, HeadStep, PollStep, PipeStep, InterStep, CheckStep, PtsReadStep, SockReadStep, PtsWriteStep;
    hide FlushStep, SockWriteStep, SwitchStep, InviteStep, InviteInterStep, WaitStep;
    match e
    case Signal(f) => SignalControl(s, f, s.timers);
    case ReadTimerExpires => SignalControl(s, Idle, s.timers.(read := false));
    case WatchTimerExpires => SignalControl(s, Alrm, s.timers.(watch := Off));
    case Killed => KillControl(s);
    case _ =>
      if InLoop(s.pc) {
        LoopControl(c, s, e);
      } else if InWait(s.pc) {
        WaitControl(c, s, e);
      } else if s.pc.Invite? {
        InviteControl(c, s, e);
      } else if s.pc.InviteInter? {
        InviteInterControl(c, s);
      } else {
        OrderControl(c, s, e);
      }
  }

  lemma LoopControl(c: Config, s: State, e: Event)
    requires Shape(c, s) && Control(s) && InLoop(s.pc)
    ensures Control(LoopStep(c, s, e))
  {
    hide Control, HeadStep, PollStep, PipeStep, InterStep, CheckStep, PtsReadStep, SockReadStep, PtsWriteStep;
    hide FlushStep, SockWriteStep;
    match s.pc
    case Head => HeadControl(c, s);
    case Polling => PollControl(c, s, e);
    case PipeRead => PipeControl(c, s, e);
    case Inter(_, _, _, _) => InterControl(c, s, e);
    case Check => PollControl(c, s, e);
    case PtsRead => PtsControl(c, s, e);
    case SockRead => SockControl(c, s, e);
    case PtsWrite => PtsControl(c, s, e);
    case Flush => PtsControl(c, s, e);
    case SockWrite => SockControl(c, s, e);
  }

  lemma KillControl(s: State)
    requires Control(s)
    ensures Control(s.(pc := Exited))
  {
  }

  lemma {:induction false} RunControl(c: Config, events: seq<Event>)
    requires c.Valid()
    ensures Control(Run(c, events))
  {
    if events != [] {
      RunControl(c, events[..|events| - 1]);
      StepControl(c, Run(c, events[..|events| - 1]), events[|events| - 1]);
    } else {
      InitControl(c);
    }
  }

  lemma InitControl(c: Config)
    requires c.Valid()
    ensures Control(Init(c))
  {
  }
}
