/**
 Whether the program wakes up for its signals: a raised flag, the byte in the self-pipe that ends a poll for it,
 and the timers.
 */
module SessionWakeups {
  import opened Common
  import opened Session
  import opened SessionControl
  import opened SessionFlow
  import opened SessionSignals
  import N = SessionEnds
  import T = SessionTheorems
  import W = Writen

  function Rank(f: Flag): nat {
    match f
    case Hup => 0
    case Alrm => 1
    case Exit => 2
    case Idle => 3
    case Chld => 4
  }

  /**
   Where a raised flag may do without a byte in the self-pipe: after the pipe was read and before the flag
   was tested.  The closing waits never look at Flag_Hup and Flag_Idle.
   */
  predicate Deferred(pc: Pc, f: Flag) {
    || (pc.Inter? && pc.site.AtPipe? && Rank(pc.f) <= Rank(f))
    || (pc.WaitTest? && Rank(pc.f) <= Rank(f))
    || ((InWait(pc) || pc.CloseSock? || pc.ChildCheck? || pc.Finished?) && (f == Hup || f == Idle))
    || pc.Exited?
  }

  /** The flag is down, or a byte tells of it, or the main thread is about to look at it. */
  predicate Awake(s: State, f: Flag) { s.sig.Up(f) ==> s.sig.pipe > 0 || Deferred(s.pc, f) }

  // ---------------------------------------------------------------------------------------------
  // A flag that is awake stays so.

  lemma LoopAwake(c: Config, s: State, e: Event, f: Flag)
    requires Shape(c, s) && InLoop(s.pc) && !s.pc.Inter? && Awake(s, f)
    ensures Awake(LoopStep(c, s, e), f)
  {
    hide Shape, LoopStep;
    if s.pc.PtsRead? || s.pc.PtsWrite? || s.pc.Flush? {
      PtsUntouched(c, s, e);
    } else if s.pc.SockRead? || s.pc.SockWrite? {
      SockUntouched(c, s, e);
    } else {
      PollUntouched(c, s, e);
      if s.pc.PipeRead? { PipeAwake(c, s, e, f); }
    }
  }

  lemma PipeAwake(c: Config, s: State, e: Event, f: Flag)
    requires Shape(c, s) && s.pc.PipeRead? && Awake(s, f)
    ensures Awake(LoopStep(c, s, e), f)
  {
    hide Shape, Blit;
  }

  lemma InterNextAwake(c: Config, s: State, g: Flag, go: bool, site: Site, f: Flag)
    requires Shape(c, s) && s.pc.Inter? && s.pc.f == g && s.pc.site == site && !s.sig.Up(g) && Awake(s, f)
    ensures Awake(InterNext(c, s, g, go, site), f)
  {
    hide Shape, W.Ok, W.Result;
  }

  lemma ServedAwake(s: State, g: Flag, f: Flag)
    requires Awake(s, f)
    ensures Awake(Served(s, g), f) && !Served(s, g).sig.Up(g)
  {
    hide Deferred;
  }

  lemma InterAwake(c: Config, s: State, e: Event, f: Flag)
    requires Shape(c, s) && s.pc.Inter? && Awake(s, f)
    ensures Awake(InterStep(c, s, e), f)
  {
    var Inter(g, phase, go, site) := s.pc;
    if e.Tick? && phase.Clear? {
      ServedShape(c, s, g);
      ServedAwake(s, g, f);
      hide Shape, InterNext, Served, Awake;
      InterNextAwake(c, Served(s, g), g, go && !g.Alrm? && !g.Exit?, site, f);
    } else if e.Tick? && phase.Test? && !s.sig.Up(g) {
      hide Shape, InterNext, Awake;
      InterNextAwake(c, s, g, go, site, f);
    } else {
      hide Shape, InterNext, Served;
    }
  }

  lemma WaitTestAwake(c: Config, s: State, e: Event, f: Flag)
    requires Shape(c, s) && Guarded(s) && s.pc.WaitTest? && Awake(s, f)
    ensures Awake(WaitTestStep(c, s, e), f)
  {
    hide Shape, Over;
  }

  lemma WaitAwake(c: Config, s: State, e: Event, f: Flag)
    requires Shape(c, s) && Guarded(s) && InWait(s.pc) && Awake(s, f)
    ensures Awake(WaitStep(c, s, e), f)
  {
    hide Shape, Over, WaitTestStep, Drained;
    if s.pc.WaitTest? { WaitTestAwake(c, s, e, f); }
  }

  lemma InviteAwake(c: Config, s: State, f: Flag)
    requires Shape(c, s) && Guarded(s) && s.pc.InviteInter? && Awake(s, f)
    ensures Awake(InviteInterStep(c, s), f)
  {
    hide Shape, Over;
  }

  lemma ClosingAwake(c: Config, s: State, e: Event, f: Flag)
    requires Shape(c, s) && Guarded(s) && !InLoop(s.pc) && Awake(s, f)
    ensures Awake(ClosingStep(c, s, e), f)
  {
    ClosingIs(c, s, e);
    if InWait(s.pc) {
      WaitAwake(c, s, e, f);
    } else if s.pc.InviteInter? {
      if e.Tick? { InviteAwake(c, s, f); }
    } else {
      ClosingUntouched(c, s, e);
      ClosingMoves(c, s, e);
      hide ClosingStep, Shape;
    }
  }

  /** Past the wait for the circuit there is no way back. */
  lemma ClosingMoves(c: Config, s: State, e: Event)
    requires Shape(c, s) && !InLoop(s.pc) && !InWait(s.pc) && !s.pc.InviteInter?
    ensures var r := ClosingStep(c, s, e);
            && (s.pc.CloseSock? || s.pc.ChildCheck? || s.pc.Finished? ==>
                  r.pc.CloseSock? || r.pc.ChildCheck? || r.pc.Finished? || InWait(r.pc))
            && (s.pc.Exited? ==> r.pc.Exited?)
  {
    hide Shape, WaitStep, InviteStep, InviteInterStep, SwitchStep;
  }

  lemma StepAwake(c: Config, s: State, e: Event, f: Flag)
    requires Shape(c, s) && Guarded(s) && Awake(s, f)
    ensures Awake(Step(c, s, e), f)
  {
    hide Shape, Guarded, LoopStep, ClosingStep;
    if !Environment(e) {
      if !InLoop(s.pc) {
        ClosingAwake(c, s, e, f);
      } else if s.pc.Inter? {
        InterAwake(c, s, e, f);
        LoopIsInter(c, s, e);
      } else {
        LoopAwake(c, s, e, f);
      }
    }
  }

  lemma {:induction false} StaysAwake(c: Config, events: seq<Event>, states: seq<State>, i: nat, j: nat, f: Flag)
    requires Behaviour(c, events, states) && i <= j < |states| && Awake(states[i], f)
    ensures Awake(states[j], f)
    decreases j
  {
    hide *;
    if i < j {
      T.Kept(c, events, states, j - 1);
      ControlGuards(states[j - 1]);
      StaysAwake(c, events, states, i, j - 1, f);
      StepAwake(c, states[j - 1], events[j - 1], f);
    }
  }

  lemma ControlGuards(s: State)
    requires Control(s)
    ensures Guarded(s)
  {
  }

  // ---------------------------------------------------------------------------------------------
  // Lost wake-ups.

  /** Some signal handler runs, and leaves a byte. */
  predicate RaisesAny(s: State, e: Event) {
    e.Signal? || (e.ReadTimerExpires? && s.timers.read) || (e.WatchTimerExpires? && s.timers.watch != Off)
  }

  /** A flag handler tests flag `f`. */
  predicate Tests(s: State, e: Event, f: Flag) { AtFlag(s.pc, f) && s.pc.phase.Test? && e.Tick? }

  /** A poll for whose end a raised flag `f` needs its byte. */
  predicate Waiting(pc: Pc, f: Flag) { pc.Polling? || (pc.WaitPoll? && Watched(f)) }

  /**
   Flag `f` was raised before the session began, by a handler that writes no byte; since then no other signal
   has come, and no handler has looked at the flag.
   */
  ghost predicate Unnoticed(c: Config, events: seq<Event>, states: seq<State>, k: nat, f: Flag)
    requires k <= |events| && k <= |states|
  {
    && c.signals.Up(f) && c.signals.pipe == 0
    && forall i :: 0 <= i < k ==> !RaisesAny(states[i], events[i]) && !Tests(states[i], events[i], f)
  }

  /** One step of a flag that stays asleep. */
  lemma AsleepStep(c: Config, s: State, e: Event, f: Flag)
    requires Shape(c, s) && !Awake(s, f) && !Awake(Step(c, s, e), f)
    ensures !RaisesAny(s, e)
    ensures var r := Step(c, s, e);
            Tests(s, e, f) || (AtFlag(s.pc, f) && !s.pc.phase.Test?) ==> AtFlag(r.pc, f) && !r.pc.phase.Test?
  {
    hide Shape, LoopStep, ClosingStep;
    if !Environment(e) && AtFlag(s.pc, f) && (Tests(s, e, f) || !s.pc.phase.Test?) {
      if s.pc.Inter? {
        InterAsleep(c, s, e, f);
        LoopIsInter(c, s, e);
      } else {
        ClosingIs(c, s, e);
        HandlerAsleep(c, s, e, f);
      }
    }
  }

  lemma InterAsleep(c: Config, s: State, e: Event, f: Flag)
    requires Shape(c, s) && s.pc.Inter? && s.pc.f == f && s.sig.Up(f)
    requires Tests(s, e, f) || !s.pc.phase.Test?
    ensures var r := InterStep(c, s, e); !r.sig.Up(f) || (AtFlag(r.pc, f) && !r.pc.phase.Test?)
  {
    var Inter(g, phase, go, site) := s.pc;
    if e.Tick? && phase.Clear? {
      ServedShape(c, s, g);
      LowersThis(s, g);
      hide Shape, InterNext, Served;
      InterNextUntouched(c, Served(s, g), g, go && !g.Alrm? && !g.Exit?, site);
    } else {
      hide Shape, InterNext, Served;
    }
  }

  lemma LowersThis(s: State, g: Flag)
    ensures !Served(s, g).sig.Up(g)
  {
  }

  lemma HandlerAsleep(c: Config, s: State, e: Event, f: Flag)
    requires Shape(c, s) && AtFlag(s.pc, f) && !s.pc.Inter? && s.sig.Up(f)
    requires Tests(s, e, f) || !s.pc.phase.Test?
    ensures var r := if s.pc.WaitTest? then WaitTestStep(c, s, e)
                     else if e.Tick? then InviteInterStep(c, s) else s;
            !r.sig.Up(f) || (AtFlag(r.pc, f) && !r.pc.phase.Test?)
  {
    hide Shape, Over;
  }

  /** A flag that is asleep now has been so from the start, and nothing has come for it. */
  lemma {:induction false} AsleepSinceStart(c: Config, events: seq<Event>, states: seq<State>, k: nat, f: Flag)
    requires Behaviour(c, events, states) && k < |states| && |states| == |events| + 1 && !Awake(states[k], f)
    ensures c.signals.Up(f) && c.signals.pipe == 0
    ensures forall i :: 0 <= i < k ==> !RaisesAny(states[i], events[i])
    ensures (AtFlag(states[k].pc, f) && !states[k].pc.phase.Test?)
            || forall i :: 0 <= i < k ==> !Tests(states[i], events[i], f)
  {
    hide *;
    if k == 0 {
      T.Kept(c, events, states, 0);
      StartsWith(c, events, states);
      AsleepAtStart(c, f);
    } else {
      var s, e := states[k - 1], events[k - 1];
      T.Kept(c, events, states, k - 1);
      ControlGuards(s);
      if Awake(s, f) { StepAwake(c, s, e, f); }
      AsleepSinceStart(c, events, states, k - 1, f);
      AsleepStep(c, s, e, f);
    }
  }

  lemma StartsWith(c: Config, events: seq<Event>, states: seq<State>)
    requires Behaviour(c, events, states)
    ensures c.Valid() && states[0] == Init(c)
  {
  }

  lemma AsleepAtStart(c: Config, f: Flag)
    requires c.Valid() && !Awake(Init(c), f)
    ensures c.signals.Up(f) && c.signals.pipe == 0
  {
  }

  lemma EmptyStep(c: Config, s: State, e: Event)
    requires Shape(c, s) && s.sig.pipe == 0 && !RaisesAny(s, e)
    ensures Step(c, s, e).sig.pipe == 0
  {
    hide Shape, LoopStep, ClosingStep;
    if !Environment(e) {
      if s.pc.Inter? {
        LoopIsInter(c, s, e);
        InterKeepsPipe(c, s, e);
      } else if InLoop(s.pc) {
        LoopKeepsEmpty(c, s, e);
      } else {
        ClosingKeepsEmpty(c, s, e);
      }
    }
  }

  lemma InterKeepsPipe(c: Config, s: State, e: Event)
    requires Shape(c, s) && s.pc.Inter?
    ensures InterStep(c, s, e).sig.pipe == s.sig.pipe
  {
    var Inter(g, phase, go, site) := s.pc;
    ServedShape(c, s, g);
    ServedPipe(s, g);
    hide Shape, InterNext, Served;
    if e.Tick? && phase.Clear? {
      InterNextUntouched(c, Served(s, g), g, go && !g.Alrm? && !g.Exit?, site);
    } else if e.Tick? && phase.Test? && !s.sig.Up(g) {
      InterNextUntouched(c, s, g, go, site);
    }
  }

  lemma ServedPipe(s: State, g: Flag)
    ensures Served(s, g).sig.pipe == s.sig.pipe
  {
    LowerKeepsPipe(s.sig, g);
    hide Lower;
  }

  lemma LoopKeepsEmpty(c: Config, s: State, e: Event)
    requires Shape(c, s) && InLoop(s.pc) && !s.pc.Inter? && s.sig.pipe == 0
    ensures LoopStep(c, s, e).sig.pipe == 0
  {
    hide Shape, LoopStep;
    if s.pc.PtsRead? || s.pc.PtsWrite? || s.pc.Flush? {
      PtsUntouched(c, s, e);
    } else if s.pc.SockRead? || s.pc.SockWrite? {
      SockUntouched(c, s, e);
    } else if s.pc.PipeRead? {
      PipeKeepsEmpty(c, s, e);
    } else {
      PollUntouched(c, s, e);
    }
  }

  lemma PipeKeepsEmpty(c: Config, s: State, e: Event)
    requires Shape(c, s) && s.pc.PipeRead? && s.sig.pipe == 0
    ensures LoopStep(c, s, e).sig.pipe == 0
  {
    hide Shape, Blit;
  }

  lemma WaitKeepsEmpty(c: Config, s: State, e: Event)
    requires Shape(c, s) && InWait(s.pc) && s.sig.pipe == 0
    ensures WaitStep(c, s, e).sig.pipe == 0
  {
    hide Shape, Over, WaitTestStep;
    if s.pc.WaitTest? { WaitTestKeepsPipe(c, s, e); }
  }

  lemma WaitTestKeepsPipe(c: Config, s: State, e: Event)
    requires Shape(c, s) && s.pc.WaitTest?
    ensures WaitTestStep(c, s, e).sig.pipe == s.sig.pipe
  {
    LowerKeepsPipe(s.sig, s.pc.f);
    hide Shape, Over, Lower, WaitNext;
  }

  lemma InviteKeepsPipe(c: Config, s: State)
    requires Shape(c, s) && s.pc.InviteInter?
    ensures InviteInterStep(c, s).sig.pipe == s.sig.pipe
  {
    LowerKeepsPipe(s.sig, s.pc.f);
    hide Shape, Over, Lower;
  }

  lemma ClosingKeepsEmpty(c: Config, s: State, e: Event)
    requires Shape(c, s) && !InLoop(s.pc) && s.sig.pipe == 0
    ensures ClosingStep(c, s, e).sig.pipe == 0
  {
    hide ClosingStep, Shape;
    ClosingIs(c, s, e);
    if InWait(s.pc) {
      WaitKeepsEmpty(c, s, e);
    } else if s.pc.InviteInter? {
      if e.Tick? { InviteKeepsPipe(c, s); }
    } else {
      ClosingUntouched(c, s, e);
    }
  }

  lemma LowerKeepsPipe(sig: Signals, f: Flag)
    ensures Lower(sig, f).pipe == sig.pipe
  {
  }

  lemma {:induction false} EmptySinceStart(c: Config, events: seq<Event>, states: seq<State>, k: nat, f: Flag)
    requires Behaviour(c, events, states) && k < |states| && |states| == |events| + 1
    requires c.signals.pipe == 0 && forall i :: 0 <= i < k ==> !RaisesAny(states[i], events[i])
    ensures states[k].sig.pipe == 0
  {
    hide *;
    T.Kept(c, events, states, k);
    if k == 0 {
      StartsWith(c, events, states);
      assert Init(c).sig.pipe == 0 by { InitSignals(c); }
    } else {
      T.Kept(c, events, states, k - 1);
      EmptySinceStart(c, events, states, k - 1, f);
      EmptyStep(c, states[k - 1], events[k - 1]);
    }
  }

  lemma InitSignals(c: Config)
    requires c.Valid()
    ensures Init(c).sig == c.signals
  {
  }

  /**
   Lost wake-ups.  At a poll a raised flag has no byte in the self-pipe if and only if it was raised without one
   before the session, and since then nothing has raised a signal and no handler has looked at it.
   */
  lemma NoLostWakeup(c: Config, events: seq<Event>, states: seq<State>, k: nat, f: Flag)
    requires Behaviour(c, events, states) && k < |states|
    requires Waiting(states[k].pc, f) && states[k].sig.Up(f)
    ensures states[k].sig.pipe == 0 <==> Unnoticed(c, events, states, k, f)
  {
    T.Kept(c, events, states, k);
    hide Behaviour, RaisesAny, Tests, Shape, Control, Data, Step;
    if states[k].sig.pipe == 0 {
      AsleepSinceStart(c, events, states, k, f);
    } else if Unnoticed(c, events, states, k, f) {
      EmptySinceStart(c, events, states, k, f);
    }
  }

  /** The relay polls although flag `f` is up, with nothing to end the poll. */
  predicate Oversleeps(s: State, f: Flag) { s.pc.Polling? && s.sig.Up(f) && s.sig.pipe == 0 }

  /** No run of a configuration oversleeps exactly if every flag that is up at the start has a byte in the self-pipe. */
  lemma WakeupsKeptIff(c: Config)
    requires c.Valid()
    ensures (forall events, states, k: nat, f :: Behaviour(c, events, states) && k < |states| ==>
                                            !Oversleeps(states[k], f))
            <==> (forall f :: c.signals.Up(f) ==> c.signals.pipe > 0)
  {
    hide Behaviour;
    if f :| c.signals.Up(f) && c.signals.pipe == 0 {
      var states := SleepsAtOnce(c, f);
      assert Behaviour(c, [Tick], states) && Oversleeps(states[1], f);
    } else {
      forall events, states, k: nat, f | Behaviour(c, events, states) && k < |states|
        ensures !Oversleeps(states[k], f)
      {
        T.Kept(c, events, states, k);
        hide Step, Shape, Control, Data;
        if Oversleeps(states[k], f) { NoLostWakeup(c, events, states, k, f); }
      }
    }
  }

  lemma SleepsAtOnce(c: Config, f: Flag) returns (states: seq<State>)
    requires c.Valid() && c.signals.Up(f) && c.signals.pipe == 0
    ensures Behaviour(c, [Tick], states) && |states| == 2 && Oversleeps(states[1], f)
  {
    states := [Init(c), Step(c, Init(c), Tick)];
    hide Shape;
  }

  // ---------------------------------------------------------------------------------------------
  // What a call that a signal ends leads to.

  /** Flag `f` is up, and the handlers called next have not come past it. */
  predicate Ahead(s: State, f: Flag) {
    s.sig.Up(f) && (
      || s.pc.PipeRead?
      || (s.pc.Inter? && Rank(s.pc.f) <= Rank(f) && !Forgetful(s.pc, f))
      || (Watched(f) && s.pc.WaitPipe?)
      || (Watched(f) && s.pc.WaitTest? && Rank(s.pc.f) <= Rank(f) && !Forgetful(s.pc, f)))
  }

  lemma InterNextAhead(c: Config, s: State, g: Flag, go: bool, site: Site, f: Flag)
    requires Shape(c, s) && s.pc.Inter? && s.pc.f == g && s.pc.site == site && f != g && s.sig.Up(f)
    requires Rank(g) <= Rank(f)
    ensures Ahead(InterNext(c, s, g, go, site), f)
  {
    hide Shape, W.Ok, W.Result;
  }

  lemma InterAhead(c: Config, s: State, e: Event, f: Flag)
    requires Shape(c, s) && s.pc.Inter? && Ahead(s, f) && !Serves(s, e, f)
    ensures Ahead(InterStep(c, s, e), f)
  {
    var Inter(g, phase, go, site) := s.pc;
    if e.Tick? && phase.Clear? {
      ServedShape(c, s, g);
      LowersOne(s, g, f);
      hide Shape, InterNext, Served;
      InterNextAhead(c, Served(s, g), g, go && !g.Alrm? && !g.Exit?, site, f);
    } else if e.Tick? && phase.Test? && !s.sig.Up(g) {
      hide Shape, InterNext;
      InterNextAhead(c, s, g, go, site, f);
    } else {
      hide Shape, InterNext, Served;
    }
  }

  lemma WaitAhead(c: Config, s: State, e: Event, f: Flag)
    requires Shape(c, s) && Guarded(s) && (s.pc.WaitTest? || s.pc.WaitPipe?) && Ahead(s, f) && !Serves(s, e, f)
    ensures Ahead(WaitStep(c, s, e), f)
  {
    hide Shape, Over, Drained;
  }

  lemma PipeAhead(c: Config, s: State, e: Event, f: Flag)
    requires Shape(c, s) && s.pc.PipeRead? && Ahead(s, f)
    ensures Ahead(PipeStep(c, s, e), f)
  {
    hide Shape, Blit, Drained;
  }

  lemma AheadStep(c: Config, s: State, e: Event, f: Flag)
    requires Shape(c, s) && Guarded(s) && Ahead(s, f) && !Serves(s, e, f) && !Step(c, s, e).pc.Exited?
    ensures Ahead(Step(c, s, e), f)
  {
    if Environment(e) {
      hide Shape, Guarded, LoopStep, ClosingStep;
    } else {
      ClosingOrLoop(c, s, e, f);
      hide Shape, Guarded, LoopStep, ClosingStep, Ahead, Serves;
      if s.pc.Inter? {
        InterAhead(c, s, e, f);
      } else if s.pc.PipeRead? {
        PipeAhead(c, s, e, f);
      } else {
        WaitAhead(c, s, e, f);
      }
    }
  }

  lemma ClosingOrLoop(c: Config, s: State, e: Event, f: Flag)
    requires Shape(c, s) && Ahead(s, f) && !Environment(e)
    ensures s.pc.Inter? || s.pc.PipeRead? || s.pc.WaitTest? || s.pc.WaitPipe?
    ensures Step(c, s, e) == if s.pc.Inter? then InterStep(c, s, e) else if s.pc.PipeRead? then PipeStep(c, s, e)
                             else WaitStep(c, s, e)
  {
    hide Shape, InterStep, PipeStep, WaitStep, Over;
  }

  /** The event ends a poll with the news of a signal, or an interrupted read or write of the relay. */
  predicate Reports(s: State, e: Event) {
    || (s.pc.Polling? && e.Poll? && !e.code.Broken? && (e.revents.pipe || e.code.Interrupted?))
    || (s.pc.WaitPoll? && e.Poll? && !e.code.Broken? && e.revents.pipe)
    || ((s.pc.PtsRead? || s.pc.SockRead? || s.pc.PtsWrite? || s.pc.SockWrite?) && e.Refused? && e.intr)
  }

  /** Inside a handler, or about to call it after a poll. */
  predicate Handling(pc: Pc) { pc.Inter? || pc.PipeRead? || pc.WaitPipe? || pc.WaitTest? }

  lemma ReportsAhead(c: Config, s: State, e: Event, f: Flag)
    requires Shape(c, s) && Reports(s, e) && s.sig.Up(f) && (s.pc.WaitPoll? ==> Watched(f))
    ensures Ahead(Step(c, s, e), f)
  {
    hide Shape, Over;
  }

  lemma {:induction false} AheadUntilServed(c: Config, events: seq<Event>, states: seq<State>, i: nat, j: nat, f: Flag)
    requires Behaviour(c, events, states) && i < j < |states| && |states| == |events| + 1
    requires Reports(states[i], events[i]) && states[i].sig.Up(f) && (states[i].pc.WaitPoll? ==> Watched(f))
    ensures states[j].pc.Exited? || ServedBetween(events, states, i, j, f) || Ahead(states[j], f)
    decreases j
  {
    hide *;
    T.Kept(c, events, states, j - 1);
    var s, e := states[j - 1], events[j - 1];
    if j == i + 1 {
      ReportsAhead(c, s, e, f);
    } else {
      ControlGuards(s);
      AheadUntilServed(c, events, states, i, j - 1, f);
      ServedNext(events, states, i, j, f);
      if s.pc.Exited? {
        ExitedStays(c, s, e);
      } else if !ServedBetween(events, states, i, j, f) && !states[j].pc.Exited? {
        AheadStep(c, s, e, f);
      }
    }
  }

  lemma ServedNext(events: seq<Event>, states: seq<State>, i: nat, j: nat, f: Flag)
    requires i + 1 < j <= |events| && j <= |states|
    ensures ServedBetween(events, states, i, j - 1, f) ==> ServedBetween(events, states, i, j, f)
    ensures Serves(states[j - 1], events[j - 1], f) ==> ServedBetween(events, states, i, j, f)
  {
    hide Serves;
  }

  lemma ExitedStays(c: Config, s: State, e: Event)
    requires Shape(c, s) && s.pc.Exited?
    ensures Step(c, s, e).pc.Exited?
  {
    hide Shape, LoopStep;
  }

  /**
   When a poll ends with the news of a signal, or a read or write is interrupted, every flag that is up and looked
   at there is served before the program goes on with anything else.
   */
  lemma ReportedFlagsAreServed(c: Config, events: seq<Event>, states: seq<State>, i: nat, j: nat, f: Flag)
    requires Behaviour(c, events, states) && i < j < |states|
    requires Reports(states[i], events[i]) && states[i].sig.Up(f) && (states[i].pc.WaitPoll? ==> Watched(f))
    requires !Handling(states[j].pc) && !states[j].pc.Exited?
    ensures ServedBetween(events, states, i, j, f)
  {
    AheadUntilServed(c, events, states, i, j, f);
    hide Behaviour, ServedBetween;
  }

  // ---------------------------------------------------------------------------------------------
  // Quiet after service.

  /** The place of the relay between a poll that reports the self-pipe and the end of its handler. */
  predicate Serving(pc: Pc) { pc.PipeRead? || (pc.Inter? && (pc.site.AtPoll? || pc.site.AtPipe?)) }

  /** All bytes that are in the self-pipe can be read at once, or have been. */
  predicate Draining(c: Config, s: State) {
    if s.pc.PipeRead? || (s.pc.Inter? && s.pc.site.AtPoll?) then s.revents.pipe && s.sig.pipe <= c.bufferSize
    else s.sig.pipe == 0
  }

  /** A flag is up only if the handler has not come to it. */
  predicate Settling(s: State, f: Flag) {
    s.sig.Up(f) ==>
      s.pc.PipeRead? || (s.pc.Inter? && (s.pc.site.AtPoll? || s.pc.site.AtPipe?) && Rank(s.pc.f) <= Rank(f))
  }

  lemma InterDrains(c: Config, s: State, e: Event)
    requires Shape(c, s) && s.pc.Inter? && Draining(c, s)
    ensures Draining(c, InterStep(c, s, e))
  {
    var Inter(g, phase, go, site) := s.pc;
    InterKeepsPipe(c, s, e);
    InterPlaces(c, s, e);
    hide InterStep, Shape;
  }

  lemma InterNextPlaces(c: Config, s: State, g: Flag, go: bool, site: Site)
    requires Shape(c, s) && s.pc.Inter? && s.pc.f == g && s.pc.site == site
    ensures var r := InterNext(c, s, g, go, site);
            && r.revents == s.revents
            && (if r.pc.Inter? then r.pc.site == site else site.AtPoll? && r.pc.PipeRead? ==> s.revents.pipe)
            && (site.AtPoll? && !r.pc.Inter? && s.revents.pipe ==> r.pc.PipeRead?)
            && (!site.AtPoll? ==> !r.pc.PipeRead?)
  {
    hide Shape, W.Ok, W.Result;
  }

  lemma InterPlaces(c: Config, s: State, e: Event)
    requires Shape(c, s) && s.pc.Inter?
    ensures var r := InterStep(c, s, e); var site := s.pc.site;
            && r.revents == s.revents
            && (if r.pc.Inter? then r.pc.site == site else site.AtPoll? && r.pc.PipeRead? ==> s.revents.pipe)
            && (site.AtPoll? && !r.pc.Inter? && s.revents.pipe ==> r.pc.PipeRead?)
            && (!site.AtPoll? ==> !r.pc.PipeRead?)
  {
    var Inter(g, phase, go, site) := s.pc;
    ServedShape(c, s, g);
    ServedKeepsRevents(s, g);
    hide Shape, InterNext, Served;
    if e.Tick? && phase.Clear? {
      InterNextPlaces(c, Served(s, g), g, go && !g.Alrm? && !g.Exit?, site);
    } else if e.Tick? && phase.Test? && !s.sig.Up(g) {
      InterNextPlaces(c, s, g, go, site);
    }
  }

  lemma ServedKeepsRevents(s: State, g: Flag)
    ensures Served(s, g).revents == s.revents
  {
    hide Lower;
  }

  lemma InterNextSettles(c: Config, s: State, g: Flag, go: bool, site: Site, f: Flag)
    requires Shape(c, s) && s.pc.Inter? && s.pc.f == g && s.pc.site == site && !s.sig.Up(g) && Settling(s, f)
    ensures Settling(InterNext(c, s, g, go, site), f)
  {
    hide Shape, W.Ok, W.Result;
  }

  lemma ServedSettles(s: State, g: Flag, f: Flag)
    requires Settling(s, f)
    ensures Settling(Served(s, g), f) && !Served(s, g).sig.Up(g)
  {
    hide Rank;
  }

  lemma InterSettles(c: Config, s: State, e: Event, f: Flag)
    requires Shape(c, s) && s.pc.Inter? && Settling(s, f)
    ensures Settling(InterStep(c, s, e), f)
  {
    var Inter(g, phase, go, site) := s.pc;
    if e.Tick? && phase.Clear? {
      ServedShape(c, s, g);
      ServedSettles(s, g, f);
      hide Shape, InterNext, Served, Settling;
      InterNextSettles(c, Served(s, g), g, go && !g.Alrm? && !g.Exit?, site, f);
    } else if e.Tick? && phase.Test? && !s.sig.Up(g) {
      hide Shape, InterNext, Settling;
      InterNextSettles(c, s, g, go, site, f);
    } else {
      hide Shape, InterNext, Served;
    }
  }

  lemma PipeCalms(c: Config, s: State, e: Event, f: Flag)
    requires Shape(c, s) && s.pc.PipeRead? && Draining(c, s) && Settling(s, f) && !e.Refused?
    ensures var r := PipeStep(c, s, e); Draining(c, r) && Settling(r, f)
  {
    hide Shape, Blit;
  }

  lemma OtherCalms(c: Config, s: State, e: Event, f: Flag)
    requires Shape(c, s) && InLoop(s.pc) && !Serving(s.pc) && !s.pc.Inter? && !s.pc.Polling?
    requires Draining(c, s) && Settling(s, f)
    ensures var r := LoopStep(c, s, e); Draining(c, r) && Settling(r, f)
  {
    hide Shape, LoopStep;
    if s.pc.PtsRead? || s.pc.PtsWrite? || s.pc.Flush? {
      PtsUntouched(c, s, e);
      PtsPlaces(c, s, e);
    } else if s.pc.SockRead? || s.pc.SockWrite? {
      SockUntouched(c, s, e);
      SockPlaces(c, s, e);
    } else {
      PollUntouched(c, s, e);
      HeadPlaces(c, s, e);
    }
  }

  lemma PtsPlaces(c: Config, s: State, e: Event)
    requires Shape(c, s) && (s.pc.PtsRead? || s.pc.PtsWrite? || s.pc.Flush?)
    ensures !Serving(LoopStep(c, s, e).pc)
  {
    hide Shape, W.Ok, Blit, Take, Clip, Threshold, W.Begin;
  }

  lemma SockPlaces(c: Config, s: State, e: Event)
    requires Shape(c, s) && (s.pc.SockRead? || s.pc.SockWrite?)
    ensures !Serving(LoopStep(c, s, e).pc)
  {
    hide Shape, W.Ok, Blit, Take, Clip, W.Advance, W.Packet, W.Reframe, W.Result;
  }

  lemma HeadPlaces(c: Config, s: State, e: Event)
    requires Shape(c, s) && (s.pc.Head? || s.pc.Check?)
    ensures !Serving(LoopStep(c, s, e).pc)
  {
    hide Shape;
  }

  lemma CalmStep(c: Config, s: State, e: Event, f: Flag)
    requires Shape(c, s) && InLoop(s.pc) && !s.pc.Polling? && InLoop(Step(c, s, e).pc)
    requires Draining(c, s) && Settling(s, f) && !RaisesAny(s, e) && !(s.pc.PipeRead? && e.Refused?)
    ensures var r := Step(c, s, e); Draining(c, r) && Settling(r, f)
  {
    hide Shape, LoopStep, ClosingStep;
    if !Environment(e) {
      PlaceIs(c, s, e);
      hide Draining, Settling;
      if s.pc.Inter? {
        InterDrains(c, s, e);
        InterSettles(c, s, e, f);
      } else if s.pc.PipeRead? {
        PipeCalms(c, s, e, f);
      } else {
        OtherCalms(c, s, e, f);
      }
    }
  }

  lemma PlaceIs(c: Config, s: State, e: Event)
    requires Shape(c, s)
    ensures s.pc.Inter? ==> LoopStep(c, s, e) == InterStep(c, s, e)
    ensures s.pc.PipeRead? ==> LoopStep(c, s, e) == PipeStep(c, s, e)
  {
    hide Shape, InterStep, PipeStep;
  }

  lemma ReportCalms(c: Config, s: State, e: Event, f: Flag)
    requires Shape(c, s) && s.pc.Polling? && e.Poll? && !e.code.Broken? && e.revents.pipe && s.sig.pipe <= c.bufferSize
    ensures var r := Step(c, s, e); InLoop(r.pc) && Draining(c, r) && Settling(r, f)
  {
    hide Shape;
  }

  /** From the poll at `i`, which reports the self-pipe, to the next poll at `j` nothing raises a signal. */
  ghost predicate Undisturbed(events: seq<Event>, states: seq<State>, i: nat, j: nat)
    requires j <= |events| && j < |states|
  {
    && (forall k :: i <= k <= j ==> InLoop(states[k].pc))
    && (forall k :: i < k < j ==> !states[k].pc.Polling?)
    && (forall k :: i <= k < j ==> !RaisesAny(states[k], events[k]) && !(states[k].pc.PipeRead? && events[k].Refused?))
  }

  lemma UndisturbedBefore(events: seq<Event>, states: seq<State>, i: nat, j: nat)
    requires i < j <= |events| && j < |states| && Undisturbed(events, states, i, j)
    ensures InLoop(states[j - 1].pc) && InLoop(states[j].pc) && Undisturbed(events, states, i, j - 1)
    ensures i < j - 1 ==> !states[j - 1].pc.Polling?
    ensures !RaisesAny(states[j - 1], events[j - 1]) && !(states[j - 1].pc.PipeRead? && events[j - 1].Refused?)
  {
    hide RaisesAny, InLoop;
  }

  lemma {:induction false} CalmsDown(c: Config, events: seq<Event>, states: seq<State>, i: nat, j: nat, f: Flag)
    requires Behaviour(c, events, states) && i < j < |states| && |states| == |events| + 1
    requires states[i].pc.Polling? && events[i].Poll? && !events[i].code.Broken? && events[i].revents.pipe
    requires states[i].sig.pipe <= c.bufferSize && Undisturbed(events, states, i, j)
    ensures Draining(c, states[j]) && Settling(states[j], f)
    decreases j
  {
    hide *;
    UndisturbedBefore(events, states, i, j);
    T.Kept(c, events, states, j - 1);
    if j == i + 1 {
      ReportCalms(c, states[i], events[i], f);
    } else {
      CalmsDown(c, events, states, i, j - 1, f);
      CalmStep(c, states[j - 1], events[j - 1], f);
    }
  }

  /**
   The relay comes to rest: after a poll that reports the self-pipe, and with no signal meanwhile, the next poll
   finds the self-pipe empty and every flag down.
   */
  lemma QuietAfterService(c: Config, events: seq<Event>, states: seq<State>, i: nat, j: nat, f: Flag)
    requires Behaviour(c, events, states) && i < j < |states| && states[j].pc.Polling?
    requires states[i].pc.Polling? && events[i].Poll? && !events[i].code.Broken? && events[i].revents.pipe
    requires states[i].sig.pipe <= c.bufferSize && Undisturbed(events, states, i, j)
    ensures states[j].sig.pipe == 0 && !states[j].sig.Up(f)
  {
    CalmsDown(c, events, states, i, j, f);
    hide Behaviour, Undisturbed;
  }

  // ---------------------------------------------------------------------------------------------
  // Timers.

  /** A batch waits, and no timer, flag of the loop or pending flush takes care of it. */
  predicate Idling(c: Config, s: State) {
    && c.Batched() && InLoop(s.pc) && !Sending(s.pc) && s.b.total > 0
    && !s.timers.read && !s.b.timerEx && !s.b.limitEx
  }

  /** Such a batch does not come about by itself: only the end of its timer leaves it so. */
  lemma IdlingLoopStep(c: Config, s: State, e: Event)
    requires Shape(c, s) && InLoop(s.pc) && !s.pc.Inter? && Idling(c, LoopStep(c, s, e))
    ensures Idling(c, s)
  {
    hide Shape, LoopStep;
    if s.pc.PtsRead? || s.pc.Flush? {
      IdlingPtsStep(c, s, e);
    } else if s.pc.SockRead? || s.pc.PtsWrite? {
      IdlingSockStep(c, s, e);
    } else if s.pc.SockWrite? {
      IdlingWriteStep(c, s, e);
    } else {
      IdlingPollStep(c, s, e);
    }
  }

  lemma IdlingPtsStep(c: Config, s: State, e: Event)
    requires Shape(c, s) && (s.pc.PtsRead? || s.pc.Flush?) && Idling(c, LoopStep(c, s, e))
    ensures Idling(c, s)
  {
    hide Shape, Blit, Take, Threshold, W.Begin;
  }

  lemma IdlingSockStep(c: Config, s: State, e: Event)
    requires Shape(c, s) && (s.pc.SockRead? || s.pc.PtsWrite?) && Idling(c, LoopStep(c, s, e))
    ensures Idling(c, s)
  {
    hide Shape, Blit, Take, Clip;
  }

  lemma IdlingWriteStep(c: Config, s: State, e: Event)
    requires Shape(c, s) && s.pc.SockWrite? && Idling(c, LoopStep(c, s, e))
    ensures Idling(c, s)
  {
    hide Shape, W.Ok, Clip, W.Advance, W.Packet, W.Reframe, W.Result;
  }

  lemma IdlingPollStep(c: Config, s: State, e: Event)
    requires Shape(c, s) && (s.pc.Head? || s.pc.Polling? || s.pc.PipeRead? || s.pc.Check?)
    requires Idling(c, LoopStep(c, s, e))
    ensures Idling(c, s)
  {
    hide Shape, Blit;
  }

  lemma IdlingInterStep(c: Config, s: State, e: Event)
    requires Shape(c, s) && s.pc.Inter? && Idling(c, InterStep(c, s, e))
    ensures Idling(c, s)
  {
    hide InterStep, Shape;
    InterEffect(c, s, e);
  }

  /** Flag_Idle is awake whenever a batch depends on it. */
  predicate BatchAwake(c: Config, s: State) { Idling(c, s) ==> Awake(s, Idle) }

  lemma BatchAwakeStep(c: Config, s: State, e: Event)
    requires Shape(c, s) && Guarded(s) && BatchAwake(c, s)
    ensures BatchAwake(c, Step(c, s, e))
  {
    if Awake(s, Idle) {
      StepAwake(c, s, e, Idle);
      hide Step, Shape, Guarded, Awake;
    } else if Environment(e) {
      hide Shape, Guarded, LoopStep, ClosingStep;
    } else {
      hide Shape, Guarded, LoopStep, ClosingStep, Awake, Idling;
      if !InLoop(s.pc) {
        NotIdling(c, ClosingStep(c, s, e));
      } else if Idling(c, LoopStep(c, s, e)) {
        if s.pc.Inter? {
          LoopIsInter(c, s, e);
          IdlingInterStep(c, s, e);
        } else {
          IdlingLoopStep(c, s, e);
        }
      }
    }
  }

  lemma NotIdling(c: Config, s: State)
    requires !InLoop(s.pc)
    ensures !Idling(c, s)
  {
  }

  /** A closing wait that is not over has no timer running. */
  predicate Untimed(s: State) {
    InWait(s.pc) && !s.pc.Arm? && !s.pc.Disarm? && s.timers.watch == Off && s.done == 0
  }

  lemma WaitUntimed(c: Config, s: State, e: Event)
    requires Shape(c, s) && InWait(s.pc) && Untimed(WaitStep(c, s, e))
    ensures Untimed(s)
  {
    hide Shape, Over, Drained, WaitTestStep;
    if s.pc.WaitTest? { WaitTestUntimed(c, s, e); }
  }

  lemma WaitTestUntimed(c: Config, s: State, e: Event)
    requires Shape(c, s) && s.pc.WaitTest? && Untimed(WaitTestStep(c, s, e))
    ensures Untimed(s)
  {
    hide Shape, Over, Lower;
  }

  lemma ClosingTimed(c: Config, s: State, e: Event)
    requires Shape(c, s) && !InLoop(s.pc) && !InWait(s.pc)
    ensures !Untimed(ClosingStep(c, s, e))
  {
    if s.pc.InviteInter? {
      hide Shape, Over, Lower, ClosingStep;
      ClosingIs(c, s, e);
    } else if s.pc.Invite? {
      hide Shape, Over, W.Ok, Clip, W.Advance, W.Packet, W.Reframe;
    } else {
      hide Shape, Over, InviteStep, InviteInterStep, WaitStep, W.Begin;
    }
  }

  /** A closing wait has its timer running from the start. */
  lemma WaitTimerStep(c: Config, s: State, e: Event)
    requires Shape(c, s) && !Environment(e) && Untimed(Step(c, s, e))
    ensures Untimed(s)
  {
    hide Shape, LoopStep, ClosingStep;
    if InLoop(s.pc) {
      LoopGoesOn(c, s, e);
    } else if InWait(s.pc) {
      ClosingIs(c, s, e);
      WaitUntimed(c, s, e);
    } else {
      ClosingTimed(c, s, e);
    }
  }

  lemma SockGoesOn(c: Config, s: State, e: Event)
    requires Shape(c, s) && (s.pc.SockRead? || s.pc.SockWrite? || s.pc.PtsWrite?)
    ensures !InWait(LoopStep(c, s, e).pc)
  {
    hide Shape, Blit, Take, Clip, W.Result, W.Advance, W.Packet, W.Reframe;
  }

  lemma PtsGoesOn(c: Config, s: State, e: Event)
    requires Shape(c, s) && (s.pc.PtsRead? || s.pc.Flush?)
    ensures !InWait(LoopStep(c, s, e).pc)
  {
    hide Shape, Blit, Take, Threshold, W.Begin;
  }

  lemma PollGoesOn(c: Config, s: State, e: Event)
    requires Shape(c, s) && (s.pc.Head? || s.pc.Polling? || s.pc.PipeRead? || s.pc.Check?)
    ensures !InWait(LoopStep(c, s, e).pc)
  {
    hide Shape, Blit, Drained;
  }

  lemma LoopGoesOn(c: Config, s: State, e: Event)
    requires Shape(c, s) && InLoop(s.pc)
    ensures !InWait(LoopStep(c, s, e).pc)
  {
    if s.pc.Inter? {
      InterEffect(c, s, e);
      hide InterStep, Shape;
    } else if s.pc.SockRead? || s.pc.SockWrite? || s.pc.PtsWrite? {
      SockGoesOn(c, s, e);
    } else if s.pc.PtsRead? || s.pc.Flush? {
      PtsGoesOn(c, s, e);
    } else {
      PollGoesOn(c, s, e);
    }
  }

  /** Flag_Alrm is awake whenever a closing wait depends on it. */
  predicate WaitAlarmed(s: State) {
    Untimed(s) ==> Awake(s, Alrm)
  }

  lemma WaitAlarmedStep(c: Config, s: State, e: Event)
    requires Shape(c, s) && Guarded(s) && WaitAlarmed(s)
    ensures WaitAlarmed(Step(c, s, e))
  {
    if Awake(s, Alrm) {
      StepAwake(c, s, e, Alrm);
      hide Step, Shape, Guarded, Awake;
    } else if Environment(e) {
      hide Shape, Guarded, LoopStep, ClosingStep;
    } else {
      hide Shape, Guarded, Awake, Untimed, Step;
      if Untimed(Step(c, s, e)) { WaitTimerStep(c, s, e); }
    }
  }

  lemma {:induction false} TimersKept(c: Config, events: seq<Event>, states: seq<State>, k: nat)
    requires Behaviour(c, events, states) && k < |states|
    ensures BatchAwake(c, states[k]) && WaitAlarmed(states[k])
  {
    hide *;
    if k == 0 {
      T.Kept(c, events, states, 0);
      StartsWith(c, events, states);
      TimersAtStart(c);
    } else {
      T.Kept(c, events, states, k - 1);
      ControlGuards(states[k - 1]);
      TimersKept(c, events, states, k - 1);
      BatchAwakeStep(c, states[k - 1], events[k - 1]);
      WaitAlarmedStep(c, states[k - 1], events[k - 1]);
    }
  }

  lemma TimersAtStart(c: Config)
    requires c.Valid()
    ensures BatchAwake(c, Init(c)) && WaitAlarmed(Init(c))
  {
  }

  /** No batch is ever stranded: the read timer runs, or its signal is waiting in the self-pipe. */
  lemma NoBatchStranded(c: Config, events: seq<Event>, states: seq<State>, k: nat)
    requires Behaviour(c, events, states) && k < |states| && c.Batched()
    ensures var s := states[k];
            (s.pc.Head? || s.pc.Polling?) && s.b.total > 0 ==>
              s.timers.read || (s.sig.idle && s.sig.pipe > 0)
  {
    T.Kept(c, events, states, k);
    TimersKept(c, events, states, k);
    hide Behaviour, Step, Bounded, Conserved, Growing, Delivered;
  }

  /** Which timer may be running where: the watchdog in the loop, the shorter timeout in the closing waits. */
  ghost predicate Timed(s: State) {
    && (s.pc.Polling? ==> s.timers.watch != NetTimeout)
    && (InWait(s.pc) && !s.pc.Arm? ==> s.timers.watch != WatchDog)
    && (!InLoop(s.pc) && !s.pc.Left? && !s.pc.Exited? ==> !s.timers.read)
    && (BetweenWaits(s.pc) ==> s.timers.watch == Off)
  }

  predicate BetweenWaits(pc: Pc) {
    || pc.ClosePts? || pc.Record? || pc.Switch? || pc.Invite? || pc.InviteInter? || pc.Arm?
    || pc.CloseSock? || pc.ChildCheck? || pc.Finished?
  }

  lemma LoopTimed(c: Config, s: State, e: Event)
    requires Shape(c, s) && InLoop(s.pc) && Timed(s)
    ensures Timed(LoopStep(c, s, e))
  {
    N.LoopWaitsTell(c, s, e);
    if s.pc.Head? || s.pc.Polling? {
      hide Shape;
    } else {
      NotPolling(c, s, e);
      hide Shape, LoopStep;
    }
  }

  lemma NotPolling(c: Config, s: State, e: Event)
    requires Shape(c, s) && InLoop(s.pc) && !s.pc.Head? && !s.pc.Polling?
    ensures !LoopStep(c, s, e).pc.Polling?
  {
    hide Shape, LoopStep;
    if s.pc.PtsRead? || s.pc.PtsWrite? || s.pc.Flush? {
      PtsNotPolling(c, s, e);
    } else if s.pc.SockRead? || s.pc.SockWrite? {
      SockNotPolling(c, s, e);
    } else if s.pc.Inter? {
      LoopIsInter(c, s, e);
      InterEffect(c, s, e);
      hide InterStep;
    } else {
      PollNotPolling(c, s, e);
    }
  }

  lemma PtsNotPolling(c: Config, s: State, e: Event)
    requires Shape(c, s) && (s.pc.PtsRead? || s.pc.PtsWrite? || s.pc.Flush?)
    ensures !LoopStep(c, s, e).pc.Polling?
  {
    hide Shape, W.Ok, Blit, Take, Clip, Threshold, W.Begin;
  }

  lemma SockNotPolling(c: Config, s: State, e: Event)
    requires Shape(c, s) && (s.pc.SockRead? || s.pc.SockWrite?)
    ensures !LoopStep(c, s, e).pc.Polling?
  {
    hide Shape, W.Ok, Blit, Take, Clip, W.Advance, W.Packet, W.Reframe, W.Result;
  }

  lemma PollNotPolling(c: Config, s: State, e: Event)
    requires Shape(c, s) && (s.pc.PipeRead? || s.pc.Check?)
    ensures !LoopStep(c, s, e).pc.Polling?
  {
    hide Shape, Blit, Drained;
  }

  lemma WaitTimed(c: Config, s: State, e: Event)
    requires Shape(c, s) && InWait(s.pc) && Timed(s)
    ensures Timed(WaitStep(c, s, e))
  {
    hide Shape, Over, Drained, WaitTestStep;
    if s.pc.WaitTest? { WaitTestTimed(c, s, e); }
  }

  lemma WaitTestTimed(c: Config, s: State, e: Event)
    requires Shape(c, s) && s.pc.WaitTest?
    ensures var r := WaitTestStep(c, s, e); InWait(r.pc) && !r.pc.Arm? && r.timers == s.timers
  {
    hide Shape, Over, Lower;
  }

  lemma ClosingStaysTimed(c: Config, s: State, e: Event)
    requires Shape(c, s) && !InLoop(s.pc) && !InWait(s.pc) && Timed(s)
    ensures Timed(ClosingStep(c, s, e))
  {
    if s.pc.Invite? || s.pc.InviteInter? {
      N.InviteTells(c, s, e);
      InviteKeepsTimers(c, s, e);
      hide Shape, ClosingStep;
    } else {
      hide Shape, Over, WaitStep, InviteStep, InviteInterStep, W.Begin;
    }
  }

  lemma InviteKeepsTimers(c: Config, s: State, e: Event)
    requires Shape(c, s) && (s.pc.Invite? || s.pc.InviteInter?)
    ensures ClosingStep(c, s, e).timers == s.timers
  {
    if s.pc.Invite? {
      hide Shape, Over, W.Ok, Clip, W.Advance, W.Packet, W.Reframe, WaitStep, InviteInterStep, SwitchStep;
    } else {
      hide Shape, Over, Lower, WaitStep, InviteStep, SwitchStep;
    }
  }

  lemma TimedStep(c: Config, s: State, e: Event)
    requires Shape(c, s) && Timed(s)
    ensures Timed(Step(c, s, e))
  {
    if Environment(e) {
      hide Shape, LoopStep, ClosingStep;
    } else {
      hide Shape, LoopStep, ClosingStep, Timed;
      if InLoop(s.pc) {
        LoopTimed(c, s, e);
      } else if InWait(s.pc) {
        ClosingIs(c, s, e);
        WaitTimed(c, s, e);
      } else {
        ClosingStaysTimed(c, s, e);
      }
    }
  }

  lemma {:induction false} AlwaysTimed(c: Config, events: seq<Event>, states: seq<State>, k: nat)
    requires Behaviour(c, events, states) && k < |states|
    ensures Timed(states[k])
  {
    hide *;
    if k == 0 {
      StartsWith(c, events, states);
      TimedAtStart(c);
    } else {
      T.Kept(c, events, states, k - 1);
      AlwaysTimed(c, events, states, k - 1);
      TimedStep(c, states[k - 1], events[k - 1]);
    }
  }

  lemma TimedAtStart(c: Config)
    requires c.Valid()
    ensures Timed(Init(c))
  {
  }

  /**
   At the relay's poll only the full watchdog ever runs, whatever a PAD message has set in between; the closing
   waits have the shorter timeout; and a finished session leaves no timer running.
   */
  lemma TimersByPlace(c: Config, events: seq<Event>, states: seq<State>, k: nat)
    requires Behaviour(c, events, states) && k < |states|
    ensures var s := states[k];
            && (s.pc.Polling? ==> s.timers.watch != NetTimeout)
            && (s.pc.WaitPoll? ==> s.timers.watch != WatchDog && !s.timers.read)
            && (s.pc.Finished? ==> s.timers == Timers(false, Off))
  {
    AlwaysTimed(c, events, states, k);
    hide Behaviour;
  }

  /**
   No poll can last for ever: a watchdog runs, or the self-pipe already has a byte.  Both timeouts are positive
   (cfgfile.c, line 137, and pad_svr3.c, line 52), so setting the timer does start it.
   */
  lemma PollsAreBounded(c: Config, events: seq<Event>, states: seq<State>, k: nat)
    requires Behaviour(c, events, states) && k < |states| && (states[k].pc.Polling? || states[k].pc.WaitPoll?)
    ensures states[k].timers.watch != Off || states[k].sig.pipe > 0
  {
    T.Kept(c, events, states, k);
    TimersKept(c, events, states, k);
    hide Behaviour, Step, Data, Coded, Closing;
  }
}
