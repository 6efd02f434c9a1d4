/** What becomes of a signal: whether it is served, stays pending, or is forgotten. */
module SessionSignals {
  import opened Common
  import opened Session
  import opened SessionControl
  import opened SessionFlow
  import T = SessionTheorems
  import W = Writen

  /** `chil_sig_*` for flag `f`, sent by somebody or by an expiring timer. */
  predicate Raises(s: State, e: Event, f: Flag) {
    || e == Signal(f)
    || (e.ReadTimerExpires? && s.timers.read && f.Idle?)
    || (e.WatchTimerExpires? && s.timers.watch != Off && f.Alrm?)
  }

  /** One of the flag handlers is at flag `f`. */
  predicate AtFlag(pc: Pc, f: Flag) { (pc.Inter? || pc.InviteInter? || pc.WaitTest?) && pc.f == f }

  /**
   The step that serves flag `f`: `readcfg` for Flag_Hup and `waitpid` for Flag_Chld, both before the flag is
   cleared; for the others what the handler decides along with clearing them.
   */
  predicate Serves(s: State, e: Event, f: Flag) {
    AtFlag(s.pc, f) &&
    match f
    case Hup => s.pc.phase.Serve? && e.Tick?
    case Chld => s.pc.phase.Serve? && e.Reaped?
    case _ => s.pc.phase.Clear? && e.Tick?
  }

  /** What serving a flag does. */
  lemma ServingMeans(c: Config, s: State, e: Event, f: Flag)
    requires Shape(c, s) && Control(s) && Serves(s, e, f)
    ensures var r := Step(c, s, e);
            match f
            case Hup => r.sig == s.sig && r.done == s.done
            case Alrm => if s.pc.Inter? then r.done == 7 else if s.pc.WaitTest? then r.done == 1 else r.pc.Exited?
            case Exit => if s.pc.Inter? then r.done == 8 else if s.pc.WaitTest? then r.done == 1 else r.pc.Exited?
            case Idle => r.b.timerEx
            case Chld => r.reaped == (s.reaped || e.got)
  {
    hide Shape, W.Ok, Closing, Coded;
  }

  /** Already served, and about to be cleared. */
  predicate Forgetful(pc: Pc, f: Flag) { AtFlag(pc, f) && ServedFirst(f) && pc.phase.Clear? }

  ghost predicate ServedBetween(events: seq<Event>, states: seq<State>, i: nat, j: nat, f: Flag)
    requires j <= |events| && j <= |states|
  {
    exists k :: i < k < j && Serves(states[k], events[k], f)
  }

  lemma RaisedUp(c: Config, s: State, e: Event, f: Flag)
    requires Shape(c, s) && Raises(s, e, f)
    ensures Step(c, s, e).sig.Up(f) && Step(c, s, e).pc == s.pc
  {
    hide Shape;
  }

  /** No flag changes, bytes leave the self-pipe only where it is read, and no handler is past its test. */
  predicate Untouched(s: State, r: State) {
    && r.sig == s.sig.(pipe := r.sig.pipe)
    && (s.pc.PipeRead? || s.pc.WaitPipe? || r.sig.pipe == s.sig.pipe)
    && (r.pc.Inter? || r.pc.InviteInter? || r.pc.WaitTest? ==> r.pc.phase.Test?)
  }

  lemma PollUntouched(c: Config, s: State, e: Event)
    requires Shape(c, s) && (s.pc.Head? || s.pc.Polling? || s.pc.PipeRead? || s.pc.Check?)
    ensures Untouched(s, LoopStep(c, s, e))
  {
    hide Shape, Blit;
  }

  lemma PtsUntouched(c: Config, s: State, e: Event)
    requires Shape(c, s) && (s.pc.PtsRead? || s.pc.PtsWrite? || s.pc.Flush?)
    ensures Untouched(s, LoopStep(c, s, e))
  {
    hide Shape, W.Ok, Blit, Take, Clip, Threshold, W.Begin;
  }

  lemma SockUntouched(c: Config, s: State, e: Event)
    requires Shape(c, s) && (s.pc.SockRead? || s.pc.SockWrite?)
    ensures Untouched(s, LoopStep(c, s, e))
  {
    hide Shape, W.Ok, Blit, Take, Clip, W.Advance, W.Packet, W.Reframe, W.Result;
  }

  lemma InterNextUntouched(c: Config, s: State, f: Flag, go: bool, site: Site)
    requires Shape(c, s) && s.pc.Inter? && s.pc.site == site
    ensures Untouched(s, InterNext(c, s, f, go, site))
  {
    hide Shape, W.Ok, W.Result;
  }

  lemma InviteUntouched(c: Config, s: State, e: Event)
    requires Shape(c, s) && (s.pc.Invite? || s.pc.Switch?)
    ensures Untouched(s, ClosingStep(c, s, e))
  {
    hide Shape, W.Ok, Clip, W.Begin, W.Advance, W.Packet, W.Reframe, Over, WaitStep, InviteInterStep;
  }

  lemma ClosingUntouched(c: Config, s: State, e: Event)
    requires Shape(c, s) && !InLoop(s.pc) && !InWait(s.pc) && !s.pc.InviteInter?
    ensures Untouched(s, ClosingStep(c, s, e))
  {
    if s.pc.Invite? || s.pc.Switch? {
      InviteUntouched(c, s, e);
    } else {
      hide Shape, Over, WaitStep, InviteStep, InviteInterStep, SwitchStep;
    }
  }

  lemma WaitUntouched(c: Config, s: State, e: Event)
    requires Shape(c, s) && InWait(s.pc) && !s.pc.WaitTest?
    ensures Untouched(s, WaitStep(c, s, e))
  {
    hide Shape, Over, Drained;
  }

  lemma LowersOne(s: State, g: Flag, f: Flag)
    requires s.sig.Up(f) && f != g
    ensures Served(s, g).sig.Up(f) && Served(s, g).pc == s.pc
  {
  }

  lemma ServedShape(c: Config, s: State, g: Flag)
    requires Shape(c, s) && s.pc.Inter?
    ensures Shape(c, Served(s, g)) && Served(s, g).pc == s.pc
  {
    hide W.Ok;
  }

  lemma ClearPending(c: Config, s: State, f: Flag)
    requires Shape(c, s) && s.pc.Inter? && s.pc.phase.Clear? && s.sig.Up(f) && s.pc.f != f
    ensures var r := InterStep(c, s, Tick); r.sig.Up(f) && !Forgetful(r.pc, f)
  {
    var Inter(g, phase, go, site) := s.pc;
    LowersOne(s, g, f);
    ServedShape(c, s, g);
    hide Shape, InterNext, Served;
    InterNextUntouched(c, Served(s, g), g, go && !g.Alrm? && !g.Exit?, site);
  }

  lemma InterPending(c: Config, s: State, e: Event, f: Flag)
    requires Shape(c, s) && s.pc.Inter? && s.sig.Up(f) && !Forgetful(s.pc, f) && !Serves(s, e, f)
    ensures var r := InterStep(c, s, e); r.sig.Up(f) && !Forgetful(r.pc, f)
  {
    var Inter(g, phase, go, site) := s.pc;
    if e.Tick? && phase.Clear? {
      ClearPending(c, s, f);
    } else {
      hide Shape, InterNext;
      if e.Tick? && phase.Test? && !s.sig.Up(g) { InterNextUntouched(c, s, g, go, site); }
    }
  }

  lemma WaitPending(c: Config, s: State, e: Event, f: Flag)
    requires Shape(c, s) && Guarded(s) && s.pc.WaitTest?
    requires s.sig.Up(f) && !Forgetful(s.pc, f) && !Serves(s, e, f)
    ensures var r := WaitTestStep(c, s, e); r.sig.Up(f) && !Forgetful(r.pc, f)
  {
    hide Shape, Over;
  }

  lemma InvitePending(c: Config, s: State, f: Flag)
    requires Shape(c, s) && Guarded(s) && s.pc.InviteInter?
    requires s.sig.Up(f) && !Forgetful(s.pc, f) && !Serves(s, Tick, f)
    ensures var r := InviteInterStep(c, s); r.sig.Up(f) && !Forgetful(r.pc, f)
  {
    hide Shape, Over;
  }

  lemma LoopPending(c: Config, s: State, e: Event, f: Flag)
    requires Shape(c, s) && InLoop(s.pc)
    requires s.sig.Up(f) && !Forgetful(s.pc, f) && !Serves(s, e, f)
    ensures var r := LoopStep(c, s, e); r.sig.Up(f) && !Forgetful(r.pc, f)
  {
    hide Shape, LoopStep;
    if s.pc.Inter? {
      InterPending(c, s, e, f);
      LoopIsInter(c, s, e);
    } else if s.pc.PtsRead? || s.pc.PtsWrite? || s.pc.Flush? {
      PtsUntouched(c, s, e);
    } else if s.pc.SockRead? || s.pc.SockWrite? {
      SockUntouched(c, s, e);
    } else {
      PollUntouched(c, s, e);
    }
  }

  lemma LoopIsInter(c: Config, s: State, e: Event)
    requires Shape(c, s) && s.pc.Inter?
    ensures LoopStep(c, s, e) == InterStep(c, s, e)
  {
    hide InterStep, Shape;
  }

  lemma ClosingPending(c: Config, s: State, e: Event, f: Flag)
    requires Shape(c, s) && Guarded(s) && !InLoop(s.pc)
    requires s.sig.Up(f) && !Forgetful(s.pc, f) && !Serves(s, e, f)
    ensures var r := ClosingStep(c, s, e); r.sig.Up(f) && !Forgetful(r.pc, f)
  {
    hide Shape, Guarded, ClosingStep, Over;
    if s.pc.WaitTest? {
      WaitPending(c, s, e, f);
    } else if InWait(s.pc) {
      WaitUntouched(c, s, e);
    } else if s.pc.InviteInter? {
      if e.Tick? { InvitePending(c, s, f); }
    } else {
      ClosingUntouched(c, s, e);
    }
    ClosingIs(c, s, e);
  }

  lemma ClosingIs(c: Config, s: State, e: Event)
    requires Shape(c, s) && !InLoop(s.pc)
    ensures s.pc.WaitTest? ==> ClosingStep(c, s, e) == WaitTestStep(c, s, e)
    ensures InWait(s.pc) ==> ClosingStep(c, s, e) == WaitStep(c, s, e)
    ensures s.pc.InviteInter? ==> ClosingStep(c, s, e) == if e.Tick? then InviteInterStep(c, s) else s
  {
    hide WaitTestStep, InviteInterStep, Shape, Over;
  }

  lemma PendingStep(c: Config, s: State, e: Event, f: Flag)
    requires Shape(c, s) && Control(s) && s.sig.Up(f) && !Forgetful(s.pc, f) && !Serves(s, e, f)
    ensures var r := Step(c, s, e); r.sig.Up(f) && !Forgetful(r.pc, f)
  {
    hide Shape, Closing, Coded, Guarded, LoopStep, ClosingStep;
    if !Environment(e) {
      if InLoop(s.pc) { LoopPending(c, s, e, f); } else { ClosingPending(c, s, e, f); }
    }
  }

  lemma {:induction false} PendingUntilServed(c: Config, events: seq<Event>, states: seq<State>, i: nat, j: nat,
                                              f: Flag)
    requires Behaviour(c, events, states) && i < j < |states|
    requires Raises(states[i], events[i], f) && !Forgetful(states[i].pc, f)
    ensures ServedBetween(events, states, i, j, f) || (states[j].sig.Up(f) && !Forgetful(states[j].pc, f))
    decreases j
  {
    hide Behaviour, Shape, Control, Data, Step, Raises, Forgetful, Serves;
    T.Kept(c, events, states, j - 1);
    if j == i + 1 {
      RaisedUp(c, states[i], events[i], f);
      SamePlace(states[i].pc, states[j].pc, f);
    } else {
      PendingUntilServed(c, events, states, i, j - 1, f);
      if ServedBetween(events, states, i, j - 1, f) {
        var k :| i < k < j - 1 && Serves(states[k], events[k], f);
        assert ServedBetween(events, states, i, j, f);
      } else if Serves(states[j - 1], events[j - 1], f) {
        assert ServedBetween(events, states, i, j, f);
      } else {
        PendingStep(c, states[j - 1], events[j - 1], f);
      }
    }
  }

  lemma SamePlace(a: Pc, b: Pc, f: Flag)
    requires a == b
    ensures Forgetful(a, f) == Forgetful(b, f)
  {
  }

  /**
   No signal is lost, wherever the session is: it stays pending until it is served.  The one exception is a
   signal that arrives when the same flag has just been served and is about to be cleared.
   */
  lemma SignalServedOrPending(c: Config, events: seq<Event>, states: seq<State>, i: nat, j: nat, f: Flag)
    requires Behaviour(c, events, states) && i < j < |states|
    requires Raises(states[i], events[i], f)
    ensures states[j].sig.Up(f) || ServedBetween(events, states, i, j, f) || Forgetful(states[i].pc, f)
  {
    if !Forgetful(states[i].pc, f) {
      PendingUntilServed(c, events, states, i, j, f);
    }
  }

  lemma ForgottenStep(c: Config, s: State, f: Flag)
    requires Shape(c, s) && Forgetful(s.pc, f)
    ensures !Step(c, s, Tick).sig.Up(f) && !Serves(s, Tick, f)
  {
    hide Shape, W.Ok, W.Result;
  }

  /**
   When the main thread goes on after a signal, the signal is neither pending nor served exactly if it was
   SIGHUP after `readcfg` or SIGCHLD after `waitpid`, with the flag still to be cleared.
   */
  lemma SignalForgottenIff(c: Config, events: seq<Event>, states: seq<State>, k: nat, f: Flag)
    requires Behaviour(c, events, states) && k + 1 < |events|
    requires Raises(states[k], events[k], f) && events[k + 1] == Tick
    ensures !states[k + 2].sig.Up(f) && !ServedBetween(events, states, k, k + 2, f) <==> Forgetful(states[k].pc, f)
  {
    T.Kept(c, events, states, k);
    hide Behaviour, Shape, Step, Control, Data, Raises, Forgetful, Serves;
    SignalServedOrPending(c, events, states, k, k + 2, f);
    if Forgetful(states[k].pc, f) {
      T.Kept(c, events, states, k + 1);
      RaisedUp(c, states[k], events[k], f);
      SamePlace(states[k].pc, states[k + 1].pc, f);
      ForgottenStep(c, states[k + 1], f);
    }
  }
}
