/** What one iteration of a poll loop does, and what the events of a run say about the variables of the relay. */
module SessionIteration {
  import opened Common
  import opened Session
  import opened SessionControl
  import opened SessionFlow
  import F = FlushLearning
  import G = SessionSignals
  import K = SessionWakeups
  import N = SessionEnds
  import T = SessionTheorems
  import W = Writen

  // ---------------------------------------------------------------------------------------------
  // What an iteration performs.

  datatype Duty = ReadPipe | TestPoll | ReadPts | ReadSock | Decide

  predicate Answers(e: Event) { e.Got? || e.Refused? }

  predicate Performs(s: State, e: Event, duty: Duty) {
    match duty
    case ReadPipe => (s.pc.PipeRead? || s.pc.WaitPipe?) && Answers(e)
    case TestPoll => (s.pc.Check? || s.pc.WaitCheck?) && e.Tick?
    case ReadPts => s.pc.PtsRead? && Answers(e)
    case ReadSock => (s.pc.SockRead? || s.pc.WaitRead?) && Answers(e)
    case Decide => s.pc.Flush? && e.Tick?
  }

  /** How often the steps from state `i` to state `j` perform a duty. */
  function Times(events: seq<Event>, states: seq<State>, i: nat, j: nat, duty: Duty): nat
    requires i <= j <= |events| && j <= |states|
    decreases j
  {
    if i == j then 0 else Times(events, states, i, j - 1, duty) + One(Performs(states[j - 1], events[j - 1], duty))
  }

  function One(b: bool): nat { if b then 1 else 0 }

  datatype Tally = Tally(pipe: nat, test: nat, pts: nat, sock: nat, decide: nat)

  function Tallied(events: seq<Event>, states: seq<State>, i: nat, j: nat): Tally
    requires i <= j <= |events| && j <= |states|
  {
    Tally(Times(events, states, i, j, ReadPipe), Times(events, states, i, j, TestPoll),
          Times(events, states, i, j, ReadPts), Times(events, states, i, j, ReadSock),
          Times(events, states, i, j, Decide))
  }

  function Counted(t: Tally, s: State, e: Event): Tally {
    Tally(t.pipe + One(Performs(s, e, ReadPipe)), t.test + One(Performs(s, e, TestPoll)),
          t.pts + One(Performs(s, e, ReadPts)), t.sock + One(Performs(s, e, ReadSock)),
          t.decide + One(Performs(s, e, Decide)))
  }

  /** How far the relay has come in an iteration: which duties are behind it. */
  function Stage(c: Config, pc: Pc): nat {
    match pc
    case PipeRead => 0
    case Check => 1
    case PtsRead => 2
    case SockRead => 3
    case PtsWrite => 4
    case Flush => 4
    case SockWrite => if c.Batched() then 5 else 3
    case Inter(_, _, _, site) =>
      (match site
       case AtPoll => 0
       case AtPipe => 1
       case AtPtsRead => 3
       case AtSockRead => 4
       case AtPtsWrite => 4
       case AtSockWrite => if c.Batched() then 5 else 3)
    case _ => 5
  }

  /** What has been performed since the poll when the relay is at the place of `s`. */
  predicate OnCourse(c: Config, s: State, t: Tally) {
    var stage := Stage(c, s.pc);
    && t.pipe == (if stage < 1 then 0 else One(s.revents.pipe))
    && t.test == (if stage < 2 then 0 else 1)
    && t.pts == (if stage < 3 then 0 else One(s.revents.pts.inp))
    && t.sock == (if stage < 4 then 0 else One(s.revents.sock.inp))
    && t.decide == (if stage < 5 then 0 else 1)
    && (s.pc.PipeRead? ==> s.revents.pipe)
    && (s.pc.PtsRead? ==> s.revents.pts.inp)
    && (s.pc.SockRead? ==> s.revents.sock.inp)
  }

  predicate GoesOn(c: Config, s: State, e: Event, r: State, t: Tally) {
    InLoop(r.pc) ==> !r.pc.Polling? && r.revents == s.revents && OnCourse(c, r, Counted(t, s, e))
  }

  /** Where a step of the relay leads; `do_inter` returns to where it was called. */
  predicate Moves(c: Config, s: State, e: Event, r: State) {
    var afterPts := if s.revents.sock.inp then SockRead else Flush;
    var afterWrite := if c.Batched() then Head else afterPts;
    r.revents == s.revents &&
    match s.pc
    case PipeRead => if Answers(e) then r.pc.Inter? && r.pc.site.AtPipe? else r.pc == s.pc
    case Check => r.pc == if !e.Tick? then s.pc else if s.revents.pts.inp then PtsRead else afterPts
    case PtsRead =>
      if !Answers(e) then r.pc == s.pc
      else r.pc == afterPts || (r.pc.Inter? && r.pc.site.AtPtsRead?) || (r.pc.SockWrite? && !c.Batched())
    case SockRead =>
      if !Answers(e) then r.pc == s.pc
      else r.pc.Flush? || r.pc.PtsWrite? || (r.pc.Inter? && r.pc.site.AtSockRead?)
    case PtsWrite => r.pc.PtsWrite? || r.pc.Flush? || (r.pc.Inter? && r.pc.site.AtPtsWrite?)
    case Flush => if !e.Tick? then r.pc == s.pc else r.pc.Head? || (r.pc.SockWrite? && c.Batched())
    case SockWrite => r.pc.SockWrite? || r.pc == afterWrite || (r.pc.Inter? && r.pc.site.AtSockWrite?)
    case Inter(_, _, _, site) =>
      if r.pc.Inter? then r.pc.site == site
      else (match site
            case AtPoll => r.pc == if s.revents.pipe then PipeRead else Check
            case AtPipe => r.pc == Check
            case AtPtsRead => r.pc == afterPts
            case AtSockRead => r.pc == Flush
            case AtPtsWrite => r.pc == PtsWrite
            case AtSockWrite => r.pc.SockWrite? || r.pc == afterWrite)
    case _ => false
  }

  lemma PollMoves(c: Config, s: State, e: Event)
    requires Shape(c, s) && (s.pc.PipeRead? || s.pc.Check?)
    ensures var r := LoopStep(c, s, e); r.pc.Left? || Moves(c, s, e, r)
  {
    hide Shape, Blit, Drained;
  }

  lemma PtsMoves(c: Config, s: State, e: Event)
    requires Shape(c, s) && (s.pc.PtsRead? || s.pc.Flush?)
    ensures Moves(c, s, e, LoopStep(c, s, e))
  {
    hide Shape, Blit, Take, Threshold, W.Begin;
  }

  lemma SockMoves(c: Config, s: State, e: Event)
    requires Shape(c, s) && (s.pc.SockRead? || s.pc.PtsWrite?)
    ensures Moves(c, s, e, LoopStep(c, s, e))
  {
    hide Shape, Blit, Take, Clip;
  }

  lemma WriteMoves(c: Config, s: State, e: Event)
    requires Shape(c, s) && s.pc.SockWrite?
    ensures Moves(c, s, e, LoopStep(c, s, e))
  {
    hide Shape, W.Ok, Clip, W.Advance, W.Packet, W.Reframe, W.Result;
  }

  lemma InterNextMoves(c: Config, s: State, f: Flag, go: bool, e: Event)
    requires Shape(c, s) && s.pc.Inter?
    ensures Moves(c, s, e, InterNext(c, s, f, go, s.pc.site))
  {
    hide Shape, W.Ok, W.Result;
  }

  lemma InterMoves(c: Config, s: State, e: Event)
    requires Shape(c, s) && s.pc.Inter?
    ensures Moves(c, s, e, InterStep(c, s, e))
  {
    var Inter(f, phase, go, site) := s.pc;
    G.ServedShape(c, s, f);
    K.ServedKeepsRevents(s, f);
    hide Shape, InterNext, Served;
    if e.Tick? && phase.Clear? {
      InterNextMoves(c, Served(s, f), f, go && !f.Alrm? && !f.Exit?, e);
    } else if e.Tick? && phase.Test? && !s.sig.Up(f) {
      InterNextMoves(c, s, f, go, e);
    }
  }

  lemma LoopMoves(c: Config, s: State, e: Event)
    requires Shape(c, s) && InLoop(s.pc) && !s.pc.Head? && !s.pc.Polling?
    ensures var r := LoopStep(c, s, e); r.pc.Left? || Moves(c, s, e, r)
  {
    hide Shape, LoopStep, Moves;
    if s.pc.Inter? {
      InterMoves(c, s, e);
      G.LoopIsInter(c, s, e);
    } else if s.pc.SockWrite? {
      WriteMoves(c, s, e);
    } else if s.pc.SockRead? || s.pc.PtsWrite? {
      SockMoves(c, s, e);
    } else if s.pc.PtsRead? || s.pc.Flush? {
      PtsMoves(c, s, e);
    } else {
      PollMoves(c, s, e);
    }
  }

  lemma MovesOnCourse(c: Config, s: State, e: Event, r: State, t: Tally)
    requires Moves(c, s, e, r) && OnCourse(c, s, t)
    ensures GoesOn(c, s, e, r, t)
  {
    hide *;
    if s.pc.Inter? {
      InterOnCourse(c, s, e, r, t);
    } else if s.pc.PtsRead? || s.pc.Flush? || s.pc.SockWrite? {
      PtsOnCourse(c, s, e, r, t);
    } else {
      SockOnCourse(c, s, e, r, t);
    }
  }

  lemma InterOnCourse(c: Config, s: State, e: Event, r: State, t: Tally)
    requires s.pc.Inter? && Moves(c, s, e, r) && OnCourse(c, s, t)
    ensures GoesOn(c, s, e, r, t)
  {
  }

  lemma PtsOnCourse(c: Config, s: State, e: Event, r: State, t: Tally)
    requires (s.pc.PtsRead? || s.pc.Flush? || s.pc.SockWrite?) && Moves(c, s, e, r) && OnCourse(c, s, t)
    ensures GoesOn(c, s, e, r, t)
  {
  }

  lemma SockOnCourse(c: Config, s: State, e: Event, r: State, t: Tally)
    requires !s.pc.Inter? && !s.pc.PtsRead? && !s.pc.Flush? && !s.pc.SockWrite?
    requires Moves(c, s, e, r) && OnCourse(c, s, t)
    ensures GoesOn(c, s, e, r, t)
  {
  }

  lemma CourseStep(c: Config, s: State, e: Event, t: Tally)
    requires Shape(c, s) && InLoop(s.pc) && !s.pc.Head? && !s.pc.Polling? && OnCourse(c, s, t)
    ensures GoesOn(c, s, e, Step(c, s, e), t)
  {
    if Environment(e) {
      EnvironmentCourse(c, s, e, t);
    } else {
      LoopMoves(c, s, e);
      StepIsLoop(c, s, e);
      hide *;
      var r := LoopStep(c, s, e);
      if r.pc.Left? { LeftCourse(c, s, e, r, t); } else { MovesOnCourse(c, s, e, r, t); }
    }
  }

  lemma StepIsLoop(c: Config, s: State, e: Event)
    requires Shape(c, s) && InLoop(s.pc) && !Environment(e)
    ensures Step(c, s, e) == LoopStep(c, s, e)
  {
    hide Shape, LoopStep, ClosingStep;
  }

  lemma EnvironmentCourse(c: Config, s: State, e: Event, t: Tally)
    requires Shape(c, s) && Environment(e) && !s.pc.Polling? && OnCourse(c, s, t)
    ensures GoesOn(c, s, e, Step(c, s, e), t)
  {
    hide Shape, LoopStep, ClosingStep, Raise;
  }

  lemma LeftCourse(c: Config, s: State, e: Event, r: State, t: Tally)
    requires r.pc.Left?
    ensures GoesOn(c, s, e, r, t)
  {
    hide OnCourse;
  }

  lemma CourseStarts(c: Config, s: State, e: Event)
    requires Shape(c, s) && s.pc.Polling? && e.Poll? && !e.code.Broken?
    ensures var r := Step(c, s, e);
            GoesOn(c, s.(revents := e.revents), e, r, Tally(0, 0, 0, 0, 0))
            && Counted(Tally(0, 0, 0, 0, 0), s, e) == Counted(Tally(0, 0, 0, 0, 0), s.(revents := e.revents), e)
  {
    hide Shape;
  }

  /** The iteration that begins at `i` goes on at least up to `j`. */
  ghost predicate Within(states: seq<State>, i: nat, j: nat)
    requires j < |states|
  {
    i < j && InLoop(states[j].pc) && forall k :: i < k < j ==> !states[k].pc.Head?
  }

  lemma WithinBefore(states: seq<State>, i: nat, j: nat)
    requires i < j - 1 && j < |states| && Within(states, i, j) && InLoop(states[j - 1].pc)
    ensures Within(states, i, j - 1) && !states[j - 1].pc.Head?
  {
    hide InLoop;
  }

  lemma {:induction false} CourseFollowed(c: Config, events: seq<Event>, states: seq<State>, i: nat, j: nat)
    requires Behaviour(c, events, states) && |states| == |events| + 1 && i < j < |states| && Within(states, i, j)
    requires states[i].pc.Polling? && events[i].Poll? && !events[i].code.Broken?
    ensures OnCourse(c, states[j], Tallied(events, states, i, j))
    ensures states[j].revents == events[i].revents && !states[j].pc.Polling?
    decreases j
  {
    hide *;
    T.Kept(c, events, states, j - 1);
    WithinEnds(states, i, j);
    TalliedNext(events, states, i, j);
    if j == i + 1 {
      CourseStarts(c, states[i], events[i]);
      NothingTallied(events, states, i);
      CourseMeans(c, states[i].(revents := events[i].revents), events[i], states[j], Tally(0, 0, 0, 0, 0));
    } else {
      F.StepGrows(c, states[j - 1], events[j - 1]);
      WithinBefore(states, i, j);
      CourseFollowed(c, events, states, i, j - 1);
      CourseStep(c, states[j - 1], events[j - 1], Tallied(events, states, i, j - 1));
      CourseMeans(c, states[j - 1], events[j - 1], states[j], Tallied(events, states, i, j - 1));
    }
  }

  lemma WithinEnds(states: seq<State>, i: nat, j: nat)
    requires j < |states| && Within(states, i, j)
    ensures InLoop(states[j].pc)
  {
    hide InLoop;
  }

  lemma CourseMeans(c: Config, s: State, e: Event, r: State, t: Tally)
    requires GoesOn(c, s, e, r, t) && InLoop(r.pc)
    ensures !r.pc.Polling? && r.revents == s.revents && OnCourse(c, r, Counted(t, s, e))
  {
    hide InLoop, OnCourse;
  }

  lemma NothingTallied(events: seq<Event>, states: seq<State>, i: nat)
    requires i <= |events| && i <= |states|
    ensures Tallied(events, states, i, i) == Tally(0, 0, 0, 0, 0)
  {
  }

  lemma TalliedNext(events: seq<Event>, states: seq<State>, i: nat, j: nat)
    requires i < j <= |events| && j <= |states|
    ensures Tallied(events, states, i, j) == Counted(Tallied(events, states, i, j - 1), states[j - 1], events[j - 1])
  {
    hide Performs;
  }

  /**
   An iteration of the relay that comes to its end reads the self-pipe, the pts and the socket exactly once each
   if the poll reported input there and not otherwise, and tests the poll and decides on a flush exactly once.
   */
  lemma IterationPerforms(c: Config, events: seq<Event>, states: seq<State>, i: nat, j: nat)
    requires Behaviour(c, events, states) && i < j < |states| && Within(states, i, j) && states[j].pc.Head?
    requires states[i].pc.Polling? && events[i].Poll? && !events[i].code.Broken?
    ensures |states| == |events| + 1
    ensures var revents := events[i].revents;
            && Times(events, states, i, j, ReadPipe) == One(revents.pipe)
            && Times(events, states, i, j, TestPoll) == 1
            && Times(events, states, i, j, ReadPts) == One(revents.pts.inp)
            && Times(events, states, i, j, ReadSock) == One(revents.sock.inp)
            && Times(events, states, i, j, Decide) == 1
  {
    T.Kept(c, events, states, j);
    hide Behaviour, Within, Times, Step, Shape, Control, Data;
    CourseFollowed(c, events, states, i, j);
  }

  // ---------------------------------------------------------------------------------------------
  // The iterations of the closing waits.

  /** Past the wait `w`. */
  predicate Gone(pc: Pc, w: Waiter) {
    || pc.Finished? || pc.Exited? || pc == Disarm(w)
    || (w.Net? && (pc.CloseSock? || pc.ChildCheck? || (InWait(pc) && pc.w.Child?)))
  }

  predicate WaitOnCourse(s: State, pipe: nat, sock: nat, w: Waiter) {
    var p := One(s.revents.pipe);
    match s.pc
    case WaitPipe(v) => v == w && pipe == 0 && sock == 0 && s.revents.pipe
    case WaitTest(v, _, _) => v == w && pipe == p && sock == 0
    case WaitCheck(v) => v == w && pipe == p && sock == 0
    case WaitRead(v) => v == w && pipe == p && sock == 0 && w.Net? && s.revents.sock.inp
    case WaitHead(v) => Gone(s.pc, w) || (v == w && pipe == p && sock == One(w.Net? && s.revents.sock.inp))
    case _ => Gone(s.pc, w)
  }

  predicate WaitGoesOn(s: State, e: Event, r: State, pipe: nat, sock: nat, w: Waiter) {
    || Gone(r.pc, w)
    || (r.revents == s.revents
        && WaitOnCourse(r, pipe + One(Performs(s, e, ReadPipe)), sock + One(Performs(s, e, ReadSock)), w))
  }

  lemma WaitCourse(c: Config, s: State, e: Event, pipe: nat, sock: nat, w: Waiter)
    requires Shape(c, s) && Guarded(s) && InWait(s.pc) && !s.pc.WaitTest? && !s.pc.WaitHead? && !s.pc.WaitPoll?
    requires WaitOnCourse(s, pipe, sock, w) && !Gone(s.pc, w)
    ensures WaitGoesOn(s, e, WaitStep(c, s, e), pipe, sock, w)
  {
    hide Shape, Guarded, Over, Drained;
  }

  lemma WaitTestCourse(c: Config, s: State, e: Event, pipe: nat, sock: nat, w: Waiter)
    requires Shape(c, s) && s.pc.WaitTest? && WaitOnCourse(s, pipe, sock, w) && !Gone(s.pc, w)
    ensures WaitGoesOn(s, e, WaitTestStep(c, s, e), pipe, sock, w)
  {
    hide Shape, Over, Lower;
  }

  lemma GoneStays(c: Config, s: State, e: Event, w: Waiter)
    requires Shape(c, s) && Gone(s.pc, w)
    ensures Gone(Step(c, s, e).pc, w)
  {
    if Environment(e) {
      hide Shape, LoopStep, ClosingStep;
    } else {
      hide Shape, Over, LoopStep, WaitTestStep, Drained, InviteStep, InviteInterStep, SwitchStep;
      if s.pc.WaitTest? { G.ClosingIs(c, s, e); K.WaitTestTimed(c, s, e); WaitTestKeeps(c, s, e); }
    }
  }

  lemma WaitTestKeeps(c: Config, s: State, e: Event)
    requires Shape(c, s) && s.pc.WaitTest?
    ensures WaitTestStep(c, s, e).pc.w == s.pc.w
  {
    hide Shape, Over, Lower;
  }

  lemma WaitCourseStep(c: Config, s: State, e: Event, pipe: nat, sock: nat, w: Waiter)
    requires Shape(c, s) && Guarded(s) && WaitOnCourse(s, pipe, sock, w) && !Gone(s.pc, w) && !s.pc.WaitHead?
    ensures WaitGoesOn(s, e, Step(c, s, e), pipe, sock, w)
  {
    if Environment(e) {
      hide Shape, Guarded, LoopStep, ClosingStep;
    } else {
      OnCourseWaits(s, pipe, sock, w);
      G.ClosingIs(c, s, e);
      hide Shape, Guarded, WaitOnCourse, WaitGoesOn, LoopStep, ClosingStep, WaitStep, WaitTestStep, Gone;
      if s.pc.WaitTest? { WaitTestCourse(c, s, e, pipe, sock, w); } else { WaitCourse(c, s, e, pipe, sock, w); }
    }
  }

  lemma OnCourseWaits(s: State, pipe: nat, sock: nat, w: Waiter)
    requires WaitOnCourse(s, pipe, sock, w) && !Gone(s.pc, w)
    ensures InWait(s.pc) && !s.pc.WaitPoll? && !InLoop(s.pc)
  {
  }

  /** The poll of a closing wait returns. */
  predicate WaitBegins(s: State, e: Event, w: Waiter) { s.pc == WaitPoll(w) && e.Poll? }

  lemma WaitCourseStarts(c: Config, s: State, e: Event, w: Waiter)
    requires Shape(c, s) && WaitBegins(s, e, w)
    ensures WaitGoesOn(s.(revents := e.revents), e, Step(c, s, e), 0, 0, w)
  {
    hide Shape, Over;
  }

  /** Between two visits to the head of a closing wait. */
  ghost predicate WaitsWithin(states: seq<State>, i: nat, j: nat)
    requires j < |states|
  {
    forall k :: i < k < j ==> !states[k].pc.WaitHead?
  }

  lemma {:induction false} WaitFollowed(c: Config, events: seq<Event>, states: seq<State>, i: nat, j: nat, w: Waiter)
    requires Behaviour(c, events, states) && |states| == |events| + 1 && i < j < |states| && WaitsWithin(states, i, j)
    requires WaitBegins(states[i], events[i], w)
    ensures Gone(states[j].pc, w)
         || (states[j].revents == events[i].revents
             && WaitOnCourse(states[j], Times(events, states, i, j, ReadPipe),
                             Times(events, states, i, j, ReadSock), w))
    decreases j
  {
    hide *;
    T.Kept(c, events, states, j - 1);
    TimesNext(events, states, i, j);
    if j == i + 1 {
      NothingTimes(events, states, i);
      WaitCourseStarts(c, states[i], events[i], w);
      WaitStartMeans(states[i], events[i], states[j], w);
    } else {
      WaitsBefore(states, i, j);
      WaitFollowed(c, events, states, i, j - 1, w);
      if Gone(states[j - 1].pc, w) {
        GoneStays(c, states[j - 1], events[j - 1], w);
      } else {
        K.ControlGuards(states[j - 1]);
        var pipe, sock := Times(events, states, i, j - 1, ReadPipe), Times(events, states, i, j - 1, ReadSock);
        WaitCourseStep(c, states[j - 1], events[j - 1], pipe, sock, w);
        WaitMeans(states[j - 1], events[j - 1], states[j], pipe, sock, w);
      }
    }
  }

  lemma WaitMeans(s: State, e: Event, r: State, pipe: nat, sock: nat, w: Waiter)
    requires WaitGoesOn(s, e, r, pipe, sock, w)
    ensures Gone(r.pc, w)
         || (r.revents == s.revents
             && WaitOnCourse(r, pipe + One(Performs(s, e, ReadPipe)), sock + One(Performs(s, e, ReadSock)), w))
  {
    hide Gone, WaitOnCourse, Performs;
  }

  lemma WaitStartMeans(s: State, e: Event, r: State, w: Waiter)
    requires WaitBegins(s, e, w) && WaitGoesOn(s.(revents := e.revents), e, r, 0, 0, w)
    ensures Gone(r.pc, w)
         || (r.revents == e.revents
             && WaitOnCourse(r, One(Performs(s, e, ReadPipe)), One(Performs(s, e, ReadSock)), w))
  {
    hide Gone, WaitOnCourse;
  }

  lemma WaitsBefore(states: seq<State>, i: nat, j: nat)
    requires i < j - 1 && j < |states| && WaitsWithin(states, i, j)
    ensures WaitsWithin(states, i, j - 1) && !states[j - 1].pc.WaitHead?
  {
  }

  lemma NothingTimes(events: seq<Event>, states: seq<State>, i: nat)
    requires i <= |events| && i <= |states|
    ensures Times(events, states, i, i, ReadPipe) == 0 && Times(events, states, i, i, ReadSock) == 0
  {
  }

  lemma TimesNext(events: seq<Event>, states: seq<State>, i: nat, j: nat)
    requires i < j <= |events| && j <= |states|
    ensures Times(events, states, i, j, ReadPipe)
         == Times(events, states, i, j - 1, ReadPipe) + One(Performs(states[j - 1], events[j - 1], ReadPipe))
    ensures Times(events, states, i, j, ReadSock)
         == Times(events, states, i, j - 1, ReadSock) + One(Performs(states[j - 1], events[j - 1], ReadSock))
  {
    hide Performs;
  }

  /**
   Each turn of a closing wait reads the self-pipe exactly if its poll reported it; the wait for the circuit
   reads the socket exactly if the poll reported input on it, and the wait for the child never does.
   */
  lemma WaitTurnPerforms(c: Config, events: seq<Event>, states: seq<State>, i: nat, j: nat, w: Waiter)
    requires Behaviour(c, events, states) && i < j < |states| && WaitsWithin(states, i, j)
    requires i < |events| && WaitBegins(states[i], events[i], w) && states[j].pc == WaitHead(w)
    ensures |states| == |events| + 1
    ensures var revents := events[i].revents;
            && Times(events, states, i, j, ReadPipe) == One(revents.pipe)
            && Times(events, states, i, j, ReadSock) == One(w.Net? && revents.sock.inp)
  {
    T.Kept(c, events, states, j);
    hide Behaviour, WaitsWithin, Times, Step, Shape, Control, Data;
    WaitFollowed(c, events, states, i, j, w);
  }
}
