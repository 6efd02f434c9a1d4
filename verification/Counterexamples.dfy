/** Runs at the inputs where a session does not do what one might expect of it. */
module Counterexamples {
  import opened Common
  import opened Session
  import opened SessionControl
  import opened SessionFlow
  import G = SessionSignals
  import T = SessionTheorems
  import L = FlushLearning
  import U = SessionWakeups
  import W = Writen

  /** The state after some events. */
  function After(c: Config, s: State, events: seq<Event>): (r: State)
    requires Shape(c, s)
    ensures Shape(c, r)
  {
    if events == [] then s
    else Step(c, After(c, s, events[..|events| - 1]), events[|events| - 1])
  }

  ghost predicate Reaches(c: Config, s: State, r: State)
    requires Shape(c, s)
  {
    exists events :: After(c, s, events) == r
  }

  lemma ReachSelf(c: Config, s: State)
    requires Shape(c, s)
    ensures Reaches(c, s, s)
  {
    assert After(c, s, []) == s;
  }

  lemma Onward(c: Config, s: State, r: State, e: Event)
    requires Shape(c, s) && Shape(c, r) && Reaches(c, s, r)
    ensures Reaches(c, s, Step(c, r, e))
  {
    hide Shape, Step;
    var events :| After(c, s, events) == r;
    assert (events + [e])[..|events|] == events;
    assert After(c, s, events + [e]) == Step(c, r, e);
  }

  lemma {:induction false} RunAfter(c: Config, before: seq<Event>, events: seq<Event>)
    requires c.Valid()
    ensures Run(c, before + events) == After(c, Run(c, before), events)
  {
    hide Shape, Step;
    if events == [] {
      assert before + events == before;
    } else {
      var k := |events| - 1;
      RunAfter(c, before, events[..k]);
      assert before + events == before + events[..k] + [events[k]];
      RunSnoc(c, before + events[..k], events[k]);
    }
  }

  lemma EventsTo(c: Config, s: State, r: State) returns (events: seq<Event>)
    requires Shape(c, s) && Reaches(c, s, r)
    ensures After(c, s, events) == r
  {
    var es :| After(c, s, es) == r;
    events := es;
  }

  lemma FromStart(c: Config, events: seq<Event>)
    requires c.Valid()
    ensures Run(c, events) == After(c, Init(c), events)
  {
    hide Shape, Step;
    RunAfter(c, [], events);
    assert [] + events == events && Run(c, []) == Init(c);
  }

  lemma Lengths(c: Config, events: seq<Event>, states: seq<State>)
    requires Behaviour(c, events, states)
    ensures |states| == |events| + 1
  {
  }

  /** A reachable state has a behaviour that ends in it. */
  lemma ReachedBy(c: Config, s: State) returns (events: seq<Event>, states: seq<State>)
    requires c.Valid() && Reaches(c, Init(c), s)
    ensures Behaviour(c, events, states) && states[|events|] == s
  {
    hide *;
    events := EventsTo(c, Init(c), s);
    FromStart(c, events);
    states := RunBehaves(c, events);
  }

  const READABLE := Revents(true, false, false, false)

  /** The first poll, and the way to what it reports. */
  lemma FirstPoll(c: Config, revents: Polled)
    requires c.Valid() && !revents.pipe
    ensures var s := Init(c).(timers := Timers(false, WatchDog), revents := revents, pc := Check);
            Shape(c, s) && Reaches(c, Init(c), s)
  {
    var s := Init(c);
    ReachSelf(c, s);
    Onward(c, s, s, Tick);
    Onward(c, s, Step(c, s, Tick), Poll(Ready, revents));
    hide After;
  }

  // ---------------------------------------------------------------------------------------------
  // A data packet with a stale Q byte.

  lemma ImmediateRead(c: Config, s: State, x: byte)
    requires Shape(c, s) && s.pc.Check? && s.revents == Polled(NO_EVENTS, READABLE, false) && !c.Batched()
    requires c.bufferSize >= 1
    ensures var r := Step(c, Step(c, s, Tick), Got([x], false));
            && r.pc.SockWrite? && r.h.sent == s.h.sent && r.b.buf == Blit(s.b.buf, 1, [x])
            && r.cur == W.Begin(r.b.buf, 2)
  {
    hide SockReadStep, PtsWriteStep, FlushStep, SockWriteStep, InterStep, PipeStep, ClosingStep, PollStep, Blit;
    assert Take([x], c.bufferSize) == [x];
  }

  lemma WholePacket(c: Config, s: State)
    requires Shape(c, s) && s.pc.SockWrite? && !c.Batched() && s.cur == W.Begin(s.b.buf, 2)
    ensures Step(c, s, Wrote(2)).h.sent == s.h.sent + [s.b.buf[..2]]
  {
    hide SockReadStep, PtsWriteStep, FlushStep, PtsReadStep, InterStep, PipeStep, ClosingStep, PollStep;
    hide W.Reframe;
    assert s.b.buf[0..2] == s.b.buf[..2];
  }

  /** In immediate mode whatever `malloc` left in the first cell of the buffer goes out as the Q byte. */
  lemma StaleQByteIsSent(c: Config) returns (events: seq<Event>, states: seq<State>)
    requires c.Valid() && !c.Batched() && c.bufferSize >= 1
    ensures Behaviour(c, events, states) && states[|events|].h.sent == [[c.bufd[0], 65]]
  {
    hide Step, Run, Behaviour, After;
    var revents := Polled(NO_EVENTS, READABLE, false);
    FirstPoll(c, revents);
    var s := Init(c).(timers := Timers(false, WatchDog), revents := revents, pc := Check);
    Onward(c, Init(c), s, Tick);
    Onward(c, Init(c), Step(c, s, Tick), Got([65], false));
    ImmediateRead(c, s, 65);
    var r := Step(c, Step(c, s, Tick), Got([65], false));
    WholePacket(c, r);
    assert r.b.buf[..2] == [c.bufd[0], 65];
    Onward(c, Init(c), r, Wrote(2));
    events, states := ReachedBy(c, Step(c, r, Wrote(2)));
  }

  // ---------------------------------------------------------------------------------------------
  // Small batches.

  /** At the first poll data is reported on the pts. */
  function AtFirstData(c: Config): State
    requires c.Valid()
  {
    Init(c).(timers := Timers(false, WatchDog), revents := Polled(NO_EVENTS, READABLE, false), pc := Check)
  }

  /** The configurations in which a batch of one byte waits. */
  predicate Patient(c: Config) { c.Batched() && c.bufferSize >= 2 && c.minLength >= 2 }

  /** One byte is in the batch, and the read timer runs. */
  predicate OneByteWaits(c: Config, s: State) {
    && s.done == 0 && s.timers.read && s.sig == c.signals && s.inb.frames == [] && s.h.sent == [] && s.h.read == [65]
    && s.b.total == 1 && s.b.free == c.bufferSize - 1 && s.b.lastRead == 1 && s.b.minlimit >= 2
    && !s.b.timerEx && !s.b.limitEx && !s.b.lastWs && !s.b.raised
  }

  lemma OneByteRead(c: Config)
    requires c.Valid() && Patient(c)
    ensures var r := Step(c, Step(c, AtFirstData(c), Tick), Got([65], false)); r.pc.Flush? && OneByteWaits(c, r)
  {
    hide SockReadStep, PtsWriteStep, FlushStep, SockWriteStep, InterStep, PipeStep, ClosingStep, PollStep, Blit;
    assert Take([65], c.bufferSize) == [65] && [] + [65] == [65 as byte];
  }

  /** The loop goes on with the byte in the batch. */
  lemma NothingFlushed(c: Config, s: State)
    requires Shape(c, s) && c.Batched() && s.pc.Flush? && OneByteWaits(c, s)
    ensures var r := Step(c, Step(c, s, Tick), Tick); r.pc.Polling? && OneByteWaits(c, r)
  {
    hide PtsReadStep, SockReadStep, PtsWriteStep, SockWriteStep, InterStep, PipeStep, ClosingStep, Flushing;
  }

  lemma OneByteAtPoll(c: Config) returns (s: State)
    requires c.Valid() && Patient(c)
    ensures Shape(c, s) && Reaches(c, Init(c), s) && s.pc.Polling? && OneByteWaits(c, s)
  {
    hide Step, After, Reaches, Shape, OneByteWaits;
    var i, a := Init(c), AtFirstData(c);
    FirstPoll(c, Polled(NO_EVENTS, READABLE, false));
    OneByteRead(c);
    Onward(c, i, a, Tick);
    Onward(c, i, Step(c, a, Tick), Got([65], false));
    var f := Step(c, Step(c, a, Tick), Got([65], false));
    NothingFlushed(c, f);
    Onward(c, i, f, Tick);
    Onward(c, i, Step(c, f, Tick), Tick);
    s := Step(c, Step(c, f, Tick), Tick);
  }

  /** The pts ends: with a byte in the batch this is an end of file like any other. */
  lemma EndOfFile(c: Config, s: State)
    requires Shape(c, s) && c.Batched() && c.bufferSize >= 2 && s.pc.Polling? && OneByteWaits(c, s)
    ensures var p := Step(c, s, Poll(Ready, Polled(NO_EVENTS, READABLE, false)));
            var r := Step(c, Step(c, p, Tick), Got([], false));
            r == s.(revents := r.revents, done := 6, pc := Flush)
  {
    hide SockReadStep, PtsWriteStep, FlushStep, SockWriteStep, InterStep, PipeStep, ClosingStep;
    assert s.h.read + [] == s.h.read;
  }

  lemma LeavesWithBatch(c: Config, s: State)
    requires Shape(c, s) && s.pc.Flush? && s.done == 6 && OneByteWaits(c, s.(done := 0))
    ensures var r := Step(c, Step(c, s, Tick), Tick); r == s.(pc := Left, h := s.h.(code := 6))
  {
    hide PtsReadStep, SockReadStep, PtsWriteStep, SockWriteStep, InterStep, PipeStep, ClosingStep, Flushing;
  }

  /** The login side closes the pts while a byte waits for its timer: the session ends without sending it. */
  lemma SmallBatchIsLost(c: Config) returns (events: seq<Event>, states: seq<State>)
    requires c.Valid() && Patient(c)
    ensures Behaviour(c, events, states)
    ensures var s := states[|events|];
            s.pc.Left? && s.h.code == 6 && s.b.free > 0 && s.b.total == 1 && s.h.read == [65] && s.h.sent == []
  {
    hide Step, Behaviour, After, Reaches, Shape;
    var revents := Polled(NO_EVENTS, READABLE, false);
    var i := Init(c);
    var s := OneByteAtPoll(c);
    EndOfFile(c, s);
    Onward(c, i, s, Poll(Ready, revents));
    Onward(c, i, Step(c, s, Poll(Ready, revents)), Tick);
    Onward(c, i, Step(c, Step(c, s, Poll(Ready, revents)), Tick), Got([], false));
    var f := Step(c, Step(c, Step(c, s, Poll(Ready, revents)), Tick), Got([], false));
    LeavesWithBatch(c, f);
    Onward(c, i, f, Tick);
    Onward(c, i, Step(c, f, Tick), Tick);
    events, states := ReachedBy(c, Step(c, Step(c, f, Tick), Tick));
  }

  // ---------------------------------------------------------------------------------------------
  // An inbound payload delivered twice in part.

  const QUIET := Signals(false, false, false, false, false, 0)

  /** `do_inter` with no flag up before Flag_Chld. */
  lemma InterPasses(c: Config, start: State, s: State, site: Site)
    requires Shape(c, start) && Shape(c, s) && Reaches(c, start, s)
    requires s.pc == Inter(Hup, Test, true, site) && !s.sig.hup && !s.sig.alrm && !s.sig.exit && !s.sig.idle
    ensures var r := s.(pc := Inter(Chld, Test, true, site)); Shape(c, r) && Reaches(c, start, r)
  {
    hide Reaches, W.Ok, InterReturn;
    var a := s.(pc := Inter(Alrm, Test, true, site));
    var x := s.(pc := Inter(Exit, Test, true, site));
    var i := s.(pc := Inter(Idle, Test, true, site));
    Onward(c, start, s, Tick);
    assert Step(c, s, Tick) == a;
    Onward(c, start, a, Tick);
    assert Step(c, a, Tick) == x;
    Onward(c, start, x, Tick);
    assert Step(c, x, Tick) == i;
    Onward(c, start, i, Tick);
    assert Step(c, i, Tick) == s.(pc := Inter(Chld, Test, true, site));
  }

  lemma InterEnds(c: Config, s: State)
    requires Shape(c, s) && s.pc == Inter(Chld, Test, true, AtPtsWrite) && !s.sig.chld
    ensures Step(c, s, Tick) == s.(pc := PtsWrite)
  {
  }

  /** A frame of two bytes arrives. */
  lemma FrameArrives(c: Config, s: State)
    requires Shape(c, s) && s.pc.Check? && s.revents == Polled(READABLE, NO_EVENTS, false) && c.bufferSize >= 2
    ensures var r := Step(c, Step(c, s, Tick), Got([0, 65, 66], false));
            && r.pc.PtsWrite? && r.sig == s.sig
            && r.inb == Inbound(r.inb.buf, 2, 0, s.inb.frames + [[65, 66]], [], s.inb.tries, s.inb.out)
            && r.inb.buf[1..3] == [65, 66]
  {
    hide PtsReadStep, PtsWriteStep, FlushStep, SockWriteStep, InterStep, PipeStep, ClosingStep, PollStep;
    assert Take([0, 65, 66], c.bufferSize + 1) == [0, 65, 66];
    assert [0, 65, 66][1..] == [65, 66];
  }

  lemma FirstByteOnly(c: Config, s: State)
    requires Shape(c, s) && s.pc.PtsWrite? && s.inb.n == 2 && s.inb.pos == 0
    ensures var r := Step(c, Step(c, s, Wrote(1)), Refused(true));
            && r.pc == Inter(Hup, Test, true, AtPtsWrite) && r.sig == s.sig
            && r.inb == s.inb.(pos := 0, failed := s.inb.failed + [1], out := s.inb.out + s.inb.buf[1..2])
  {
    hide PtsReadStep, SockReadStep, FlushStep, SockWriteStep, InterStep, PipeStep, ClosingStep, PollStep;
  }

  lemma BothBytes(c: Config, s: State)
    requires Shape(c, s) && s.pc.PtsWrite? && s.inb.n == 2 && s.inb.pos == 0
    ensures var r := Step(c, s, Wrote(2));
            r.pc.Flush? && r.inb.frames == s.inb.frames && r.inb.out == s.inb.out + s.inb.buf[1..3]
  {
    hide PtsReadStep, SockReadStep, FlushStep, SockWriteStep, InterStep, PipeStep, ClosingStep, PollStep;
  }

  /** A write to the pts that is interrupted after its first byte makes the pts receive that byte twice. */
  lemma RetryDuplicates(c: Config) returns (events: seq<Event>, states: seq<State>)
    requires c.Valid() && c.bufferSize >= 2 && c.signals == QUIET
    ensures Behaviour(c, events, states)
    ensures var s := states[|events|]; s.pc.Flush? && s.inb.frames == [[65, 66]] && s.inb.out == [65, 65, 66]
  {
    hide Step, Run, Behaviour, After, Reaches;
    var revents := Polled(READABLE, NO_EVENTS, false);
    FirstPoll(c, revents);
    var i := Init(c);
    var s := i.(timers := Timers(false, WatchDog), revents := revents, pc := Check);
    Onward(c, i, s, Tick);
    Onward(c, i, Step(c, s, Tick), Got([0, 65, 66], false));
    FrameArrives(c, s);
    var w := Step(c, Step(c, s, Tick), Got([0, 65, 66], false));
    Onward(c, i, w, Wrote(1));
    Onward(c, i, Step(c, w, Wrote(1)), Refused(true));
    FirstByteOnly(c, w);
    var f := Step(c, Step(c, w, Wrote(1)), Refused(true));
    InterPasses(c, i, f, AtPtsWrite);
    var p := f.(pc := Inter(Chld, Test, true, AtPtsWrite));
    InterEnds(c, p);
    Onward(c, i, p, Tick);
    BothBytes(c, p.(pc := PtsWrite));
    Onward(c, i, p.(pc := PtsWrite), Wrote(2));
    assert w.inb.buf[1..2] == w.inb.buf[1..3][..1];
    events, states := ReachedBy(c, Step(c, p.(pc := PtsWrite), Wrote(2)));
  }

  // ---------------------------------------------------------------------------------------------
  // An Invitation to Clear on a dead circuit.

  /** The closing acts up to the switch on `Done`. */
  lemma Closes(c: Config, start: State, s: State)
    requires Shape(c, start) && Shape(c, s) && Reaches(c, start, s) && s.pc.Left?
    ensures var r := s.(timers := Timers(false, Off), pc := Switch,
                        h := s.h.(acts := s.h.acts + [PtsClosed, RemovalSent]));
            Shape(c, r) && Reaches(c, start, r)
  {
    hide Reaches, W.Ok, WaitStep, InviteStep, InviteInterStep, SwitchStep, LoopStep;
    var p := s.(timers := Timers(false, Off), pc := ClosePts);
    var m := p.(pc := Record, h := s.h.(acts := s.h.acts + [PtsClosed]));
    Onward(c, start, s, Tick);
    assert Step(c, s, Tick) == p;
    Onward(c, start, p, Tick);
    assert Step(c, p, Tick) == m;
    Onward(c, start, m, Tick);
    assert s.h.acts + [PtsClosed] + [RemovalSent] == s.h.acts + [PtsClosed, RemovalSent];
    assert Step(c, m, Tick) == m.(pc := Switch, h := s.h.(acts := s.h.acts + [PtsClosed, RemovalSent]));
  }

  const HANG_UP := Revents(false, false, false, true)
  const FAILURE := Revents(false, true, false, false)

  lemma DeadCheck(c: Config, s: State)
    requires Shape(c, s) && s.pc.Check? && s.revents.sock.hup && !s.revents.sock.err && !s.revents.sock.nval
    ensures var code := if s.revents.pts.err || s.revents.pts.nval then 1 else 2;
            Step(c, s, Tick) == s.(done := code, pc := Left, h := s.h.(code := code))
  {
    hide W.Ok;
  }

  lemma SwitchInvites(c: Config, s: State)
    requires Shape(c, s) && s.pc.Switch? && s.done == 1
    ensures var r := Step(c, s, Tick); r.pc.Invite? && r.h.acts == s.h.acts + [ClearInvited]
  {
    hide W.Ok;
  }

  /** The circuit hangs up while the pts reports an error: the session invites the peer to clear all the same. */
  lemma DeadCircuitIsInvited(c: Config) returns (events: seq<Event>, states: seq<State>)
    requires c.Valid()
    ensures Behaviour(c, events, states)
    ensures var s := states[|events|]; s.revents.sock.hup && s.pc.Invite? && ClearInvited in s.h.acts
  {
    hide Step, Run, Behaviour, After, Reaches;
    var revents := Polled(HANG_UP, FAILURE, false);
    FirstPoll(c, revents);
    var i := Init(c);
    var s := i.(timers := Timers(false, WatchDog), revents := revents, pc := Check);
    DeadCheck(c, s);
    Onward(c, i, s, Tick);
    var l := s.(done := 1, pc := Left, h := s.h.(code := 1));
    Closes(c, i, l);
    var w := l.(timers := Timers(false, Off), pc := Switch, h := l.h.(acts := l.h.acts + [PtsClosed, RemovalSent]));
    SwitchInvites(c, w);
    Onward(c, i, w, Tick);
    SwitchStays(c, w);
    events, states := ReachedBy(c, Step(c, w, Tick));
  }

  lemma SwitchStays(c: Config, s: State)
    requires Shape(c, s) && s.pc.Switch?
    ensures Step(c, s, Tick).revents == s.revents
  {
    hide W.Ok;
  }

  // ---------------------------------------------------------------------------------------------
  // A lesson that is not used.

  /** The read timer expires at the poll, and its signal is served. */
  lemma TimerServed(c: Config, start: State, s: State) returns (r: State)
    requires Shape(c, start) && Shape(c, s) && Reaches(c, start, s) && c.bufferSize >= 2 && c.signals == QUIET
    requires s.pc.Polling? && OneByteWaits(c, s)
    ensures Shape(c, r) && Reaches(c, start, r)
    ensures r.pc.Check? && !r.revents.pts.inp && !r.revents.sock.inp
    ensures r == s.(pc := r.pc, revents := Polled(NO_EVENTS, NO_EVENTS, true), inb := r.inb,
                    timers := s.timers.(read := false), b := s.b.(timerEx := true))
    ensures r.inb == s.inb.(buf := r.inb.buf)
  {
    hide Step, After, Reaches, Shape;
    var a := Step(c, s, ReadTimerExpires);
    var p := Step(c, a, Poll(Ready, Polled(NO_EVENTS, NO_EVENTS, true)));
    var q := Step(c, p, Got([], false));
    TimerToPipe(c, s);
    Onward(c, start, s, ReadTimerExpires);
    Onward(c, start, a, Poll(Ready, Polled(NO_EVENTS, NO_EVENTS, true)));
    Onward(c, start, p, Got([], false));
    FlagsBeforeIdle(c, q);
    Onward(c, start, q, Tick);
    Onward(c, start, Step(c, q, Tick), Tick);
    Onward(c, start, Step(c, Step(c, q, Tick), Tick), Tick);
    var i := q.(pc := Inter(Idle, Test, true, AtPipe));
    ServesIdle(c, i);
    Onward(c, start, i, Tick);
    Onward(c, start, Step(c, i, Tick), Tick);
    Onward(c, start, Step(c, Step(c, i, Tick), Tick), Tick);
    r := Step(c, Step(c, Step(c, i, Tick), Tick), Tick);
  }

  const IDLE_UP := QUIET.(idle := true)

  lemma TimerToPipe(c: Config, s: State)
    requires Shape(c, s) && c.bufferSize >= 2 && s.pc.Polling? && s.timers.read && s.sig == QUIET
    ensures var r := Step(c, Step(c, Step(c, s, ReadTimerExpires), Poll(Ready, Polled(NO_EVENTS, NO_EVENTS, true))),
                          Got([], false));
            && r == s.(pc := Inter(Hup, Test, true, AtPipe), revents := Polled(NO_EVENTS, NO_EVENTS, true),
                       timers := s.timers.(read := false), sig := IDLE_UP, inb := r.inb)
            && r.inb == s.inb.(buf := r.inb.buf)
  {
    hide PtsReadStep, SockReadStep, PtsWriteStep, FlushStep, SockWriteStep, InterStep, ClosingStep, Blit;
  }

  lemma FlagsBeforeIdle(c: Config, s: State)
    requires Shape(c, s) && s.pc == Inter(Hup, Test, true, AtPipe) && s.sig == IDLE_UP
    ensures Step(c, Step(c, Step(c, s, Tick), Tick), Tick) == s.(pc := Inter(Idle, Test, true, AtPipe))
  {
    hide W.Ok, InterReturn;
  }

  lemma ServesIdle(c: Config, s: State)
    requires Shape(c, s) && s.pc == Inter(Idle, Test, true, AtPipe) && s.sig == IDLE_UP
    ensures Step(c, Step(c, Step(c, s, Tick), Tick), Tick)
         == s.(pc := Check, sig := QUIET, b := s.b.(timerEx := true))
  {
    hide W.Ok;
  }

  lemma PassesCheck(c: Config, s: State)
    requires Shape(c, s) && s.pc.Check? && s.revents == Polled(NO_EVENTS, NO_EVENTS, true)
    ensures Step(c, s, Tick) == s.(pc := Flush)
  {
    hide W.Ok;
  }

  /** The timer flush of one byte, up to the next data on the pts. */
  lemma FlushesOne(c: Config, s: State)
    requires Shape(c, s) && c.Batched() && s.pc.Flush? && s.b.timerEx
    requires OneByteWaits(c, s.(timers := s.timers.(read := true), b := s.b.(timerEx := false)))
    ensures var r := Step(c, Step(c, s, Tick), Wrote(2));
            && r.pc.Head? && r.done == 0 && r.b.total == 0 && r.b.lastWrite == 2 && r.b.lastWs
            && r.b.free == c.bufferSize && r.h.read == s.h.read && r.inb == s.inb
  {
    hide PtsReadStep, SockReadStep, PtsWriteStep, InterStep, PipeStep, ClosingStep, W.Packet, W.Reframe;
  }

  lemma PollsForData(c: Config, s: State)
    requires Shape(c, s) && s.pc.Head? && s.done == 0
    ensures var r := Step(c, Step(c, Step(c, s, Tick), Poll(Ready, Polled(NO_EVENTS, READABLE, false))), Tick);
            r.pc.PtsRead? && r.b == s.b && r.h == s.h && r.inb == s.inb
  {
    hide PtsReadStep, SockReadStep, PtsWriteStep, FlushStep, SockWriteStep, InterStep, PipeStep, ClosingStep;
  }

  lemma SameSizeWaits(c: Config, s: State)
    requires Shape(c, s) && c.Batched() && s.pc.PtsRead? && s.b.total == 0 && s.b.free >= 1
    requires s.b.lastWs && s.b.lastWrite == 2
    ensures var r := Step(c, s, Got([66], false)); r.b.total == 1 && r.b.minlimit == 2
  {
    hide SockReadStep, PtsWriteStep, FlushStep, SockWriteStep, InterStep, PipeStep, ClosingStep, Blit;
    assert Take([66], s.b.free) == [66];
  }

  /** Where the timer flush of one byte is due. */
  lemma TimerFlushDue(c: Config) returns (s: State)
    requires c.Valid() && Patient(c) && c.signals == QUIET
    ensures Shape(c, s) && Reaches(c, Init(c), s) && s.pc.Flush? && s.b.timerEx
    ensures OneByteWaits(c, s.(timers := s.timers.(read := true), b := s.b.(timerEx := false)))
  {
    var p := OneByteAtPoll(c);
    var k := TimerServed(c, Init(c), p);
    hide Step, After, Reaches, Shape;
    PassesCheck(c, k);
    Onward(c, Init(c), k, Tick);
    s := Step(c, k, Tick);
  }

  lemma NextDataDue(c: Config, s: State) returns (r: State)
    requires Shape(c, s) && c.Batched() && s.pc.Flush? && s.b.timerEx
    requires OneByteWaits(c, s.(timers := s.timers.(read := true), b := s.b.(timerEx := false)))
    ensures Shape(c, r) && Reaches(c, Step(c, s, Tick), r)
    ensures r.pc.PtsRead? && r.b.total == 0 && r.b.free == c.bufferSize && r.b.lastWs && r.b.lastWrite == 2
    ensures r.h.read == s.h.read && r.inb == s.inb
  {
    hide Step, After, Reaches, Shape, OneByteWaits;
    var start := Step(c, s, Tick);
    ReachSelf(c, start);
    FlushesOne(c, s);
    Onward(c, start, start, Wrote(2));
    var h := Step(c, start, Wrote(2));
    PollsForData(c, h);
    Onward(c, start, h, Tick);
    Onward(c, start, Step(c, h, Tick), Poll(Ready, Polled(NO_EVENTS, READABLE, false)));
    Onward(c, start, Step(c, Step(c, h, Tick), Poll(Ready, Polled(NO_EVENTS, READABLE, false))), Tick);
    r := Step(c, Step(c, Step(c, h, Tick), Poll(Ready, Polled(NO_EVENTS, READABLE, false))), Tick);
  }

  /**
   A byte is flushed by the timer, and no answer comes: the next byte finds a threshold of two and waits for the
   timer like the first.
   */
  lemma LessonIsForgotten(c: Config) returns (events: seq<Event>, states: seq<State>, i: nat, j: nat)
    requires c.Valid() && Patient(c) && c.signals == QUIET
    ensures Behaviour(c, events, states) && i < j < |events| && |states| == |events| + 1
    ensures L.TimerFlush(states[i], events[i]) && L.ReadsData(states[j], events[j])
    ensures states[j].h.read == states[i].h.read && |states[j].inb.frames| == |states[i].inb.frames|
    ensures states[j + 1].b.total == states[i].b.total < states[j + 1].b.minlimit
  {
    var s := TimerFlushDue(c);
    assert L.TimerFlush(s, Tick) && s.b.total == 1;
    var before := EventsTo(c, Init(c), s);
    var t := NextDataDue(c, s);
    assert L.ReadsData(t, Got([66], false));
    SameSizeWaits(c, t);
    var between := EventsTo(c, Step(c, s, Tick), t);
    hide *;
    events, states, i, j := Lesson(c, before, between, s, t);
  }

  lemma Lesson(c: Config, before: seq<Event>, between: seq<Event>, s: State, t: State)
    returns (events: seq<Event>, states: seq<State>, i: nat, j: nat)
    requires c.Valid() && After(c, Init(c), before) == s && After(c, Step(c, s, Tick), between) == t
    ensures Behaviour(c, events, states) && i < j < |events| && |states| == |events| + 1
    ensures events[i] == Tick && events[j] == Got([66], false)
    ensures states[i] == s && states[j] == t && states[j + 1] == Step(c, t, Got([66], false))
  {
    hide *;
    var a := before + [Tick];
    var b := a + between;
    events := b + [Got([66], false)];
    i, j := |before|, |b|;
    FromStart(c, before);
    RunSnoc(c, before, Tick);
    RunAfter(c, a, between);
    RunSnoc(c, b, Got([66], false));
    states := RunBehaves(c, events);
    Lengths(c, events, states);
    BehaviourRuns(c, events, states, i);
    BehaviourRuns(c, events, states, j);
    assert events[..i] == before && events[..j] == b;
  }

  // ---------------------------------------------------------------------------------------------
  // An exit signal that is ignored.

  /** At the poll with `n` frames delivered, Flag_Exit up, and nothing to tell of it. */
  predicate Deaf(s: State, n: nat) {
    && s.pc.Polling? && s.done == 0 && s.sig == QUIET.(exit := true) && s.timers.watch == WatchDog
    && |s.inb.frames| == n && s.b.total == 0 && !s.b.timerEx && !s.b.limitEx
  }

  /** A frame of one byte arrives at the poll and is written to the pts. */
  lemma FrameAtPoll(c: Config, s: State, n: nat)
    requires Shape(c, s) && Deaf(s, n) && c.bufferSize >= 1
    ensures var p := Step(c, s, Poll(Ready, Polled(READABLE, NO_EVENTS, false)));
            var r := Step(c, Step(c, p, Tick), Got([0, 65], false));
            && r.pc.PtsWrite? && r.inb.n == 1 && r.inb.pos == 0 && |r.inb.frames| == n + 1
            && r == s.(pc := r.pc, revents := r.revents, inb := r.inb, b := s.b.(lastWs := false))
  {
    hide PtsReadStep, PtsWriteStep, FlushStep, SockWriteStep, InterStep, PipeStep, ClosingStep;
    assert Take([0, 65], c.bufferSize + 1) == [0, 65];
  }

  lemma WritesAndPolls(c: Config, s: State, n: nat)
    requires Shape(c, s) && s.pc.PtsWrite? && s.inb.n == 1 && s.inb.pos == 0
    requires Deaf(s.(pc := Polling), n)
    ensures Deaf(Step(c, Step(c, Step(c, s, Wrote(1)), Tick), Tick), n)
  {
    hide PtsReadStep, SockReadStep, SockWriteStep, InterStep, PipeStep, ClosingStep, Flushing;
  }

  lemma DeafIteration(c: Config, start: State, s: State, n: nat) returns (r: State)
    requires Shape(c, start) && Shape(c, s) && Reaches(c, start, s) && Deaf(s, n) && c.bufferSize >= 1
    ensures Shape(c, r) && Reaches(c, start, r) && Deaf(r, n + 1)
  {
    hide Step, After, Reaches, Shape;
    var revents := Polled(READABLE, NO_EVENTS, false);
    var a := Step(c, s, Poll(Ready, revents));
    var b := Step(c, a, Tick);
    var w := Step(c, b, Got([0, 65], false));
    FrameAtPoll(c, s, n);
    Onward(c, start, s, Poll(Ready, revents));
    Onward(c, start, a, Tick);
    Onward(c, start, b, Got([0, 65], false));
    WritesAndPolls(c, w, n + 1);
    Onward(c, start, w, Wrote(1));
    Onward(c, start, Step(c, w, Wrote(1)), Tick);
    Onward(c, start, Step(c, Step(c, w, Wrote(1)), Tick), Tick);
    r := Step(c, Step(c, Step(c, w, Wrote(1)), Tick), Tick);
  }

  lemma {:induction false} DeafAfter(c: Config, n: nat) returns (s: State)
    requires c.Valid() && c.bufferSize >= 1 && c.signals == QUIET.(exit := true)
    ensures Shape(c, s) && Reaches(c, Init(c), s) && Deaf(s, n)
  {
    if n == 0 {
      ReachSelf(c, Init(c));
      Onward(c, Init(c), Init(c), Tick);
      s := Step(c, Init(c), Tick);
    } else {
      var before := DeafAfter(c, n - 1);
      s := DeafIteration(c, Init(c), before, n - 1);
    }
  }

  /**
   An exit signal that came before the session's own handlers were set is ignored for as long as data comes from
   the circuit: after any number of frames the relay polls again, with a new watchdog and no byte to wake it.
   */
  lemma TrafficHidesExit(c: Config, n: nat) returns (events: seq<Event>, states: seq<State>)
    requires c.Valid() && c.bufferSize >= 1 && c.signals == QUIET.(exit := true)
    ensures Behaviour(c, events, states) && |states| == |events| + 1
    ensures Deaf(states[|events|], n) && U.Oversleeps(states[|events|], Exit)
  {
    var s := DeafAfter(c, n);
    DeafOversleeps(s, n);
    hide *;
    events, states := ReachedBy(c, s);
    Lengths(c, events, states);
  }

  lemma DeafOversleeps(s: State, n: nat)
    requires Deaf(s, n)
    ensures U.Oversleeps(s, Exit)
  {
  }

  // ---------------------------------------------------------------------------------------------
  // A child whose end is never noticed.

  const CHILD_UP := QUIET.(chld := true)

  /** A first SIGCHLD, for a child that has only been stopped, is served while the circuit hangs up. */
  lemma FirstSignal(c: Config)
    requires c.Valid() && c.bufferSize >= 1 && c.signals == QUIET
    ensures var s := Init(c).(timers := Timers(false, WatchDog), revents := Polled(HANG_UP, NO_EVENTS, true),
                              sig := CHILD_UP, inb := Init(c).inb.(buf := Blit(c.bufn, 0, [32])),
                              pc := Inter(Hup, Test, true, AtPipe));
            Shape(c, s) && Reaches(c, Init(c), s)
  {
    hide After, W.Ok;
    var i := Init(c);
    var revents := Polled(HANG_UP, NO_EVENTS, true);
    var p := i.(timers := Timers(false, WatchDog), pc := Polling);
    var q := p.(sig := CHILD_UP.(pipe := 1));
    var r := q.(revents := revents, pc := PipeRead);
    ReachSelf(c, i);
    Onward(c, i, i, Tick);
    assert Step(c, i, Tick) == p;
    Onward(c, i, p, Signal(Chld));
    assert Step(c, p, Signal(Chld)) == q;
    Onward(c, i, q, Poll(Ready, revents));
    assert Step(c, q, Poll(Ready, revents)) == r;
    Onward(c, i, r, Got([], false));
    assert seq(1, _ => 32 as byte) == [32];
  }

  lemma NothingToReap(c: Config, s: State)
    requires Shape(c, s) && s.pc == Inter(Chld, Test, true, AtPipe) && s.sig.chld
    ensures Step(c, Step(c, s, Tick), Reaped(false)) == s.(pc := Inter(Chld, Clear, true, AtPipe))
  {
    hide W.Ok;
  }

  /** The second SIGCHLD comes after `waitpid` and is cleared with the first. */
  lemma SecondSignal(c: Config, s: State)
    requires Shape(c, s) && s.pc == Inter(Chld, Clear, true, AtPipe)
    ensures var r := Step(c, Step(c, s, Signal(Chld)), Tick);
            r == s.(sig := s.sig.(chld := false, pipe := s.sig.pipe + 1), pc := Check)
  {
    hide W.Ok;
  }

  lemma ClosesCircuit(c: Config, s: State)
    requires Shape(c, s) && s.pc.Switch? && s.done == 2 && !s.reaped
    ensures var r := Step(c, Step(c, Step(c, s, Tick), Tick), Tick);
            r == s.(h := s.h.(acts := s.h.acts + [SockClosed]), pc := Arm(Child))
  {
    hide W.Ok, WaitStep, InviteStep, InviteInterStep, LoopStep;
  }

  lemma BeforeSecondSignal(c: Config) returns (s: State)
    requires c.Valid() && c.bufferSize >= 1 && c.signals == QUIET
    ensures Shape(c, s) && Reaches(c, Init(c), s)
    ensures s.pc == Inter(Chld, Clear, true, AtPipe) && s.revents == Polled(HANG_UP, NO_EVENTS, true) && !s.reaped
  {
    hide Step, After, Reaches, W.Ok;
    var i := Init(c);
    FirstSignal(c);
    var a := i.(timers := Timers(false, WatchDog), revents := Polled(HANG_UP, NO_EVENTS, true), sig := CHILD_UP,
                inb := i.inb.(buf := Blit(c.bufn, 0, [32])), pc := Inter(Hup, Test, true, AtPipe));
    InterPasses(c, i, a, AtPipe);
    var b := a.(pc := Inter(Chld, Test, true, AtPipe));
    NothingToReap(c, b);
    Onward(c, i, b, Tick);
    Onward(c, i, Step(c, b, Tick), Reaped(false));
    s := b.(pc := Inter(Chld, Clear, true, AtPipe));
  }

  lemma AfterSecondSignal(c: Config, s: State) returns (r: State)
    requires Shape(c, s) && s.pc == Inter(Chld, Clear, true, AtPipe)
    requires s.revents == Polled(HANG_UP, NO_EVENTS, true) && !s.reaped
    ensures Shape(c, r) && Reaches(c, Step(c, s, Signal(Chld)), r)
    ensures r.pc == Arm(Child) && !r.sig.chld && !r.reaped
  {
    hide Step, After, Reaches, W.Ok;
    var start := Step(c, s, Signal(Chld));
    ReachSelf(c, start);
    SecondSignal(c, s);
    Onward(c, start, start, Tick);
    var k := s.(sig := s.sig.(chld := false, pipe := s.sig.pipe + 1), pc := Check);
    DeadCheck(c, k);
    Onward(c, start, k, Tick);
    var l := k.(done := 2, pc := Left, h := k.h.(code := 2));
    Closes(c, start, l);
    var w := l.(timers := Timers(false, Off), pc := Switch, h := l.h.(acts := l.h.acts + [PtsClosed, RemovalSent]));
    ClosesCircuit(c, w);
    Onward(c, start, w, Tick);
    Onward(c, start, Step(c, w, Tick), Tick);
    Onward(c, start, Step(c, Step(c, w, Tick), Tick), Tick);
    r := w.(h := w.h.(acts := w.h.acts + [SockClosed]), pc := Arm(Child));
  }

  /**
   The signal that the child has ended comes between `waitpid` and the clearing of Flag_Chld; the session
   then enters `wait_exitstatus` with no exit status and no SIGCHLD pending.
   */
  lemma ChildEndIsMissed(c: Config) returns (events: seq<Event>, states: seq<State>, k: nat)
    requires c.Valid() && c.bufferSize >= 1 && c.signals == QUIET
    ensures Behaviour(c, events, states) && k < |events|
    ensures events[k] == Signal(Chld) && G.Forgetful(states[k].pc, Chld)
    ensures var s := states[|events|]; s.pc == Arm(Child) && !s.reaped && !s.sig.chld
  {
    hide *;
    var s := BeforeSecondSignal(c);
    var before := EventsTo(c, Init(c), s);
    var r := AfterSecondSignal(c, s);
    var behind := EventsTo(c, Step(c, s, Signal(Chld)), r);
    k := |before|;
    FromStart(c, before);
    RunSnoc(c, before, Signal(Chld));
    RunAfter(c, before + [Signal(Chld)], behind);
    events := before + [Signal(Chld)] + behind;
    states := RunBehaves(c, events);
    Lengths(c, events, states);
    BehaviourRuns(c, events, states, k);
    assert events[..k] == before;
    AtClear(s.pc);
  }

  lemma AtClear(pc: Pc)
    requires pc == Inter(Chld, Clear, true, AtPipe)
    ensures G.Forgetful(pc, Chld)
  {
  }

  /** In the last wait of a session, with no SIGCHLD pending or being served. */
  predicate Missed(s: State) {
    && !s.reaped && !s.sig.chld
    && (s.pc.Exited? || s.pc.Finished? || (InWait(s.pc) && s.pc.w.Child?))
    && (s.pc.WaitTest? && s.pc.f.Chld? ==> s.pc.phase.Test?)
  }

  lemma MissedStep(c: Config, s: State, e: Event)
    requires Shape(c, s) && Guarded(s) && Missed(s) && e != Signal(Chld)
    ensures Missed(Step(c, s, e))
  {
    hide Shape, Drained, LoopStep, Over;
  }

  /** Without another SIGCHLD such a session never learns that its child has ended. */
  lemma {:induction false} MissedForEver(c: Config, events: seq<Event>, states: seq<State>, i: nat, j: nat)
    requires Behaviour(c, events, states) && i <= j < |states|
    requires states[i].pc == Arm(Child) && !states[i].reaped && !states[i].sig.chld
    requires forall k :: i <= k < j ==> events[k] != Signal(Chld)
    ensures Missed(states[j])
    decreases j
  {
    hide *;
    if i < j {
      T.Kept(c, events, states, j - 1);
      U.ControlGuards(states[j - 1]);
      MissedForEver(c, events, states, i, j - 1);
      MissedStep(c, states[j - 1], events[j - 1]);
    } else {
      MissedAtFirst(states[i]);
    }
  }

  lemma MissedAtFirst(s: State)
    requires s.pc == Arm(Child) && !s.reaped && !s.sig.chld
    ensures Missed(s)
  {
  }
}
