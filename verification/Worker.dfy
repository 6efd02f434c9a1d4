/**
 The session as the program it is: `do_copy` and its helpers with their variables and buffers updated in
 place.  What the kernel answers and when signals arrive is taken from a tape of events, one event at a
 time; an execution ends early only where the tape ends or the process does.  Every method moves the
 ghost machine state `m` along with the variables: `Ran` says that `m` is what the machine reaches by a trace
 that follows the tape event for event.  So what is proved of all runs of the machine holds of all executions.
 */
module Worker {
  import opened Common
  import opened Session
  import opened SessionControl
  import opened SessionFlow
  import W = Writen

  /** The kernel calls that the main thread may be inside of. */
  datatype Call = NoCall | PollCall | ReadCall | WriteCall | WaitpidCall

  predicate Answers(call: Call, e: Event) {
    match call
    case NoCall => false
    case PollCall => e.Poll?
    case ReadCall => e.Got? || e.Refused?
    case WriteCall => e.Wrote? || e.Refused?
    case WaitpidCall => e.Reaped?
  }

  function CallAt(pc: Pc): Call {
    if pc.Polling? || pc.WaitPoll? then PollCall
    else if pc.PipeRead? || pc.PtsRead? || pc.SockRead? || pc.WaitPipe? || pc.WaitRead? then ReadCall
    else if pc.PtsWrite? || pc.SockWrite? || pc.Invite? then WriteCall
    else if (pc.Inter? || pc.WaitTest?) && pc.phase.Serve? && pc.f.Chld? then WaitpidCall
    else NoCall
  }

  /** The events of a tape or a trace, without the internal steps of the main thread. */
  function Heard(events: seq<Event>): seq<Event> {
    if events == [] then []
    else
      var k := |events| - 1;
      Heard(events[..k]) + if events[k].Tick? then [] else [events[k]]
  }

  /** Outside kernel calls only signals, timers and the end of the process can happen; answers wait. */
  predicate OnTime(s: State, e: Event) { CallAt(s.pc).NoCall? ==> e.Tick? || Environment(e) }

  ghost predicate Prompt(c: Config, trace: seq<Event>)
    requires c.Valid()
  {
    trace == []
    || (Prompt(c, trace[..|trace| - 1]) && OnTime(Run(c, trace[..|trace| - 1]), trace[|trace| - 1]))
  }

  lemma PromptSnoc(c: Config, trace: seq<Event>, e: Event)
    requires c.Valid() && Prompt(c, trace) && OnTime(Run(c, trace), e)
    ensures Prompt(c, trace + [e])
  {
    assert (trace + [e])[..|trace|] == trace;
  }

  lemma {:induction false} HeardSplit(a: seq<Event>, b: seq<Event>)
    ensures Heard(a + b) == Heard(a) + Heard(b)
  {
    if b == [] {
      assert a + b == a;
    } else {
      var k := |b| - 1;
      HeardSplit(a, b[..k]);
      assert (a + b)[..|a + b| - 1] == a + b[..k];
      Regroup(Heard(a), Heard(b[..k]), if b[k].Tick? then [] else [b[k]]);
    }
  }

  lemma NothingHeard()
    ensures Heard([]) == [] && Heard([Tick]) == []
  {
    assert [Tick][..0] == [];
  }

  lemma OthersAreIgnored(c: Config, s: State, e: Event)
    requires Shape(c, s) && CallAt(s.pc) != NoCall && !Environment(e) && !Answers(CallAt(s.pc), e)
    ensures Step(c, s, e) == s
  {
    hide Shape, W.Ok, Blit, Take, Clip, W.Begin, W.Advance, W.Packet, W.Reframe, W.Result;
  }

  /** The step functions that one event selects. */
  lemma StepAt(c: Config, s: State, e: Event)
    requires Shape(c, s) && InLoop(s.pc) && !Environment(e)
    ensures s.pc.Head? && e.Tick? ==> Step(c, s, e) == HeadStep(c, s)
    ensures s.pc.Polling? && e.Poll? ==> Step(c, s, e) == PollStep(c, s, e.code, e.revents)
    ensures s.pc.PipeRead? ==> Step(c, s, e) == PipeStep(c, s, e)
    ensures s.pc.Inter? ==> Step(c, s, e) == InterStep(c, s, e)
    ensures s.pc.Check? && e.Tick? ==> Step(c, s, e) == CheckStep(c, s)
    ensures s.pc.PtsRead? ==> Step(c, s, e) == PtsReadStep(c, s, e)
    ensures s.pc.SockRead? ==> Step(c, s, e) == SockReadStep(c, s, e)
    ensures s.pc.PtsWrite? ==> Step(c, s, e) == PtsWriteStep(c, s, e)
    ensures s.pc.Flush? && e.Tick? ==> Step(c, s, e) == FlushStep(c, s)
    ensures s.pc.SockWrite? ==> Step(c, s, e) == SockWriteStep(c, s, e)
  {
    hide HeadStep, PollStep, PipeStep, InterStep, CheckStep, PtsReadStep, SockReadStep, PtsWriteStep, FlushStep;
    hide SockWriteStep;
  }

  lemma ClosingAt(c: Config, s: State, e: Event)
    requires Shape(c, s) && !InLoop(s.pc) && !InWait(s.pc) && !Environment(e)
    ensures s.pc.Left? && e.Tick? ==> Step(c, s, e) == s.(timers := Timers(false, Off), pc := ClosePts)
    ensures s.pc.ClosePts? && e.Tick? ==> Step(c, s, e) == Acted(s, PtsClosed).(pc := Record)
    ensures s.pc.Record? && e.Tick? ==> Step(c, s, e) == Acted(s, RemovalSent).(pc := Switch)
    ensures s.pc.CloseSock? && e.Tick? ==> Step(c, s, e) == Acted(s, SockClosed).(pc := ChildCheck)
    ensures s.pc.ChildCheck? && e.Tick? ==> Step(c, s, e) == s.(pc := if s.reaped then Finished else Arm(Child))
    ensures s.pc.Switch? && e.Tick? ==> Step(c, s, e) == SwitchStep(c, s)
    ensures s.pc.Invite? ==> Step(c, s, e) == InviteStep(c, s, e)
    ensures s.pc.InviteInter? && e.Tick? ==> Step(c, s, e) == InviteInterStep(c, s)
  {
    hide SwitchStep, InviteStep, InviteInterStep, Acted;
  }

  lemma WaitAt(c: Config, s: State, e: Event)
    requires Shape(c, s) && InWait(s.pc) && !Environment(e)
    ensures s.pc.Arm? && e.Tick? ==>
              Step(c, s, e) == s.(done := 0, timers := s.timers.(watch := NetTimeout), pc := WaitHead(s.pc.w))
    ensures s.pc.WaitHead? && e.Tick? ==>
              Step(c, s, e) == s.(pc := if s.done == 0 then WaitPoll(s.pc.w) else Disarm(s.pc.w))
    ensures s.pc.WaitPoll? && e.Poll? ==> Step(c, s, e) == WaitPollStep(c, s, e.code, e.revents)
    ensures s.pc.WaitPipe? ==> Step(c, s, e) == WaitPipeStep(c, s, e)
    ensures s.pc.WaitTest? ==> Step(c, s, e) == WaitTestStep(c, s, e)
    ensures s.pc.WaitCheck? && e.Tick? ==> Step(c, s, e) == WaitCheckStep(c, s)
    ensures s.pc.WaitRead? ==> Step(c, s, e) == WaitReadStep(c, s, e)
    ensures s.pc.Disarm? && e.Tick? ==>
              Step(c, s, e) == s.(timers := s.timers.(watch := Off),
                                  pc := if s.pc.w.Net? then CloseSock else Finished)
  {
    hide WaitPollStep, WaitPipeStep, WaitTestStep, WaitCheckStep, WaitReadStep, Drained;
  }

  function ActAt(a: Act): Pc {
    match a
    case PtsClosed => ClosePts
    case RemovalSent => Record
    case SockClosed => CloseSock
    case ClearInvited => Finished
  }

  /** What may change while `do_inter` runs. */
  ghost predicate Disturbed(s: State, r: State) {
    && s.pc.Inter? && r.pc.Inter? && r.pc.site == s.pc.site
    && r == s.(pc := r.pc, done := r.done, sig := r.sig, timers := r.timers, reaped := r.reaped,
               b := s.b.(timerEx := r.b.timerEx))
  }

  lemma ServedFacts(c: Config, s: State, f: Flag)
    requires Shape(c, s) && s.pc.Inter?
    ensures Shape(c, Served(s, f)) && Disturbed(s, Served(s, f)) && Served(s, f).pc == s.pc
  {
  }

  /** The steps of `do_inter`. */
  lemma InterAt(c: Config, s: State, e: Event, f: Flag, phase: Phase, go: bool, site: Site)
    requires Shape(c, s) && s.pc == Inter(f, phase, go, site) && !Environment(e)
    ensures Shape(c, Served(s, f)) && Disturbed(s, Served(s, f)) && Served(s, f).pc == s.pc
    ensures match phase
            case Test =>
              e.Tick? ==> Step(c, s, e) == (if s.sig.Up(f)
                                            then s.(pc := Inter(f, if ServedFirst(f) then Serve else Clear, go, site))
                                            else InterNext(c, s, f, go, site))
            case Serve =>
              (f.Chld? && e.Reaped? ==>
                 Step(c, s, e) == s.(reaped := s.reaped || e.got, pc := Inter(f, Clear, go, site)))
              && (f.Hup? && e.Tick? ==> Step(c, s, e) == s.(pc := Inter(f, Clear, go, site)))
            case Clear =>
              e.Tick? ==> Step(c, s, e)
                          == InterNext(c, Served(s, f), f, go && !f.Alrm? && !f.Exit?, site)
  {
    StepAt(c, s, e);
    ServedFacts(c, s, f);
    hide Step, InterNext, Served, Shape, Disturbed;
  }

  /** What may change while `writensockint` runs. */
  ghost predicate Writing(s: State, r: State) {
    r == s.(pc := r.pc, done := r.done, sig := r.sig, timers := r.timers, reaped := r.reaped, cur := r.cur,
            b := s.b.(buf := r.b.buf, timerEx := r.b.timerEx), h := s.h.(sent := r.h.sent))
  }

  lemma ShapeReturns(c: Config, s: State)
    requires Shape(c, s)
    ensures Returning(c, s)
  {
  }

  /** The steps of `writensockint`. */
  lemma WroteAt(c: Config, s: State, e: Event)
    requires Shape(c, s) && s.pc.SockWrite? && e.Wrote?
    ensures W.Ok(s.b.buf, s.cur)
    ensures var k := Clip(e.k, s.cur.left + 1); var r := AfterWrite(s, k);
            if k == s.cur.left + 1 then Returning(c, r) && Step(c, s, e) == WriteReturn(c, r)
            else Step(c, s, e) == r
  {
    StepAt(c, s, e);
    hide Step, WriteReturn, W.Reframe, W.Packet;
  }

  lemma RefusedAt(c: Config, s: State, e: Event)
    requires Shape(c, s) && s.pc.SockWrite? && e.Refused?
    ensures W.Ok(s.b.buf, s.cur)
    ensures if e.intr then Step(c, s, e) == s.(pc := Inter(Hup, Test, true, AtSockWrite))
            else if s.cur.errors + 1 < W.MAX_ERROR_WRITE
            then Step(c, s, e) == s.(cur := s.cur.(errors := s.cur.errors + 1))
            else Returning(c, s) && Step(c, s, e) == WriteReturn(c, s.(done := 10))
  {
    StepAt(c, s, e);
    hide Step, WriteReturn;
  }

  /** The steps of `writen`. */
  lemma PtsAt(c: Config, s: State, e: Event)
    requires Shape(c, s) && s.pc.PtsWrite? && !Environment(e)
    ensures s.inb.pos < s.inb.n < |s.inb.buf|
    ensures Step(c, s, e) == PtsWriteStep(c, s, e)
  {
    StepAt(c, s, e);
    hide Step, PtsWriteStep;
  }

  /** The two branches of a read from the pts that brings data. */
  lemma ReadAt(c: Config, s: State, e: Event, d: seq<byte>)
    requires Shape(c, s) && s.pc.PtsRead? && e.Got? && d != []
    requires d == Take(e.data, if c.Batched() then s.b.free else c.bufferSize)
    ensures |d| <= c.bufferSize && Returning(c, s)
    ensures if c.Batched() then |d| <= s.b.free && Step(c, s, e) == ReadInto(c, s, d)
            else Step(c, s, e) == Forwarded(c, s.(h := s.h.(read := s.h.read + d)), d)
  {
    StepAt(c, s, e);
    hide Step, Blit, Appended, Forwarded;
  }

  /** A batched read, field by field. */
  lemma ReadFields(c: Config, s: State, d: seq<byte>)
    requires Shape(c, s) && s.pc.PtsRead? && |d| <= s.b.free
    ensures var r := ReadInto(c, s, d); var full := r.b.total >= r.b.minlimit;
            && r.pc == (if s.revents.sock.inp then SockRead else Flush)
            && r.done == s.done && r.sig == s.sig && r.reaped == s.reaped && r.revents == s.revents && r.inb == s.inb
            && r.h == s.h.(read := s.h.read + d, seen := r.h.seen)
            && r.timers == s.timers.(read := !full)
            && s.b.at + |d| <= |s.b.buf| && r.b.buf == Blit(s.b.buf, s.b.at, d)
            && r.b.at == s.b.at + |d| && r.b.total == s.b.total + |d| && r.b.free == s.b.free - |d|
            && r.b.minlimit == (if s.b.lastWs then s.b.lastWrite + r.b.total / 2 else s.b.minlimit)
            && r.b.limitEx == (s.b.limitEx || full) && r.b.raised == (s.b.raised || s.b.lastWs)
            && r.b.lastRead == |d|
            && r.b.timerEx == s.b.timerEx && r.b.lastWs == s.b.lastWs && r.b.lastWrite == s.b.lastWrite
  {
    hide Blit;
  }

  /** The return of `writensockint` in batched mode, field by field. */
  lemma ReturnFields(c: Config, s: State)
    requires Returning(c, s) && c.Batched()
    ensures WriteReturn(c, s)
         == s.(pc := Head, b := s.b.(lastWrite := W.Result(s.cur), at := 1, free := c.bufferSize, total := 0))
  {
  }

  /** The return of the relay's poll, field by field. */
  lemma PollFields(c: Config, s: State, e: Event)
    requires Shape(c, s) && e.Poll?
    ensures PollStep(c, s, e.code, e.revents)
         == if e.code.Broken?
            then s.(revents := e.revents, done := 11, pc := Left, h := s.h.(code := 11))
            else s.(revents := e.revents,
                    pc := if e.code.Interrupted? then Inter(Hup, Test, true, AtPoll)
                          else if e.revents.pipe then PipeRead else Check)
  {
  }

  /** The read of the self-pipe. */
  lemma PipeFields(c: Config, s: State, e: Event)
    requires Shape(c, s) && (e.Got? || e.Refused?)
    ensures var n := Drained(s.sig, c.bufferSize);
            && n <= s.sig.pipe && n <= |s.inb.buf|
            && PipeStep(c, s, e)
               == if e.Got? then s.(sig := s.sig.(pipe := s.sig.pipe - n),
                                    inb := s.inb.(buf := Blit(s.inb.buf, 0, seq(n, _ => 32))),
                                    pc := Inter(Hup, Test, true, AtPipe))
                  else s.(pc := Inter(Hup, Test, true, AtPipe))
  {
    hide Blit;
  }

  /** A read from the X.25 socket that is no data frame and does not interrupt. */
  lemma OtherFields(c: Config, s: State, e: Event, d: seq<byte>)
    requires Shape(c, s) && e.Got? && d == Take(e.data, c.bufferSize + 1)
    requires |d| == 0 || (|d| == 1 && !e.intr) || (|d| > 1 && d[0] != 0)
    ensures SockReadStep(c, s, e)
         == s.(inb := s.inb.(buf := Blit(s.inb.buf, 0, d)), pc := Flush,
               done := if d == [] then 9 else if |d| == 1 then 10 else s.done,
               timers := if |d| > 1 && (d[1] == 1 || d[1] == 3) then s.timers.(watch := NetTimeout) else s.timers)
  {
    hide Blit;
  }

  /** A data frame. */
  lemma FrameFields(c: Config, s: State, e: Event, d: seq<byte>)
    requires Shape(c, s) && e.Got? && d == Take(e.data, c.bufferSize + 1) && |d| > 1 && d[0] == 0
    ensures SockReadStep(c, s, e)
         == s.(b := s.b.(lastWs := false),
               inb := s.inb.(buf := Blit(s.inb.buf, 0, d), n := |d| - 1, pos := 0,
                             frames := s.inb.frames + [d[1..]], failed := []),
               pc := PtsWrite)
  {
    hide Blit;
  }

  /** A partial or complete write to the pts. */
  lemma PtsFields(c: Config, s: State, e: Event)
    requires Shape(c, s) && s.pc.PtsWrite? && e.Wrote?
    ensures var k := Clip(e.k, s.inb.n - s.inb.pos); var r := PtsWriteStep(c, s, e);
            && k <= s.inb.n - s.inb.pos && s.inb.n < |s.inb.buf|
            && r == s.(inb := r.inb, pc := if s.inb.pos + k < s.inb.n then PtsWrite else Flush)
            && r.inb == s.inb.(pos := s.inb.pos + k, tries := r.inb.tries,
                               out := s.inb.out + s.inb.buf[1 + s.inb.pos..1 + s.inb.pos + k])
  {
  }

  /** A step of the flush decision that sends nothing. */
  lemma NoFlushFields(c: Config, s: State)
    requires Shape(c, s) && !((s.done == 3 || s.b.timerEx || s.b.limitEx) && c.Batched() && s.b.total != 0)
    ensures var clear := (s.done == 3 || s.b.timerEx || s.b.limitEx) && c.Batched();
            FlushStep(c, s) == s.(pc := Head, b := s.b.(timerEx := !clear && s.b.timerEx,
                                                        limitEx := !clear && s.b.limitEx))
  {
  }

  lemma SwitchFields(c: Config, s: State)
    requires Shape(c, s) && s.pc.Switch?
    ensures var r := SwitchStep(c, s);
            && r == s.(h := s.h.(acts := r.h.acts), note := r.note, cur := r.cur, pc := r.pc)
            && r.h.acts == s.h.acts + (if NeedsInvite(s.done) then [ClearInvited] else [])
            && if CircuitLost(s.done) then r.pc == CloseSock
               else if NeedsInvite(s.done) then r.pc == Invite && r.note == [1, 1] && r.cur == W.Begin([1, 1], 2)
               else r.pc == if s.done == 4 || s.done == 5 then Arm(Net) else ChildCheck
  {
    assert s.h.acts + [] == s.h.acts;
  }

  lemma WaitClearFields(c: Config, s: State, w: Waiter, f: Flag)
    requires Shape(c, s) && s.pc == WaitTest(w, f, Clear)
    ensures WaitTestStep(c, s, Tick)
         == s.(sig := Lower(s.sig, f), done := if f == Chld && w.Net? then s.done else 1, pc := WaitNext(w, f))
  {
    hide Shape, Lower, WaitNext;
  }

  lemma DisturbedVia(s: State, m: State, r: State)
    requires Disturbed(s, m) && Disturbed(m, r)
    ensures Disturbed(s, r)
  {
  }

  /** Signals before a step of `do_inter` are part of what may change. */
  lemma DisturbedBySignals(s: State, m: State)
    requires s.pc.Inter? && m == s.(sig := m.sig, timers := m.timers)
    ensures Disturbed(s, m)
  {
  }

  lemma ServedFields(s: State, f: Flag)
    ensures Served(s, f)
         == s.(sig := Lower(s.sig, f),
               done := if f == Alrm then 7 else if f == Exit then 8 else s.done,
               b := s.b.(timerEx := s.b.timerEx || f == Idle))
  {
    hide Lower;
  }

  /** The test of the reported events changes `done`, the place in the program and the end code. */
  lemma CheckFields(c: Config, s: State)
    requires Shape(c, s) && s.pc.Check?
    ensures var pts, sock := s.revents.pts, s.revents.sock;
            var done := if pts.err || pts.nval then 1
                        else if sock.err || sock.nval then 10
                        else if sock.hup then 2
                        else if pts.hup then 3 else s.done;
            CheckStep(c, s) ==
              if pts.err || pts.nval || sock.err || sock.nval || sock.hup
              then s.(done := done, pc := Left, h := s.h.(code := done))
              else s.(done := done, pc := if pts.inp then PtsRead else if sock.inp then SockRead else Flush)
  {
  }

  /** A flush, field by field. */
  lemma FlushFields(c: Config, s: State)
    requires Shape(c, s) && s.pc.Flush? && s.b.total > 0
    ensures var r := Flushing(c, s);
            && r.pc == SockWrite && r.done == s.done && r.sig == s.sig && r.timers == s.timers
            && r.reaped == s.reaped && r.revents == s.revents && r.inb == s.inb
            && r.h == s.h.(flushes := r.h.flushes)
            && r.b.buf == s.b.buf[0 := 0] && r.b.at == s.b.at && r.b.total == s.b.total && r.b.free == s.b.free
            && r.b.minlimit == (if s.b.timerEx && !s.b.raised then s.b.total - s.b.lastRead / 4 else s.b.minlimit)
            && !r.b.timerEx && !r.b.limitEx && r.b.lastWs && !r.b.raised
            && r.b.lastRead == s.b.lastRead && r.b.lastWrite == s.b.lastWrite
            && 2 <= s.b.total + 1 <= |r.b.buf| && r.cur == W.Begin(r.b.buf, s.b.total + 1)
  {
  }

  lemma FlushAt(c: Config, s: State)
    requires Shape(c, s) && s.pc.Flush? && s.b.total > 0 && c.Batched()
    requires s.done == 3 || s.b.timerEx || s.b.limitEx
    ensures Step(c, s, Tick) == Flushing(c, s) && Returning(c, s)
  {
    StepAt(c, s, Tick);
    hide Step;
  }

  lemma DrainsAtMost(sig: Signals, room: nat)
    ensures Drained(sig, room) <= sig.pipe
  {
  }

  class PadWorker {
    const c: Config
    // the kernel's side
    var tape: seq<Event>
    var stopped: bool
    var ptsIn: seq<byte>        // taken from the pts
    var ptsOut: seq<byte>       // given to the pts
    var wire: seq<seq<byte>>    // packets given to the X.25 socket
    var acts: seq<Act>
    // globals
    var done: nat
    var sig: Signals
    var timers: Timers
    var reaped: bool
    // locals of do_copy
    var revents: Polled
    const bufd: array<byte>
    const bufn: array<byte>
    var at: nat
    var total: nat
    var free: nat
    var minlimit: int
    var timerEx: bool
    var limitEx: bool
    var lastWs: bool
    var raised: bool
    var lastRead: nat
    var lastWrite: int
    // the machine
    ghost var m: State
    ghost var trace: seq<Event>
    ghost const script: seq<Event>  // the whole tape

    /** The variables other than `bufd` have the values that the machine state `s` gives them. */
    ghost predicate Matches(s: State)
      reads this, bufn
    {
      && done == s.done && sig == s.sig && timers == s.timers && reaped == s.reaped && revents == s.revents
      && at == s.b.at && total == s.b.total && free == s.b.free && minlimit == s.b.minlimit
      && timerEx == s.b.timerEx && limitEx == s.b.limitEx && lastWs == s.b.lastWs && raised == s.b.raised
      && lastRead == s.b.lastRead && lastWrite == s.b.lastWrite
      && bufn[..] == s.inb.buf
      && ptsIn == s.h.read && ptsOut == s.inb.out && wire == s.h.sent + s.h.control && acts == s.h.acts
    }

    ghost predicate Agrees(s: State)
      reads this, bufd, bufn
    {
      Matches(s) && bufd[..] == s.b.buf
    }

    /**
     The trace follows the tape: what it has heard, the events `due` that are taken but not yet followed, and the
     rest of the tape are what the tape had at the start, in order; and no answer was passed over outside a call.
     */
    ghost predicate Follows(due: seq<Event>)
      requires c.Valid()
      reads this`trace, this`tape
    {
      Heard(trace) + Heard(due) + Heard(tape) == Heard(script) && Prompt(c, trace)
    }

    /** An execution ends early only where the tape or the process does. */
    ghost predicate Ended()
      reads this`stopped, this`tape, this`m
    {
      stopped ==> tape == [] || m.pc.Exited?
    }

    /** `m` is the state that the machine reaches by the events so far, and the events `due` come next. */
    ghost predicate RanBut(due: seq<Event>)
      reads this`m, this`trace, this`tape, this`stopped
    {
      c.Valid() && bufd != bufn && m == Run(c, trace) && Ended() && Follows(due)
    }

    /** `m` is the state that the machine reaches by the events so far. */
    ghost predicate Ran()
      reads this`m, this`trace, this`tape, this`stopped
    {
      RanBut([])
    }

    ghost predicate Live()
      reads this, bufd, bufn
    {
      Ran() && Agrees(m) && !stopped
    }

    /** The event `e` has been taken from the tape, and it is about to be followed. */
    ghost predicate Has(e: Event)
      reads this, bufd, bufn
    {
      RanBut([e]) && Agrees(m) && !stopped
    }

    constructor (c: Config, tape: seq<Event>)
      requires c.Valid()
      ensures Live() && m == Init(c) && this.c == c && this.tape == tape && script == tape
      ensures fresh(bufd) && fresh(bufn)
    {
      this.c, this.tape, this.script, stopped := c, tape, tape, false;
      ptsIn, ptsOut, wire, acts := [], [], [], [];
      done, sig, timers, reaped := 0, c.signals, Timers(false, Off), false;
      revents := Polled(NO_EVENTS, NO_EVENTS, false);
      bufd := new byte[|c.bufd|](i requires 0 <= i < |c.bufd| => c.bufd[i]);
      bufn := new byte[|c.bufn|](i requires 0 <= i < |c.bufn| => c.bufn[i]);
      at, total, free, minlimit := 1, 0, c.bufferSize, c.minLength;
      timerEx, limitEx, lastWs, raised := false, false, false, false;
      lastRead, lastWrite := 10, 10;
      m, trace := Init(c), [];
      new;
      NothingHeard();
      assert bufd[..] == c.bufd && bufn[..] == c.bufn;
      assert Follows([]) by { assert [] + [] + Heard(tape) == Heard(tape); }
    }

    /** The execution is a run that follows the tape, and it ended early only with the tape or the process. */
    ghost predicate Executed()
      reads this`m, this`trace, this`tape, this`stopped
    {
      && c.Valid() && m == Run(c, trace) && Prompt(c, trace) && Heard(trace) + Heard(tape) == Heard(script)
      && (if stopped then tape == [] || m.pc.Exited? else m.pc.Finished?)
    }

    /**
     The packets relayed so far carry a prefix of what the pts delivered; all of it after a hang-up; every later
     packet has Q byte 1.
     */
    ghost predicate PacketsInOrder()
      reads this
    {
      var k := |m.h.sent|;
      && k <= |wire|
      && W.Payloads(wire[..k]) <= ptsIn
      && (forall i :: 0 <= i < k ==> wire[i] != [] && c.bufd != [] && wire[i][0] == c.QByte())
      && (forall i :: k <= i < |wire| ==> wire[i] != [] && wire[i][0] == 1)
      && (!stopped && m.h.code == 3 ==> W.Payloads(wire[..k]) == ptsIn)
    }

    /** The closing acts were performed once each and in order, and every inbound frame was delivered. */
    ghost predicate Closed()
      reads this
    {
      && acts == [PtsClosed, RemovalSent] + (if NeedsInvite(m.h.code) then [ClearInvited] else []) + [SockClosed]
      && |m.inb.frames| == |m.inb.tries| && ptsOut == Deliveries(m.inb.frames, m.inb.tries)
    }

    lemma ExecutedSo()
      requires Ran() && (!stopped ==> m.pc.Finished?)
      ensures Executed()
    {
      hide Run, Prompt, Heard;
      NothingHeard();
      assert Heard(trace) + [] == Heard(trace);
    }

    lemma PacketsSo()
      requires c.Valid() && m == Run(c, trace) && Agrees(m) && (!stopped ==> m.pc.Finished?)
      ensures PacketsInOrder()
    {
      hide Run, Bounded, Unstranded, Growing, Delivered, Guarded, Coded;
      RunData(c, trace);
      RunControl(c, trace);
      assert wire[..|m.h.sent|] == m.h.sent;
    }

    lemma ClosedSo()
      requires c.Valid() && m == Run(c, trace) && Agrees(m) && m.pc.Finished?
      ensures Closed()
    {
      hide Run, Relayed, Guarded, Coded;
      RunData(c, trace);
      RunControl(c, trace);
    }

    /** `do_copy`. */
    method DoCopy()
      requires Live() && m.pc == Head
      modifies this, bufd, bufn
      ensures Agrees(m) && Executed() && PacketsInOrder() && (!stopped ==> Closed())
    {
      hide Ran, RanBut, Agrees, Executed, PacketsInOrder, Closed;
      Relay();
      if !stopped { Close(); }
      ExecutedSo();
      ExecutedRun();
      PacketsSo();
      if !stopped { ClosedSo(); }
    }

    lemma ExecutedRun()
      requires Executed()
      ensures c.Valid() && m == Run(c, trace)
    {
      hide Run, Prompt, Heard;
    }

    /** The machine follows the event that was taken. */
    ghost method Follow(e: Event)
      requires RanBut([e]) && OnTime(m, e) && !stopped
      modifies this`m, this`trace
      ensures Ran() && m == Step(c, old(m), e) && trace == old(trace) + [e]
    {
      hide Run, Step, OnTime, Prompt, Heard;
      RunSnoc(c, trace, e);
      PromptSnoc(c, trace, e);
      HeardSplit(trace, [e]);
      NothingHeard();
      assert Heard(trace + [e]) + [] == Heard(trace) + Heard([e]);
      m := Step(c, m, e);
      trace := trace + [e];
    }

    /** The machine performs an internal step. */
    ghost method Go()
      requires Ran() && !stopped
      modifies this`m, this`trace
      ensures Ran() && m == Step(c, old(m), Tick) && trace == old(trace) + [Tick]
    {
      NothingHeard();
      hide Run, Step, Heard, Prompt;
      Follow(Tick);
    }

    /** The variables stay in agreement with a state that the machine leaves behind. */
    ghost method GoFrom(s: State)
      requires Ran() && Agrees(s) && !stopped
      modifies this`m, this`trace
      ensures Ran() && Agrees(s) && m == Step(c, old(m), Tick) && trace == old(trace) + [Tick]
    {
      hide Run, Follows, Ended, Step;
      Go();
    }

    ghost method FollowFrom(s: State, e: Event)
      requires RanBut([e]) && OnTime(m, e) && Agrees(s) && !stopped
      modifies this`m, this`trace
      ensures Ran() && Agrees(s) && m == Step(c, old(m), e) && trace == old(trace) + [e]
    {
      hide Run, Follows, Ended, Step;
      Follow(e);
    }

    /** A `chil_sig_*` handler runs, after its timer has expired if it has one. */
    method Handler(f: Flag, timers': Timers, ghost e: Event)
      requires Has(e) && Environment(e)
      requires Step(c, m, e) == m.(sig := Raise(m.sig, f), timers := timers')
      modifies this
      ensures Ran() && Agrees(m) && tape == old(tape) && !stopped
      ensures m == old(m).(sig := m.sig, timers := m.timers)
    {
      hide Run, Follows, Ended, Step;
      timers := timers';
      sig := Raise(sig, f);
      Follow(e);
    }

    /** A signal, a timer, the end of the process, or an answer that nobody waits for. */
    method React(e: Event)
      requires Has(e) && !m.pc.Finished?
      requires Environment(e) || (CallAt(m.pc) != NoCall && !Answers(CallAt(m.pc), e))
      modifies this
      ensures Ran() && Agrees(m) && tape == old(tape)
      ensures !stopped ==> m == old(m).(sig := m.sig, timers := m.timers)
    {
      hide Run, Follows, LoopStep, ClosingStep, Answers, CallAt;
      if e.Signal? {
        Handler(e.f, timers, e);
      } else if e.ReadTimerExpires? && timers.read {
        Handler(Idle, timers.(read := false), e);
      } else if e.WatchTimerExpires? && timers.watch != Off {
        Handler(Alrm, timers.(watch := Off), e);
      } else {
        if !Environment(e) { OthersAreIgnored(c, m, e); }
        Follow(e);
        stopped := e.Killed?;
      }
    }

    /** The next event of the tape. */
    method NextEvent() returns (e: Event)
      requires Live() && tape != []
      modifies this`tape
      ensures Has(e) && e == old(tape)[0] && tape == old(tape)[1..]
    {
      hide Run, Heard, Prompt;
      e := tape[0];
      NothingHeard();
      HeardSplit([e], tape[1..]);
      assert tape == [e] + tape[1..];
      Regroup(Heard(trace), Heard([e]), Heard(tape[1..]));
      assert Heard(trace) + [] == Heard(trace);
      tape := tape[1..];
    }

    /** The tape ends. */
    method Stop()
      requires Live() && tape == []
      modifies this`stopped
      ensures Ran() && Agrees(m) && stopped
    {
      stopped := true;
    }

    /** Signals that arrive here, between two steps of the main thread. */
    method Interrupts()
      requires Live() && !m.pc.Finished?
      modifies this
      ensures Ran() && Agrees(m) && |tape| <= |old(tape)|
      ensures !stopped ==> m == old(m).(sig := m.sig, timers := m.timers)
    {
      hide Ran, RanBut, Agrees;
      while !stopped && tape != [] && Environment(tape[0])
        invariant Ran() && Agrees(m) && |tape| <= |old(tape)|
        invariant !stopped ==> m == old(m).(sig := m.sig, timers := m.timers)
        decreases |tape|
      {
        var e := NextEvent();
        React(e);
      }
    }

    /** The kernel call of the main thread returns. */
    method Await(call: Call) returns (e: Event)
      requires Live() && call != NoCall && CallAt(m.pc) == call
      modifies this
      ensures |tape| <= |old(tape)| && (stopped ==> Ran() && Agrees(m))
      ensures !stopped ==>
                && Has(e)
                && m == old(m).(sig := m.sig, timers := m.timers)
                && Answers(call, e)
                && |tape| < |old(tape)|
    {
      hide Ran, RanBut, Agrees, Answers;
      e := Tick;
      while !stopped
        invariant Ran() && Agrees(m) && |tape| <= |old(tape)|
        invariant !stopped ==> m == old(m).(sig := m.sig, timers := m.timers)
        decreases |tape|
      {
        if tape == [] {
          Stop();
          return;
        }
        e := NextEvent();
        if Answers(call, e) { return; }
        React(e);
      }
    }

    // -----------------------------------------------------------------------------------------
    // do_inter

    /** One flag of `do_inter`: test it, act on it, clear it.  `before` is the state that `m` moves on from. */
    method ServeFlag(f: Flag, go: bool, ghost site: Site) returns (go': bool, ghost before: State)
      requires Live() && m.pc == Inter(f, Test, go, site)
      modifies this
      ensures Ran() && |tape| <= |old(tape)| && (stopped ==> Agrees(m))
      ensures !stopped ==>
                && Agrees(before) && Shape(c, before) && Disturbed(old(m), before)
                && m == InterNext(c, before, f, go', site)
    {
      hide Ran, RanBut, Agrees, InterNext, Shape, Disturbed;
      go', before := go, m;
      Interrupts();
      if stopped { return; }
      ghost var start := m;
      DisturbedBySignals(old(m), start);
      var up := TestFlag(f, go, site);
      before := start;
      if up {
        ghost var seen := m;
        go', before := RaisedFlag(f, go, site);
        if stopped { return; }
        DisturbedVia(start, seen, before);
      }
      DisturbedVia(old(m), start, before);
    }

    method TestFlag(f: Flag, go: bool, ghost site: Site) returns (up: bool)
      requires Live() && m.pc == Inter(f, Test, go, site)
      modifies this
      ensures Ran() && !stopped && tape == old(tape)
      ensures Agrees(old(m)) && Shape(c, old(m)) && Disturbed(old(m), old(m))
      ensures if up
              then && Agrees(m) && Disturbed(old(m), m)
                   && m.pc == Inter(f, if ServedFirst(f) then Serve else Clear, go, site)
              else m == InterNext(c, old(m), f, go, site)
    {
      hide Run, Follows, Ended, Step, InterNext, Shape;
      InterAt(c, m, Tick, f, Test, go, site);
      up := sig.Up(f);
      Go();
    }

    method RaisedFlag(f: Flag, go: bool, ghost site: Site) returns (go': bool, ghost before: State)
      requires Live() && m.pc == Inter(f, if ServedFirst(f) then Serve else Clear, go, site)
      modifies this
      ensures Ran() && |tape| <= |old(tape)| && (stopped ==> Agrees(m))
      ensures !stopped ==>
                && Agrees(before) && Shape(c, before) && Disturbed(old(m), before)
                && m == InterNext(c, before, f, go', site)
    {
      hide Ran, RanBut, Agrees, InterNext, Shape, Disturbed;
      go', before := go, m;
      DisturbedBySignals(old(m), m);
      if f == Chld {
        ReapChild(go, site);
        if stopped { return; }
      } else if f == Hup {
        ReadCfg(go, site);
        if stopped { return; }
      }
      ghost var settled := m;
      Interrupts();
      if stopped { return; }
      ghost var start := m;
      DisturbedBySignals(settled, start);
      go', before := ActOn(f, go, site);
      DisturbedVia(old(m), settled, start);
      DisturbedVia(old(m), start, before);
    }

    /** `recv_exit_status`. */
    method ReapChild(go: bool, ghost site: Site)
      requires Live() && m.pc == Inter(Chld, Serve, go, site)
      modifies this
      ensures Ran() && Agrees(m) && |tape| <= |old(tape)|
      ensures !stopped ==> Disturbed(old(m), m) && m.pc == Inter(Chld, Clear, go, site)
    {
      hide Ran, RanBut, Agrees, Disturbed;
      var e := Await(WaitpidCall);
      if stopped { return; }
      ghost var before := m;
      DisturbedBySignals(old(m), before);
      Waited(e, go, site);
      DisturbedVia(old(m), before, m);
    }

    method Waited(e: Event, go: bool, ghost site: Site)
      requires Has(e) && m.pc == Inter(Chld, Serve, go, site) && e.Reaped?
      modifies this
      ensures Ran() && Agrees(m) && !stopped && tape == old(tape)
      ensures Disturbed(old(m), m) && m.pc == Inter(Chld, Clear, go, site)
    {
      hide Run, Follows, Ended, Step, InterNext, Shape;
      reaped := reaped || e.got;
      InterAt(c, m, e, Chld, Serve, go, site);
      Follow(e);
    }

    /** `readcfg`; the session keeps its configuration. */
    method ReadCfg(go: bool, ghost site: Site)
      requires Live() && m.pc == Inter(Hup, Serve, go, site)
      modifies this
      ensures Ran() && Agrees(m) && |tape| <= |old(tape)|
      ensures !stopped ==> Disturbed(old(m), m) && m.pc == Inter(Hup, Clear, go, site)
    {
      hide Run, Follows, Ended, Step, InterNext, Shape;
      Interrupts();
      if stopped { return; }
      InterAt(c, m, Tick, Hup, Serve, go, site);
      Go();
    }

    method ActOn(f: Flag, go: bool, ghost site: Site) returns (go': bool, ghost before: State)
      requires Live() && m.pc == Inter(f, Clear, go, site)
      modifies this
      ensures Ran() && !stopped && tape == old(tape)
      ensures Agrees(before) && Shape(c, before) && Disturbed(old(m), before)
      ensures m == InterNext(c, before, f, go', site)
    {
      hide Run, Follows, Ended, Step, InterNext, Shape, Disturbed, Served, Agrees;
      before := Served(m, f);
      InterAt(c, m, Tick, f, Clear, go, site);
      go' := Act(f, go, m);
      GoFrom(before);
    }

    method Act(f: Flag, go: bool, ghost s: State) returns (go': bool)
      requires Agrees(s)
      modifies this`done, this`timerEx, this`sig
      ensures Agrees(Served(s, f)) && go' == (go && f != Alrm && f != Exit)
    {
      hide Lower;
      ServedFields(s, f);
      go' := go;
      if f == Alrm {
        done, go' := 7, false;
      } else if f == Exit {
        done, go' := 8, false;
      } else if f == Idle {
        timerEx := true;
      }
      sig := Lower(sig, f);
    }

    method DoInter(ghost site: Site) returns (go: bool, ghost before: State)
      requires Live() && m.pc == Inter(Hup, Test, true, site)
      modifies this
      ensures Ran() && |tape| <= |old(tape)| && (stopped ==> Agrees(m))
      ensures !stopped ==>
                && Agrees(before) && Shape(c, before) && Disturbed(old(m), before)
                && m == InterReturn(c, before, go, site)
    {
      hide Run, Follows, Ended, Step, InterReturn, Shape;
      go, before := ServeFlag(Hup, true, site);
      if stopped { return; }
      go, before := ServeFlag(Alrm, go, site);
      if stopped { return; }
      go, before := ServeFlag(Exit, go, site);
      if stopped { return; }
      go, before := ServeFlag(Idle, go, site);
      if stopped { return; }
      go, before := ServeFlag(Chld, go, site);
    }

    /** `do_inter` where its result does not matter: the program goes on behind the call. */
    method Interrupted(ghost site: Site)
      requires Live() && m.pc == Inter(Hup, Test, true, site) && site != AtSockWrite
      modifies this
      ensures Ran() && Agrees(m) && |tape| <= |old(tape)|
      ensures !stopped ==>
                && m.inb == old(m).inb && revents == old(revents)
                && m.pc == match site
                           case AtPoll => if revents.pipe then PipeRead else Check
                           case AtPipe => Check
                           case AtPtsRead => if revents.sock.inp then SockRead else Flush
                           case AtSockRead => Flush
                           case _ => PtsWrite
    {
      hide Run, Follows, Ended, Step, Shape;
      var _, _ := DoInter(site);
    }

    // -----------------------------------------------------------------------------------------
    // writensockint

    /** The machine has moved on from `before` to the return of `writensockint`. */
    ghost predicate Returns(start: State, before: State)
      reads this
    {
      Writing(start, before) && Returning(c, before) && m == WriteReturn(c, before)
    }

    /** `write` failed: run the interrupt handler, or count the error.  `again`: the loop goes on. */
    method WriteFailed(e: Event, cerr: nat) returns (cerr': nat, again: bool, ghost before: State)
      requires Has(e) && m.pc == SockWrite && e.Refused? && m.cur.errors == cerr
      modifies this
      ensures Ran() && |tape| <= |old(tape)| && (stopped ==> Agrees(m))
      ensures !stopped ==>
                if again
                then Agrees(m) && Writing(old(m), m) && m.pc == SockWrite && m.cur == old(m.cur).(errors := cerr')
                else Agrees(before) && Returns(old(m), before) && before.cur == old(m.cur)
    {
      hide Run, Follows, Ended, Step, SockWriteStep, WriteReturn, Shape;
      cerr', again, before := cerr, true, m;
      RefusedAt(c, m, e);
      if e.intr {
        Follow(e);
        again, before := DoInter(AtSockWrite);
        if !stopped { ShapeReturns(c, before); }
      } else {
        cerr' := cerr + 1;
        if cerr' >= W.MAX_ERROR_WRITE {
          done, again := 10, false;
          before := m.(done := 10);
        }
        Follow(e);
      }
    }

    /** The first `nbytes` of `bufd`: the Q byte and the payload.  `before` is the state at the return. */
    method WriteNSockInt(nbytes: nat) returns (iw: int, ghost before: State)
      requires Live() && m.pc == SockWrite && 2 <= nbytes <= bufd.Length && m.cur == W.Begin(bufd[..], nbytes)
      modifies this, bufd
      ensures Ran() && |tape| <= |old(tape)| && (stopped ==> Agrees(m))
      ensures !stopped ==> Returns(old(m), before) && Agrees(before) && iw == W.Result(before.cur)
    {
      hide Run, Follows, Ended, Step, SockWriteStep, WriteReturn, InterReturn, Shape, W.Packet;
      var qbait := bufd[0];
      var nleft: nat := nbytes - 1;
      var ptr: nat, cerr: nat := 0, 0;
      iw, before := 0, m;
      while nleft > 0
        invariant Ran() && !stopped && |tape| <= |old(tape)|
        invariant nleft > 0 ==>
                    && m.pc == SockWrite && Writing(old(m), m) && m.cur == W.Cursor(nbytes, qbait, nleft, ptr, cerr)
                    && ptr < bufd.Length && Matches(m) && bufd[..][ptr := qbait] == m.b.buf
        invariant nleft == 0 ==> Returns(old(m), before) && Agrees(before) && W.Result(before.cur) == nbytes
        decreases |tape|
      {
        bufd[ptr] := qbait;
        var e := Await(WriteCall);
        if stopped { return; }
        if e.Refused? {
          var again;
          cerr, again, before := WriteFailed(e, cerr);
          if stopped { return; }
          if !again { return nbytes - nleft, before; }
        } else {
          before := Taken(e, ptr, nleft);
          var k := Clip(e.k, nleft + 1);
          cerr := 0;
          nleft := nleft - k + 1;
          ptr := ptr + k - 1;
        }
      }
      iw := nbytes - nleft;
    }

    /** The kernel takes a packet of at most `nleft + 1` bytes that starts at `ptr`. */
    method Taken(e: Event, ptr: nat, nleft: nat) returns (ghost before: State)
      requires Has(e) && m.pc == SockWrite && e.Wrote? && m.cur.ptr == ptr && m.cur.left == nleft
      modifies this
      ensures Ran() && !stopped && tape == old(tape) && W.Ok(old(m).b.buf, old(m).cur) && Matches(before)
      ensures before == AfterWrite(old(m), Clip(e.k, nleft + 1))
      ensures if before.cur.left == 0 then Returns(old(m), before) else m == before
    {
      hide Run, Follows, Ended, Step, SockWriteStep, WriteReturn;
      WroteAt(c, m, e);
      var k := Clip(e.k, nleft + 1);
      before := AfterWrite(m, k);
      wire := wire + [bufd[ptr..ptr + k]];
      NoControlYet();
      Follow(e);
    }

    lemma NoControlYet()
      requires c.Valid() && m == Run(c, trace) && InLoop(m.pc)
      ensures m.h.control == []
    {
      RunControl(c, trace);
    }

    // -----------------------------------------------------------------------------------------
    // writen, and the retry loop around it

    /** The kernel takes at most `nleft` bytes that start at `ptr`. */
    method PtsTaken(e: Event, ptr: nat, nleft: nat)
      requires Has(e) && m.pc == PtsWrite && e.Wrote? && ptr == 1 + m.inb.pos && nleft == m.inb.n - m.inb.pos
      modifies this
      ensures Ran() && Agrees(m) && !stopped && tape == old(tape) && nleft > 0
      ensures var k := Clip(e.k, nleft);
              && m.inb.n == old(m).inb.n && m.inb.pos == old(m).inb.pos + k
              && m.pc == if k < nleft then PtsWrite else Flush
    {
      hide Run, Follows, Ended, Step, Shape;
      PtsAt(c, m, e);
      PtsFields(c, m, e);
      hide PtsWriteStep, Clip;
      ptsOut := ptsOut + bufn[ptr..ptr + Clip(e.k, nleft)];
      Follow(e);
    }

    /** Sends `nbytes` of `bufn2` to the pts; a failed answer `e` is left to the caller. */
    method WriteN(nbytes: nat) returns (iw: int, e: Event)
      requires Live() && m.pc == PtsWrite && m.inb.n == nbytes && m.inb.pos == 0 && nbytes > 0
      modifies this
      ensures |tape| <= |old(tape)| && (stopped ==> Ran() && Agrees(m))
      ensures !stopped ==>
                && |tape| < |old(tape)|
                && if iw < 0 then Has(e) && m.pc == PtsWrite && m.inb.n == nbytes && e.Refused?
                   else Live() && m.pc == Flush && iw == nbytes
    {
      hide Run, Follows, Ended, Step, Shape, PtsWriteStep;
      e := Tick;
      iw := 0;
      var nleft: nat, ptr: nat := nbytes, 1;
      while nleft > 0
        invariant Ran() && Agrees(m) && !stopped && |tape| <= |old(tape)|
        invariant nleft < nbytes ==> |tape| < |old(tape)|
        invariant ptr + nleft == nbytes + 1 && m.inb.n == nbytes && m.inb.pos == ptr - 1
        invariant m.pc == if nleft > 0 then PtsWrite else Flush
        decreases |tape|
      {
        e := Await(WriteCall);
        if stopped { return; }
        if e.Refused? { return -1, e; }
        PtsTaken(e, ptr, nleft);
        var k := Clip(e.k, nleft);
        nleft := nleft - k;
        ptr := ptr + k;
      }
      iw := nbytes - nleft;
    }

    /** `writen` returned -1: interrupted, or an error that `Done` remembers. */
    method PtsFailed(e: Event)
      requires Has(e) && m.pc == PtsWrite && e.Refused?
      modifies this
      ensures Ran() && Agrees(m) && |tape| <= |old(tape)|
      ensures !stopped ==> m.pc == PtsWrite && m.inb.n == old(m).inb.n && m.inb.pos == 0
    {
      hide Run, Follows, Ended, Step, Shape;
      PtsAt(c, m, e);
      if e.intr {
        Follow(e);
        Interrupted(AtPtsWrite);
      } else {
        done := 1;
        Follow(e);
      }
    }

    /** The inbound payload in `bufn2`: tried again from its first byte until all of it is written. */
    method SendToPts(nbytes: nat)
      requires Live() && m.pc == PtsWrite && m.inb.n == nbytes && m.inb.pos == 0 && nbytes > 0
      modifies this
      ensures Ran() && Agrees(m) && |tape| <= |old(tape)|
      ensures !stopped ==> m.pc == Flush
    {
      hide Run, Follows, Ended, Step, Shape;
      var iw, e := WriteN(nbytes);
      while !stopped && iw < 0
        invariant |tape| <= |old(tape)| && (stopped ==> Ran() && Agrees(m))
        invariant !stopped ==>
                    if iw < 0 then Has(e) && m.pc == PtsWrite && e.Refused? && m.inb.n == nbytes
                    else Live() && m.pc == Flush
        decreases |tape|, !stopped
      {
        PtsFailed(e);
        if stopped { return; }
        iw, e := WriteN(nbytes);
      }
    }

    // -----------------------------------------------------------------------------------------
    // do_copy

    /** The read from the pts. */
    method ReadMaster()
      requires Live() && m.pc == PtsRead
      modifies this, bufd
      ensures Ran() && Agrees(m) && |tape| <= |old(tape)|
      ensures !stopped ==> m.pc == if revents.sock.inp then SockRead else Flush
    {
      hide Run, Follows, Ended, Step, Shape, PtsReadStep;
      var e := Await(ReadCall);
      if stopped { return; }
      if e.Got? {
        var room := if c.Batched() then free else c.bufferSize;
        var d := Take(e.data, room);
        if d == [] {
          MasterEnded(e);
        } else if c.Batched() {
          MasterAppends(e, d);
        } else {
          MasterForwards(e, d);
        }
      } else {
        MasterRefused(e);
      }
    }

    method MasterRefused(e: Event)
      requires Has(e) && m.pc == PtsRead && e.Refused?
      modifies this
      ensures Ran() && Agrees(m) && |tape| <= |old(tape)|
      ensures !stopped ==> m.pc == if revents.sock.inp then SockRead else Flush
    {
      hide Run, Follows, Ended, Step, Shape;
      StepAt(c, m, e);
      if e.intr {
        Follow(e);
        Interrupted(AtPtsRead);
      } else {
        done := 1;
        Follow(e);
      }
    }

    method MasterEnded(e: Event)
      requires Has(e) && m.pc == PtsRead && e.Got?
      requires Take(e.data, if c.Batched() then m.b.free else c.bufferSize) == []
      modifies this
      ensures Ran() && Agrees(m) && !stopped && tape == old(tape)
      ensures m.pc == if revents.sock.inp then SockRead else Flush
    {
      hide Run, Follows, Ended, Step, Shape;
      StepAt(c, m, e);
      assert m.h.read + [] == m.h.read;
      done := 6;
      Follow(e);
    }

    /** The batched branch: the bytes join the batch, the threshold and the read timer follow. */
    method MasterAppends(e: Event, d: seq<byte>)
      requires Has(e) && m.pc == PtsRead && e.Got? && c.Batched() && d == Take(e.data, m.b.free) && d != []
      modifies this, bufd
      ensures Ran() && Agrees(m) && !stopped && tape == old(tape)
      ensures m.pc == if revents.sock.inp then SockRead else Flush
    {
      hide Run, Follows, Ended, Step, Blit, Shape, ReadInto;
      ReadAt(c, m, e, d);
      ReadFields(c, m, d);
      CopyInto(bufd, at, d);
      Counted(e, d, ReadInto(c, m, d));
    }

    /** The variables of the batched branch, once the bytes are in the buffer. */
    method Counted(e: Event, d: seq<byte>, ghost r: State)
      requires RanBut([e]) && Matches(m) && !stopped && m.pc == PtsRead && r == Step(c, m, e)
      requires |d| <= free && bufd[..] == r.b.buf
      requires var full := r.b.total >= r.b.minlimit;
               && r.done == done && r.sig == sig && r.reaped == reaped && r.revents == revents && r.inb == m.inb
               && r.h == m.h.(read := ptsIn + d, seen := r.h.seen)
               && r.timers == timers.(read := !full)
               && r.b.at == at + |d| && r.b.total == total + |d| && r.b.free == free - |d|
               && r.b.minlimit == (if lastWs then lastWrite + r.b.total / 2 else minlimit)
               && r.b.limitEx == (limitEx || full) && r.b.raised == (raised || lastWs)
               && r.b.lastRead == |d|
               && r.b.timerEx == timerEx && r.b.lastWs == lastWs && r.b.lastWrite == lastWrite
      modifies this
      ensures Ran() && Agrees(m) && !stopped && tape == old(tape) && m == r && revents == old(revents)
    {
      hide Run, Follows, Ended, Step, Shape;
      Account(d);
      assert Agrees(r);
      hide Agrees;
      FollowFrom(r, e);
    }

    /** The arithmetic of the batched branch. */
    method Account(d: seq<byte>)
      requires |d| <= free
      modifies this`free, this`at, this`total, this`lastRead, this`minlimit, this`raised, this`limitEx, this`timers
      modifies this`ptsIn
      ensures ptsIn == old(ptsIn) + d
      ensures free == old(free) - |d| && at == old(at) + |d| && total == old(total) + |d| && lastRead == |d|
      ensures minlimit == if lastWs then lastWrite + total / 2 else old(minlimit)
      ensures raised == (old(raised) || lastWs) && limitEx == (old(limitEx) || total >= minlimit)
      ensures timers == old(timers).(read := total < minlimit)
    {
      var i := |d|;
      ptsIn := ptsIn + d;
      free := free - i;
      at := at + i;
      total := total + i;
      lastRead := i;
      if lastWs {
        minlimit := lastWrite + total / 2;
        raised := true;
      }
      if total >= minlimit {
        limitEx := true;
        timers := timers.(read := false);
      } else {
        timers := timers.(read := true);
      }
    }

    /** The immediate branch: the bytes go straight to the X.25 socket. */
    method MasterForwards(e: Event, d: seq<byte>)
      requires Has(e) && m.pc == PtsRead && e.Got? && !c.Batched() && d == Take(e.data, c.bufferSize) && d != []
      modifies this, bufd
      ensures Ran() && Agrees(m) && |tape| <= |old(tape)|
      ensures !stopped ==> m.pc == if revents.sock.inp then SockRead else Flush
    {
      hide Ran, RanBut, Agrees, W.Begin;
      BufferNow(e, d);
      ForwardNow(|d| + 1);
    }

    method BufferNow(e: Event, d: seq<byte>)
      requires Has(e) && m.pc == PtsRead && e.Got? && !c.Batched() && d == Take(e.data, c.bufferSize) && d != []
      modifies this, bufd
      ensures Live() && tape == old(tape) && m.pc == SockWrite
      ensures 2 <= |d| + 1 <= bufd.Length && m.cur == W.Begin(bufd[..], |d| + 1)
    {
      hide Run, Follows, Ended, Step, Blit, Shape, W.Begin;
      ReadAt(c, m, e, d);
      ptsIn := ptsIn + d;
      CopyInto(bufd, 1, d);
      Follow(e);
    }

    method ForwardNow(n: nat)
      requires Live() && m.pc == SockWrite && !c.Batched()
      requires 2 <= n <= bufd.Length && m.cur == W.Begin(bufd[..], n)
      modifies this, bufd
      ensures Ran() && Agrees(m) && |tape| <= |old(tape)|
      ensures !stopped ==> m.pc == if revents.sock.inp then SockRead else Flush
    {
      hide Run, Follows, Ended, Step, Shape, W.Begin, W.Result, Returning;
      var iw, before := WriteNSockInt(n);
    }

    /** The read from the X.25 socket. */
    method ReadSocket()
      requires Live() && m.pc == SockRead
      modifies this, bufn
      ensures Ran() && Agrees(m) && |tape| <= |old(tape)|
      ensures !stopped ==> m.pc == Flush
    {
      hide Run, Follows, Ended, Step, Shape, SockReadStep;
      var e := Await(ReadCall);
      if stopped { return; }
      if e.Got? {
        var d := Take(e.data, c.bufferSize + 1);
        if |d| > 1 && d[0] == 0 {
          SocketFrame(e, d);
        } else if |d| == 1 && e.intr {
          LoneByte(e, d);
        } else {
          SocketOther(e, d);
        }
      } else {
        SocketRefused(e);
      }
    }

    method SocketRefused(e: Event)
      requires Has(e) && m.pc == SockRead && e.Refused?
      modifies this
      ensures Ran() && Agrees(m) && |tape| <= |old(tape)|
      ensures !stopped ==> m.pc == Flush
    {
      hide Run, Follows, Ended, Step, Shape;
      StepAt(c, m, e);
      if e.intr {
        Follow(e);
        Interrupted(AtSockRead);
      } else {
        done := 10;
        Follow(e);
      }
    }

    /** A data frame. */
    method SocketFrame(e: Event, d: seq<byte>)
      requires Has(e) && m.pc == SockRead && e.Got? && d == Take(e.data, c.bufferSize + 1) && |d| > 1 && d[0] == 0
      modifies this, bufn
      ensures Ran() && Agrees(m) && |tape| <= |old(tape)|
      ensures !stopped ==> m.pc == Flush
    {
      hide Run, Follows, Ended, Step, Shape, Blit;
      StepAt(c, m, e);
      ShapeReturns(c, m);
      FrameFields(c, m, e, d);
      hide SockReadStep;
      CopyInto(bufn, 0, d);
      lastWs := false;
      Follow(e);
      SendToPts(|d| - 1);
    }

    /** End of file, a lone byte, or a PAD message. */
    method SocketOther(e: Event, d: seq<byte>)
      requires Has(e) && m.pc == SockRead && e.Got? && d == Take(e.data, c.bufferSize + 1)
      requires |d| == 0 || (|d| == 1 && !e.intr) || (|d| > 1 && d[0] != 0)
      modifies this, bufn
      ensures Ran() && Agrees(m) && !stopped && tape == old(tape) && m.pc == Flush
    {
      hide Run, Follows, Ended, Step, Shape, Blit, SockReadStep;
      StepAt(c, m, e);
      ShapeReturns(c, m);
      OtherFields(c, m, e, d);
      CopyInto(bufn, 0, d);
      Noted(e, d, m.inb.(buf := bufn[..]));
    }

    method Noted(e: Event, d: seq<byte>, ghost inb: Inbound)
      requires RanBut([e]) && Agrees(m.(inb := inb)) && !stopped && m.pc == SockRead
      requires Step(c, m, e)
            == m.(inb := inb, pc := Flush,
                  done := if d == [] then 9 else if |d| == 1 then 10 else m.done,
                  timers := if |d| > 1 && (d[1] == 1 || d[1] == 3) then m.timers.(watch := NetTimeout) else m.timers)
      modifies this
      ensures Ran() && Agrees(m) && !stopped && tape == old(tape) && m.pc == Flush
    {
      hide Run, Follows, Ended, Step, Shape;
      SocketNote(d);
      Follow(e);
    }

    /** One byte alone while errno still says EINTR. */
    method LoneByte(e: Event, d: seq<byte>)
      requires Has(e) && m.pc == SockRead && e.Got? && d == Take(e.data, c.bufferSize + 1) && |d| == 1 && e.intr
      modifies this, bufn
      ensures Ran() && Agrees(m) && |tape| <= |old(tape)|
      ensures !stopped ==> m.pc == Flush
    {
      hide Run, Follows, Ended, Step, Shape, Blit;
      StepAt(c, m, e);
      ShapeReturns(c, m);
      CopyInto(bufn, 0, d);
      Follow(e);
      Interrupted(AtSockRead);
    }

    /** What the other cases leave behind: an end code, or the shorter timeout after a PAD message. */
    method SocketNote(d: seq<byte>)
      modifies this`done, this`timers
      ensures done == if d == [] then 9 else if |d| == 1 then 10 else old(done)
      ensures timers == if |d| > 1 && (d[1] == 1 || d[1] == 3) then old(timers).(watch := NetTimeout) else old(timers)
    {
      if d == [] {
        done := 9;
      } else if |d| == 1 {
        done := 10;
      } else if d[1] == 1 || d[1] == 3 {
        timers := timers.(watch := NetTimeout);
      }
    }

    /** The flush decision and the flush. */
    method FlushBatch()
      requires Live() && m.pc == Flush
      modifies this, bufd
      ensures Ran() && Agrees(m) && |tape| <= |old(tape)|
      ensures !stopped ==> m.pc == Head
    {
      hide Ran, RanBut, Agrees;
      Interrupts();
      if stopped { return; }
      if (done == 3 || timerEx || limitEx) && c.Batched() && total != 0 {
        SendBatch();
      } else {
        NoFlush();
      }
    }

    method NoFlush()
      requires Live() && m.pc == Flush && !((done == 3 || timerEx || limitEx) && c.Batched() && total != 0)
      modifies this
      ensures Ran() && Agrees(m) && !stopped && tape == old(tape) && m.pc == Head
    {
      hide Run, Follows, Ended, Step, Shape, FlushStep;
      StepAt(c, m, Tick);
      NoFlushFields(c, m);
      if (done == 3 || timerEx || limitEx) && c.Batched() {
        ClearFlags(m);
      }
      ToHead(Step(c, m, Tick));
    }

    method ClearFlags(ghost s: State)
      requires Agrees(s)
      modifies this`timerEx, this`limitEx
      ensures Agrees(s.(b := s.b.(timerEx := false, limitEx := false)))
    {
      timerEx := false;
      limitEx := false;
    }

    ghost method ToHead(r: State)
      requires Ran() && !stopped && Agrees(r.(pc := Flush)) && r == Step(c, m, Tick)
      modifies this`m, this`trace
      ensures Ran() && Agrees(m) && m == r
    {
      hide Run, Follows, Ended, Step;
      Go();
    }

    method SendBatch()
      requires Live() && m.pc == Flush && c.Batched() && (done == 3 || timerEx || limitEx) && total != 0
      modifies this, bufd
      ensures Ran() && Agrees(m) && |tape| <= |old(tape)|
      ensures !stopped ==> m.pc == Head
    {
      hide Run, Follows, Ended, Step, Shape, Flushing, W.Begin;
      FlushAt(c, m);
      FlushFields(c, m);
      StartBatch(Flushing(c, m));
      WriteBatch();
    }

    method StartBatch(ghost r: State)
      requires Ran() && Agrees(m) && !stopped && r == Step(c, m, Tick) && bufd.Length > 0
      requires && r.done == done && r.sig == sig && r.timers == timers && r.reaped == reaped
               && r.revents == revents && r.inb == m.inb && r.h == m.h.(flushes := r.h.flushes)
               && r.b.buf == m.b.buf[0 := 0] && r.b.at == at && r.b.total == total && r.b.free == free
               && r.b.minlimit == (if timerEx && !raised then total - lastRead / 4 else minlimit)
               && !r.b.timerEx && !r.b.limitEx && r.b.lastWs && !r.b.raised
               && r.b.lastRead == lastRead && r.b.lastWrite == lastWrite
      modifies this, bufd
      ensures Live() && tape == old(tape) && m == r
    {
      hide Run, Follows, Ended, Step, Shape;
      PrepareBatch();
      bufd[0] := 0;
      Go();
    }

    method WriteBatch()
      requires Live() && m.pc == SockWrite && c.Batched()
      requires 2 <= total + 1 <= bufd.Length && m.cur == W.Begin(bufd[..], total + 1)
      modifies this, bufd
      ensures Ran() && Agrees(m) && |tape| <= |old(tape)|
      ensures !stopped ==> m.pc == Head
    {
      hide Run, Follows, Ended, Step, Shape, WriteReturn, W.Begin, W.Result, Returning, Agrees;
      var iw, before := WriteNSockInt(total + 1);
      if stopped { return; }
      ReturnFields(c, before);
      ForgetBatch(iw, before);
    }

    method PrepareBatch()
      modifies this`minlimit, this`timerEx, this`limitEx, this`lastWs, this`raised
      ensures minlimit == if old(timerEx && !raised) then total - lastRead / 4 else old(minlimit)
      ensures !timerEx && !limitEx && lastWs && !raised
    {
      if timerEx && !raised {
        minlimit := total - lastRead / 4;
      }
      timerEx := false;
      limitEx := false;
      lastWs := true;
      raised := false;
    }

    method ForgetBatch(iw: int, ghost s: State)
      requires Agrees(s)
      modifies this`lastWrite, this`at, this`free, this`total
      ensures Agrees(s.(pc := Head, b := s.b.(lastWrite := iw, at := 1, free := c.bufferSize, total := 0)))
      ensures lastWrite == iw && at == 1 && free == c.bufferSize && total == 0
    {
      lastWrite := iw;
      at := 1;
      free := c.bufferSize;
      total := 0;
    }

    /** `set_watch_dog`, `poll` and the signals that it reports.  `leave`: break out of the loop. */
    method PollOnce() returns (leave: bool)
      requires Live() && m.pc == Head && done == 0
      modifies this, bufn
      ensures Ran() && Agrees(m) && |tape| <= |old(tape)|
      ensures !stopped ==> |tape| < |old(tape)| && m.pc == if leave then Left else Check
    {
      hide Run, Follows, Ended, Step, Shape;
      leave := false;
      Interrupts();
      if stopped { return; }
      StepAt(c, m, Tick);
      timers := timers.(watch := WatchDog);
      Go();
      var e := Await(PollCall);
      if stopped { return; }
      leave := PollReturned(e);
    }

    method PollReturned(e: Event) returns (leave: bool)
      requires Has(e) && m.pc == Polling && e.Poll?
      modifies this, bufn
      ensures Ran() && Agrees(m) && |tape| <= |old(tape)|
      ensures !stopped ==> m.pc == if leave then Left else Check
    {
      hide Ran, RanBut, Agrees;
      leave := NotePoll(e);
      if leave { return; }
      if e.code.Interrupted? {
        Interrupted(AtPoll);
        if stopped { return; }
      }
      if revents.pipe { PipeSignals(); }
    }

    method NotePoll(e: Event) returns (leave: bool)
      requires Has(e) && m.pc == Polling && e.Poll?
      modifies this
      ensures Ran() && Agrees(m) && !stopped && tape == old(tape)
      ensures leave == e.code.Broken?
      ensures m.pc == if leave then Left
                      else if e.code.Interrupted? then Inter(Hup, Test, true, AtPoll)
                      else if revents.pipe then PipeRead else Check
    {
      hide Run, Follows, Ended, Step, Shape, PollStep;
      StepAt(c, m, e);
      PollFields(c, m, e);
      leave := e.code.Broken?;
      if leave { PollBroken(e, Step(c, m, e)); } else { Polls(e, Step(c, m, e)); }
    }

    method PollBroken(e: Event, ghost r: State)
      requires Has(e) && m.pc == Polling && e.Poll? && r == Step(c, m, e)
      requires r == m.(revents := e.revents, done := 11, pc := Left, h := m.h.(code := 11))
      modifies this
      ensures Ran() && Agrees(m) && !stopped && tape == old(tape) && m.pc == Left
    {
      hide Run, Follows, Ended, Step;
      revents := e.revents;
      done := 11;
      Follow(e);
    }

    method Polls(e: Event, ghost r: State)
      requires Has(e) && m.pc == Polling && e.Poll? && r == Step(c, m, e) && r == m.(revents := e.revents, pc := r.pc)
      modifies this
      ensures Ran() && Agrees(m) && !stopped && tape == old(tape) && m == r && revents == e.revents
    {
      hide Run, Follows, Ended, Step;
      revents := e.revents;
      Follow(e);
    }

    /** The self-pipe is read and the flags are served. */
    method PipeSignals()
      requires Live() && m.pc == PipeRead
      modifies this, bufn
      ensures Ran() && Agrees(m) && |tape| <= |old(tape)|
      ensures !stopped ==> m.pc == Check
    {
      hide Ran, RanBut, Agrees;
      var e := Await(ReadCall);
      if stopped { return; }
      DrainPipe(e);
      Interrupted(AtPipe);
    }

    /** What `read` of the self-pipe leaves behind. */
    method DrainPipe(e: Event)
      requires Has(e) && m.pc == PipeRead && Answers(ReadCall, e)
      modifies this, bufn
      ensures Ran() && Agrees(m) && !stopped && tape == old(tape) && m.pc == Inter(Hup, Test, true, AtPipe)
    {
      hide Run, Follows, Ended, Step, Shape, Blit, PipeStep, Drained;
      StepAt(c, m, e);
      PipeFields(c, m, e);
      if e.Got? {
        var n := Drained(sig, c.bufferSize);
        sig := sig.(pipe := sig.pipe - n);
        CopyInto(bufn, 0, seq(n, _ => 32));
      }
      Follow(e);
    }

    /** The tests for errors and hang-ups. */
    method CheckRevents() returns (leave: bool)
      requires Live() && m.pc == Check
      modifies this
      ensures Ran() && Agrees(m) && |tape| <= |old(tape)|
      ensures !stopped ==>
                m.pc == if leave then Left
                        else if revents.pts.inp then PtsRead
                        else if revents.sock.inp then SockRead else Flush
    {
      hide Ran, RanBut, Agrees;
      leave := false;
      Interrupts();
      if stopped { return; }
      leave := TestRevents();
    }

    method TestRevents() returns (leave: bool)
      requires Live() && m.pc == Check
      modifies this
      ensures Ran() && Agrees(m) && !stopped && tape == old(tape)
      ensures m.pc == if leave then Left
                      else if revents.pts.inp then PtsRead
                      else if revents.sock.inp then SockRead else Flush
    {
      hide Run, Follows, Ended, Step, Shape;
      StepAt(c, m, Tick);
      CheckFields(c, m);
      hide CheckStep;
      leave := EndCode();
      Go();
    }

    method EndCode() returns (leave: bool)
      modifies this`done
      ensures var pts, sock := revents.pts, revents.sock;
              && leave == (pts.err || pts.nval || sock.err || sock.nval || sock.hup)
              && done == if pts.err || pts.nval then 1
                         else if sock.err || sock.nval then 10
                         else if sock.hup then 2
                         else if pts.hup then 3 else old(done)
    {
      var pts, sock := revents.pts, revents.sock;
      if pts.err || pts.nval {
        done := 1;
        return true;
      }
      if pts.hup {
        done := 3;
      }
      if sock.err || sock.nval {
        done := 10;
        return true;
      }
      if sock.hup {
        done := 2;
        return true;
      }
      leave := false;
    }

    /** The relay loop. */
    method Relay()
      requires Live() && m.pc == Head
      modifies this, bufd, bufn
      ensures Ran() && Agrees(m)
      ensures !stopped ==> m.pc == Left
    {
      hide Ran, RanBut, Agrees;
      var leave := false;
      while done == 0 && !leave && !stopped
        invariant Ran() && Agrees(m)
        invariant !stopped ==> m.pc == if leave then Left else Head
        decreases |tape|, !stopped
      {
        leave := PollOnce();
        if stopped || leave { break; }
        leave := CheckRevents();
        if stopped || leave { break; }
        if revents.pts.inp {
          ReadMaster();
          if stopped { break; }
        }
        if revents.sock.inp {
          ReadSocket();
          if stopped { break; }
        }
        FlushBatch();
      }
      if !stopped && !leave { LoopEnds(); }
    }

    method LoopEnds()
      requires Live() && m.pc == Head && done != 0
      modifies this
      ensures Ran() && Agrees(m)
      ensures !stopped ==> m.pc == Left
    {
      hide Run, Follows, Ended, Step, Shape;
      Interrupts();
      if stopped { return; }
      StepAt(c, m, Tick);
      Go();
    }

    // -----------------------------------------------------------------------------------------
    // After the loop

    /** From the end of the relay loop to the end of `do_copy`. */
    method Close()
      requires Live() && m.pc == Left
      modifies this
      ensures Ran() && Agrees(m)
      ensures !stopped ==> m.pc == Finished
    {
      hide Run, Follows, Ended, Step, Shape;
      ClosePtsSide();
      if stopped { return; }
      CloseCircuit();
      if stopped { return; }
      WaitExitStatus();
    }

    method ClosePtsSide()
      requires Live() && m.pc == Left
      modifies this
      ensures Ran() && Agrees(m)
      ensures !stopped ==> m.pc == Switch
    {
      hide Run, Follows, Ended, Step, Shape;
      Interrupts();
      if stopped { return; }
      ClosingAt(c, m, Tick);
      timers := Timers(false, Off);
      Go();
      Perform(PtsClosed);
      if stopped { return; }
      Perform(RemovalSent);
    }

    /** An act on the world: close the pts, write the removal record, close the socket. */
    method Perform(a: Act)
      requires Live() && m.pc == ActAt(a) && !a.ClearInvited?
      modifies this
      ensures Ran() && Agrees(m)
      ensures !stopped ==> m.pc == if a.PtsClosed? then Record else if a.RemovalSent? then Switch else ChildCheck
    {
      hide Ran, RanBut, Agrees;
      Interrupts();
      if stopped { return; }
      Performed(a);
    }

    method Performed(a: Act)
      requires Live() && m.pc == ActAt(a) && !a.ClearInvited?
      modifies this
      ensures Ran() && Agrees(m) && !stopped
      ensures m.pc == if a.PtsClosed? then Record else if a.RemovalSent? then Switch else ChildCheck
    {
      hide Run, Follows, Ended, Step, Shape;
      ClosingAt(c, m, Tick);
      acts := acts + [a];
      Go();
    }

    /** The switch on `Done`. */
    method CloseCircuit()
      requires Live() && m.pc == Switch
      modifies this
      ensures Ran() && Agrees(m)
      ensures !stopped ==> m.pc == ChildCheck
    {
      hide Ran, RanBut, Agrees;
      Interrupts();
      if stopped { return; }
      var code := done;
      SwitchOnDone();
      if CircuitLost(code) {
        Perform(SockClosed);
      } else if NeedsInvite(code) || code == 4 || code == 5 {
        if NeedsInvite(code) {
          X29InvClear();
          if stopped { return; }
        }
        WaitFor(Net);
        if stopped { return; }
        Perform(SockClosed);
      }
    }

    method SwitchOnDone()
      requires Live() && m.pc == Switch
      modifies this
      ensures Ran() && Agrees(m) && !stopped
      ensures if CircuitLost(old(done)) then m.pc == CloseSock
              else if NeedsInvite(old(done)) then m.pc == Invite && m.note == [1, 1] && m.cur == W.Begin([1, 1], 2)
              else m.pc == if old(done) == 4 || old(done) == 5 then Arm(Net) else ChildCheck
    {
      hide Run, Follows, Ended, Step, Shape;
      ClosingAt(c, m, Tick);
      SwitchFields(c, m);
      hide SwitchStep;
      if NeedsInvite(done) { acts := acts + [ClearInvited]; }
      Go();
    }

    method WaitExitStatus()
      requires Live() && m.pc == ChildCheck
      modifies this
      ensures Ran() && Agrees(m)
      ensures !stopped ==> m.pc == Finished
    {
      hide Run, Follows, Ended, Step, Shape;
      Interrupts();
      if stopped { return; }
      ClosingAt(c, m, Tick);
      Go();
      if !reaped { WaitFor(Child); }
    }

    /** `x29inv_clear`: `writensockint` on two bytes of its own. */
    method X29InvClear()
      requires Live() && m.pc == Invite && m.note == [1, 1] && m.cur == W.Begin([1, 1], 2)
      modifies this
      ensures Ran() && Agrees(m)
      ensures !stopped ==> m.pc == Arm(Net)
    {
      hide Run, Follows, Ended, Step, Shape, Agrees;
      var note := new byte[2](_ => 1);
      var nleft: nat, ptr: nat, cerr: nat := 1, 0, 0;
      assert note[..] == [1, 1];
      while nleft > 0
        invariant Ran() && Agrees(m) && !stopped && ptr + nleft == 1
        invariant nleft > 0 ==>
                    m.pc == Invite && m.cur == W.Cursor(2, 1, nleft, ptr, cerr) && note[..][ptr := 1] == m.note
        invariant nleft == 0 ==> m.pc == Arm(Net)
        decreases |tape|
      {
        note[ptr] := 1;
        var e := Await(WriteCall);
        if stopped { return; }
        if e.Refused? {
          if e.intr {
            InviteInterrupted(e);
            return;
          }
          cerr := InviteFailed(e, cerr);
          if cerr == W.MAX_ERROR_WRITE { return; }
        } else {
          var k := InviteTaken(e, note[..], ptr, nleft);
          cerr := 0;
          nleft := nleft - k + 1;
          ptr := ptr + k - 1;
        }
      }
    }

    method InviteFailed(e: Event, cerr: nat) returns (cerr': nat)
      requires Has(e) && m.pc == Invite && e.Refused? && !e.intr && m.cur.errors == cerr
      modifies this
      ensures Ran() && Agrees(m) && !stopped && tape == old(tape) && cerr' == cerr + 1
      ensures if cerr' == W.MAX_ERROR_WRITE then m.pc == Arm(Net)
              else m.pc == Invite && m.cur == old(m).cur.(errors := cerr') && m.note == old(m).note
    {
      hide Run, Follows, Ended, Step;
      ClosingAt(c, m, e);
      cerr' := cerr + 1;
      Follow(e);
    }

    method InviteTaken(e: Event, note: seq<byte>, ptr: nat, nleft: nat) returns (k: nat)
      requires Has(e) && m.pc == Invite && e.Wrote? && note == m.note && m.cur.ptr == ptr && m.cur.left == nleft
      modifies this
      ensures Ran() && Agrees(m) && !stopped && tape == old(tape)
      ensures 1 <= k <= nleft + 1 && W.Ok(old(m).note, old(m).cur)
      ensures m.cur == W.Advance(old(m).cur, k) && m.note == W.Reframe(old(m).note, m.cur)
      ensures m.pc == if m.cur.left == 0 then Arm(Net) else Invite
    {
      hide Run, Follows, Ended, Step;
      ClosingAt(c, m, e);
      k := Clip(e.k, nleft + 1);
      wire := wire + [note[ptr..ptr + k]];
      Follow(e);
    }

    /** The handler of x29proto.c: it exits on an alarm or an exit signal, and the write is not resumed. */
    method InviteInterrupted(e: Event)
      requires Has(e) && m.pc == Invite && e.Refused? && e.intr
      modifies this
      ensures Ran() && Agrees(m)
      ensures !stopped ==> m.pc == Arm(Net)
    {
      hide Run, Follows, Ended, Step, Shape;
      ClosingAt(c, m, e);
      Follow(e);
      InviteFlag(Hup);
      if stopped { return; }
      InviteFlag(Alrm);
      if stopped { return; }
      InviteFlag(Exit);
    }

    method InviteFlag(f: Flag)
      requires Live() && m.pc == InviteInter(f, Test) && (f == Hup || f == Alrm || f == Exit)
      modifies this
      ensures Ran() && Agrees(m)
      ensures !stopped ==>
                m.pc == match f
                        case Hup => InviteInter(Alrm, Test)
                        case Alrm => InviteInter(Exit, Test)
                        case _ => Arm(Net)
    {
      hide Run, Follows, Ended, Step, Shape;
      Interrupts();
      if stopped { return; }
      ClosingAt(c, m, Tick);
      if sig.Up(f) {
        Go();
        if f == Hup {
          InviteReadCfg();
          if stopped { return; }
        }
        InviteServed(f);
      } else {
        Go();
      }
    }

    method InviteReadCfg()
      requires Live() && m.pc == InviteInter(Hup, Serve)
      modifies this
      ensures Ran() && Agrees(m)
      ensures !stopped ==> m.pc == InviteInter(Hup, Clear)
    {
      hide Run, Follows, Ended, Step, Shape;
      Interrupts();
      if stopped { return; }
      ClosingAt(c, m, Tick);
      Go();
    }

    method InviteServed(f: Flag)
      requires Live() && m.pc == InviteInter(f, Clear) && (f == Hup || f == Alrm || f == Exit)
      modifies this
      ensures Ran() && Agrees(m)
      ensures !stopped ==> f == Hup && m.pc == InviteInter(Alrm, Test)
    {
      hide Ran, RanBut, Agrees;
      Interrupts();
      if stopped { return; }
      InviteClears(f);
    }

    method InviteClears(f: Flag)
      requires Live() && m.pc == InviteInter(f, Clear) && (f == Hup || f == Alrm || f == Exit)
      modifies this
      ensures Ran() && Agrees(m)
      ensures !stopped ==> f == Hup && m.pc == InviteInter(Alrm, Test)
    {
      hide Run, Follows, Step, Shape, Lower;
      ClosingAt(c, m, Tick);
      sig := Lower(sig, f);
      Go();
      stopped := f != Hup;
    }

    // -----------------------------------------------------------------------------------------
    // wait_net and wait_exitstatus

    method WaitFor(w: Waiter)
      requires Live() && m.pc == Arm(w)
      modifies this
      ensures Ran() && Agrees(m)
      ensures !stopped ==> m.pc == if w.Net? then CloseSock else Finished
    {
      hide Ran, RanBut, Agrees;
      Armed(w);
      if stopped { return; }
      var leave := false;
      while done == 0 && !leave && !stopped
        invariant Ran() && Agrees(m)
        invariant !stopped ==> m.pc == if leave then Disarm(w) else WaitHead(w)
        decreases |tape|, !stopped
      {
        leave := WaitOnce(w);
      }
      if stopped { return; }
      if !leave { WaitEnds(w); }
      if stopped { return; }
      Disarmed(w);
    }

    method Armed(w: Waiter)
      requires Live() && m.pc == Arm(w)
      modifies this
      ensures Ran() && Agrees(m)
      ensures !stopped ==> m.pc == WaitHead(w)
    {
      hide Ran, RanBut, Agrees;
      Interrupts();
      if stopped { return; }
      SetNetTimeout(w);
    }

    method SetNetTimeout(w: Waiter)
      requires Live() && m.pc == Arm(w)
      modifies this
      ensures Ran() && Agrees(m) && !stopped && m.pc == WaitHead(w)
    {
      hide Run, Follows, Ended, Step, Shape;
      WaitAt(c, m, Tick);
      done := 0;
      timers := timers.(watch := NetTimeout);
      Go();
    }

    method WaitEnds(w: Waiter)
      requires Live() && m.pc == WaitHead(w) && done != 0
      modifies this
      ensures Ran() && Agrees(m)
      ensures !stopped ==> m.pc == Disarm(w)
    {
      hide Run, Follows, Ended, Step, Shape;
      Interrupts();
      if stopped { return; }
      WaitAt(c, m, Tick);
      Go();
    }

    method Disarmed(w: Waiter)
      requires Live() && m.pc == Disarm(w)
      modifies this
      ensures Ran() && Agrees(m)
      ensures !stopped ==> m.pc == if w.Net? then CloseSock else Finished
    {
      hide Run, Follows, Ended, Step, Shape;
      Interrupts();
      if stopped { return; }
      WaitAt(c, m, Tick);
      timers := timers.(watch := Off);
      Go();
    }

    method WaitOnce(w: Waiter) returns (leave: bool)
      requires Live() && m.pc == WaitHead(w) && done == 0
      modifies this
      ensures Ran() && Agrees(m)
      ensures !stopped ==> |tape| < |old(tape)| && m.pc == if leave then Disarm(w) else WaitHead(w)
      ensures |tape| <= |old(tape)|
    {
      hide Run, Follows, Ended, Step, Shape;
      leave := false;
      Interrupts();
      if stopped { return; }
      WaitAt(c, m, Tick);
      Go();
      var e := Await(PollCall);
      if stopped { return; }
      leave := WaitPolled(w, e);
      if stopped || leave { return; }
      if revents.pipe {
        WaitSignals(w);
        if stopped { return; }
      }
      leave := WaitSocket(w);
    }

    method WaitPolled(w: Waiter, e: Event) returns (leave: bool)
      requires Has(e) && m.pc == WaitPoll(w) && e.Poll?
      modifies this
      ensures Ran() && Agrees(m) && !stopped && tape == old(tape)
      ensures m.pc == if leave then Disarm(w) else if revents.pipe then WaitPipe(w) else WaitCheck(w)
    {
      hide Run, Follows, Ended, Step, Shape;
      WaitAt(c, m, e);
      revents := e.revents;
      leave := e.code.Broken?;
      if leave { done := 11; }
      ghost var r := Step(c, m, e);
      assert Agrees(r);
      hide Agrees;
      FollowFrom(r, e);
    }

    method WaitSignals(w: Waiter)
      requires Live() && m.pc == WaitPipe(w)
      modifies this
      ensures Ran() && Agrees(m) && |tape| <= |old(tape)|
      ensures !stopped ==> m.pc == WaitCheck(w)
    {
      hide Ran, RanBut, Agrees;
      var e := Await(ReadCall);
      if stopped { return; }
      WaitDrains(w, e);
      WaitFlags(w);
    }

    method WaitDrains(w: Waiter, e: Event)
      requires Has(e) && m.pc == WaitPipe(w) && Answers(ReadCall, e)
      modifies this
      ensures Ran() && Agrees(m) && !stopped && tape == old(tape) && m.pc == WaitTest(w, Alrm, Test)
    {
      hide Run, Follows, Ended, Step, Shape, Drained;
      WaitAt(c, m, e);
      DrainsAtMost(sig, c.bufferSize);
      if e.Got? { sig := sig.(pipe := sig.pipe - Drained(sig, c.bufferSize)); }
      Follow(e);
    }

    method WaitFlags(w: Waiter)
      requires Live() && m.pc == WaitTest(w, Alrm, Test)
      modifies this
      ensures Ran() && Agrees(m) && |tape| <= |old(tape)|
      ensures !stopped ==> m.pc == WaitCheck(w)
    {
      hide Ran, RanBut, Agrees;
      WaitFlag(w, Alrm);
      if stopped { return; }
      WaitFlag(w, Exit);
      if stopped { return; }
      WaitFlag(w, Chld);
    }

    method WaitFlag(w: Waiter, f: Flag)
      requires Live() && m.pc == WaitTest(w, f, Test)
      modifies this
      ensures Ran() && Agrees(m) && |tape| <= |old(tape)|
      ensures !stopped ==> m.pc == WaitNext(w, f)
    {
      hide Run, Follows, Ended, Step, Shape, WaitNext;
      Interrupts();
      if stopped { return; }
      WaitAt(c, m, Tick);
      if sig.Up(f) {
        Go();
        if f == Chld {
          WaitReaps(w);
          if stopped { return; }
        }
        WaitClears(w, f);
      } else {
        Go();
      }
    }

    method WaitReaps(w: Waiter)
      requires Live() && m.pc == WaitTest(w, Chld, Serve)
      modifies this
      ensures Ran() && Agrees(m) && |tape| <= |old(tape)|
      ensures !stopped ==> m.pc == WaitTest(w, Chld, Clear)
    {
      hide Ran, RanBut, Agrees;
      var e := Await(WaitpidCall);
      if stopped { return; }
      WaitGets(w, e);
    }

    method WaitGets(w: Waiter, e: Event)
      requires Has(e) && m.pc == WaitTest(w, Chld, Serve) && e.Reaped?
      modifies this
      ensures Ran() && Agrees(m) && !stopped && tape == old(tape) && m.pc == WaitTest(w, Chld, Clear)
    {
      hide Run, Follows, Ended, Step, Shape;
      WaitAt(c, m, e);
      reaped := reaped || e.got;
      Follow(e);
    }

    method WaitClears(w: Waiter, f: Flag)
      requires Live() && m.pc == WaitTest(w, f, Clear)
      modifies this
      ensures Ran() && Agrees(m) && |tape| <= |old(tape)|
      ensures !stopped ==> m.pc == WaitNext(w, f)
    {
      hide Ran, RanBut, Agrees;
      Interrupts();
      if stopped { return; }
      WaitActs(w, f);
    }

    method WaitActs(w: Waiter, f: Flag)
      requires Live() && m.pc == WaitTest(w, f, Clear)
      modifies this
      ensures Ran() && Agrees(m) && !stopped && tape == old(tape) && m.pc == WaitNext(w, f)
    {
      hide Run, Follows, Ended, Step, Shape, WaitNext, Lower;
      WaitAt(c, m, Tick);
      WaitClearFields(c, m, w, f);
      hide WaitTestStep;
      if !(f == Chld && w.Net?) { done := 1; }
      sig := Lower(sig, f);
      Go();
    }

    /** The end of an iteration: `wait_net` looks at the socket and reads away what the circuit carries. */
    method WaitSocket(w: Waiter) returns (leave: bool)
      requires Live() && m.pc == WaitCheck(w)
      modifies this
      ensures Ran() && Agrees(m) && |tape| <= |old(tape)|
      ensures !stopped ==> m.pc == if leave then Disarm(w) else WaitHead(w)
    {
      hide Ran, RanBut, Agrees;
      leave := false;
      Interrupts();
      if stopped { return; }
      var waiting;
      leave, waiting := WaitLooks(w);
      if waiting { leave := WaitDrop(w); }
    }

    method WaitLooks(w: Waiter) returns (leave: bool, waiting: bool)
      requires Live() && m.pc == WaitCheck(w)
      modifies this
      ensures Ran() && Agrees(m) && !stopped && tape == old(tape)
      ensures m.pc == if leave then Disarm(w) else if waiting then WaitRead(w) else WaitHead(w)
      ensures !(leave && waiting)
    {
      hide Run, Follows, Ended, Step, Shape;
      WaitAt(c, m, Tick);
      var sock := revents.sock;
      leave := w.Net? && (sock.err || sock.nval || sock.hup);
      waiting := w.Net? && !leave && sock.inp;
      if leave { done := 1; }
      Go();
    }

    method WaitDrop(w: Waiter) returns (leave: bool)
      requires Live() && m.pc == WaitRead(w)
      modifies this
      ensures Ran() && Agrees(m) && |tape| <= |old(tape)|
      ensures !stopped ==> m.pc == if leave then Disarm(w) else WaitHead(w)
    {
      hide Ran, RanBut, Agrees;
      leave := false;
      var e := Await(ReadCall);
      if stopped { return; }
      leave := Dropped(w, e);
    }

    method Dropped(w: Waiter, e: Event) returns (leave: bool)
      requires Has(e) && m.pc == WaitRead(w) && Answers(ReadCall, e)
      modifies this
      ensures Ran() && Agrees(m) && !stopped && tape == old(tape)
      ensures m.pc == if leave then Disarm(w) else WaitHead(w)
    {
      hide Run, Follows, Ended, Step, Shape;
      WaitAt(c, m, e);
      leave := !((e.Got? && |e.data| > 1) || e.intr);
      if leave { done := 1; }
      Follow(e);
    }
  }

  method CopyInto(a: array<byte>, at: nat, d: seq<byte>)
    requires at + |d| <= a.Length
    modifies a
    ensures a[..] == Blit(old(a[..]), at, d)
  {
    forall i | 0 <= i < |d| {
      a[at + i] := d[i];
    }
  }
}
