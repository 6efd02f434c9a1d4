/**
 One PAD session as a step machine: `do_copy` with its helpers `do_inter`, `wait_net` and
 `wait_exitstatus` (do_copy.c), `writensockint` and `writen` (writen.c), `x29inv_clear` (x29proto.c), the
 child's signal handlers (sighandler.c) and its two one-shot timers (watchdog.c).

 `Step` performs one atomic step.  The main thread is at a program point `Pc`; a signal may be delivered
 before any of its steps.  Reading a `Flag_*` variable and clearing it are two different steps.
 */
module Session {
  import opened Common
  import W = Writen

  /** Forward_idle_timeout, Buffer_size, DatalengthMin, and what the session finds when it starts. */
  datatype Config = Config(
    forwardTimer: nat,
    bufferSize: nat,
    minLength: nat,
    bufd: seq<byte>,  // the malloc'ed buffers, with whatever they contain
    bufn: seq<byte>,
    signals: Signals) {

    predicate Batched() { forwardTimer != 0 }

    ghost predicate Valid() {
      && minLength >= 1
      && |bufd| == |bufn| == bufferSize + 1
    }

    /** The Q byte of data packets: batches overwrite it with 0, immediate mode never sets it. */
    function QByte(): byte
      requires bufd != []
    {
      if Batched() then 0 else bufd[0]
    }
  }

  // ---------------------------------------------------------------------------------------------
  // Signals and timers.

  datatype Flag = Hup | Alrm | Exit | Idle | Chld

  /** The `Flag_*` variables, and the number of bytes in the self-pipe. */
  datatype Signals = Signals(hup: bool, alrm: bool, exit: bool, idle: bool, chld: bool, pipe: nat) {

    predicate Up(f: Flag) {
      match f
      case Hup => hup
      case Alrm => alrm
      case Exit => exit
      case Idle => idle
      case Chld => chld
    }

    function With(f: Flag, value: bool): Signals {
      match f
      case Hup => this.(hup := value)
      case Alrm => this.(alrm := value)
      case Exit => this.(exit := value)
      case Idle => this.(idle := value)
      case Chld => this.(chld := value)
    }
  }

  datatype Watch = Off | WatchDog | NetTimeout

  /** Which one-shot timers are running. */
  datatype Timers = Timers(read: bool, watch: Watch)

  // ---------------------------------------------------------------------------------------------
  // The environment.

  datatype Revents = Revents(inp: bool, err: bool, nval: bool, hup: bool)

  datatype Polled = Polled(sock: Revents, pts: Revents, pipe: bool)

  datatype PollCode = Ready | Interrupted | Broken

  /**
   What may happen next.  An answer to a call that the main thread is not making is ignored, and the
   sizes of answers are clipped to what the call allows; so every sequence of events is a run, and every
   run is a sequence of events.
   */
  datatype Event =
    | Signal(f: Flag)
    | ReadTimerExpires
    | WatchTimerExpires
    | Killed                                  // the process ends: Exit() after a failed call, or SIGKILL
    | Tick                                    // the main thread performs an internal step
    | Poll(code: PollCode, revents: Polled)
    | Got(data: seq<byte>, intr: bool)        // read; `intr`: errno still holds EINTR from an earlier call
    | Wrote(k: nat)
    | Refused(intr: bool)                     // read or write returns -1 (or write 0); `intr`: errno == EINTR
    | Reaped(got: bool)                       // waitpid

  /** The events that do not wait for the main thread. */
  predicate Environment(e: Event) {
    e.Signal? || e.ReadTimerExpires? || e.WatchTimerExpires? || e.Killed?
  }

  // ---------------------------------------------------------------------------------------------
  // The state.

  /** Testing a flag, acting on it before it is cleared (`readcfg`, `waitpid`), and clearing it. */
  datatype Phase = Test | Serve | Clear

  /** The flag is cleared only after a separate step that acts on it. */
  predicate ServedFirst(f: Flag) { f.Hup? || f.Chld? }

  /** The place from which `do_inter` was called. */
  datatype Site = AtPoll | AtPipe | AtPtsRead | AtSockRead | AtPtsWrite | AtSockWrite

  /** The two closing waits: `wait_net` and `wait_exitstatus`. */
  datatype Waiter = Net | Child

  datatype Pc =
    // the relay loop
    | Head
    | Polling
    | PipeRead
    | Inter(f: Flag, phase: Phase, go: bool, site: Site)
    | Check
    | PtsRead
    | SockRead
    | PtsWrite
    | Flush
    | SockWrite
    // after the loop
    | Left
    | ClosePts
    | Record
    | Switch
    | Invite
    | InviteInter(f: Flag, phase: Phase)
    | Arm(w: Waiter)
    | WaitHead(w: Waiter)
    | WaitPoll(w: Waiter)
    | WaitPipe(w: Waiter)
    | WaitTest(w: Waiter, f: Flag, phase: Phase)
    | WaitCheck(w: Waiter)
    | WaitRead(w: Waiter)
    | Disarm(w: Waiter)
    | CloseSock
    | ChildCheck
    | Finished
    | Exited

  predicate InLoop(pc: Pc) {
    pc.Head? || pc.Polling? || pc.PipeRead? || pc.Inter? || pc.Check? || pc.PtsRead? || pc.SockRead?
    || pc.PtsWrite? || pc.Flush? || pc.SockWrite?
  }

  predicate InWait(pc: Pc) {
    pc.Arm? || pc.WaitHead? || pc.WaitPoll? || pc.WaitPipe? || pc.WaitTest? || pc.WaitCheck?
    || pc.WaitRead? || pc.Disarm?
  }

  /** `writensockint` is sending pts data. */
  predicate Sending(pc: Pc) { pc.SockWrite? || (pc.Inter? && pc.site.AtSockWrite?) }

  /** `writen` is sending an inbound payload to the pts. */
  predicate Delivering(pc: Pc) { pc.PtsWrite? || (pc.Inter? && pc.site.AtPtsWrite?) }

  /** The pts side of `do_copy`: the buffer `bufd` and the variables of the flush policy. */
  datatype Batch = Batch(
    buf: seq<byte>,
    at: nat,          // tbufd2, as an index into buf
    total: nat,       // totali
    free: nat,        // freesize
    minlimit: int,
    timerEx: bool,    // Flag_Forwardtimer_ex
    limitEx: bool,    // Flag_Minlimit_ex
    lastWs: bool,     // Flag_Last_writesock
    raised: bool,     // Flag_minlimit_incrd
    lastRead: nat,    // lastreadmaster
    lastWrite: int)   // lastwritesock

  /** The X.25 side: `bufn`, the frame in it, and the progress of `writen`. */
  datatype Inbound = Inbound(
    buf: seq<byte>,
    n: nat,
    pos: nat,
    frames: seq<seq<byte>>,  // history: payloads of the Q=0 frames read so far
    failed: seq<nat>,        // history: how far each failed try of the current frame came
    tries: seq<seq<nat>>,    // history: the failed tries of every finished frame
    out: seq<byte>)          // history: everything the pts received

  /** One flush: its payload, whether the size limit triggered it, inbound frames before its last read and before it. */
  datatype FlushNote = FlushNote(n: nat, sized: bool, seenAtRead: nat, seenAtFlush: nat)

  datatype Act = PtsClosed | RemovalSent | ClearInvited | SockClosed

  datatype History = History(
    read: seq<byte>,           // everything read from the pts
    sent: seq<seq<byte>>,      // packets sent by the relay loop, in order
    control: seq<seq<byte>>,   // packets sent after it
    flushes: seq<FlushNote>,
    seen: nat,                 // inbound frames before the latest pts read
    acts: seq<Act>,
    code: nat)                 // Done when the loop was left

  datatype State = State(
    pc: Pc,
    done: nat,
    sig: Signals,
    timers: Timers,
    revents: Polled,
    b: Batch,
    cur: W.Cursor,      // locals of writensockint
    inb: Inbound,
    note: seq<byte>,    // buf of x29inv_clear
    reaped: bool,       // Flag_exitstatus_recvd
    h: History)

  ghost predicate Shape(c: Config, s: State) {
    && c.Valid()
    && |s.b.buf| == c.bufferSize + 1
    && s.b.at == 1 + s.b.total
    && s.b.total + s.b.free == c.bufferSize
    && |s.inb.buf| == c.bufferSize + 1
    && |s.note| == 2
    && (Sending(s.pc) ==> W.Ok(s.b.buf, s.cur))
    && (Delivering(s.pc) ==> s.inb.pos < s.inb.n <= c.bufferSize)
    && (s.pc.Invite? || s.pc.InviteInter? ==> W.Ok(s.note, s.cur))
  }

  const NO_EVENTS := Revents(false, false, false, false)

  function Init(c: Config): (s: State)
    requires c.Valid()
    ensures Shape(c, s)
  {
    State(Head, 0, c.signals, Timers(false, Off), Polled(NO_EVENTS, NO_EVENTS, false),
          Batch(c.bufd, 1, 0, c.bufferSize, c.minLength, false, false, false, false, 10, 10),
          W.Cursor(0, 0, 0, 0, 0),
          Inbound(c.bufn, 0, 0, [], [], [], []),
          [1, 1], false,
          History([], [], [], [], 0, [], 0))
  }

  // ---------------------------------------------------------------------------------------------
  // Steps of the environment.

  /** A `chil_sig_*` handler: set the flag, write a byte to the self-pipe. */
  function Raise(sig: Signals, f: Flag): Signals { sig.With(f, true).(pipe := sig.pipe + 1) }

  function Lower(sig: Signals, f: Flag): Signals { sig.With(f, false) }

  /** `read` of up to `room` bytes from the self-pipe. */
  function Drained(sig: Signals, room: nat): nat { Min(sig.pipe, room) }

  function Step(c: Config, s: State, e: Event): (r: State)
    requires Shape(c, s)
    ensures Shape(c, r)
  {
    match e
    case Signal(f) => s.(sig := Raise(s.sig, f))
    case ReadTimerExpires =>
      if s.timers.read then s.(timers := s.timers.(read := false), sig := Raise(s.sig, Idle)) else s
    case WatchTimerExpires =>
      if s.timers.watch != Off then s.(timers := s.timers.(watch := Off), sig := Raise(s.sig, Alrm)) else s
    case Killed => if s.pc.Finished? then s else s.(pc := Exited)
    case _ => if InLoop(s.pc) then LoopStep(c, s, e) else ClosingStep(c, s, e)
  }

  // ---------------------------------------------------------------------------------------------
  // Steps of the relay loop.

  function LoopStep(c: Config, s: State, e: Event): (r: State)
    requires Shape(c, s)
    ensures Shape(c, r)
  {
    match s.pc
    case Head => if e.Tick? then HeadStep(c, s) else s
    case Polling => if e.Poll? then PollStep(c, s, e.code, e.revents) else s
    case PipeRead => PipeStep(c, s, e)
    case Inter(f, phase, go, site) => InterStep(c, s, e)
    case Check => if e.Tick? then CheckStep(c, s) else s
    case PtsRead => PtsReadStep(c, s, e)
    case SockRead => SockReadStep(c, s, e)
    case PtsWrite => PtsWriteStep(c, s, e)
    case Flush => if e.Tick? then FlushStep(c, s) else s
    case SockWrite => SockWriteStep(c, s, e)
    case _ => s
  }

  function Leave(s: State): State { s.(pc := Left, h := s.h.(code := s.done)) }

  /** The loop test and `set_watch_dog`. */
  function HeadStep(c: Config, s: State): (r: State)
    requires Shape(c, s)
    ensures Shape(c, r)
  {
    if s.done != 0 then Leave(s) else s.(timers := s.timers.(watch := WatchDog), pc := Polling)
  }

  function AfterPoll(s: State): State { s.(pc := if s.revents.pipe then PipeRead else Check) }

  function PollStep(c: Config, s: State, code: PollCode, revents: Polled): (r: State)
    requires Shape(c, s)
    ensures Shape(c, r)
  {
    var s := s.(revents := revents);
    match code
    case Broken => Leave(s.(done := 11))
    case Interrupted => s.(pc := Inter(Hup, Test, true, AtPoll))
    case Ready => AfterPoll(s)
  }

  /** The read of the self-pipe into `bufn`, of spaces; it may be interrupted and leave them there. */
  function PipeStep(c: Config, s: State, e: Event): (r: State)
    requires Shape(c, s)
    ensures Shape(c, r)
  {
    match e
    case Got(_, _) =>
      var n := Drained(s.sig, c.bufferSize);
      s.(sig := s.sig.(pipe := s.sig.pipe - n),
         inb := s.inb.(buf := Blit(s.inb.buf, 0, seq(n, _ => 32))),
         pc := Inter(Hup, Test, true, AtPipe))
    case Refused(_) => s.(pc := Inter(Hup, Test, true, AtPipe))
    case _ => s
  }

  /** `do_inter`: for each flag in turn, test it, act on it and clear it. */
  function InterStep(c: Config, s: State, e: Event): (r: State)
    requires Shape(c, s) && s.pc.Inter?
    ensures Shape(c, r)
  {
    var Inter(f, phase, go, site) := s.pc;
    match phase
    case Test =>
      if !e.Tick? then s
      else if s.sig.Up(f) then s.(pc := Inter(f, if ServedFirst(f) then Serve else Clear, go, site))
      else InterNext(c, s, f, go, site)
    case Serve =>
      if f.Chld? && e.Reaped? then s.(reaped := s.reaped || e.got, pc := Inter(f, Clear, go, site))
      else if f.Hup? && e.Tick? then s.(pc := Inter(f, Clear, go, site))
      else s
    case Clear => if e.Tick? then InterNext(c, Served(s, f), f, go && !f.Alrm? && !f.Exit?, site) else s
  }

  /** Clearing a flag, and the acts that are as good as simultaneous. */
  function Served(s: State, f: Flag): State {
    var s := s.(sig := Lower(s.sig, f));
    match f
    case Alrm => s.(done := 7)
    case Exit => s.(done := 8)
    case Idle => s.(b := s.b.(timerEx := true))
    case _ => s
  }

  function InterNext(c: Config, s: State, f: Flag, go: bool, site: Site): (r: State)
    requires Shape(c, s) && s.pc.Inter? && s.pc.site == site
    ensures Shape(c, r)
  {
    match f
    case Hup => s.(pc := Inter(Alrm, Test, go, site))
    case Alrm => s.(pc := Inter(Exit, Test, go, site))
    case Exit => s.(pc := Inter(Idle, Test, go, site))
    case Idle => s.(pc := Inter(Chld, Test, go, site))
    case Chld => InterReturn(c, s, go, site)
  }

  function InterReturn(c: Config, s: State, go: bool, site: Site): (r: State)
    requires Shape(c, s) && s.pc.Inter? && s.pc.site == site
    ensures Shape(c, r)
  {
    match site
    case AtPoll => AfterPoll(s)
    case AtPipe => s.(pc := Check)
    case AtPtsRead => AfterPts(s)
    case AtSockRead => s.(pc := Flush)
    case AtPtsWrite => s.(pc := PtsWrite)
    case AtSockWrite => if go then s.(pc := SockWrite) else WriteReturn(c, s)
  }

  function AfterPts(s: State): State { s.(pc := if s.revents.sock.inp then SockRead else Flush) }

  /** The tests for errors and hang-ups; a pts hang-up alone does not leave the loop at once. */
  function CheckStep(c: Config, s: State): (r: State)
    requires Shape(c, s)
    ensures Shape(c, r)
  {
    var Polled(sock, pts, _) := s.revents;
    if pts.err || pts.nval then Leave(s.(done := 1))
    else
      var s := if pts.hup then s.(done := 3) else s;
      if sock.err || sock.nval then Leave(s.(done := 10))
      else if sock.hup then Leave(s.(done := 2))
      else if pts.inp then s.(pc := PtsRead)
      else AfterPts(s)
  }

  /** The read from the pts: up to the whole buffer in immediate mode, up to the free part otherwise. */
  function PtsReadStep(c: Config, s: State, e: Event): (r: State)
    requires Shape(c, s) && s.pc.PtsRead?
    ensures Shape(c, r)
  {
    match e
    case Refused(intr) =>
      if intr then s.(pc := Inter(Hup, Test, true, AtPtsRead)) else AfterPts(s.(done := 1))
    case Got(data, _) =>
      var d := Take(data, if c.Batched() then s.b.free else c.bufferSize);
      var s := s.(h := s.h.(read := s.h.read + d));
      if d == [] then AfterPts(s.(done := 6))
      else if c.Batched() then AfterPts(Appended(c, s, d))
      else Forwarded(c, s, d)
    case _ => s
  }

  /** The immediate branch after a read: hand the bytes to `writensockint`. */
  function Forwarded(c: Config, s: State, d: seq<byte>): (r: State)
    requires Shape(c, s) && 1 <= |d| <= c.bufferSize && s.pc.PtsRead?
    ensures Shape(c, r)
  {
    var buf := Blit(s.b.buf, 1, d);
    s.(b := s.b.(buf := buf), cur := W.Begin(buf, |d| + 1), pc := SockWrite)
  }

  /** The flush threshold after a read that makes the batch `total` bytes long. */
  function Threshold(b: Batch, total: nat): int {
    if b.lastWs then b.lastWrite + total / 2 else b.minlimit
  }

  /** The batched branch after a read: account for the bytes, adapt the threshold, set or stop the timer. */
  function Appended(c: Config, s: State, d: seq<byte>): (r: State)
    requires Shape(c, s) && |d| <= s.b.free && !Sending(s.pc)
    ensures Shape(c, r)
  {
    var total := s.b.total + |d|;
    var minlimit := Threshold(s.b, total);
    var full := total >= minlimit;
    s.(b := s.b.(buf := Blit(s.b.buf, s.b.at, d),
                 at := s.b.at + |d|,
                 total := total,
                 free := s.b.free - |d|,
                 minlimit := minlimit,
                 limitEx := s.b.limitEx || full,
                 raised := s.b.raised || s.b.lastWs,
                 lastRead := |d|),
       timers := s.timers.(read := !full),
       h := s.h.(seen := |s.inb.frames|))
  }

  /** The read from the X.25 socket.  One byte alone takes the error branch, with a stale errno. */
  function SockReadStep(c: Config, s: State, e: Event): (r: State)
    requires Shape(c, s)
    ensures Shape(c, r)
  {
    match e
    case Refused(intr) => SockReadFailed(s, intr)
    case Got(data, intr) =>
      var d := Take(data, c.bufferSize + 1);
      var s := s.(inb := s.inb.(buf := Blit(s.inb.buf, 0, d)));
      if d == [] then s.(done := 9, pc := Flush)
      else if |d| == 1 then SockReadFailed(s, intr)
      else if d[0] == 0 then
        s.(b := s.b.(lastWs := false),
           inb := s.inb.(n := |d| - 1, pos := 0, frames := s.inb.frames + [d[1..]], failed := []),
           pc := PtsWrite)
      else s.(timers := if d[1] == 1 || d[1] == 3 then s.timers.(watch := NetTimeout) else s.timers,
              pc := Flush)
    case _ => s
  }

  function SockReadFailed(s: State, intr: bool): State {
    if intr then s.(pc := Inter(Hup, Test, true, AtSockRead)) else s.(done := 10, pc := Flush)
  }

  /** After a `write` of `k` bytes the pts has more of the current frame. */
  function Written(inb: Inbound, k: nat): Inbound
    requires inb.pos + k <= inb.n < |inb.buf|
  {
    inb.(pos := inb.pos + k, out := inb.out + inb.buf[1 + inb.pos..1 + inb.pos + k])
  }

  /** `writen` to the pts inside its retry loop, which starts again from the first byte. */
  function PtsWriteStep(c: Config, s: State, e: Event): (r: State)
    requires Shape(c, s) && s.pc.PtsWrite?
    ensures Shape(c, r)
  {
    match e
    case Wrote(k0) =>
      var inb := Written(s.inb, Clip(k0, s.inb.n - s.inb.pos));
      if inb.pos < inb.n then s.(inb := inb)
      else s.(inb := inb.(tries := inb.tries + [inb.failed]), pc := Flush)
    case Refused(intr) =>
      var s := s.(inb := s.inb.(failed := s.inb.failed + [s.inb.pos], pos := 0));
      if intr then s.(pc := Inter(Hup, Test, true, AtPtsWrite)) else s.(done := 1)
    case _ => s
  }

  /** The state in which a batch is handed to `writensockint`. */
  function Flushing(c: Config, s: State): (r: State)
    requires Shape(c, s) && s.b.total > 0
    ensures Shape(c, r)
  {
    var buf := s.b.buf[0 := 0];
    s.(b := s.b.(buf := buf,
                 minlimit := if s.b.timerEx && !s.b.raised then s.b.total - s.b.lastRead / 4 else s.b.minlimit,
                 timerEx := false, limitEx := false, lastWs := true, raised := false),
       cur := W.Begin(buf, s.b.total + 1),
       h := s.h.(flushes := s.h.flushes + [FlushNote(s.b.total, s.b.limitEx, s.h.seen, |s.inb.frames|)]),
       pc := SockWrite)
  }

  /** The flush decision: pts hang-up, forward timer or size limit. */
  function FlushStep(c: Config, s: State): (r: State)
    requires Shape(c, s)
    ensures Shape(c, r)
  {
    if !(c.Batched() && (s.done == 3 || s.b.timerEx || s.b.limitEx)) then s.(pc := Head)
    else if s.b.total == 0 then s.(b := s.b.(timerEx := false, limitEx := false), pc := Head)
    else Flushing(c, s)
  }

  /** The state after a `write` that took `k` bytes. */
  function AfterWrite(s: State, k: nat): (r: State)
    requires W.Ok(s.b.buf, s.cur) && 1 <= k <= s.cur.left + 1
  {
    var cur := W.Advance(s.cur, k);
    s.(cur := cur,
       b := s.b.(buf := W.Reframe(s.b.buf, cur)),
       h := s.h.(sent := s.h.sent + [W.Packet(s.b.buf, s.cur, k)]))
  }

  /** `writensockint` on the relay's buffer. */
  function SockWriteStep(c: Config, s: State, e: Event): (r: State)
    requires Shape(c, s) && s.pc.SockWrite?
    ensures Shape(c, r)
  {
    match e
    case Wrote(k0) =>
      var s1 := AfterWrite(s, Clip(k0, s.cur.left + 1));
      if s1.cur.left == 0 then WriteReturn(c, s1) else s1
    case Refused(intr) =>
      if intr then s.(pc := Inter(Hup, Test, true, AtSockWrite))
      else if s.cur.errors + 1 < W.MAX_ERROR_WRITE then s.(cur := s.cur.(errors := s.cur.errors + 1))
      else WriteReturn(c, s.(done := 10))
    case _ => s
  }

  /** The buffers are in order, whatever the cursor says. */
  ghost predicate Returning(c: Config, s: State) {
    && c.Valid() && |s.b.buf| == |s.inb.buf| == c.bufferSize + 1 && |s.note| == 2
    && s.b.at == 1 + s.b.total && s.b.total + s.b.free == c.bufferSize
  }

  /** Back from `writensockint`: a batch is given up in either case, sent or not. */
  function WriteReturn(c: Config, s: State): (r: State)
    requires Returning(c, s)
    ensures Shape(c, r)
  {
    if c.Batched() then
      s.(b := s.b.(lastWrite := W.Result(s.cur), at := 1, free := c.bufferSize, total := 0), pc := Head)
    else AfterPts(s)
  }

  // ---------------------------------------------------------------------------------------------
  // Steps after the relay loop.

  /** The Done codes after which an Invitation to Clear is due. */
  predicate NeedsInvite(code: nat) {
    code == 1 || code == 3 || code == 6 || code == 7 || code == 8 || code == 11
  }

  /** The Done codes of a broken X.25 circuit. */
  predicate CircuitLost(code: nat) { code == 2 || code == 9 || code == 10 }

  function Acted(s: State, a: Act): State { s.(h := s.h.(acts := s.h.acts + [a])) }

  /** Nothing after the loop touches the data that the loop relayed. */
  predicate Over(s: State, r: State) {
    && !InLoop(r.pc)
    && (s.pc.Exited? ==> r.pc.Exited?)
    && r.b == s.b && r.inb == s.inb
    && r.h == s.h.(control := r.h.control, acts := r.h.acts)
  }

  function ClosingStep(c: Config, s: State, e: Event): (r: State)
    requires Shape(c, s) && !InLoop(s.pc)
    ensures Shape(c, r) && Over(s, r)
  {
    if InWait(s.pc) then WaitStep(c, s, e)
    else match s.pc
      case Left => if e.Tick? then s.(timers := Timers(false, Off), pc := ClosePts) else s
      case ClosePts => if e.Tick? then Acted(s, PtsClosed).(pc := Record) else s
      case Record => if e.Tick? then Acted(s, RemovalSent).(pc := Switch) else s
      case Switch => if e.Tick? then SwitchStep(c, s) else s
      case Invite => InviteStep(c, s, e)
      case InviteInter(f, phase) => if e.Tick? then InviteInterStep(c, s) else s
      case CloseSock => if e.Tick? then Acted(s, SockClosed).(pc := ChildCheck) else s
      case ChildCheck => if e.Tick? then s.(pc := if s.reaped then Finished else Arm(Child)) else s
      case _ => s
  }

  /** Q byte and message code of an Invitation to Clear are handed to `writensockint`. */
  function Inviting(s: State): (r: State)
    requires |s.note| == 2
  {
    var note := s.note[0 := 1][1 := 1];
    s.(h := s.h.(acts := s.h.acts + [ClearInvited]), note := note, cur := W.Begin(note, 2), pc := Invite)
  }

  function SwitchStep(c: Config, s: State): (r: State)
    requires Shape(c, s) && s.pc.Switch?
    ensures Shape(c, r) && Over(s, r)
  {
    if CircuitLost(s.done) then s.(pc := CloseSock)
    else if NeedsInvite(s.done) then Inviting(s)
    else if s.done == 4 || s.done == 5 then s.(pc := Arm(Net))
    else s.(pc := ChildCheck)
  }

  /** `writensockint` on the two bytes of an Invitation to Clear. */
  function InviteStep(c: Config, s: State, e: Event): (r: State)
    requires Shape(c, s) && s.pc.Invite?
    ensures Shape(c, r) && Over(s, r)
  {
    match e
    case Wrote(k0) =>
      var k := Clip(k0, s.cur.left + 1);
      var cur := W.Advance(s.cur, k);
      s.(cur := cur,
         note := W.Reframe(s.note, cur),
         h := s.h.(control := s.h.control + [W.Packet(s.note, s.cur, k)]),
         pc := if cur.left == 0 then Arm(Net) else Invite)
    case Refused(intr) =>
      if intr then s.(pc := InviteInter(Hup, Test))
      else if s.cur.errors + 1 < W.MAX_ERROR_WRITE then s.(cur := s.cur.(errors := s.cur.errors + 1))
      else s.(pc := Arm(Net))
    case _ => s
  }

  /** The handler of x29proto.c: it exits on an alarm or an exit signal and never resumes the write. */
  function InviteInterStep(c: Config, s: State): (r: State)
    requires Shape(c, s) && s.pc.InviteInter?
    ensures Shape(c, r) && Over(s, r)
  {
    var InviteInter(f, phase) := s.pc;
    if phase.Test? && s.sig.Up(f) then s.(pc := InviteInter(f, if ServedFirst(f) then Serve else Clear))
    else if phase.Serve? then s.(pc := InviteInter(f, Clear))
    else
      var s1 := if phase.Test? then s else s.(sig := Lower(s.sig, f));
      match f
      case Hup => s1.(pc := InviteInter(Alrm, Test))
      case Alrm => s1.(pc := if phase.Test? then InviteInter(Exit, Test) else Exited)
      case _ => s1.(pc := if phase.Test? then Arm(Net) else Exited)
  }

  /** `wait_net` and `wait_exitstatus`: poll until a timeout, an exit signal, or what they wait for. */
  function WaitStep(c: Config, s: State, e: Event): (r: State)
    requires Shape(c, s) && InWait(s.pc)
    ensures Shape(c, r) && Over(s, r)
  {
    match s.pc
    case Arm(w) =>
      if e.Tick? then s.(done := 0, timers := s.timers.(watch := NetTimeout), pc := WaitHead(w)) else s
    case WaitHead(w) => if e.Tick? then s.(pc := if s.done == 0 then WaitPoll(w) else Disarm(w)) else s
    case WaitPoll(w) => if e.Poll? then WaitPollStep(c, s, e.code, e.revents) else s
    case WaitPipe(w) => WaitPipeStep(c, s, e)
    case WaitTest(w, f, phase) => WaitTestStep(c, s, e)
    case WaitCheck(w) => if e.Tick? then WaitCheckStep(c, s) else s
    case WaitRead(w) => WaitReadStep(c, s, e)
    case Disarm(w) =>
      if !e.Tick? then s
      else s.(timers := s.timers.(watch := Off), pc := if w.Net? then CloseSock else Finished)
    case _ => s
  }

  function WaitPipeStep(c: Config, s: State, e: Event): (r: State)
    requires Shape(c, s) && s.pc.WaitPipe?
    ensures Shape(c, r) && Over(s, r)
  {
    match e
    case Got(_, _) =>
      s.(sig := s.sig.(pipe := s.sig.pipe - Drained(s.sig, c.bufferSize)), pc := WaitTest(s.pc.w, Alrm, Test))
    case Refused(_) => s.(pc := WaitTest(s.pc.w, Alrm, Test))
    case _ => s
  }

  function WaitPollStep(c: Config, s: State, code: PollCode, revents: Polled): (r: State)
    requires Shape(c, s) && s.pc.WaitPoll?
    ensures Shape(c, r) && Over(s, r)
  {
    var w := s.pc.w;
    var s := s.(revents := revents);
    if code.Broken? then s.(done := 11, pc := Disarm(w))
    else s.(pc := if revents.pipe then WaitPipe(w) else WaitCheck(w))
  }

  /** The end of an iteration: `wait_net` looks at the socket, `wait_exitstatus` does not. */
  function WaitCheckStep(c: Config, s: State): (r: State)
    requires Shape(c, s) && s.pc.WaitCheck?
    ensures Shape(c, r) && Over(s, r)
  {
    var sock := s.revents.sock;
    if s.pc.w.Child? then s.(pc := WaitHead(Child))
    else if sock.err || sock.nval || sock.hup then s.(done := 1, pc := Disarm(Net))
    else s.(pc := if sock.inp then WaitRead(Net) else WaitHead(Net))
  }

  /** What the circuit still carries is read and dropped. */
  function WaitReadStep(c: Config, s: State, e: Event): (r: State)
    requires Shape(c, s) && s.pc.WaitRead?
    ensures Shape(c, r) && Over(s, r)
  {
    var w := s.pc.w;
    match e
    case Got(data, intr) =>
      if |data| > 1 || intr then s.(pc := WaitHead(w)) else s.(done := 1, pc := Disarm(w))
    case Refused(intr) => if intr then s.(pc := WaitHead(w)) else s.(done := 1, pc := Disarm(w))
    case _ => s
  }

  function WaitTestStep(c: Config, s: State, e: Event): (r: State)
    requires Shape(c, s) && s.pc.WaitTest?
    ensures Shape(c, r) && Over(s, r)
  {
    var WaitTest(w, f, phase) := s.pc;
    match phase
    case Test =>
      if !e.Tick? then s
      else if s.sig.Up(f) then s.(pc := WaitTest(w, f, if f == Chld then Serve else Clear))
      else s.(pc := WaitNext(w, f))
    case Serve =>
      if f.Chld? && e.Reaped? then s.(reaped := s.reaped || e.got, pc := WaitTest(w, f, Clear)) else s
    case Clear =>
      if !e.Tick? then s
      else s.(sig := Lower(s.sig, f),
              done := if f == Chld && w.Net? then s.done else 1,
              pc := WaitNext(w, f))
  }

  function WaitNext(w: Waiter, f: Flag): Pc {
    match f
    case Alrm => WaitTest(w, Exit, Test)
    case Exit => WaitTest(w, Chld, Test)
    case _ => WaitCheck(w)
  }

  // ---------------------------------------------------------------------------------------------
  // Runs.

  function Run(c: Config, events: seq<Event>): (s: State)
    requires c.Valid()
    ensures Shape(c, s)
  {
    if events == [] then Init(c)
    else Step(c, Run(c, events[..|events| - 1]), events[|events| - 1])
  }

  lemma RunSnoc(c: Config, events: seq<Event>, e: Event)
    requires c.Valid()
    ensures Run(c, events + [e]) == Step(c, Run(c, events), e)
  {
    assert (events + [e])[..|events|] == events;
  }

  /**
   A run, state by state: `states[0]` is the start of a session and `events[i]` leads from `states[i]` to
   `states[i + 1]`.
   */
  ghost predicate Behaviour(c: Config, events: seq<Event>, states: seq<State>) {
    && c.Valid()
    && |states| == |events| + 1
    && states[0] == Init(c)
    && forall i :: 0 <= i < |events| ==> Leads(c, states[i], events[i], states[i + 1])
  }

  ghost predicate Leads(c: Config, s: State, e: Event, r: State) { Shape(c, s) && r == Step(c, s, e) }

  lemma {:induction false} BehaviourRuns(c: Config, events: seq<Event>, states: seq<State>, k: nat)
    requires Behaviour(c, events, states) && k < |states|
    ensures states[k] == Run(c, events[..k])
  {
    hide Step, Init, Shape;
    if k > 0 {
      BehaviourRuns(c, events, states, k - 1);
      assert Leads(c, states[k - 1], events[k - 1], states[k - 1 + 1]);
      assert events[..k] == events[..k - 1] + [events[k - 1]];
      RunSnoc(c, events[..k - 1], events[k - 1]);
    } else {
      assert events[..0] == [];
    }
  }

  /** Every sequence of events has its behaviour. */
  lemma {:induction false} RunBehaves(c: Config, events: seq<Event>) returns (states: seq<State>)
    requires c.Valid()
    ensures Behaviour(c, events, states) && states[|events|] == Run(c, events)
  {
    hide Step, Init, Shape;
    if events == [] {
      states := [Run(c, events)];
    } else {
      var k := |events| - 1;
      var before := RunBehaves(c, events[..k]);
      states := before + [Run(c, events)];
      forall i | 0 <= i < |events|
        ensures Leads(c, states[i], events[i], states[i + 1])
      {
        if i < k { assert Leads(c, before[i], events[..k][i], before[i + 1]); }
      }
    }
  }
}
