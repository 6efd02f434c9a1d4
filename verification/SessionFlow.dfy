/** What every step of a session keeps about the bytes it carries and the flush policy. */
module SessionFlow {
  import opened Common
  import opened Session
  import opened SessionControl
  import W = Writen

  // ---------------------------------------------------------------------------------------------
  // The flush policy.

  /** Between the pts read and the flush decision of one iteration. */
  predicate AfterRead(pc: Pc) {
    pc.SockRead? || pc.PtsWrite? || pc.Flush? || (pc.Inter? && (pc.site.AtSockRead? || pc.site.AtPtsWrite?))
  }

  function MinlimitBound(c: Config): int {
    Max(c.minLength, c.bufferSize + 1 + c.bufferSize / 2)
  }

  ghost predicate Bounded(c: Config, s: State) {
    c.Batched() && InLoop(s.pc) ==>
      && 1 <= s.b.minlimit <= MinlimitBound(c)
      && (s.b.limitEx ==> AfterRead(s.pc))
      && (Sending(s.pc) ==> s.b.lastWs && s.cur.n == s.b.total + 1)
      && (!Sending(s.pc) ==>
            && (s.b.limitEx <==> s.b.total >= s.b.minlimit)
            && (s.b.total > 0 ==> s.b.lastRead <= s.b.total)
            && (s.b.lastWs ==> 1 <= s.b.lastWrite <= c.bufferSize + 1))
  }

  ghost predicate Unstranded(c: Config, s: State) {
    c.Batched() && InLoop(s.pc) && !Sending(s.pc) && s.b.total > 0 ==>
      && (s.timers.read || s.sig.idle || s.b.timerEx || s.b.limitEx)
      && (s.pc.Head? || s.pc.Polling? ==> !s.b.timerEx && !s.b.limitEx)
  }

  // ---------------------------------------------------------------------------------------------
  // Conservation of the bytes read from the pts.

  /** Every byte read from the pts is either on the wire or in the batch. */
  ghost predicate Whole(c: Config, s: State)
    requires Shape(c, s)
  {
    W.Payloads(s.h.sent) + s.b.buf[1..1 + s.b.total] == s.h.read
  }

  ghost predicate Conserved(c: Config, s: State)
    requires Shape(c, s)
  {
    && W.Payloads(s.h.sent) <= s.h.read
    && (!c.Batched() ==> s.b.total == 0 && (InLoop(s.pc) ==> s.b.buf[0] == c.bufd[0]))
    && (Sending(s.pc) ==>
          && s.cur.q == c.QByte()
          && (c.Batched() ==> s.cur.n == s.b.total + 1)
          && W.Payloads(s.h.sent) + W.Unsent(s.b.buf, s.cur) == s.h.read)
    && (InLoop(s.pc) && !Sending(s.pc) ==>
          Whole(c, s) || (s.done != 0 && s.done != 3 && (s.pc.Head? || (!c.Batched() && AfterRead(s.pc)))))
    && (s.pc.Head? && s.done == 3 ==> s.b.total == 0)
    && (!InLoop(s.pc) && s.h.code == 3 ==> W.Payloads(s.h.sent) == s.h.read)
    && (InLoop(s.pc) ==> s.h.code == 0)
    && forall i :: 0 <= i < |s.h.sent| ==> s.h.sent[i] != [] && s.h.sent[i][0] == c.QByte()
  }

  // ---------------------------------------------------------------------------------------------
  // Growth of the batches.

  /** The size limit triggered flush `f`, and no inbound data came between flush `e` and its last read. */
  predicate Follows(e: FlushNote, f: FlushNote) { f.sized && f.seenAtRead == e.seenAtFlush }

  ghost predicate Doubling(c: Config, fs: seq<FlushNote>) {
    && (forall i :: 0 <= i < |fs| ==> 1 <= fs[i].n <= c.bufferSize)
    && (forall i :: 0 < i < |fs| && Follows(fs[i - 1], fs[i]) ==> fs[i].n >= 2 * fs[i - 1].n + 1)
  }

  ghost predicate Growing(c: Config, s: State) {
    && Doubling(c, s.h.flushes)
    && var fs := s.h.flushes; var seen := |s.inb.frames|;
      && (s.b.lastWs && c.Batched() ==> fs != [])
      && s.h.seen <= seen
      && (fs != [] ==>
            var last := fs[|fs| - 1];
            && c.Batched()
            && last.seenAtFlush <= seen
            && (InLoop(s.pc) ==> (s.b.lastWs <==> last.seenAtFlush == seen))
            && (Sending(s.pc) ==> last.n == s.cur.n - 1)
            && (InLoop(s.pc) && !Sending(s.pc) && !(s.pc.Head? && s.done != 0) ==>
                  s.b.lastWrite == last.n + 1)
            && (InLoop(s.pc) && s.b.limitEx && s.h.seen == last.seenAtFlush ==>
                  s.b.minlimit == s.b.lastWrite + s.b.total / 2))
  }

  // ---------------------------------------------------------------------------------------------
  // Delivery of inbound data.

  /** The parts of `p` that tries which failed after `failed[i]` bytes left on the pts. */
  function Prefixes(p: seq<byte>, failed: seq<nat>): seq<byte> {
    if failed == [] then [] else Prefixes(p, failed[..|failed| - 1]) + Take(p, failed[|failed| - 1])
  }

  /** For each frame, the remains of its failed tries and then the whole frame. */
  function Deliveries(frames: seq<seq<byte>>, tries: seq<seq<nat>>): seq<byte>
    requires |frames| == |tries|
  {
    if frames == [] then []
    else
      var k := |frames| - 1;
      Deliveries(frames[..k], tries[..k]) + Prefixes(frames[k], tries[k]) + frames[k]
  }

  predicate Proper(p: seq<byte>, failed: seq<nat>) {
    forall i :: 0 <= i < |failed| ==> failed[i] < |p|
  }

  /** In the middle of the retry loop for the last frame. */
  ghost predicate Busy(inb: Inbound) {
    var k := |inb.tries|;
    && |inb.frames| == k + 1
    && inb.pos < inb.n < |inb.buf|
    && inb.buf[1..1 + inb.n] == inb.frames[k]
    && (forall i :: 0 <= i < k ==> Proper(inb.frames[i], inb.tries[i]))
    && Proper(inb.frames[k], inb.failed)
    && inb.out == Deliveries(inb.frames[..k], inb.tries) + Prefixes(inb.frames[k], inb.failed)
                  + inb.frames[k][..inb.pos]
  }

  /** Every frame is delivered. */
  ghost predicate Settled(inb: Inbound) {
    && |inb.frames| == |inb.tries|
    && (forall i :: 0 <= i < |inb.tries| ==> Proper(inb.frames[i], inb.tries[i]))
    && inb.out == Deliveries(inb.frames, inb.tries)
  }

  ghost predicate Delivered(s: State) {
    if Delivering(s.pc) then Busy(s.inb) else s.pc.Exited? || Settled(s.inb)
  }

  lemma BusyBytes(inb: Inbound, k: nat)
    requires Busy(inb) && 1 <= k <= inb.n - inb.pos
    ensures var p := inb.frames[|inb.tries|];
            |p| == inb.n && p[..inb.pos] + inb.buf[1 + inb.pos..1 + inb.pos + k] == p[..inb.pos + k]
  {
    hide Deliveries, Prefixes, Proper;
    var p := inb.frames[|inb.tries|];
    assert |p| == |inb.buf[1..1 + inb.n]| == inb.n;
    SubSlice(inb.buf, 1, 1 + inb.n, inb.pos, k);
    assert p[..inb.pos] + p[inb.pos..inb.pos + k] == p[..inb.pos + k];
  }

  lemma BusyOut(inb: Inbound, k: nat)
    requires Busy(inb) && 1 <= k <= inb.n - inb.pos
    ensures var p := inb.frames[|inb.tries|];
            |p| == inb.n &&
            Written(inb, k).out
            == Deliveries(inb.frames[..|inb.tries|], inb.tries) + Prefixes(p, inb.failed) + p[..inb.pos + k]
  {
    BusyBytes(inb, k);
    var p := inb.frames[|inb.tries|];
    var before := Deliveries(inb.frames[..|inb.tries|], inb.tries) + Prefixes(p, inb.failed);
    hide Deliveries, Prefixes, Proper;
    assert before + p[..inb.pos] + inb.buf[1 + inb.pos..1 + inb.pos + k]
        == before + (p[..inb.pos] + inb.buf[1 + inb.pos..1 + inb.pos + k]);
  }

  lemma BusyGoesOn(inb: Inbound, k: nat)
    requires Busy(inb) && 1 <= k < inb.n - inb.pos
    ensures Busy(Written(inb, k))
  {
    BusyOut(inb, k);
    hide Deliveries, Prefixes;
  }

  lemma ProperSnoc(frames: seq<seq<byte>>, tries: seq<seq<nat>>, failed: seq<nat>)
    requires |frames| == |tries| + 1 && Proper(frames[|tries|], failed)
    requires forall i :: 0 <= i < |tries| ==> Proper(frames[i], tries[i])
    ensures forall i :: 0 <= i <= |tries| ==> Proper(frames[i], (tries + [failed])[i])
  {
    hide Proper;
  }

  lemma BusySettles(inb: Inbound)
    requires Busy(inb)
    ensures Settled(Written(inb, inb.n - inb.pos).(tries := inb.tries + [inb.failed]))
  {
    var p := inb.frames[|inb.tries|];
    BusyOut(inb, inb.n - inb.pos);
    DeliveriesSnoc(inb.frames, inb.tries, inb.failed);
    ProperSnoc(inb.frames, inb.tries, inb.failed);
    assert |inb.frames| == |inb.tries| + 1;
    hide Busy, Proper, Deliveries, Prefixes;
    assert p[..inb.n] == p;
  }

  lemma DeliveriesSnoc(frames: seq<seq<byte>>, tries: seq<seq<nat>>, failed: seq<nat>)
    requires |frames| == |tries| + 1
    ensures Deliveries(frames, tries + [failed])
            == Deliveries(frames[..|tries|], tries) + Prefixes(frames[|tries|], failed) + frames[|tries|]
  {
    assert (tries + [failed])[..|tries|] == tries;
  }

  lemma BusyFails(inb: Inbound)
    requires Busy(inb)
    ensures Busy(inb.(failed := inb.failed + [inb.pos], pos := 0))
  {
    var p := inb.frames[|inb.tries|];
    assert (inb.failed + [inb.pos])[..|inb.failed|] == inb.failed;
    assert Prefixes(p, inb.failed + [inb.pos]) == Prefixes(p, inb.failed) + p[..inb.pos];
    assert p[..0] == [];
  }

  // ---------------------------------------------------------------------------------------------
  // All together.

  ghost predicate Relayed(c: Config, s: State)
    requires Shape(c, s)
  {
    Bounded(c, s) && Unstranded(c, s) && Conserved(c, s) && Growing(c, s)
  }

  ghost predicate Data(c: Config, s: State)
    requires Shape(c, s)
  {
    Relayed(c, s) && Delivered(s)
  }

  lemma InitData(c: Config)
    requires c.Valid()
    ensures Data(c, Init(c))
  {
  }

  /** A step inside the loop that moves no data on the pts side. */
  lemma MoveRelayed(c: Config, s: State, r: State)
    requires Shape(c, s) && Shape(c, r) && Relayed(c, s) && InLoop(s.pc) && InLoop(r.pc) && !r.pc.Head?
    requires r.pc.Polling? ==> s.pc.Head? || s.pc.Polling?
    requires s.pc.Head? ==> s.done == 0
    requires Sending(s.pc) == Sending(r.pc)
    requires AfterRead(s.pc) ==> AfterRead(r.pc) && (r.done == s.done || (r.done != 0 && r.done != 3))
    requires r.b == s.b || (r.b == s.b.(timerEx := true) && !r.pc.Polling?)
    requires |r.inb.frames| == |s.inb.frames|
    requires r.cur == s.cur && r.h == s.h
    requires s.timers.read || s.sig.idle ==> r.timers.read || r.sig.idle || r.b.timerEx
    ensures Relayed(c, r)
  {
  }

  lemma LeaveData(c: Config, s: State, r: State)
    requires Shape(c, s) && Shape(c, r) && Data(c, s) && InLoop(s.pc) && r.pc.Left?
    requires !Sending(s.pc) && !Delivering(s.pc) && (r.done == 3 ==> s.pc.Head? && s.done == 3)
    requires r.b == s.b && r.inb == s.inb && r.h == s.h.(code := r.done)
    ensures Data(c, r)
  {
  }

  /** A step after the loop, or the end of the process. */
  lemma OutData(c: Config, s: State, r: State)
    requires Shape(c, s) && Shape(c, r) && Data(c, s)
    requires !InLoop(r.pc) && (!InLoop(s.pc) || r.pc.Exited?) && (s.pc.Exited? ==> r.pc.Exited?)
    requires r.b == s.b && r.inb == s.inb
    requires r.h == s.h.(control := r.h.control, acts := r.h.acts)
    ensures Data(c, r)
  {
  }

  /** A signal or a timer. */
  lemma SignalData(c: Config, s: State, sig: Signals, timers: Timers)
    requires Shape(c, s) && Data(c, s)
    requires s.timers.read || s.sig.idle ==> timers.read || sig.idle
    ensures Data(c, s.(sig := sig, timers := timers))
  {
  }

  // ---------------------------------------------------------------------------------------------
  // The steps that move data.

  /** The state after a batched read. */
  function ReadInto(c: Config, s: State, d: seq<byte>): (r: State)
    requires Shape(c, s) && s.pc.PtsRead? && |d| <= s.b.free
  {
    AfterPts(Appended(c, s.(h := s.h.(read := s.h.read + d)), d))
  }

  lemma ReadPolicy(c: Config, s: State, d: seq<byte>)
    requires Shape(c, s) && Bounded(c, s) && s.pc.PtsRead? && c.Batched() && |d| <= s.b.free
    ensures Bounded(c, ReadInto(c, s, d)) && Unstranded(c, ReadInto(c, s, d))
  {
    hide Blit;
  }

  lemma ReadWhole(c: Config, s: State, d: seq<byte>)
    requires Shape(c, s) && Whole(c, s) && s.pc.PtsRead? && c.Batched() && |d| <= s.b.free
    ensures Whole(c, ReadInto(c, s, d))
  {
    var r := ReadInto(c, s, d);
    var sent := W.Payloads(s.h.sent);
    BlitExtends(s.b.buf, 1, s.b.at, d);
    Regroup(sent, s.b.buf[1..s.b.at], d);
    hide Blit, W.Payloads, Threshold;
  }

  lemma ReadConserved(c: Config, s: State, d: seq<byte>)
    requires Shape(c, s) && Conserved(c, s) && s.pc.PtsRead? && c.Batched() && |d| <= s.b.free
    ensures Conserved(c, ReadInto(c, s, d))
  {
    if Whole(c, s) { ReadWhole(c, s, d); }
    hide Blit, W.Payloads, Threshold, Whole, W.Unsent;
  }

  lemma ReadGrowing(c: Config, s: State, d: seq<byte>)
    requires Shape(c, s) && Growing(c, s) && Bounded(c, s) && s.pc.PtsRead? && c.Batched() && |d| <= s.b.free
    ensures Growing(c, ReadInto(c, s, d))
  {
    hide Blit;
  }

  lemma ReadData(c: Config, s: State, d: seq<byte>)
    requires Shape(c, s) && Data(c, s) && s.pc.PtsRead? && c.Batched() && |d| <= s.b.free
    ensures Data(c, ReadInto(c, s, d))
  {
    ReadPolicy(c, s, d);
    ReadConserved(c, s, d);
    ReadGrowing(c, s, d);
    assert Delivered(ReadInto(c, s, d)) by { hide Blit; }
  }

  lemma ImmediateData(c: Config, s: State, d: seq<byte>)
    requires Shape(c, s) && Data(c, s) && s.pc.PtsRead? && !c.Batched()
    requires d != [] && |d| <= c.bufferSize
    ensures Data(c, PtsReadStep(c, s, Got(d, false)))
  {
    var r := PtsReadStep(c, s, Got(d, false));
    assert W.Unsent(r.b.buf, r.cur) == d;
    assert s.b.buf[1..1] == [];
  }

  lemma FlushPolicy(c: Config, s: State)
    requires Shape(c, s) && Bounded(c, s) && Unstranded(c, s) && s.pc.Flush?
    ensures Bounded(c, FlushStep(c, s)) && Unstranded(c, FlushStep(c, s))
  {
  }

  lemma FlushConserved(c: Config, s: State)
    requires Shape(c, s) && Conserved(c, s) && s.pc.Flush?
    ensures Conserved(c, FlushStep(c, s))
  {
    var r := FlushStep(c, s);
    if Sending(r.pc) {
      assert W.Unsent(r.b.buf, r.cur) == s.b.buf[1..1 + s.b.total];
    }
  }

  lemma DoublingSnoc(c: Config, fs: seq<FlushNote>, f: FlushNote)
    requires Doubling(c, fs) && 1 <= f.n <= c.bufferSize
    requires fs != [] && Follows(fs[|fs| - 1], f) ==> f.n >= 2 * fs[|fs| - 1].n + 1
    ensures Doubling(c, fs + [f])
  {
    hide Follows;
  }

  lemma FlushGrowing(c: Config, s: State)
    requires Shape(c, s) && Growing(c, s) && Bounded(c, s) && s.pc.Flush?
    ensures Growing(c, FlushStep(c, s))
  {
    var r := FlushStep(c, s);
    if Sending(r.pc) {
      DoublingSnoc(c, s.h.flushes, FlushNote(s.b.total, s.b.limitEx, s.h.seen, |s.inb.frames|));
    }
    hide Doubling;
  }

  lemma FlushData(c: Config, s: State)
    requires Shape(c, s) && Data(c, s) && s.pc.Flush?
    ensures Data(c, FlushStep(c, s))
  {
    hide Bounded, Unstranded, Conserved, Growing;
    FlushPolicy(c, s);
    FlushConserved(c, s);
    FlushGrowing(c, s);
  }

  /** Back from `writensockint`: either everything is sent or `Done` says that the session ends. */
  lemma ReturnData(c: Config, s: State, r: State)
    requires Shape(c, s) && Shape(c, r) && Data(c, s) && Sending(s.pc)
    requires if c.Batched() then r.pc.Head? else r.pc.SockRead? || r.pc.Flush?
    requires if c.Batched()
             then r.b == s.b.(buf := r.b.buf, lastWrite := r.b.lastWrite, at := 1, free := c.bufferSize, total := 0)
             else r.b == s.b.(buf := r.b.buf) && r.b.buf[0] == s.b.buf[0]
    requires 1 <= r.b.lastWrite <= c.bufferSize + 1 || !c.Batched()
    requires r.inb == s.inb && r.h == s.h.(sent := r.h.sent)
    requires W.Payloads(r.h.sent) <= s.h.read
    requires forall i :: 0 <= i < |r.h.sent| ==> r.h.sent[i] != [] && r.h.sent[i][0] == c.QByte()
    requires || (r.done != 0 && r.done != 3)
             || (W.Payloads(r.h.sent) == s.h.read && (c.Batched() ==> r.b.lastWrite == s.cur.n))
    ensures Data(c, r)
  {
    assert r.b.buf[1..1] == [];
  }

  lemma FrameData(c: Config, s: State, d: seq<byte>)
    requires Shape(c, s) && Data(c, s) && s.pc.SockRead?
    requires 2 <= |d| <= c.bufferSize + 1 && d[0] == 0
    ensures Data(c, SockReadStep(c, s, Got(d, false)))
  {
    var r := SockReadStep(c, s, Got(d, false));
    assert r.inb.buf[1..1 + r.inb.n] == d[1..];
    assert r.inb.frames[..|s.inb.tries|] == s.inb.frames;
  }

  lemma PtsWriteData(c: Config, s: State, e: Event)
    requires Shape(c, s) && Data(c, s) && s.pc.PtsWrite?
    ensures Data(c, PtsWriteStep(c, s, e))
  {
    hide Relayed, Busy, Settled;
    MoveRelayed(c, s, PtsWriteStep(c, s, e));
    match e
    case Wrote(k0) =>
      var k := Clip(k0, s.inb.n - s.inb.pos);
      if s.inb.pos + k < s.inb.n { BusyGoesOn(s.inb, k); } else { BusySettles(s.inb); }
    case Refused(intr) => BusyFails(s.inb);
    case _ =>
  }

  lemma PacketsSnoc(packets: seq<seq<byte>>, p: seq<byte>, q: byte)
    requires forall i :: 0 <= i < |packets| ==> packets[i] != [] && packets[i][0] == q
    requires p != [] && p[0] == q
    ensures forall i :: 0 <= i < |packets + [p]| ==> (packets + [p])[i] != [] && (packets + [p])[i][0] == q
  {
  }

  lemma SentBytes(c: Config, s: State, k: nat)
    requires Shape(c, s) && Relayed(c, s) && Sending(s.pc) && 1 <= k <= s.cur.left + 1
    ensures var r := AfterWrite(s, k);
            && W.Payloads(r.h.sent) + W.Unsent(r.b.buf, r.cur) == s.h.read
            && (r.cur.left == 0 ==> W.Unsent(r.b.buf, r.cur) == [])
            && r.b.buf[0] == s.b.buf[0]
            && forall i :: 0 <= i < |r.h.sent| ==> r.h.sent[i] != [] && r.h.sent[i][0] == c.QByte()
  {
    SendingFacts(c, s);
    hide Relayed, W.Payloads, W.Payload, W.Unsent, W.Packet, W.Reframe, W.Advance;
    var p := W.Packet(s.b.buf, s.cur, k);
    var r := AfterWrite(s, k);
    W.TakeMoves(s.b.buf, s.cur, k);
    PacketLength(s.b.buf, s.cur, k);
    PacketsSnoc(s.h.sent, p, c.QByte());
    W.PayloadsSnoc(s.h.sent, p);
    Regroup(W.Payloads(s.h.sent), W.Payload(p), W.Unsent(r.b.buf, r.cur));
  }

  lemma PacketLength(buf: seq<byte>, cur: W.Cursor, k: nat)
    requires W.Ok(buf, cur) && 1 <= k <= cur.left + 1
    ensures |W.Packet(buf, cur, k)| == k
  {
  }

  lemma SentData(c: Config, s: State, k0: nat)
    requires Shape(c, s) && Data(c, s) && s.pc.SockWrite?
    ensures Data(c, SockWriteStep(c, s, Wrote(k0)))
  {
    hide Bounded, Unstranded, Conserved, Growing, Delivered, W.Packet, W.Reframe;
    var k := Clip(k0, s.cur.left + 1);
    var r := SockWriteStep(c, s, Wrote(k0));
    SentBytes(c, s, k);
    SendingFacts(c, s);
    if r.cur.left == 0 { ReturnData(c, s, r); } else { MoreData(c, s, r); }
  }

  lemma SendingFacts(c: Config, s: State)
    requires Shape(c, s) && Relayed(c, s) && Sending(s.pc)
    ensures s.cur.q == c.QByte() && W.Payloads(s.h.sent) <= s.h.read
    ensures W.Payloads(s.h.sent) + W.Unsent(s.b.buf, s.cur) == s.h.read
    ensures forall i :: 0 <= i < |s.h.sent| ==> s.h.sent[i] != [] && s.h.sent[i][0] == c.QByte()
  {
  }

  /** `writensockint` goes on with another packet. */
  lemma MoreData(c: Config, s: State, r: State)
    requires Shape(c, s) && Shape(c, r) && Data(c, s) && Sending(s.pc) && r.pc == s.pc
    requires r.b == s.b.(buf := r.b.buf) && r.b.buf[0] == s.b.buf[0]
    requires r.cur.n == s.cur.n && r.cur.q == s.cur.q
    requires r.inb == s.inb && r.h == s.h.(sent := r.h.sent) && r.done == s.done
    requires W.Payloads(r.h.sent) + W.Unsent(r.b.buf, r.cur) == s.h.read
    requires forall i :: 0 <= i < |r.h.sent| ==> r.h.sent[i] != [] && r.h.sent[i][0] == c.QByte()
    ensures Data(c, r)
  {
  }

  // ---------------------------------------------------------------------------------------------
  // Every step.

  lemma PtsReadData(c: Config, s: State, e: Event)
    requires Shape(c, s) && Data(c, s) && s.pc.PtsRead?
    ensures Data(c, PtsReadStep(c, s, e))
  {
    hide Relayed, Busy, Settled, W.Ok, Blit, Threshold;
    var r := PtsReadStep(c, s, e);
    match e
    case Refused(intr) => MoveRelayed(c, s, r);
    case Got(data, intr) =>
      var d := Take(data, if c.Batched() then s.b.free else c.bufferSize);
      if d == [] {
        assert s.h.read + d == s.h.read;
        MoveRelayed(c, s, r);
      } else if c.Batched() {
        ReadData(c, s, d);
      } else {
        ImmediateData(c, s, d);
        assert r == PtsReadStep(c, s, Got(d, false));
      }
    case _ =>
  }

  lemma SockReadData(c: Config, s: State, e: Event)
    requires Shape(c, s) && Data(c, s) && s.pc.SockRead?
    ensures Data(c, SockReadStep(c, s, e))
  {
    hide Data, SockReadStep;
    if e.Got? && |Take(e.data, c.bufferSize + 1)| >= 2 && e.data[0] == 0 {
      FrameData(c, s, Take(e.data, c.bufferSize + 1));
      ClippedFrame(c, s, e.data, e.intr);
    } else {
      NoFrameData(c, s, e);
    }
  }

  lemma ClippedFrame(c: Config, s: State, data: seq<byte>, intr: bool)
    requires Shape(c, s) && s.pc.SockRead? && |Take(data, c.bufferSize + 1)| >= 2
    ensures SockReadStep(c, s, Got(data, intr))
            == SockReadStep(c, s, Got(Take(data, c.bufferSize + 1), false))
  {
    hide Blit;
  }

  lemma NoFrameData(c: Config, s: State, e: Event)
    requires Shape(c, s) && Data(c, s) && s.pc.SockRead?
    requires !(e.Got? && |Take(e.data, c.bufferSize + 1)| >= 2 && e.data[0] == 0)
    ensures Data(c, SockReadStep(c, s, e))
  {
    hide Relayed, Blit, Busy, W.Ok;
    MoveRelayed(c, s, SockReadStep(c, s, e));
  }

  /** The third failure in a row. */
  lemma GivenUpData(c: Config, s: State)
    requires Shape(c, s) && Data(c, s) && s.pc.SockWrite?
    ensures Returning(c, s) && Data(c, WriteReturn(c, s.(done := 10)))
  {
    hide Relayed, Busy, Settled;
    SendingFacts(c, s);
    ReturnData(c, s, WriteReturn(c, s.(done := 10)));
  }

  lemma FailedData(c: Config, s: State)
    requires Shape(c, s) && Data(c, s) && s.pc.SockWrite? && s.cur.errors + 1 < W.MAX_ERROR_WRITE
    ensures Data(c, SockWriteStep(c, s, Refused(false)))
  {
    hide Relayed, Busy, Settled;
    SendingFacts(c, s);
    MoreData(c, s, SockWriteStep(c, s, Refused(false)));
  }

  lemma RefusedData(c: Config, s: State, intr: bool)
    requires Shape(c, s) && Data(c, s) && s.pc.SockWrite?
    ensures Data(c, SockWriteStep(c, s, Refused(intr)))
  {
    if intr {
      hide Relayed, Busy, Settled;
      MoveRelayed(c, s, SockWriteStep(c, s, Refused(intr)));
    } else if s.cur.errors + 1 < W.MAX_ERROR_WRITE {
      FailedData(c, s);
    } else {
      hide Data, WriteReturn;
      GivenUpData(c, s);
    }
  }

  lemma SockWriteData(c: Config, s: State, e: Event)
    requires Shape(c, s) && Data(c, s) && s.pc.SockWrite?
    ensures Data(c, SockWriteStep(c, s, e))
  {
    hide Data;
    match e
    case Wrote(k) => SentData(c, s, k);
    case Refused(intr) => RefusedData(c, s, intr);
    case _ =>
  }

  /** What a step of `do_inter` may change. */
  ghost predicate Interrupt(c: Config, s: State, r: State)
    requires Shape(c, s) && s.pc.Inter?
  {
    && r.inb == s.inb && r.h == s.h && r.timers == s.timers && r.cur == s.cur
    && InLoop(r.pc) && !r.pc.Polling?
    && (AfterRead(s.pc) ==> AfterRead(r.pc))
    && Delivering(s.pc) == Delivering(r.pc)
    && (r.done == s.done || r.done == 7 || r.done == 8)
    && if Sending(s.pc) && !Sending(r.pc)
       then r.done == s.done && r == WriteReturn(c, s.(sig := r.sig))
       else && !r.pc.Head?
            && (Sending(r.pc) ==> Sending(s.pc))
            && r.b == (if r.b.timerEx then s.b.(timerEx := true) else s.b)
            && (s.sig.idle ==> r.sig.idle || r.b.timerEx)
  }

  lemma InterNextEffect(c: Config, s: State, f: Flag, go: bool, site: Site)
    requires Shape(c, s) && s.pc.Inter? && s.pc.site == site
    ensures Interrupt(c, s, InterNext(c, s, f, go, site))
    ensures Sending(s.pc) && !Sending(InterNext(c, s, f, go, site).pc) ==> f == Chld && !go
  {
  }

  lemma ServedParts(s: State, f: Flag)
    ensures var r := Served(s, f);
            && r == s.(sig := r.sig, done := r.done, b := s.b.(timerEx := r.b.timerEx))
            && (r.done == s.done || r.done == 7 || r.done == 8)
            && (s.b.timerEx ==> r.b.timerEx)
            && (s.sig.idle ==> r.sig.idle || r.b.timerEx)
            && (f.Chld? ==> r.done == s.done && r.b == s.b)
  {
  }

  lemma ServedEffect(c: Config, s: State, r: State)
    requires Shape(c, s) && s.pc.Inter? && Shape(c, Served(s, s.pc.f)) && Interrupt(c, Served(s, s.pc.f), r)
    requires Sending(s.pc) && !Sending(r.pc) ==> s.pc.f.Chld?
    ensures Interrupt(c, s, r)
  {
    ServedParts(s, s.pc.f);
    hide WriteReturn, Served, Shape;
    if Sending(s.pc) && !Sending(r.pc) {
      assert Served(s, s.pc.f).(sig := r.sig) == s.(sig := r.sig);
    }
  }

  /** Seeing the flag up, or serving it before it is cleared. */
  lemma InterStays(c: Config, s: State, r: State)
    requires Shape(c, s) && s.pc.Inter? && r.pc.Inter? && r.pc.site == s.pc.site
    requires r == s.(pc := r.pc, reaped := r.reaped)
    ensures Interrupt(c, s, r) && Sending(s.pc) == Sending(r.pc)
  {
  }

  lemma InterEffect(c: Config, s: State, e: Event)
    requires Shape(c, s) && s.pc.Inter?
    ensures Interrupt(c, s, InterStep(c, s, e))
    ensures Sending(s.pc) && !Sending(InterStep(c, s, e).pc) ==> !s.pc.go
  {
    hide InterNext, Interrupt, W.Ok;
    var Inter(f, phase, go, site) := s.pc;
    var r := InterStep(c, s, e);
    if e.Tick? && phase.Clear? {
      InterNextEffect(c, Served(s, f), f, go && !f.Alrm? && !f.Exit?, site);
      ServedEffect(c, s, r);
    } else if e.Tick? && phase.Test? && !s.sig.Up(f) {
      InterNextEffect(c, s, f, go, site);
    } else {
      InterStays(c, s, r);
    }
  }

  lemma InterData(c: Config, s: State, e: Event)
    requires Shape(c, s) && Data(c, s) && Control(s) && s.pc.Inter?
    ensures Data(c, InterStep(c, s, e))
  {
    hide Control, Relayed, Busy, Settled, InterStep;
    var r := InterStep(c, s, e);
    InterEffect(c, s, e);
    InterGo(s);
    if Sending(s.pc) && !Sending(r.pc) {
      SendingFacts(c, s);
      ReturnData(c, s, r);
    } else {
      MoveRelayed(c, s, r);
    }
  }

  lemma PlainData(c: Config, s: State, e: Event)
    requires Shape(c, s) && Data(c, s) && (s.pc.Head? || s.pc.PipeRead?)
    ensures Data(c, LoopStep(c, s, e))
  {
    hide Relayed, Blit;
    var r := LoopStep(c, s, e);
    CodeInLoop(c, s);
    if r.pc.Left? { LeaveData(c, s, r); } else if r != s { MoveRelayed(c, s, r); }
  }

  lemma PollData(c: Config, s: State, code: PollCode, revents: Polled)
    requires Shape(c, s) && Data(c, s) && s.pc.Polling?
    ensures Data(c, PollStep(c, s, code, revents))
  {
    hide Relayed;
    var r := PollStep(c, s, code, revents);
    CodeInLoop(c, s);
    if r.pc.Left? { LeaveData(c, s, r); } else { MoveRelayed(c, s, r); }
  }

  lemma CheckData(c: Config, s: State)
    requires Shape(c, s) && Data(c, s) && s.pc.Check?
    ensures Data(c, CheckStep(c, s))
  {
    hide Relayed, Busy, Settled, W.Ok;
    var r := CheckStep(c, s);
    CodeInLoop(c, s);
    if r.pc.Left? { LeaveData(c, s, r); } else { MoveRelayed(c, s, r); }
  }

  lemma CodeInLoop(c: Config, s: State)
    requires Shape(c, s) && Data(c, s) && InLoop(s.pc)
    ensures s.h.code == 0
  {
  }

  lemma LoopData(c: Config, s: State, e: Event)
    requires Shape(c, s) && Data(c, s) && Control(s) && InLoop(s.pc)
    ensures Data(c, LoopStep(c, s, e))
  {
    hide Control, Data, HeadStep, PollStep, PipeStep, InterStep, CheckStep, PtsReadStep, SockReadStep, PtsWriteStep;
    hide FlushStep, SockWriteStep;
    match s.pc
    case Inter(_, _, _, _) => InterData(c, s, e);
    case PtsRead => PtsReadData(c, s, e);
    case SockRead => SockReadData(c, s, e);
    case PtsWrite => PtsWriteData(c, s, e);
    case Flush => FlushData(c, s);
    case SockWrite => SockWriteData(c, s, e);
    case Polling => if e.Poll? { PollData(c, s, e.code, e.revents); }
    case Check => CheckData(c, s);
    case Head => PlainData(c, s, e);
    case PipeRead => PlainData(c, s, e);
  }

  lemma ClosingData(c: Config, s: State, e: Event)
    requires Shape(c, s) && Data(c, s) && !InLoop(s.pc)
    ensures Data(c, ClosingStep(c, s, e))
  {
    hide Data, ClosingStep;
    OutData(c, s, ClosingStep(c, s, e));
  }

  lemma StepData(c: Config, s: State, e: Event)
    requires Shape(c, s) && Data(c, s) && Control(s)
    ensures Data(c, Step(c, s, e))
  {
    hide Control, Data, LoopStep, ClosingStep;
    match e
    case Signal(f) => SignalData(c, s, Raise(s.sig, f), s.timers);
    case ReadTimerExpires => SignalData(c, s, Raise(s.sig, Idle), s.timers.(read := false));
    case WatchTimerExpires => SignalData(c, s, Raise(s.sig, Alrm), s.timers.(watch := Off));
    case Killed => if !s.pc.Finished? { OutData(c, s, s.(pc := Exited)); }
    case _ => if InLoop(s.pc) { LoopData(c, s, e); } else { ClosingData(c, s, e); }
  }

  lemma {:induction false} RunData(c: Config, events: seq<Event>)
    requires c.Valid()
    ensures Data(c, Run(c, events))
  {
    if events != [] {
      var before := events[..|events| - 1];
      RunData(c, before);
      RunControl(c, before);
      StepData(c, Run(c, before), events[|events| - 1]);
    } else {
      InitData(c);
    }
  }
}
