/**
 `writensockint` (writen.c): sends one Q byte followed by a payload as as many X.25 packets as the
 kernel needs.  The packets are framed in place: before every `write` the saved Q byte is stored in
 the cell in front of the first unsent payload byte.
 */
module Writen {
  import opened Common

  const MAX_ERROR_WRITE := 3

  /** The locals of `writensockint`; `ptr` is an index into the caller's buffer. */
  datatype Cursor = Cursor(n: nat, q: byte, left: nat, ptr: nat, errors: nat)

  function Begin(buf: seq<byte>, n: nat): Cursor
    requires 2 <= n <= |buf|
  {
    Cursor(n, buf[0], n - 1, 0, 0)
  }

  /** The cursor lies inside the buffer and the cell it points to holds the Q byte. */
  ghost predicate Ok(buf: seq<byte>, cur: Cursor) {
    && 2 <= cur.n <= |buf|
    && cur.ptr + cur.left + 1 == cur.n
    && cur.left > 0
    && buf[cur.ptr] == cur.q
    && cur.errors < MAX_ERROR_WRITE
  }

  /** The packet handed over by a `write` that takes `k` bytes. */
  function Packet(buf: seq<byte>, cur: Cursor, k: nat): seq<byte>
    requires Ok(buf, cur) && 1 <= k <= cur.left + 1
  {
    buf[cur.ptr..cur.ptr + k]
  }

  function Advance(cur: Cursor, k: nat): Cursor
    requires 1 <= k <= cur.left + 1
  {
    cur.(left := cur.left - (k - 1), ptr := cur.ptr + (k - 1), errors := 0)
  }

  /** The buffer at the next `write`: when payload is left, the Q byte overwrites the last byte sent. */
  function Reframe(buf: seq<byte>, cur: Cursor): (r: seq<byte>)
    requires cur.ptr < |buf|
    ensures |r| == |buf|
  {
    if cur.left > 0 then buf[cur.ptr := cur.q] else buf
  }

  function Result(cur: Cursor): int { cur.n - cur.left }

  /** The payload not yet taken by the kernel. */
  function Unsent(buf: seq<byte>, cur: Cursor): seq<byte>
    requires cur.ptr < cur.n <= |buf|
  {
    buf[cur.ptr + 1..cur.n]
  }

  /** The payload of a packet: everything after the Q byte. */
  function Payload(packet: seq<byte>): seq<byte> { if packet == [] then [] else packet[1..] }

  function Payloads(packets: seq<seq<byte>>): seq<byte> {
    if packets == [] then []
    else Payloads(packets[..|packets| - 1]) + Payload(packets[|packets| - 1])
  }

  lemma PayloadsSnoc(packets: seq<seq<byte>>, packet: seq<byte>)
    ensures Payloads(packets + [packet]) == Payloads(packets) + Payload(packet)
  {
    assert (packets + [packet])[..|packets|] == packets;
  }

  /** One successful `write` moves exactly the packet's payload from the unsent to the sent side. */
  lemma TakeMoves(buf: seq<byte>, cur: Cursor, k: nat)
    requires Ok(buf, cur) && 1 <= k <= cur.left + 1
    ensures var cur' := Advance(cur, k); var buf' := Reframe(buf, cur');
            && cur'.ptr < cur'.n <= |buf'|
            && (cur'.left > 0 ==> Ok(buf', cur'))
            && Packet(buf, cur, k)[0] == cur.q
            && Payload(Packet(buf, cur, k)) + Unsent(buf', cur') == Unsent(buf, cur)
            && buf'[0] == buf[0]
            && buf'[cur'.ptr + 1..] == buf[cur'.ptr + 1..]
            && (cur'.left == 0 ==> Unsent(buf', cur') == [])
  {
    var cur' := Advance(cur, k);
    var buf' := Reframe(buf, cur');
    assert Packet(buf, cur, k)[1..] == buf[cur.ptr + 1..cur'.ptr + 1];
    assert Unsent(buf', cur') == buf[cur'.ptr + 1..cur.n];
  }

  // ---------------------------------------------------------------------------------------------
  // Whole calls, against any sequence of kernel answers.

  /** How one `write` of the loop ends; `go` is what the interrupt handler returns. */
  datatype Answer = Took(k: nat) | Interrupted(go: bool) | Failed

  datatype Status = Running | Complete | Stopped | GaveUp

  datatype Job = Job(buf: seq<byte>, cur: Cursor, packets: seq<seq<byte>>, status: Status)

  function Start(buf: seq<byte>, n: nat): Job
    requires 2 <= n <= |buf|
  {
    Job(buf, Begin(buf, n), [], Running)
  }

  ghost predicate Live(j: Job) { j.status == Running ==> Ok(j.buf, j.cur) }

  function Call(j: Job, a: Answer): (r: Job)
    requires Live(j)
    ensures Live(r)
  {
    if j.status != Running then j
    else match a
      case Took(k0) =>
        var k := Clip(k0, j.cur.left + 1);
        var cur := Advance(j.cur, k);
        Job(Reframe(j.buf, cur), cur, j.packets + [Packet(j.buf, j.cur, k)],
            if cur.left == 0 then Complete else Running)
      case Interrupted(go) => if go then j else j.(status := Stopped)
      case Failed =>
        if j.cur.errors + 1 < MAX_ERROR_WRITE then j.(cur := j.cur.(errors := j.cur.errors + 1))
        else j.(status := GaveUp)
  }

  function Calls(j: Job, answers: seq<Answer>): (r: Job)
    requires Live(j)
    ensures Live(r)
  {
    if answers == [] then j else Call(Calls(j, answers[..|answers| - 1]), answers[|answers| - 1])
  }

  /** What the framing loop keeps: the sent part of the payload is on the wire, the rest is untouched. */
  ghost predicate Framed(buf: seq<byte>, n: nat, j: Job)
    requires 2 <= n <= |buf|
  {
    && j.cur.n == n && j.cur.q == buf[0] && |j.buf| == |buf|
    && j.cur.left < n
    && j.cur.ptr == n - 1 - j.cur.left
    && j.buf[0] == buf[0]
    && j.buf[j.cur.ptr + 1..] == buf[j.cur.ptr + 1..]
    && (forall i :: 0 <= i < |j.packets| ==> j.packets[i] != [] && j.packets[i][0] == buf[0])
    && Payloads(j.packets) == buf[1..j.cur.ptr + 1]
    && (j.cur.left == 0 <==> j.status == Complete)
  }

  lemma SliceThenTail<T>(s: seq<T>, t: seq<T>, i: nat, k: nat)
    requires |s| == |t| && i + k <= |s| && s[i..] == t[i..]
    ensures s[i..i + k] == t[i..i + k] && s[i + k..] == t[i + k..]
  {
    assert s[i..i + k] == s[i..][..k];
    assert s[i + k..] == s[i..][k..];
    assert t[i..i + k] == t[i..][..k];
    assert t[i + k..] == t[i..][k..];
  }

  /** The payload of a packet is what comes next in the caller's buffer. */
  lemma PacketPayload(buf: seq<byte>, n: nat, j: Job, k: nat)
    requires 2 <= n <= |buf| && Ok(j.buf, j.cur) && Framed(buf, n, j) && 1 <= k <= j.cur.left + 1
    ensures Payload(Packet(j.buf, j.cur, k)) == buf[j.cur.ptr + 1..j.cur.ptr + k]
  {
    hide Payloads;
    var ptr := j.cur.ptr;
    SliceThenTail(j.buf, buf, ptr + 1, k - 1);
    SubSlice(j.buf, ptr, ptr + k, 1, k - 1);
  }

  /** The packet adds it to the payload sent. */
  lemma TookPayload(buf: seq<byte>, n: nat, j: Job, k: nat)
    requires 2 <= n <= |buf| && Ok(j.buf, j.cur) && Framed(buf, n, j) && 1 <= k <= j.cur.left + 1
    ensures Payloads(j.packets + [Packet(j.buf, j.cur, k)]) == buf[1..j.cur.ptr + k]
  {
    hide Payloads, Payload, Packet;
    PacketPayload(buf, n, j, k);
    PayloadsSnoc(j.packets, Packet(j.buf, j.cur, k));
    SliceJoin(buf, 1, j.cur.ptr + 1, j.cur.ptr + k);
  }

  lemma TookKeepsFramed(buf: seq<byte>, n: nat, j: Job, a: Answer)
    requires 2 <= n <= |buf| && Live(j) && Framed(buf, n, j)
    requires j.status == Running && a.Took?
    ensures Framed(buf, n, Call(j, a))
  {
    hide Payload, Payloads, Unsent, Clip;
    var k := Clip(a.k, j.cur.left + 1);
    ClipFits(a.k, j.cur.left + 1);
    TakeMoves(j.buf, j.cur, k);
    TookPayload(buf, n, j, k);
    SliceThenTail(j.buf, buf, j.cur.ptr + 1, k - 1);
    hide Packet, Reframe;
  }

  lemma CallKeepsFramed(buf: seq<byte>, n: nat, j: Job, a: Answer)
    requires 2 <= n <= |buf| && Live(j) && Framed(buf, n, j)
    ensures Framed(buf, n, Call(j, a))
  {
    if j.status == Running && a.Took? {
      TookKeepsFramed(buf, n, j, a);
    }
  }

  /**
   In-place framing is lossless, in every state of every call: the cursor is where the counter says,
   the cells behind it still hold the caller's bytes, every packet starts with the original Q byte, the
   packets carry exactly the sent part of the payload, and the value returned is one more than its length.
   */
  lemma {:induction false} FramingLossless(buf: seq<byte>, n: nat, answers: seq<Answer>)
    requires 2 <= n <= |buf|
    ensures var j := Calls(Start(buf, n), answers);
            && Framed(buf, n, j)
            && Result(j.cur) == 1 + |Payloads(j.packets)|
            && (Result(j.cur) == n <==> Payloads(j.packets) == buf[1..n])
  {
    if answers != [] {
      FramingLossless(buf, n, answers[..|answers| - 1]);
      CallKeepsFramed(buf, n, Calls(Start(buf, n), answers[..|answers| - 1]), answers[|answers| - 1]);
    }
  }

  // ---------------------------------------------------------------------------------------------
  // The retry budget.

  /** Calls of `write` that were not interrupted by a signal. */
  function Uninterrupted(answers: seq<Answer>): nat {
    if answers == [] then 0
    else Uninterrupted(answers[..|answers| - 1]) + (if answers[|answers| - 1].Interrupted? then 0 else 1)
  }

  /** Failed calls since the last successful one. */
  function FailuresInARow(answers: seq<Answer>): nat {
    if answers == [] then 0
    else
      var before := FailuresInARow(answers[..|answers| - 1]);
      match answers[|answers| - 1]
      case Took(_) => 0
      case Interrupted(_) => before
      case Failed => before + 1
  }

  /** Every successful `write` takes at least the Q byte and one payload byte, as writen.c demands. */
  ghost predicate Progressing(answers: seq<Answer>) {
    forall i :: 0 <= i < |answers| ==> answers[i].Took? ==> answers[i].k >= 2
  }

  /** Successful writes that took the Q byte alone. */
  function OneByteWrites(answers: seq<Answer>): nat {
    if answers == [] then 0
    else
      var a := answers[|answers| - 1];
      OneByteWrites(answers[..|answers| - 1]) + (if a.Took? && a.k <= 1 then 1 else 0)
  }

  lemma {:induction false} RetryMeasure(buf: seq<byte>, n: nat, answers: seq<Answer>)
    requires 2 <= n <= |buf|
    requires Calls(Start(buf, n), answers).status == Running
    ensures var cur := Calls(Start(buf, n), answers).cur;
            Uninterrupted(answers) + 3 * cur.left - cur.errors <= 3 * (n - 1) + 3 * OneByteWrites(answers)
  {
    if answers != [] {
      RetryMeasure(buf, n, answers[..|answers| - 1]);
    }
  }

  lemma {:induction false} ProgressingNeverWastes(answers: seq<Answer>)
    requires Progressing(answers)
    ensures OneByteWrites(answers) == 0
  {
    if answers != [] {
      var k := |answers| - 1;
      assert answers[k].Took? ==> answers[k].k >= 2;
      ProgressingNeverWastes(answers[..k]);
    }
  }

  /**
   A call that is still running has used less than three tries for each payload byte and for each write that
   took the Q byte alone; so less than `3 * (n - 1)` when every write takes two bytes, as writen.c demands.
   */
  lemma RetriesBounded(buf: seq<byte>, n: nat, answers: seq<Answer>)
    requires 2 <= n <= |buf|
    requires Calls(Start(buf, n), answers).status == Running
    ensures Uninterrupted(answers) < 3 * (n - 1) + 3 * OneByteWrites(answers)
    ensures Progressing(answers) ==> Uninterrupted(answers) < 3 * (n - 1)
  {
    RetryMeasure(buf, n, answers);
    if Progressing(answers) { ProgressingNeverWastes(answers); }
  }

  /** And without that demand there is no bound: writes of one byte can go on for ever and move nothing. */
  lemma {:induction false} OneByteWritesGoNowhere(buf: seq<byte>, n: nat, answers: seq<Answer>)
    requires 2 <= n <= |buf|
    requires forall i :: 0 <= i < |answers| ==> answers[i] == Took(1)
    ensures var j := Calls(Start(buf, n), answers);
            && j.status == Running && j.buf == buf && j.cur == Begin(buf, n)
            && Uninterrupted(answers) == |answers|
  {
    if answers != [] {
      var k := |answers| - 1;
      assert answers[k] == Took(1);
      OneByteWritesGoNowhere(buf, n, answers[..k]);
    }
  }

  lemma {:induction false} ErrorsCounted(buf: seq<byte>, n: nat, answers: seq<Answer>)
    requires 2 <= n <= |buf|
    requires Calls(Start(buf, n), answers).status == Running
    ensures Calls(Start(buf, n), answers).cur.errors == FailuresInARow(answers)
  {
    if answers != [] {
      ErrorsCounted(buf, n, answers[..|answers| - 1]);
    }
  }

  /**
   The error handler runs exactly on the third failure with no successful `write` in between; the call is stopped
   exactly by an interrupt handler that says so.
   */
  lemma GivesUpOnThirdFailure(buf: seq<byte>, n: nat, answers: seq<Answer>, a: Answer)
    requires 2 <= n <= |buf|
    requires Calls(Start(buf, n), answers).status == Running
    ensures Calls(Start(buf, n), answers + [a]).status == GaveUp <==> a.Failed? && FailuresInARow(answers + [a]) == 3
    ensures Calls(Start(buf, n), answers + [a]).status == Stopped <==> a == Interrupted(false)
  {
    ErrorsCounted(buf, n, answers);
    assert (answers + [a])[..|answers|] == answers;
  }

  /** Never three failures in a row, and every interrupt handler lets the write go on. */
  ghost predicate Tolerable(answers: seq<Answer>) {
    && (forall i :: 0 <= i <= |answers| ==> FailuresInARow(answers[..i]) <= 2)
    && (forall i :: 0 <= i < |answers| ==> answers[i] != Interrupted(false))
  }

  /** Up to two failures in a row are overcome: the call goes on until all is sent. */
  lemma {:induction false} TwoFailuresAreOvercome(buf: seq<byte>, n: nat, answers: seq<Answer>)
    requires 2 <= n <= |buf| && Tolerable(answers)
    ensures var status := Calls(Start(buf, n), answers).status; status == Running || status == Complete
  {
    if answers != [] {
      var k := |answers| - 1;
      assert Tolerable(answers[..k]) by {
        assert forall i :: 0 <= i <= k ==> answers[..k][..i] == answers[..i];
      }
      TwoFailuresAreOvercome(buf, n, answers[..k]);
      assert answers == answers[..k] + [answers[k]] && answers[..|answers|] == answers;
      if Calls(Start(buf, n), answers[..k]).status == Running {
        GivesUpOnThirdFailure(buf, n, answers[..k], answers[k]);
      }
    }
  }
}
