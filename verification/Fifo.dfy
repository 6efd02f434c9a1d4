/** The FIFO between the workers and the monitor (pts_addr.c): 40-byte text records. */
module Fifo {
  import opened Common
  import opened Text
  import opened Registry

  const MAXFIFOMES := 40

  const DELIMS: set<char> := {' ', '\n'}

  /** What a worker reports: its terminal and its peer's address, or "-" for both when it ends. */
  datatype Message = Message(pid: nat, pts: string, addr: string)

  function Address(m: Message): string { if m.addr == "" then "unknown" else m.addr }

  /** `%i %s %s` */
  function Written(m: Message): string { Dec(m.pid) + " " + m.pts + " " + Address(m) }

  /** `snprintf` into the 40-byte buffer, whose other bytes stay what they were. */
  function Encode(stale: seq<char>, m: Message): (r: seq<char>)
    requires |stale| == MAXFIFOMES
    ensures |r| == MAXFIFOMES
  {
    var text := Take(Written(m), MAXFIFOMES - 1);
    text + ['\0'] + stale[|text| + 1..]
  }

  /** What `read_fifo` makes of a text: the three calls of `strtok_r` and the test for a removal. */
  function Parse(s: string): Option<Op> {
    var t1 := NextToken(s, DELIMS);
    if t1.NoToken? then None
    else
      var t2 := NextToken(t1.rest, DELIMS);
      if t2.NoToken? then None
      else
        var t3 := NextToken(t2.rest, DELIMS);
        if t3.NoToken? then None
        else if t2.text[0] == '-' && t3.text[0] == '-' then Some(Remove(t1.text))
        else Some(Register(t1.text, t2.text, t3.text))
  }

  function Served(slots: seq<Slot>, op: Option<Op>): seq<Slot> {
    match op
    case None => slots
    case Some(op) => Apply(slots, op)
  }

  /** The table after the bytes of one `read`. */
  function Received(slots: seq<Slot>, bytes: seq<char>): seq<Slot> { Served(slots, Parse(CString(bytes))) }

  /** The table after the whole stream was read, 40 bytes at a time. */
  function ReadAll(slots: seq<Slot>, stream: seq<char>): seq<Slot>
    decreases |stream|
  {
    if stream == [] then slots
    else
      var n := Min(MAXFIFOMES, |stream|);
      ReadAll(Received(slots, stream[..n]), stream[n..])
  }

  // ---------------------------------------------------------------------------------------------
  // Records and operations.

  /** Fields that `strtok_r` can tell apart, and whose stored part fits into a record. */
  predicate Sendable(m: Message) {
    && Plain(m.pts, DELIMS) && '\0' !in m.pts
    && Plain(Address(m), DELIMS) && '\0' !in Address(m)
    && |Dec(m.pid)| + 1 + |m.pts| + 1 + Min(|Address(m)|, MAXCHARADR) < MAXFIFOMES
  }

  /** The operation that a message stands for. */
  function OpOf(m: Message): Op
    requires Sendable(m)
  {
    if m.pts[0] == '-' && Address(m)[0] == '-' then Remove(Dec(m.pid))
    else Register(Dec(m.pid), m.pts, Address(m))
  }

  lemma PlainDec(n: nat)
    ensures Plain(Dec(n), DELIMS) && '\0' !in Dec(n)
  {
    forall i | 0 <= i < |Dec(n)|
      ensures Dec(n)[i] !in DELIMS && Dec(n)[i] != '\0'
    {
      assert IsDigit(Dec(n)[i]);
    }
  }

  /** Three plain fields are the three tokens. */
  lemma ThreeTokens(p: string, q: string, a: string)
    requires Plain(p, DELIMS) && Plain(q, DELIMS) && Plain(a, DELIMS)
    requires '\0' !in p && '\0' !in q && '\0' !in a
    ensures var s := p + " " + q + " " + a;
            && '\0' !in s
            && NextToken(s, DELIMS) == Token(p, q + " " + a)
            && NextToken(q + " " + a, DELIMS) == Token(q, a)
            && NextToken(a, DELIMS) == Token(a, [])
  {
    assert p + " " + q + " " + a == p + (" " + q + " " + a);
    assert q + " " + a == q + (" " + a);
    assert (" " + q + " " + a)[1..] == q + " " + a;
    assert (" " + a)[1..] == a;
    assert a + [] == a;
    TokenOf(p, " " + q + " " + a, DELIMS);
    TokenOf(q, " " + a, DELIMS);
    TokenOf(a, [], DELIMS);
  }

  /** A record with fewer than three fields changes nothing. */
  lemma PartialRecordsAreIgnored(slots: seq<Slot>, p: string, q: string)
    requires Plain(p, {' ', '\n'}) && Plain(q, {' ', '\n'}) && '\0' !in p && '\0' !in q
    ensures Received(slots, p) == Received(slots, p + " " + q) == slots
  {
    CStringWhole(p);
    CStringWhole(p + " " + q);
    TokenOf(p, [], DELIMS);
    assert p + [] == p;
    TokenOf(p, " " + q, DELIMS);
    assert p + (" " + q) == p + " " + q && (" " + q)[1..] == q;
    TokenOf(q, [], DELIMS);
    assert q + [] == q;
    NothingToParse();
    hide NextToken, CString;
  }

  lemma NothingToParse()
    ensures NextToken([], DELIMS) == NoToken
  {
  }

  lemma {:induction false} CStringWhole(s: string)
    requires '\0' !in s
    ensures CString(s) == s
  {
    if s != [] {
      CStringWhole(s[1..]);
    }
  }

  /** What the record keeps of the address. */
  function Kept(m: Message): string
    requires |Dec(m.pid)| + 1 + |m.pts| + 1 < MAXFIFOMES
  {
    Take(Address(m), MAXFIFOMES - 1 - (|Dec(m.pid)| + 1 + |m.pts| + 1))
  }

  lemma RecordText(m: Message)
    requires |Dec(m.pid)| + 1 + |m.pts| + 1 < MAXFIFOMES
    ensures Take(Written(m), MAXFIFOMES - 1) == Dec(m.pid) + " " + m.pts + " " + Kept(m)
  {
    var head := Dec(m.pid) + " " + m.pts + " ";
    assert Written(m) == head + Address(m);
  }

  lemma RecordParses(stale: seq<char>, m: Message)
    requires |stale| == MAXFIFOMES && Sendable(m)
    ensures var p, q, a := Dec(m.pid), m.pts, Kept(m);
            && q != [] && a != []
            && Parse(CString(Encode(stale, m)))
               == Some(if q[0] == '-' && a[0] == '-' then Remove(p) else Register(p, q, a))
  {
    var p, q, a := Dec(m.pid), m.pts, Kept(m);
    KeptIsPlain(m);
    hide NextToken, CString, Plain, Dec, Kept, Written;
    PlainDec(m.pid);
    ThreeTokens(p, q, a);
    RecordText(m);
    var text := p + " " + q + " " + a;
    CStringOf(text, stale[|text| + 1..]);
  }

  lemma KeptIsPlain(m: Message)
    requires Sendable(m)
    ensures Kept(m) != [] && m.pts != [] && Plain(Kept(m), DELIMS) && '\0' !in Kept(m)
  {
  }

  /** A record stands for its operation, whatever stale bytes follow the text and even if the address was cut. */
  lemma RecordRoundTrip(slots: seq<Slot>, stale: seq<char>, m: Message)
    requires |stale| == MAXFIFOMES && Sendable(m)
    ensures Received(slots, Encode(stale, m)) == Apply(slots, OpOf(m))
  {
    RecordParses(stale, m);
    var a := Kept(m);
    assert Take(a, MAXCHARADR) == Take(Address(m), MAXCHARADR);
    assert a[0] == Address(m)[0];
    hide Parse, CString, Encode, Kept, Plain, Insert, Clean;
  }

  function OpsOf(ms: seq<Message>): seq<Op>
    requires forall i :: 0 <= i < |ms| ==> Sendable(ms[i])
  {
    seq(|ms|, i requires 0 <= i < |ms| => OpOf(ms[i]))
  }

  /** The FIFO contents: one record per message, each over its own stale bytes. */
  function Stream(ms: seq<Message>, stale: seq<seq<char>>): seq<char>
    requires |ms| == |stale| && forall i :: 0 <= i < |stale| ==> |stale[i]| == MAXFIFOMES
  {
    if ms == [] then [] else Encode(stale[0], ms[0]) + Stream(ms[1..], stale[1..])
  }

  lemma {:induction false} ApplyAllFirst(slots: seq<Slot>, op: Op, ops: seq<Op>)
    ensures ApplyAll(slots, [op] + ops) == ApplyAll(Apply(slots, op), ops)
  {
    if ops == [] {
      assert ([op] + ops)[..0] == [];
    } else {
      var k := |ops| - 1;
      ApplyAllFirst(slots, op, ops[..k]);
      assert ([op] + ops)[..k + 1] == [op] + ops[..k];
    }
  }

  lemma StreamFirst(slots: seq<Slot>, record: seq<char>, rest: seq<char>)
    requires |record| == MAXFIFOMES
    ensures ReadAll(slots, record + rest) == ReadAll(Received(slots, record), rest)
  {
    assert (record + rest)[..MAXFIFOMES] == record && (record + rest)[MAXFIFOMES..] == rest;
    hide Received;
  }

  /** Sending messages through the FIFO gives the table that the operations give directly. */
  lemma {:induction false} FifoGivesSameTable(slots: seq<Slot>, ms: seq<Message>, stale: seq<seq<char>>)
    requires |ms| == |stale| && forall i :: 0 <= i < |stale| ==> |stale[i]| == MAXFIFOMES
    requires forall i :: 0 <= i < |ms| ==> Sendable(ms[i])
    ensures ReadAll(slots, Stream(ms, stale)) == ApplyAll(slots, OpsOf(ms))
    decreases |ms|
  {
    hide Received, Encode, Sendable, Apply, OpOf, ReadAll;
    if ms == [] {
      NothingRead(slots);
    } else {
      StreamFirst(slots, Encode(stale[0], ms[0]), Stream(ms[1..], stale[1..]));
      RecordRoundTrip(slots, stale[0], ms[0]);
      FifoGivesSameTable(Apply(slots, OpOf(ms[0])), ms[1..], stale[1..]);
      assert OpsOf(ms) == [OpOf(ms[0])] + OpsOf(ms[1..]);
      ApplyAllFirst(slots, OpOf(ms[0]), OpsOf(ms[1..]));
    }
  }

  lemma NothingRead(slots: seq<Slot>)
    ensures ReadAll(slots, []) == slots
  {
  }

  /** The address that a message stands for. */
  function ShownAddress(addr: string): string { if addr == "" then "unknown" else addr }

  /** The workers that have reported themselves and not yet their end, oldest first. */
  function Present(ms: seq<Message>): seq<Slot> {
    if ms == [] then []
    else
      var k := |ms| - 1;
      var m := ms[k];
      if m.pts != "" && m.pts[0] == '-' && m.addr != "" && m.addr[0] == '-' then Without(Present(ms[..k]), Dec(m.pid))
      else Present(ms[..k]) + [Slot(Dec(m.pid), m.pts, ShownAddress(m.addr))]
  }

  /** The largest number of workers ever present at once. */
  function Crowd(ms: seq<Message>): nat {
    if ms == [] then 0 else Max(Crowd(ms[..|ms| - 1]), |Present(ms)|)
  }

  /** Fields of at most 5, 15 and 15 characters, without spaces, line ends and NUL. */
  predicate WithinLimits(m: Message) {
    && |Dec(m.pid)| <= 5 && |m.pts| <= 15 && |ShownAddress(m.addr)| <= 15
    && Plain(m.pts, {' ', '\n'}) && '\0' !in m.pts
    && Plain(ShownAddress(m.addr), {' ', '\n'}) && '\0' !in ShownAddress(m.addr)
  }

  lemma {:induction false} PresentIsHeld(ms: seq<Message>)
    requires forall i :: 0 <= i < |ms| ==> WithinLimits(ms[i]) && Sendable(ms[i])
    ensures Held(OpsOf(ms)) == Present(ms) && Peak(OpsOf(ms)) == Crowd(ms)
  {
    if ms != [] {
      var k := |ms| - 1;
      PresentIsHeld(ms[..k]);
      assert OpsOf(ms)[..k] == OpsOf(ms[..k]);
      assert OpsOf(ms)[k] == OpOf(ms[k]);
      assert WithinLimits(ms[k]);
      hide Held, Present, OpsOf, Dec, Plain;
      HeldStep(OpsOf(ms));
      PresentStep(ms);
    }
  }

  lemma HeldStep(ops: seq<Op>)
    requires ops != []
    ensures var k := |ops| - 1;
            Held(ops) == match ops[k]
                         case Register(pid, pts, addr) =>
                           Held(ops[..k]) + [Slot(Take(pid, 5), Take(pts, 15), Take(addr, 15))]
                         case Remove(pid) => Without(Held(ops[..k]), pid)
  {
  }

  lemma PresentStep(ms: seq<Message>)
    requires ms != []
    ensures var k := |ms| - 1; var m := ms[k];
            Present(ms) == if m.pts != "" && m.pts[0] == '-' && m.addr != "" && m.addr[0] == '-'
                           then Without(Present(ms[..k]), Dec(m.pid))
                           else Present(ms[..k]) + [Slot(Dec(m.pid), m.pts, ShownAddress(m.addr))]
  {
  }

  lemma LimitsFit(m: Message)
    requires WithinLimits(m)
    ensures Sendable(m)
  {
  }

  /**
   From the workers to the monitor: whatever they report, in any order, the table that `read_fifo` builds holds
   exactly the workers present, each with the pid, pts and address that it reported, and never had more nodes
   than entries at once.
   */
  lemma WorkersAreHeld(start: seq<Slot>, ms: seq<Message>, stale: seq<seq<char>>)
    requires Empty(start)
    requires |ms| == |stale| && forall i :: 0 <= i < |stale| ==> |stale[i]| == 40
    requires forall i :: 0 <= i < |ms| ==> WithinLimits(ms[i])
    ensures forall i :: 0 <= i < |ms| ==> Sendable(ms[i])
    ensures var table := ReadAll(start, Stream(ms, stale));
            && multiset(LiveSlots(table)) == multiset(Present(ms))
            && |table| == Max(1, Crowd(ms))
  {
    forall i | 0 <= i < |ms|
      ensures WithinLimits(ms[i]) && Sendable(ms[i])
    {
      LimitsFit(ms[i]);
    }
    OpsAreNamed(ms);
    PresentIsHeld(ms);
    FifoGivesSameTable(start, ms, stale);
    TableHoldsEntries(start, OpsOf(ms));
    HighWaterMark(start, OpsOf(ms));
  }

  /** The bytes of a record: the three fields with a space between them, up to the NUL. */
  lemma RecordLayout(stale: seq<char>, m: Message)
    requires |stale| == 40 && WithinLimits(m)
    ensures |Encode(stale, m)| == 40
    ensures CString(Encode(stale, m)) == Dec(m.pid) + " " + m.pts + " " + (if m.addr == "" then "unknown" else m.addr)
  {
    var text := Dec(m.pid) + " " + m.pts + " " + ShownAddress(m.addr);
    PlainDec(m.pid);
    CStringOf(text, stale[|text| + 1..]);
    hide CString, Dec;
    assert Take(Written(m), 39) == text;
  }

  /** A last read that brings fewer than 40 bytes counts too: the text of a record alone stands for the record. */
  lemma ShortReadCounts(slots: seq<Slot>, stale: seq<char>, m: Message)
    requires |stale| == 40 && WithinLimits(m)
    ensures ReadAll(slots, Dec(m.pid) + " " + m.pts + " " + ShownAddress(m.addr)) == ReadAll(slots, Encode(stale, m))
  {
    var text := Dec(m.pid) + " " + m.pts + " " + ShownAddress(m.addr);
    RecordLayout(stale, m);
    PlainDec(m.pid);
    CStringWhole(text);
    OneRead(slots, text);
    OneRead(slots, Encode(stale, m));
    hide CString, ReadAll, Parse, Served, Encode;
  }

  lemma OneRead(slots: seq<Slot>, bytes: seq<char>)
    requires 0 < |bytes| <= 40
    ensures ReadAll(slots, bytes) == Received(slots, bytes)
  {
    hide Received;
    assert bytes[..|bytes|] == bytes && bytes[|bytes|..] == [];
  }

  lemma OpsAreNamed(ms: seq<Message>)
    requires forall i :: 0 <= i < |ms| ==> Sendable(ms[i])
    ensures Registry.Named(OpsOf(ms))
  {
    forall i | 0 <= i < |ms|
      ensures OpsOf(ms)[i].pid != ""
    {
      assert OpsOf(ms)[i] == OpOf(ms[i]);
    }
  }

  // ---------------------------------------------------------------------------------------------
  // The two ends of the FIFO.

  /**
   `send_pts_addr`: formats into `Buf_fifo` and writes all of it, unless the table is switched off.  A write of
   40 bytes to a FIFO is atomic, so one that is refused or interrupted leaves nothing in it.
   */
  method SendPtsAddr(buf: array<char>, m: Message, enabled: bool, refused: bool) returns (written: seq<char>)
    requires buf.Length >= MAXFIFOMES
    modifies buf
    ensures written == if enabled && !refused then Encode(old(buf[..MAXFIFOMES]), m) else []
    ensures buf[..MAXFIFOMES] == if enabled then Encode(old(buf[..MAXFIFOMES]), m) else old(buf[..MAXFIFOMES])
    ensures buf[MAXFIFOMES..] == old(buf[MAXFIFOMES..])
  {
    written := [];
    if enabled {
      Format(buf, m);
      if !refused { written := buf[..MAXFIFOMES]; }
    }
  }

  method Format(buf: array<char>, m: Message)
    requires buf.Length >= MAXFIFOMES
    modifies buf
    ensures buf[..MAXFIFOMES] == Encode(old(buf[..MAXFIFOMES]), m) && buf[MAXFIFOMES..] == old(buf[MAXFIFOMES..])
  {
    var text := Take(Written(m), MAXFIFOMES - 1);
    forall i | 0 <= i < |text| {
      buf[i] := text[i];
    }
    buf[|text|] := '\0';
  }

  /** `read_fifo`: `stream` is what the FIFO holds; the terminator needs a 41st cell in the buffer. */
  method ReadFifo(table: Table, buf: array<char>, stream: seq<char>)
    requires table.Valid() && buf.Length > MAXFIFOMES
    modifies table, table.nodes, buf
    ensures table.Valid() && table.Slots() == ReadAll(old(table.Slots()), stream)
  {
    hide Received, ReadAll;
    var rest := stream;
    ghost var start := table.nodes;
    while rest != []
      invariant table.Valid() && start <= table.nodes
      invariant forall i :: |start| <= i < |table.nodes| ==> fresh(table.nodes[i])
      invariant ReadAll(table.Slots(), rest) == ReadAll(old(table.Slots()), stream)
      decreases |rest|
    {
      var ir := Min(MAXFIFOMES, |rest|);
      ReadsFirst(table.Slots(), rest);
      ReadOne(table, buf, rest[..ir]);
      rest := rest[ir..];
    }
    NothingRead(table.Slots());
  }

  lemma ReadsFirst(slots: seq<Slot>, stream: seq<char>)
    requires stream != []
    ensures var n := Min(MAXFIFOMES, |stream|);
            ReadAll(slots, stream) == ReadAll(Received(slots, stream[..n]), stream[n..])
  {
  }

  /** One iteration of `read_fifo`. */
  method ReadOne(table: Table, buf: array<char>, bytes: seq<char>)
    requires table.Valid() && |bytes| < buf.Length
    modifies table, table.nodes, buf
    ensures table.Valid() && old(table.nodes) <= table.nodes
    ensures forall i :: |old(table.nodes)| <= i < |table.nodes| ==> fresh(table.nodes[i])
    ensures table.Slots() == Received(old(table.Slots()), bytes)
  {
    hide Served, Parse, CString;
    Fill(buf, bytes);
    TerminatedCString(buf[..], bytes);
    ServeRecord(table, CString(buf[..]));
  }

  /** `read` and the terminator behind its bytes. */
  method Fill(buf: array<char>, bytes: seq<char>)
    requires |bytes| < buf.Length
    modifies buf
    ensures buf[..|bytes|] == bytes && buf[|bytes|] == '\0'
  {
    forall i | 0 <= i < |bytes| {
      buf[i] := bytes[i];
    }
    buf[|bytes|] := '\0';
  }

  /** The terminator ends the string at the latest where the bytes read end. */
  lemma {:induction false} TerminatedCString(cells: seq<char>, bytes: seq<char>)
    requires |bytes| < |cells| && cells[..|bytes|] == bytes && cells[|bytes|] == '\0'
    ensures CString(cells) == CString(bytes)
  {
    if bytes != [] {
      assert cells[0] == bytes[0];
      assert cells[1..][..|bytes| - 1] == bytes[1..];
      TerminatedCString(cells[1..], bytes[1..]);
    }
  }

  /** The body of `read_fifo` on the C string in the buffer. */
  method ServeRecord(table: Table, s: string)
    requires table.Valid()
    modifies table, table.nodes
    ensures table.Valid() && old(table.nodes) <= table.nodes
    ensures forall i :: |old(table.nodes)| <= i < |table.nodes| ==> fresh(table.nodes[i])
    ensures table.Slots() == Served(old(table.Slots()), Parse(s))
  {
    hide NextToken, Insert, Clean;
    var t1 := NextToken(s, DELIMS);
    if t1.Token? {
      var t2 := NextToken(t1.rest, DELIMS);
      if t2.Token? {
        var t3 := NextToken(t2.rest, DELIMS);
        if t3.Token? {
          if t2.text[0] == '-' && t3.text[0] == '-' {
            table.CleanEntry(t1.text);
          } else {
            table.InsEntry(t1.text, t2.text, t3.text);
          }
        }
      }
    }
  }
}
