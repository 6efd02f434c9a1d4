/** The table of workers (pts_addr.c): a linked list of slots, reused from the front. */
module Registry {
  import opened Common
  import opened Text

  const MAXCHARPID := 5
  const MAXCHARPTS := 15
  const MAXCHARADR := 15

  /** A node's three strings; a slot is free when its pid is empty. */
  datatype Slot = Slot(pid: string, pts: string, addr: string)

  predicate Live(s: Slot) { s.pid != "" }

  /** What `strncpy` into buffers of fixed size keeps of an entry. */
  function Stored(pid: string, pts: string, addr: string): Slot {
    Slot(Take(pid, MAXCHARPID), Take(pts, MAXCHARPTS), Take(addr, MAXCHARADR))
  }

  // ---------------------------------------------------------------------------------------------
  // The table as a sequence of slots.

  /** The index of the first free slot, or the number of slots. */
  function FirstFree(slots: seq<Slot>): (k: nat)
    ensures k <= |slots|
    ensures forall i :: 0 <= i < k ==> Live(slots[i])
    ensures k < |slots| ==> !Live(slots[k])
  {
    if slots == [] || !Live(slots[0]) then 0 else 1 + FirstFree(slots[1..])
  }

  function Insert(slots: seq<Slot>, e: Slot): seq<Slot> {
    var k := FirstFree(slots);
    if k < |slots| then slots[k := e] else slots + [e]
  }

  function Cleaned(s: Slot, pid: string): Slot { if s.pid == pid then s.(pid := "") else s }

  function Clean(slots: seq<Slot>, pid: string): (r: seq<Slot>)
    ensures |r| == |slots| && forall i :: 0 <= i < |r| ==> r[i] == Cleaned(slots[i], pid)
  {
    seq(|slots|, i requires 0 <= i < |slots| => Cleaned(slots[i], pid))
  }

  datatype Op = Register(pid: string, pts: string, addr: string) | Remove(pid: string)

  function Apply(slots: seq<Slot>, op: Op): seq<Slot> {
    match op
    case Register(pid, pts, addr) => Insert(slots, Stored(pid, pts, addr))
    case Remove(pid) => Clean(slots, pid)
  }

  function ApplyAll(slots: seq<Slot>, ops: seq<Op>): seq<Slot> {
    if ops == [] then slots else Apply(ApplyAll(slots, ops[..|ops| - 1]), ops[|ops| - 1])
  }

  /** The table of `open_fifo_rd`: one free slot, with whatever `malloc` left in its other buffers. */
  predicate Empty(slots: seq<Slot>) { |slots| == 1 && !Live(slots[0]) }

  /** Pid texts are tokens, so they are not empty. */
  predicate Named(ops: seq<Op>) { forall i :: 0 <= i < |ops| ==> ops[i].pid != "" }

  // ---------------------------------------------------------------------------------------------
  // What the table means: the entries registered and not yet removed.

  function Without(es: seq<Slot>, pid: string): seq<Slot> {
    if es == [] then []
    else
      var k := |es| - 1;
      Without(es[..k], pid) + if es[k].pid == pid then [] else [es[k]]
  }

  /** The entries held after `ops`, oldest first. */
  function Held(ops: seq<Op>): seq<Slot> {
    if ops == [] then []
    else
      var k := |ops| - 1;
      var before := Held(ops[..k]);
      match ops[k]
      case Register(pid, pts, addr) => before + [Slot(Take(pid, 5), Take(pts, 15), Take(addr, 15))]
      case Remove(pid) => Without(before, pid)
  }

  /** The largest number of entries ever held at once. */
  function Peak(ops: seq<Op>): nat {
    if ops == [] then 0 else Max(Peak(ops[..|ops| - 1]), |Held(ops)|)
  }

  function LiveSlots(slots: seq<Slot>): seq<Slot> {
    if slots == [] then []
    else
      var k := |slots| - 1;
      LiveSlots(slots[..k]) + if Live(slots[k]) then [slots[k]] else []
  }

  lemma {:induction false} LiveSlotsSplit(a: seq<Slot>, b: seq<Slot>)
    ensures LiveSlots(a + b) == LiveSlots(a) + LiveSlots(b)
  {
    if b == [] {
      assert a + b == a;
    } else {
      var k := |b| - 1;
      LiveSlotsSplit(a, b[..k]);
      assert (a + b)[..|a + b| - 1] == a + b[..k];
    }
  }

  lemma LiveSlotsOne(s: Slot)
    ensures LiveSlots([s]) == if Live(s) then [s] else []
  {
    assert [s][..0] == [];
  }

  lemma LiveSlotsAround(a: seq<Slot>, s: Slot, b: seq<Slot>)
    ensures LiveSlots(a + [s] + b) == LiveSlots(a) + (if Live(s) then [s] else []) + LiveSlots(b)
  {
    hide LiveSlots;
    LiveSlotsSplit(a + [s], b);
    LiveSlotsSplit(a, [s]);
    LiveSlotsOne(s);
  }

  /** Storing a live entry into a free slot, or behind the others, adds it to the live ones. */
  lemma InsertAddsOne(slots: seq<Slot>, e: Slot)
    requires Live(e)
    ensures multiset(LiveSlots(Insert(slots, e))) == multiset(LiveSlots(slots)) + multiset{e}
  {
    hide LiveSlots;
    var k := FirstFree(slots);
    if k < |slots| {
      var a, b := slots[..k], slots[k + 1..];
      assert slots == a + [slots[k]] + b;
      assert slots[k := e] == a + [e] + b;
      LiveSlotsAround(a, slots[k], b);
      LiveSlotsAround(a, e, b);
    } else {
      LiveSlotsSplit(slots, [e]);
      LiveSlotsOne(e);
    }
  }

  lemma {:induction false} CleanDropsPid(slots: seq<Slot>, pid: string)
    requires pid != ""
    ensures LiveSlots(Clean(slots, pid)) == Without(LiveSlots(slots), pid)
  {
    if slots != [] {
      var k := |slots| - 1;
      CleanDropsPid(slots[..k], pid);
      assert Clean(slots, pid)[..k] == Clean(slots[..k], pid);
      WithoutSplit(LiveSlots(slots[..k]), if Live(slots[k]) then [slots[k]] else [], pid);
      WithoutOne(slots[k], pid);
    }
  }

  lemma WithoutOne(s: Slot, pid: string)
    ensures Without([s], pid) == if s.pid == pid then [] else [s]
  {
    assert [s][..0] == [];
  }

  lemma {:induction false} WithoutSplit(a: seq<Slot>, b: seq<Slot>, pid: string)
    ensures Without(a + b, pid) == Without(a, pid) + Without(b, pid)
  {
    if b == [] {
      assert a + b == a;
    } else {
      var k := |b| - 1;
      WithoutSplit(a, b[..k], pid);
      assert (a + b)[..|a + b| - 1] == a + b[..k];
    }
  }

  lemma CountSplit(a: seq<Slot>, b: seq<Slot>, s: Slot)
    ensures multiset(a + b)[s] == multiset(a)[s] + multiset(b)[s]
  {
  }

  lemma CountOne(e: Slot, s: Slot)
    ensures multiset([e])[s] == if e == s then 1 else 0
  {
  }

  lemma {:induction false} WithoutCounts(es: seq<Slot>, pid: string, s: Slot)
    ensures multiset(Without(es, pid))[s] == if s.pid == pid then 0 else multiset(es)[s]
  {
    if es != [] {
      var k := |es| - 1;
      var e, before := es[k], Without(es[..k], pid);
      WithoutCounts(es[..k], pid, s);
      assert es == es[..k] + [e];
      CountSplit(es[..k], [e], s);
      CountSplit(before, [e], s);
      CountOne(e, s);
      assert Without(es, pid) == if e.pid == pid then before else before + [e];
      hide Without;
    }
  }

  lemma WithoutSame(a: seq<Slot>, b: seq<Slot>, pid: string)
    requires multiset(a) == multiset(b)
    ensures multiset(Without(a, pid)) == multiset(Without(b, pid))
  {
    forall s
      ensures multiset(Without(a, pid))[s] == multiset(Without(b, pid))[s]
    {
      WithoutCounts(a, pid, s);
      WithoutCounts(b, pid, s);
    }
  }

  /** The live slots are exactly the entries registered and not yet removed. */
  lemma {:induction false} TableHoldsEntries(start: seq<Slot>, ops: seq<Op>)
    requires Empty(start) && Named(ops)
    ensures multiset(LiveSlots(ApplyAll(start, ops))) == multiset(Held(ops))
  {
    if ops == [] {
      LiveSlotsOne(start[0]);
      assert start == [start[0]];
    } else {
      var k := |ops| - 1;
      var table, held := ApplyAll(start, ops[..k]), Held(ops[..k]);
      TableHoldsEntries(start, ops[..k]);
      match ops[k]
      case Register(pid, pts, addr) =>
        assert pid != "" by { assert ops[k].pid != ""; }
        InsertAddsOne(table, Stored(pid, pts, addr));
      case Remove(pid) =>
        assert pid != "" by { assert ops[k].pid != ""; }
        CleanDropsPid(table, pid);
        WithoutSame(LiveSlots(table), held, pid);
    }
  }

  lemma {:induction false} LiveSlotsFew(slots: seq<Slot>)
    ensures |LiveSlots(slots)| <= |slots|
    ensures |LiveSlots(slots)| == |slots| <==> forall i :: 0 <= i < |slots| ==> Live(slots[i])
  {
    if slots != [] {
      var k := |slots| - 1;
      LiveSlotsFew(slots[..k]);
      assert forall i :: 0 <= i < k ==> slots[..k][i] == slots[i];
    }
  }

  lemma LiveCount(start: seq<Slot>, ops: seq<Op>)
    requires Empty(start) && Named(ops)
    ensures |LiveSlots(ApplyAll(start, ops))| == |Held(ops)|
  {
    TableHoldsEntries(start, ops);
    hide *;
    assert |LiveSlots(ApplyAll(start, ops))| == |multiset(Held(ops))| == |Held(ops)|;
  }

  /** High-water mark: the list is never longer than one slot or the most entries ever held at once. */
  lemma {:induction false} HighWaterMark(start: seq<Slot>, ops: seq<Op>)
    requires Empty(start) && Named(ops)
    ensures |ApplyAll(start, ops)| == Max(1, Peak(ops))
  {
    if ops != [] {
      var k := |ops| - 1;
      var table := ApplyAll(start, ops[..k]);
      HighWaterMark(start, ops[..k]);
      LiveCount(start, ops[..k]);
      LiveCount(start, ops);
      LiveSlotsFew(table);
      LiveSlotsFew(ApplyAll(start, ops));
      hide Held, LiveSlots, Clean, Live;
      assert |Held(ops[..k])| <= Peak(ops[..k]);
    }
  }

  /** A live entry keeps its position, whatever happens to the table, until its pid is removed. */
  lemma {:induction false} EntriesStayInPlace(slots: seq<Slot>, ops: seq<Op>, i: nat)
    requires i < |slots| && Live(slots[i])
    requires forall j :: 0 <= j < |ops| ==> ops[j] != Remove(slots[i].pid)
    ensures i < |ApplyAll(slots, ops)| && ApplyAll(slots, ops)[i] == slots[i]
  {
    if ops != [] {
      EntriesStayInPlace(slots, ops[..|ops| - 1], i);
      assert ops[|ops| - 1] != Remove(slots[i].pid);
    }
  }

  // ---------------------------------------------------------------------------------------------
  // Long pids: stored cut to five characters, compared in full.

  /** Removing a pid after registering it frees its slot exactly when the pid has at most five characters. */
  lemma RemovalNeedsShortPid(slots: seq<Slot>, pid: string, pts: string, addr: string)
    requires pid != ""
    ensures var t := Apply(Apply(slots, Register(pid, pts, addr)), Remove(pid));
            (exists i :: 0 <= i < |t| && t[i] == Slot(Take(pid, 5), Take(pts, 15), Take(addr, 15))) <==> |pid| > 5
  {
    var e := Stored(pid, pts, addr);
    var k := FirstFree(slots);
    var t1 := Insert(slots, e);
    var t := Clean(t1, pid);
    assert t1[k] == e;
    assert t[k] == Cleaned(e, pid);
    if |pid| <= MAXCHARPID {
      assert e.pid == pid;
      forall i | 0 <= i < |t|
        ensures t[i] != e
      {
        assert t[i] == Cleaned(t1[i], pid);
      }
    } else {
      assert |e.pid| != |pid|;
      assert t == Apply(Apply(slots, Register(pid, pts, addr)), Remove(pid));
      assert 0 <= k < |t| && t[k] == Slot(Take(pid, 5), Take(pts, 15), Take(addr, 15));
    }
  }

  predicate LongPids(ops: seq<Op>) { forall i :: 0 <= i < |ops| ==> |ops[i].pid| > 5 }

  function Registrations(ops: seq<Op>): nat {
    if ops == [] then 0
    else Registrations(ops[..|ops| - 1]) + if ops[|ops| - 1].Register? then 1 else 0
  }

  lemma {:induction false} LongPidsAreHeld(ops: seq<Op>)
    requires LongPids(ops)
    ensures |Held(ops)| == Peak(ops) == Registrations(ops)
    ensures forall i :: 0 <= i < |Held(ops)| ==> |Held(ops)[i].pid| <= MAXCHARPID
  {
    if ops != [] {
      var k := |ops| - 1;
      LongPidsAreHeld(ops[..k]);
      assert |ops[k].pid| > MAXCHARPID;
      if ops[k].Remove? { WithoutKeeps(Held(ops[..k]), ops[k].pid); }
    }
  }

  lemma {:induction false} WithoutKeeps(es: seq<Slot>, pid: string)
    requires forall i :: 0 <= i < |es| ==> es[i].pid != pid
    ensures Without(es, pid) == es
  {
    if es != [] {
      WithoutKeeps(es[..|es| - 1], pid);
    }
  }

  /**
   So with long pids no removal ever frees a slot: whatever comes and goes, the table has one node for every
   registration there ever was.
   */
  lemma LongPidsLeakSlots(start: seq<Slot>, ops: seq<Op>)
    requires Empty(start) && LongPids(ops)
    ensures |ApplyAll(start, ops)| == Max(1, Registrations(ops))
  {
    LongPidsAreHeld(ops);
    assert Named(ops) by {
      forall i | 0 <= i < |ops|
        ensures ops[i].pid != ""
      {
        assert |ops[i].pid| > MAXCHARPID;
      }
    }
    HighWaterMark(start, ops);
  }

  /** What is stored of an entry: the pid, the pts and the address, cut to 5, 15 and 15 characters. */
  lemma StoredFields(slots: seq<Slot>, pid: string, pts: string, addr: string)
    ensures var k := FirstFree(slots); var t := Apply(slots, Register(pid, pts, addr));
            && k < |t|
            && t[k].pid == (if |pid| <= 5 then pid else pid[..5])
            && t[k].pts == (if |pts| <= 15 then pts else pts[..15])
            && t[k].addr == (if |addr| <= 15 then addr else addr[..15])
            && forall i :: 0 <= i < |slots| && i != k ==> t[i] == slots[i]
  {
  }

  // ---------------------------------------------------------------------------------------------
  // The listing.

  datatype Row = Row(index: nat, entry: Slot)

  /** The live slots with their indices, in the order of the list. */
  function Listing(slots: seq<Slot>): seq<Row> {
    if slots == [] then []
    else
      var k := |slots| - 1;
      Listing(slots[..k]) + if Live(slots[k]) then [Row(k, slots[k])] else []
  }

  lemma ListingStep(slots: seq<Slot>, i: nat)
    requires i < |slots|
    ensures Listing(slots[..i + 1]) == Listing(slots[..i]) + if Live(slots[i]) then [Row(i, slots[i])] else []
  {
    assert slots[..i + 1][..i] == slots[..i];
  }

  lemma {:induction false} ListedBelow(slots: seq<Slot>, n: nat, r: Row)
    requires n <= |slots|
    ensures r in Listing(slots[..n]) <==> r.index < n && r.entry == slots[r.index] && Live(r.entry)
  {
    if n > 0 {
      hide Listing;
      ListedBelow(slots, n - 1, r);
      ListingStep(slots, n - 1);
    }
  }

  predicate Increasing(rows: seq<Row>, n: nat) {
    && (forall j :: 0 <= j < |rows| ==> rows[j].index < n)
    && (forall j, k :: 0 <= j < k < |rows| ==> rows[j].index < rows[k].index)
  }

  lemma {:induction false} ListingIncreases(slots: seq<Slot>, n: nat)
    requires n <= |slots|
    ensures Increasing(Listing(slots[..n]), n)
  {
    if n > 0 {
      ListingIncreases(slots, n - 1);
      ListingStep(slots, n - 1);
      hide Listing;
    }
  }

  /** A row is listed exactly if it is a live slot with its index. */
  lemma ListedIffLive(slots: seq<Slot>, r: Row)
    ensures r in Listing(slots) <==> r.index < |slots| && r.entry == slots[r.index] && Live(r.entry)
  {
    ListedBelow(slots, |slots|, r);
    assert slots[..|slots|] == slots;
  }

  /** The rows come by increasing index, so each is listed once. */
  lemma ListingIsOrdered(slots: seq<Slot>, j: nat, k: nat)
    requires j < k < |Listing(slots)|
    ensures Listing(slots)[j].index < Listing(slots)[k].index
  {
    ListingIncreases(slots, |slots|);
    assert slots[..|slots|] == slots;
  }

  function Line(r: Row): string {
    Dec(r.index) + "\t" + r.entry.pid + "\t" + r.entry.pts + "\t" + r.entry.addr + "\n"
  }

  function Lines(rows: seq<Row>): seq<string> {
    if rows == [] then [] else Lines(rows[..|rows| - 1]) + [Line(rows[|rows| - 1])]
  }

  lemma LinesSnoc(rows: seq<Row>, row: Row)
    ensures Lines(rows + [row]) == Lines(rows) + [Line(row)]
  {
    assert (rows + [row])[..|rows|] == rows;
  }

  const TABS: set<char> := {'\t', '\n'}

  /** A line of the listing reads back as its four fields. */
  lemma LineReadsBack(i: nat, pid: string, pts: string, addr: string)
    requires Plain(pid, TABS) && Plain(pts, TABS) && Plain(addr, TABS)
    ensures var t1 := NextToken(Line(Row(i, Slot(pid, pts, addr))), TABS);
            && t1.Token? && t1.text == Dec(i)
            && var t2 := NextToken(t1.rest, TABS);
               && t2.Token? && t2.text == pid
               && var t3 := NextToken(t2.rest, TABS);
                  && t3.Token? && t3.text == pts
                  && var t4 := NextToken(t3.rest, TABS);
                     t4 == Token(addr, "")
  {
    hide NextToken, Dec;
    var line := Line(Row(i, Slot(pid, pts, addr)));
    var r3 := addr + "\n";
    var r2 := pts + "\t" + r3;
    var r1 := pid + "\t" + r2;
    DecIsPlain(i);
    hide Plain;
    assert line == Dec(i) + ("\t" + r1);
    FieldFirst(Dec(i), r1);
    assert r1 == pid + ("\t" + r2);
    FieldFirst(pid, r2);
    assert r2 == pts + ("\t" + r3);
    FieldFirst(pts, r3);
    TokenOf(addr, "\n", TABS);
    assert "\n"[1..] == "";
  }

  lemma FieldFirst(field: string, rest: string)
    requires Plain(field, TABS)
    ensures NextToken(field + ("\t" + rest), TABS) == Token(field, rest)
  {
    TokenOf(field, "\t" + rest, TABS);
    hide NextToken, Plain;
    assert ("\t" + rest)[1..] == rest;
  }

  lemma DecIsPlain(n: nat)
    ensures Plain(Dec(n), TABS)
  {
    forall i | 0 <= i < |Dec(n)|
      ensures Dec(n)[i] !in TABS
    {
      assert IsDigit(Dec(n)[i]);
    }
  }

  const HEADER := "Num\tPID\tPts\tX.25_addr\n"
  const FOOTER := "End of table.\n"

  // ---------------------------------------------------------------------------------------------
  // The table as a linked list.

  class Entry {
    var pid: string
    var pts: string
    var addr: string
    var next: Entry?

    constructor ()
      ensures next == null
    {
      pid, pts, addr := "", "", "";
      next := null;
    }
  }

  class Table {
    var first: Entry   // Tab_first
    var last: Entry    // Tab_last
    ghost var nodes: seq<Entry>

    /** From `first`, the `next` pointers run through `nodes`, all different, to `last` and end there. */
    ghost predicate Valid()
      reads this, nodes
    {
      && nodes != [] && first == nodes[0] && last == nodes[|nodes| - 1]
      && (forall i, j :: 0 <= i < j < |nodes| ==> nodes[i] != nodes[j])
      && (forall i :: 0 <= i < |nodes| - 1 ==> nodes[i].next == nodes[i + 1])
      && nodes[|nodes| - 1].next == null
    }

    ghost function SlotOf(e: Entry): Slot
      reads e
    {
      Slot(e.pid, e.pts, e.addr)
    }

    ghost function Slots(): (s: seq<Slot>)
      reads this, nodes
      ensures |s| == |nodes| && forall i :: 0 <= i < |s| ==> s[i] == SlotOf(nodes[i])
    {
      seq(|nodes|, i requires 0 <= i < |nodes| reads this, nodes => SlotOf(nodes[i]))
    }

    /** `open_fifo_rd`. */
    constructor ()
      ensures Valid() && Empty(Slots()) && fresh(nodes)
    {
      var e := new Entry();
      first, last := e, e;
      nodes := [e];
      new;
      first.pid := "";
    }

    /** The first node with an empty pid. */
    method FindFree() returns (e: Entry?)
      requires Valid()
      ensures var k := FirstFree(Slots());
              if k < |nodes| then e == nodes[k] else e == null
    {
      ghost var i := 0;
      e := first;
      while e != null
        invariant 0 <= i <= |nodes| && e == if i < |nodes| then nodes[i] else null
        invariant forall j :: 0 <= j < i ==> Live(Slots()[j])
        decreases |nodes| - i
      {
        if e.pid == "" {
          FirstFreeIs(Slots(), i);
          return;
        }
        e := e.next;
        i := i + 1;
      }
      FirstFreeIs(Slots(), |nodes|);
    }

    lemma FirstFreeIs(slots: seq<Slot>, k: nat)
      requires k <= |slots| && (forall i :: 0 <= i < k ==> Live(slots[i])) && (k < |slots| ==> !Live(slots[k]))
      ensures FirstFree(slots) == k
    {
    }

    /** A new node behind the last one. */
    method AllocNew() returns (e: Entry)
      requires Valid()
      modifies this, last
      ensures Valid() && fresh(e) && nodes == old(nodes) + [e] && first == old(first)
      ensures forall i :: 0 <= i < |old(nodes)| ==> SlotOf(old(nodes)[i]) == old(Slots()[i])
    {
      e := new Entry();
      last.next := e;
      last := e;
      nodes := nodes + [e];
    }

    /** `ins_entry`: into the first free slot, or a new one. */
    method InsEntry(pid: string, pts: string, addr: string)
      requires Valid()
      modifies this, nodes
      ensures Valid() && Slots() == Insert(old(Slots()), Stored(pid, pts, addr))
      ensures first == old(first) && old(nodes) <= nodes
      ensures forall i :: |old(nodes)| <= i < |nodes| ==> fresh(nodes[i])
    {
      ghost var before := Slots();
      ghost var k := FirstFree(before);
      var e := FindFree();
      if e == null {
        e := AllocNew();
      }
      assert forall i :: 0 <= i < |before| ==> Slots()[i] == before[i];
      Store(e, k, pid, pts, addr);
      assert Slots() == Insert(before, Stored(pid, pts, addr));
    }

    /** The three `strncpy` calls. */
    method Store(e: Entry, ghost k: nat, pid: string, pts: string, addr: string)
      requires Valid() && k < |nodes| && e == nodes[k]
      modifies e
      ensures Valid() && Slots() == old(Slots())[k := Stored(pid, pts, addr)] && e.next == old(e.next)
    {
      e.pid := Take(pid, MAXCHARPID);
      e.pts := Take(pts, MAXCHARPTS);
      e.addr := Take(addr, MAXCHARADR);
      assert forall i :: 0 <= i < |nodes| && i != k ==> nodes[i] != e;
    }

    /** `clean_entry`: empties the pid of every slot that has it. */
    method CleanEntry(pid: string)
      requires Valid()
      modifies nodes
      ensures Valid() && Slots() == Clean(old(Slots()), pid)
    {
      ghost var i := 0;
      ghost var before := Slots();
      var e: Entry? := first;
      while e != null
        invariant Valid()
        invariant 0 <= i <= |nodes| == |before| == |Slots()| && e == if i < |nodes| then nodes[i] else null
        invariant forall j :: 0 <= j < |before| ==>
                    Slots()[j] == if j < i then Cleaned(before[j], pid) else before[j]
        decreases |nodes| - i
      {
        CleanNode(e, i, pid);
        e := e.next;
        i := i + 1;
      }
    }

    method CleanNode(e: Entry, ghost i: nat, pid: string)
      requires Valid() && i < |nodes| && e == nodes[i]
      modifies e
      ensures Valid() && e.next == old(e.next) && Slots() == old(Slots())[i := Cleaned(old(Slots()[i]), pid)]
    {
      if e.pid == pid {
        e.pid := "";
      }
      assert forall j :: 0 <= j < |nodes| && j != i ==> nodes[j] != e;
    }

    /** `upload_pts_addr_tab`, when the result FIFO is open. */
    method Upload() returns (out: seq<string>)
      requires Valid()
      ensures out == ["Num\tPID\tPts\tX.25_addr\n"] + Lines(Listing(Slots())) + ["End of table.\n"]
    {
      ghost var slots := Slots();
      var e: Entry? := first;
      var i: nat := 0;
      out := [HEADER];
      assert slots[..0] == [];
      while e != null
        invariant 0 <= i <= |nodes| && e == if i < |nodes| then nodes[i] else null
        invariant out == [HEADER] + Lines(Listing(slots[..i]))
        decreases |nodes| - i
      {
        ListingStep(slots, i);
        ghost var rows := Listing(slots[..i]);
        if e.pid != "" {
          var row := Row(i, Slot(e.pid, e.pts, e.addr));
          LinesSnoc(rows, row);
          assert [HEADER] + Lines(rows) + [Line(row)] == [HEADER] + (Lines(rows) + [Line(row)]);
          out := out + [Line(row)];
        } else {
          assert rows + [] == rows;
        }
        e := e.next;
        i := i + 1;
      }
      assert slots[..i] == slots;
      out := out + [FOOTER];
    }
  }
}
