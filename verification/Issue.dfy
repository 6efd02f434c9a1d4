/** The banner (issue.c): the escapes of /etc/issue.net, expanded into a buffer of 1000 bytes per line. */
module Issue {
  import opened Common

  const SIZE := 1000

  /** What the escapes stand for. */
  datatype Env = Env(tty: string, node: string, date: string, system: string, machine: string, release: string,
                     version: string)

  /** `flagc` and `pcc`: whether the previous character was a `\` or a `%` that starts an escape, and which. */
  datatype Mode = Plain | Escape(ch: char)

  predicate IsEscape(ch: char) { ch == '\\' || ch == '%' }

  function Subst(env: Env, ch: char): string {
    match ch
    case 'l' => env.tty
    case 'h' => env.node
    case 'n' => env.node
    case 'd' => env.date
    case 't' => env.date
    case 's' => env.system
    case 'm' => env.machine
    case 'r' => env.release
    case 'v' => env.version
    case _ => ""
  }

  function Emitted(env: Env, mode: Mode, ch: char): string {
    match mode
    case Plain => if IsEscape(ch) then "" else [ch]
    case Escape(p) => if ch == p then [ch] else Subst(env, ch)
  }

  function Next(mode: Mode, ch: char): Mode { if mode.Plain? && IsEscape(ch) then Escape(ch) else Plain }

  /** The expansion without any buffer limit. */
  function Expand(env: Env, mode: Mode, text: string): string {
    if text == [] then ""
    else
      var k := |text| - 1;
      Expand(env, mode, text[..k]) + Emitted(env, ModeAfter(mode, text[..k]), text[k])
  }

  function ModeAfter(mode: Mode, text: string): Mode {
    if text == [] then mode else Next(ModeAfter(mode, text[..|text| - 1]), text[|text| - 1])
  }

  /** What is printed for a file read in these pieces: of each expansion what fits the buffer. */
  function Printed(env: Env, mode: Mode, chunks: seq<string>): string
    decreases |chunks|
  {
    if chunks == [] then ""
    else Take(Expand(env, mode, chunks[0]), SIZE - 1)
         + Printed(env, ModeAfter(mode, chunks[0]), chunks[1..])
  }

  // ---------------------------------------------------------------------------------------------
  // The pieces do not matter.

  lemma ExpandSnoc(env: Env, mode: Mode, text: string, ch: char)
    ensures Expand(env, mode, text + [ch]) == Expand(env, mode, text) + Emitted(env, ModeAfter(mode, text), ch)
    ensures ModeAfter(mode, text + [ch]) == Next(ModeAfter(mode, text), ch)
  {
    assert (text + [ch])[..|text|] == text;
  }

  lemma ExpandNothing(env: Env, mode: Mode)
    ensures Expand(env, mode, "") == "" && ModeAfter(mode, "") == mode
  {
  }

  lemma {:induction false} ExpandSplit(env: Env, mode: Mode, a: string, b: string)
    ensures ModeAfter(mode, a + b) == ModeAfter(ModeAfter(mode, a), b)
    ensures Expand(env, mode, a + b) == Expand(env, mode, a) + Expand(env, ModeAfter(mode, a), b)
  {
    hide Expand, ModeAfter, Emitted, Next;
    if b == [] {
      assert a + b == a;
      ExpandNothing(env, ModeAfter(mode, a));
    } else {
      var k := |b| - 1;
      var b', ch := b[..k], b[k];
      ExpandSplit(env, mode, a, b');
      ExpandSnoc(env, mode, a + b', ch);
      ExpandSnoc(env, ModeAfter(mode, a), b', ch);
      assert a + b == a + b' + [ch];
      assert b == b' + [ch];
    }
  }

  function Whole(chunks: seq<string>): string { if chunks == [] then "" else chunks[0] + Whole(chunks[1..]) }

  /** The expansion of every piece fits the buffer. */
  predicate AllFit(env: Env, mode: Mode, chunks: seq<string>)
    decreases |chunks|
  {
    chunks == [] ||
    (|Expand(env, mode, chunks[0])| < SIZE && AllFit(env, ModeAfter(mode, chunks[0]), chunks[1..]))
  }

  lemma {:induction false} PrintedLength(env: Env, mode: Mode, chunks: seq<string>)
    ensures |Printed(env, mode, chunks)| <= |Expand(env, mode, Whole(chunks))|
    ensures AllFit(env, mode, chunks) <==>
              |Printed(env, mode, chunks)| == |Expand(env, mode, Whole(chunks))|
    decreases |chunks|
  {
    if chunks != [] {
      ExpandSplit(env, mode, chunks[0], Whole(chunks[1..]));
      PrintedLength(env, ModeAfter(mode, chunks[0]), chunks[1..]);
    }
  }

  /** However the file is cut into pieces, the output is its expansion exactly when every piece fits. */
  lemma {:induction false} PrintedIsExpansionIffAllFit(env: Env, mode: Mode, chunks: seq<string>)
    ensures Printed(env, mode, chunks) == Expand(env, mode, Whole(chunks)) <==> AllFit(env, mode, chunks)
    decreases |chunks|
  {
    PrintedLength(env, mode, chunks);
    if chunks != [] && AllFit(env, mode, chunks) {
      ExpandSplit(env, mode, chunks[0], Whole(chunks[1..]));
      PrintedIsExpansionIffAllFit(env, ModeAfter(mode, chunks[0]), chunks[1..]);
    }
  }

  lemma ExpandOne(env: Env, mode: Mode, ch: char)
    ensures Expand(env, mode, [ch]) == Emitted(env, mode, ch) && ModeAfter(mode, [ch]) == Next(mode, ch)
  {
    ExpandNothing(env, mode);
    ExpandSnoc(env, mode, "", ch);
    assert "" + [ch] == [ch];
  }

  /** What each escape stands for, with either escape character, wherever it stands in a text. */
  lemma EscapesMean(env: Env, text: string, p: char, ch: char)
    requires p == '\\' || p == '%'
    requires ModeAfter(Plain, text) == Plain
    ensures var out := Expand(env, Plain, text + [p, ch]);
            out == Expand(env, Plain, text)
                   + (if ch == p then [p]
                      else if ch == 'l' then env.tty
                      else if ch == 'h' || ch == 'n' then env.node
                      else if ch == 'd' || ch == 't' then env.date
                      else if ch == 's' then env.system
                      else if ch == 'm' then env.machine
                      else if ch == 'r' then env.release
                      else if ch == 'v' then env.version
                      else "")
    ensures ModeAfter(Plain, text + [p, ch]) == Plain
  {
    var a := text + [p];
    ExpandSnoc(env, Plain, text, p);
    ExpandSnoc(env, Plain, a, ch);
    assert text + [p, ch] == a + [ch];
    assert Expand(env, Plain, text) + "" == Expand(env, Plain, text);
    hide Expand, ModeAfter;
  }

  /** Any other character stands for itself. */
  lemma OthersMeanThemselves(env: Env, text: string, ch: char)
    requires ch != '\\' && ch != '%' && ModeAfter(Plain, text) == Plain
    ensures Expand(env, Plain, text + [ch]) == Expand(env, Plain, text) + [ch]
    ensures ModeAfter(Plain, text + [ch]) == Plain
  {
    ExpandSnoc(env, Plain, text, ch);
  }

  /** One character, doubled if it is an escape character. */
  function Quoted(ch: char): string { if IsEscape(ch) then [ch, ch] else [ch] }

  lemma ExpandQuoted(env: Env, ch: char)
    ensures Expand(env, Plain, Quoted(ch)) == [ch] && ModeAfter(Plain, Quoted(ch)) == Plain
  {
    hide Expand, ModeAfter;
    ExpandOne(env, Plain, ch);
    if IsEscape(ch) {
      ExpandSnoc(env, Plain, [ch], ch);
      assert [ch] + [ch] == [ch, ch];
    }
  }

  /** Every escape character written twice. */
  function Doubled(text: string): string {
    if text == [] then "" else Doubled(text[..|text| - 1]) + Quoted(text[|text| - 1])
  }

  /** Doubling the escape characters makes any text print as itself. */
  lemma {:induction false} DoublingQuotes(env: Env, text: string)
    ensures Expand(env, Plain, Doubled(text)) == text && ModeAfter(Plain, Doubled(text)) == Plain
  {
    hide Expand, ModeAfter, Quoted;
    if text == [] {
      ExpandNothing(env, Plain);
    } else {
      var k := |text| - 1;
      DoublingQuotes(env, text[..k]);
      ExpandSplit(env, Plain, Doubled(text[..k]), Quoted(text[k]));
      ExpandQuoted(env, text[k]);
    }
  }

  // ---------------------------------------------------------------------------------------------
  // The loop.

  /** `insc`: one character, if there is room for it and the terminator. */
  method Insc(buf: array<char>, at: nat, ch: char) returns (at': nat)
    requires at < buf.Length
    modifies buf
    ensures at' < buf.Length && buf[..at'] == Take(old(buf[..at]) + [ch], buf.Length - 1)
  {
    at' := at;
    if at < buf.Length - 1 {
      buf[at] := ch;
      at' := at + 1;
    }
  }

  /** `insstr`: a string, cut to the room that is left. */
  method Insstr(buf: array<char>, at: nat, src: string) returns (at': nat)
    requires at < buf.Length
    modifies buf
    ensures at' < buf.Length && buf[..at'] == Take(old(buf[..at]) + src, buf.Length - 1)
  {
    var ost := buf.Length - 1 - (at + |src|);
    var len := if ost > 0 then |src| else buf.Length - 1 - at;
    forall i | 0 <= i < len {
      buf[at + i] := src[i];
    }
    at' := at + len;
  }

  /** The inner loop of `issue_out` on one piece; `flag` and `prev` carry over to the next. */
  method ExpandChunk(env: Env, chunk: string, flag: bool, prev: char, bufout: array<char>)
    returns (flag': bool, prev': char, end: nat)
    requires bufout.Length == SIZE
    modifies bufout
    ensures end < 1000 && bufout[end] == '\0'
    ensures bufout[..end] == Take(Expand(env, if flag then Escape(prev) else Plain, chunk), 999)
    ensures (if flag' then Escape(prev') else Plain) == ModeAfter(if flag then Escape(prev) else Plain, chunk)
  {
    ghost var mode := if flag then Escape(prev) else Plain;
    flag', prev' := flag, prev;
    end := 0;
    var it := 0;
    assert chunk[..0] == [] && bufout[..0] == [];
    while it < |chunk|
      invariant it <= |chunk| && end < SIZE
      invariant (if flag' then Escape(prev') else Plain) == ModeAfter(mode, chunk[..it])
      invariant bufout[..end] == Take(Expand(env, mode, chunk[..it]), SIZE - 1)
    {
      var ch := chunk[it];
      ghost var done := Expand(env, mode, chunk[..it]);
      assert chunk[..it + 1][..it] == chunk[..it];
      TakeTwice(done, Emitted(env, ModeAfter(mode, chunk[..it]), ch), SIZE - 1);
      if flag' {
        if ch != prev' {
          end := Insstr(bufout, end, Subst(env, ch));
        } else {
          end := Insc(bufout, end, ch);
        }
        flag' := false;
      } else if IsEscape(ch) {
        assert done + [] == done;
        flag' := true;
      } else {
        end := Insc(bufout, end, ch);
      }
      prev' := ch;
      it := it + 1;
    }
    assert chunk[..it] == chunk;
    bufout[end] := '\0';
  }
}
