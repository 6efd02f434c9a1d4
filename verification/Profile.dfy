/**
 X.3 profiles: the text of the configuration line (cfgfile.c), the table, the text that the program prints
 (x29proto.c), and the Set PAD message of section 4.4 of ITU-T X.29.
 */
module Profile {
  import opened Common
  import opened Text
  import W = Writen

  const MAXX29PROFILE := 25
  const ECHO_SIZE := MAXX29PROFILE * 5 + 15
  const X29_SET: byte := 2

  datatype Par = Par(ref: byte, value: byte)

  const COMMA: set<char> := {','}
  const COLON: set<char> := {':'}

  // ---------------------------------------------------------------------------------------------
  // Text to table.

  /** One `ref:value` token; anything out of shape or range is skipped. */
  function ParsePar(tok: string): Option<Par> {
    if !(2 < |tok| < 7) then None
    else
      var t1 := NextToken(tok, COLON);
      if t1.NoToken? then None
      else
        var t2 := NextToken(t1.rest, COLON);
        if t2.NoToken? then None
        else
          var ref, value := Atoi(t1.text), Atoi(t2.text);
          if 1 <= ref <= 30 && 0 <= value <= 255 then Some(Par(ref as byte, value as byte)) else None
  }

  function Listed(p: Option<Par>): seq<Par> { if p.Some? then [p.value] else [] }

  /** The parameters in a comma-separated list. */
  function ParsePars(s: string): seq<Par>
    decreases |s|
  {
    match NextToken(s, COMMA)
    case NoToken => []
    case Token(text, rest) => Listed(ParsePar(text)) + ParsePars(rest)
  }

  /** The outcome of reading an x29_profile line: the source crashes without a token and has room for 25 entries. */
  datatype Outcome = NoTokenAtAll | TooMany | Stored(pars: seq<Par>)

  function ReadProfile(val: string): Outcome {
    if NextToken(val, COMMA).NoToken? then NoTokenAtAll
    else if |ParsePars(val)| > MAXX29PROFILE then TooMany
    else Stored(ParsePars(val))
  }

  /** What a token and everything behind it contribute. */
  function FromToken(t: Token): seq<Par> {
    match t
    case NoToken => []
    case Token(text, rest) => Listed(ParsePar(text)) + ParsePars(rest)
  }

  lemma ParsesFromToken(s: string)
    ensures ParsePars(s) == FromToken(NextToken(s, COMMA))
  {
  }

  /** The loop of `readcfg`; `table[..cpar]` is the profile, and X29_profile_len is `cpar - 1`. */
  method ReadProfileLoop(val: string, table: array<Par>) returns (cpar: nat, ok: bool)
    requires table.Length == MAXX29PROFILE
    modifies table
    ensures cpar <= table.Length
    ensures ok == ReadProfile(val).Stored?
    ensures ok ==> ReadProfile(val) == Stored(table[..cpar])
  {
    hide NextToken, ParsePar, ParsePars;
    cpar, ok := 0, false;
    var tok := NextToken(val, COMMA);
    ParsesFromToken(val);
    if tok.NoToken? { return; }
    assert table[..0] == [];
    while tok.Token?
      invariant cpar <= table.Length
      invariant ParsePars(val) == table[..cpar] + FromToken(tok)
      decreases if tok.Token? then |tok.rest| + 1 else 0
    {
      var next := NextToken(tok.rest, COMMA);
      ghost var before := table[..cpar];
      ParsesFromToken(tok.rest);
      Regroup(before, Listed(ParsePar(tok.text)), FromToken(next));
      var full := StorePar(ParsePar(tok.text), table, cpar);
      if full { return; }
      if ParsePar(tok.text).Some? { cpar := cpar + 1; }
      tok := next;
    }
    ok := true;
  }

  /** Stores a parameter behind the first `cpar`, if there is one; `full`: the table has no room for it. */
  method StorePar(p: Option<Par>, table: array<Par>, cpar: nat) returns (full: bool)
    requires cpar <= table.Length
    modifies table
    ensures full == (p.Some? && cpar == table.Length)
    ensures !full ==> cpar + |Listed(p)| <= table.Length
                      && table[..cpar + |Listed(p)|] == old(table[..cpar]) + Listed(p)
    ensures full ==> table[..] == old(table[..])
  {
    full := p.Some? && cpar == table.Length;
    if p.Some? && !full {
      table[cpar] := p.value;
    }
  }

  // ---------------------------------------------------------------------------------------------
  // Table to text.

  function Item(p: Par): string { Dec(p.ref as nat) + ":" + Dec(p.value as nat) }

  /** Every item followed by a comma. */
  function Items(pars: seq<Par>): string {
    if pars == [] then "" else Items(pars[..|pars| - 1]) + Item(pars[|pars| - 1]) + ","
  }

  /** What `x29profile_echo` prints: the items as far as 139 characters hold them, less the last character. */
  function Echo(pars: seq<Par>): string {
    var text := Take(Items(pars), ECHO_SIZE - 1);
    if text == [] then [] else text[..|text| - 1]
  }

  lemma ItemsSnoc(pars: seq<Par>, p: Par)
    ensures Items(pars + [p]) == Items(pars) + Item(p) + ","
  {
    assert (pars + [p])[..|pars|] == pars;
  }

  lemma {:induction false} ItemsFirst(p: Par, pars: seq<Par>)
    ensures Items([p] + pars) == Item(p) + "," + Items(pars)
  {
    hide Items, Item;
    NoItems();
    if pars == [] {
      ItemsSnoc([], p);
      assert [p] + pars == [] + [p];
    } else {
      var k := |pars| - 1;
      ItemsFirst(p, pars[..k]);
      ItemsSnoc([p] + pars[..k], pars[k]);
      ItemsSnoc(pars[..k], pars[k]);
      assert [p] + pars == [p] + pars[..k] + [pars[k]];
      assert pars == pars[..k] + [pars[k]];
      Regroup(Item(p) + ",", Items(pars[..k]), Item(pars[k]) + ",");
      Regroup(Item(p) + "," + Items(pars[..k]), Item(pars[k]), ",");
      Regroup(Items(pars[..k]), Item(pars[k]), ",");
    }
  }

  /** `snprintf` at the end of the string in `buf`. */
  method Append(buf: array<char>, len: nat, text: string) returns (len': nat)
    requires len < buf.Length && buf[len] == '\0' && '\0' !in buf[..len] && '\0' !in text
    modifies buf
    ensures len' < buf.Length && buf[len'] == '\0' && '\0' !in buf[..len']
    ensures buf[..len'] == Take(old(buf[..len]) + text, buf.Length - 1)
  {
    var fit := Min(|text|, buf.Length - len - 1);
    forall i | 0 <= i < fit {
      buf[len + i] := text[i];
    }
    len' := len + fit;
    buf[len'] := '\0';
    assert buf[..len'] == old(buf[..len]) + text[..fit];
  }

  lemma NoNulInItem(p: Par)
    ensures '\0' !in Item(p) && ',' !in Item(p)
  {
    var a, b := Dec(p.ref as nat), Dec(p.value as nat);
    forall i | 0 <= i < |Item(p)|
      ensures Item(p)[i] != '\0' && Item(p)[i] != ','
    {
      assert i < |a| ==> Item(p)[i] == a[i] && IsDigit(a[i]);
      assert i > |a| ==> Item(p)[i] == b[i - |a| - 1] && IsDigit(b[i - |a| - 1]);
    }
  }

  /** Appending the next item keeps the buffer at what fits of the items so far. */
  lemma EchoStep(pars: seq<Par>, i: nat)
    requires i < |pars|
    ensures Take(Take(Items(pars[..i]), ECHO_SIZE - 1) + (Item(pars[i]) + ","), ECHO_SIZE - 1)
            == Take(Items(pars[..i + 1]), ECHO_SIZE - 1)
    ensures '\0' !in Item(pars[i]) + ","
  {
    hide Items, Item, Take;
    NoNulInItem(pars[i]);
    TakeTwice(Items(pars[..i]), Item(pars[i]) + ",", ECHO_SIZE - 1);
    ItemsSnoc(pars[..i], pars[i]);
    assert pars[..i + 1] == pars[..i] + [pars[i]];
    Regroup(Items(pars[..i]), Item(pars[i]), ",");
  }

  /** `x29profile_echo`; a profile of fewer than two entries is not printed. */
  method X29ProfileEcho(pars: seq<Par>) returns (text: Option<string>)
    ensures text == if |pars| >= 2 then Some(Echo(pars)) else None
  {
    text := None;
    if |pars| >= 2 {
      var line := PrintItems(pars);
      text := Some(line);
    }
  }

  method PrintItems(pars: seq<Par>) returns (text: string)
    requires pars != []
    ensures text == Echo(pars)
  {
    var buf := new char[ECHO_SIZE];
    buf[0] := '\0';
    var len := FillItems(buf, pars);
    ghost var printed := buf[..len];
    EchoOf(pars, printed);
    hide *;
    assert buf[..len - 1] == printed[..len - 1];
    text := buf[..len - 1];
  }

  lemma EchoOf(pars: seq<Par>, printed: string)
    requires pars != [] && printed == Take(Items(pars), ECHO_SIZE - 1)
    ensures printed != [] && Echo(pars) == printed[..|printed| - 1]
  {
    assert |Items(pars)| >= 1;
  }

  /** The loop of `x29profile_echo`. */
  method FillItems(buf: array<char>, pars: seq<Par>) returns (len: nat)
    requires buf.Length == ECHO_SIZE && buf[0] == '\0'
    modifies buf
    ensures len < buf.Length && buf[..len] == Take(Items(pars), ECHO_SIZE - 1)
  {
    hide Item, Items, Take;
    len := 0;
    var i: nat := 0;
    NoItems();
    assert buf[..0] == [] && pars[..0] == [];
    while i < |pars|
      invariant i <= |pars| && len < buf.Length && buf[len] == '\0' && '\0' !in buf[..len]
      invariant buf[..len] == Take(Items(pars[..i]), ECHO_SIZE - 1)
    {
      EchoStep(pars, i);
      len := Append(buf, len, Item(pars[i]) + ",");
      i := i + 1;
    }
    assert pars[..i] == pars;
  }

  lemma NoItems()
    ensures Items([]) == "" && Take(Items([]), ECHO_SIZE - 1) == ""
  {
  }

  // ---------------------------------------------------------------------------------------------
  // Printing and parsing.

  predicate InRange(pars: seq<Par>) { forall i :: 0 <= i < |pars| ==> 1 <= pars[i].ref <= 30 }

  lemma DecLength(n: nat)
    requires n < 1000
    ensures |Dec(n)| == if n < 10 then 1 else if n < 100 then 2 else 3
  {
  }

  lemma PlainDigits(digits: string)
    requires digits != [] && forall i :: 0 <= i < |digits| ==> IsDigit(digits[i])
    ensures Plain(digits, COLON)
  {
    forall i | 0 <= i < |digits|
      ensures digits[i] !in COLON
    {
      assert IsDigit(digits[i]);
    }
  }

  lemma NoTokenLeft(delims: set<char>)
    ensures NextToken([], delims) == NoToken
  {
  }

  /** A token `ref:value` splits at the colon. */
  lemma TwoTokens(a: string, b: string)
    requires Plain(a, COLON) && (b == [] || Plain(b, COLON))
    ensures NextToken(a + ":" + b, COLON) == Token(a, b)
    ensures NextToken(b, COLON) == if b == [] then NoToken else Token(b, [])
  {
    hide NextToken, Plain;
    TokenOf(a, ":" + b, COLON);
    assert (":" + b)[1..] == b;
    Regroup(a, ":", b);
    if b != [] {
      TokenOf(b, [], COLON);
      assert b + [] == b;
    } else {
      NoTokenLeft(COLON);
    }
  }

  lemma AtoiOfDigits(digits: string)
    requires digits != [] && forall i :: 0 <= i < |digits| ==> IsDigit(digits[i])
    ensures Atoi(digits) == DigitsValue(digits)
  {
    AllDigitsSpan(digits);
    assert Leading(digits) == digits;
    assert IsDigit(digits[0]);
  }

  /** `ref:digits` parses to the reference and the value of the digits. */
  lemma ParseRefValue(p: Par, digits: string)
    requires 1 <= p.ref <= 30 && 1 <= |digits| <= 3 && forall i :: 0 <= i < |digits| ==> IsDigit(digits[i])
    ensures var v := DigitsValue(digits);
            ParsePar(Dec(p.ref as nat) + ":" + digits) == if v <= 255 then Some(Par(p.ref, v as byte)) else None
  {
    var r := Dec(p.ref as nat);
    DecLength(p.ref as nat);
    PlainDigits(r);
    PlainDigits(digits);
    TwoTokens(r, digits);
    AtoiOfDec(p.ref as nat);
    AtoiOfDigits(digits);
    hide NextToken, Atoi, Dec, DigitsValue, Plain;
    assert |r + ":" + digits| == |r| + 1 + |digits|;
  }

  /** A token `ref:value` is taken exactly for references from 1 to 30 and values up to 255, and is else skipped. */
  lemma ParsedIff(ref: nat, value: nat)
    requires ref <= 99 && value <= 999
    ensures var tok := Dec(ref) + ":" + Dec(value);
            ParsePar(tok) == if 1 <= ref <= 30 && value <= 255 then Some(Par(ref as byte, value as byte)) else None
  {
    var r, v := Dec(ref), Dec(value);
    DecLength(ref);
    DecLength(value);
    PlainDigits(r);
    PlainDigits(v);
    TwoTokens(r, v);
    AtoiOfDec(ref);
    AtoiOfDec(value);
    hide NextToken, Atoi, Dec, DigitsValue, Plain;
    assert |r + ":" + v| == |r| + 1 + |v|;
  }

  /** A token that is too short, too long or without a colon is skipped, and the list goes on behind it. */
  lemma OddTokensAreSkipped(tok: string, rest: string)
    requires Plain(tok, COMMA) && (|tok| <= 2 || |tok| >= 7 || ':' !in tok)
    ensures ParsePars(tok + "," + rest) == ParsePars(rest)
  {
    TokenOf(tok, "," + rest, COMMA);
    Regroup(tok, ",", rest);
    assert ("," + rest)[1..] == rest;
    if ':' !in tok {
      TokenOf(tok, [], COLON);
      assert tok + [] == tok;
      NoTokenLeft(COLON);
    }
    hide NextToken;
    assert ParsePar(tok) == None;
  }

  /** So are empty places in the list. */
  lemma EmptyTokensAreSkipped(s: string)
    ensures ParsePars("," + s) == ParsePars(s)
  {
    DelimiterFirst(',', s, COMMA);
    ParsesFromToken(s);
    ParsesFromToken("," + s);
    hide NextToken, ParsePars, FromToken;
    assert "," + s == [','] + s;
  }

  /** The profile line of a new configuration file (cfgfile.c, line 203) is the program's own profile. */
  lemma WrittenProfileIsStandard()
    ensures ReadProfile("1:0,2:0,3:0,4:1,13:4,15:0") == Stored(STANDARD)
  {
    StandardText();
    hide *;
    JoinedReads(STANDARD, "1:0,2:0,3:0,4:1,13:4,15:0");
  }

  lemma StandardText()
    ensures Joined(STANDARD) == "1:0,2:0,3:0,4:1,13:4,15:0" && InRange(STANDARD) && |STANDARD| == 6
  {
    StandardItems();
    StandardTail();
    hide Item, Joined;
    var tail := [Par(4, 1), Par(13, 4), Par(15, 0)];
    JoinedFirst(Par(3, 0), tail);
    JoinedFirst(Par(2, 0), [Par(3, 0)] + tail);
    JoinedFirst(Par(1, 0), [Par(2, 0)] + ([Par(3, 0)] + tail));
    assert STANDARD == [Par(1, 0)] + ([Par(2, 0)] + ([Par(3, 0)] + tail));
  }

  lemma StandardTail()
    ensures Joined([Par(4, 1), Par(13, 4), Par(15, 0)]) == "4:1,13:4,15:0"
  {
    StandardItems();
    hide Item, Joined;
    JoinedFirst(Par(15, 0), []);
    JoinedFirst(Par(13, 4), [Par(15, 0)]);
    JoinedFirst(Par(4, 1), [Par(13, 4)] + [Par(15, 0)]);
    assert [Par(4, 1), Par(13, 4), Par(15, 0)] == [Par(4, 1)] + ([Par(13, 4)] + [Par(15, 0)]);
    assert [Par(15, 0)] == [Par(15, 0)] + [];
  }

  lemma StandardItems()
    ensures Item(Par(1, 0)) == "1:0" && Item(Par(2, 0)) == "2:0" && Item(Par(3, 0)) == "3:0"
    ensures Item(Par(4, 1)) == "4:1" && Item(Par(13, 4)) == "13:4" && Item(Par(15, 0)) == "15:0"
  {
    assert Dec(1) == "1";
  }

  lemma JoinedFirst(p: Par, rest: seq<Par>)
    ensures Joined([p] + rest) == if rest == [] then Item(p) else Item(p) + "," + Joined(rest)
  {
    hide Item;
    assert ([p] + rest)[1..] == rest;
  }

  lemma JoinedReads(pars: seq<Par>, text: string)
    requires 1 <= |pars| <= 25 && InRange(pars) && text == Joined(pars)
    ensures ReadProfile(text) == Stored(pars)
  {
    ParseJoined(pars);
    hide Joined;
    assert NextToken(text, COMMA).Token?;
  }

  lemma ParseItem(p: Par)
    requires 1 <= p.ref <= 30
    ensures ParsePar(Item(p)) == Some(p)
  {
    DecLength(p.value as nat);
    DecValue(p.value as nat);
    ParseRefValue(p, Dec(p.value as nat));
  }

  lemma PlainItem(p: Par)
    ensures Plain(Item(p), COMMA)
  {
    NoNulInItem(p);
  }

  /** A first item and the rest of the list. */
  lemma ParseFirst(p: Par, rest: string)
    requires 1 <= p.ref <= 30
    ensures ParsePars(Item(p) + "," + rest) == [p] + ParsePars(rest)
    ensures ParsePars(Item(p)) == [p]
  {
    hide NextToken, Plain, Item, ParsePar;
    PlainItem(p);
    ParseItem(p);
    TokenOf(Item(p), "," + rest, COMMA);
    Regroup(Item(p), ",", rest);
    assert ("," + rest)[1..] == rest;
    TokenOf(Item(p), [], COMMA);
    assert Item(p) + [] == Item(p);
    NoTokenLeft(COMMA);
    assert ParsePars([]) == [];
  }

  /** The list without the last comma. */
  function Joined(pars: seq<Par>): string
    requires pars != []
  {
    if |pars| == 1 then Item(pars[0]) else Item(pars[0]) + "," + Joined(pars[1..])
  }

  lemma {:induction false} JoinedIsItems(pars: seq<Par>)
    requires pars != []
    ensures Items(pars) == Joined(pars) + ","
  {
    assert pars == [pars[0]] + pars[1..];
    ItemsFirst(pars[0], pars[1..]);
    if |pars| > 1 {
      JoinedIsItems(pars[1..]);
    } else {
      assert pars[1..] == [] && Items([]) == "";
    }
  }

  lemma {:induction false} ParseJoined(pars: seq<Par>)
    requires pars != [] && InRange(pars)
    ensures ParsePars(Joined(pars)) == pars
  {
    if |pars| == 1 {
      ParseFirst(pars[0], []);
    } else {
      ParseFirst(pars[0], Joined(pars[1..]));
      ParseJoined(pars[1..]);
      assert pars == [pars[0]] + pars[1..];
    }
  }

  // ---------------------------------------------------------------------------------------------
  // A cut text never parses to the whole profile.

  /** Fewer digits, smaller value. */
  lemma {:induction false} FewerDigits(n: nat, k: nat)
    requires k < |Dec(n)|
    ensures DigitsValue(Dec(n)[..k]) < n || k == 0
  {
    if n >= 10 {
      var d := Dec(n / 10);
      assert Dec(n)[..k] == d[..k];
      if k < |d| {
        FewerDigits(n / 10, k);
      } else {
        assert d[..k] == d;
        DecValue(n / 10);
      }
    }
  }

  /** A cut item is skipped or has another value. */
  lemma CutItem(p: Par, k: nat)
    requires 1 <= p.ref <= 30 && k < |Item(p)|
    ensures ParsePar(Item(p)[..k]) != Some(p)
  {
    var r, v := Dec(p.ref as nat), Dec(p.value as nat);
    var t := Item(p)[..k];
    PlainDigits(r);
    if k <= |r| {
      assert t == r[..k];
      if k > 0 {
        TokenOf(t, [], COLON);
        assert t + [] == t;
        assert NextToken([], COLON).NoToken?;
      }
    } else {
      var j: nat := k - |r| - 1;
      assert t == r + ":" + v[..j];
      if j == 0 {
        TwoTokens(r, []);
        assert v[..0] == [];
      } else {
        DecLength(p.value as nat);
        FewerDigits(p.value as nat, j);
        ParseRefValue(p, v[..j]);
      }
    }
  }

  /** A text without a comma gives at most one parameter. */
  lemma ParseWithoutComma(t: string)
    requires ',' !in t
    ensures ParsePars(t) == if t == [] then [] else Listed(ParsePar(t))
  {
    assert ParsePars([]) == [];
    if t != [] {
      TokenOf(t, [], COMMA);
      assert t + [] == t;
    }
  }

  lemma {:induction false} CutTextDiffers(pars: seq<Par>, k: nat)
    requires pars != [] && InRange(pars) && k < |Joined(pars)|
    ensures ParsePars(Joined(pars)[..k]) != pars
    decreases |pars|
  {
    var p, text := pars[0], Joined(pars);
    var first := Item(p);
    NoNulInItem(p);
    if k <= |first| {
      var t := text[..k];
      assert t == first[..k];
      ParseWithoutComma(t);
      if |pars| == 1 { CutItem(p, k); }
    } else {
      var rest := Joined(pars[1..]);
      var j: nat := k - |first| - 1;
      assert text[..k] == first + "," + rest[..j];
      ParseFirst(p, rest[..j]);
      CutTextDiffers(pars[1..], j);
    }
  }

  /** The printed profile parses back to the profile exactly when all of it fits the buffer of 140 bytes. */
  lemma EchoRoundTrip(pars: seq<Par>)
    requires |pars| >= 2 && InRange(pars)
    ensures ParsePars(Echo(pars)) == pars <==> |Items(pars)| < 140
  {
    JoinedIsItems(pars);
    var text := Joined(pars);
    if |Items(pars)| < ECHO_SIZE {
      assert Echo(pars) == text;
      ParseJoined(pars);
    } else {
      assert Echo(pars) == text[..ECHO_SIZE - 2];
      CutTextDiffers(pars, ECHO_SIZE - 2);
    }
  }

  // ---------------------------------------------------------------------------------------------
  // Table to Set PAD message.

  function Pairs(pars: seq<Par>): seq<byte> {
    if pars == [] then [] else Pairs(pars[..|pars| - 1]) + [pars[|pars| - 1].ref, pars[|pars| - 1].value]
  }

  /** Q byte 1, message code 2, then reference and value of each parameter. */
  function SetMessage(pars: seq<Par>): seq<byte> { [1, X29_SET] + Pairs(pars) }

  /** The buffer of `x29set_default`. */
  const SET_SIZE := MAXX29PROFILE * 2

  /** The program's own profile, and the last index that its loop uses (pad_svr3.c). */
  const STANDARD: seq<Par> := [Par(1, 0), Par(2, 0), Par(3, 0), Par(4, 1), Par(13, 4), Par(15, 0)]
  const STANDARD_LAST := 6

  /** What becomes of a Set message: nothing is sent, a message is, or the loop writes behind its buffer. */
  datatype Transmission = Nothing | Message(bytes: seq<byte>) | Overrun

  function Transmitted(pars: seq<Par>): Transmission {
    if pars == [] then Nothing
    else if |SetMessage(pars)| > SET_SIZE then Overrun
    else Message(SetMessage(pars))
  }

  /** The entries that the loop takes for the program's own profile; `behind` lies in memory behind the array. */
  function StandardUpTo(last: nat, behind: seq<Par>): seq<Par>
    requires last < |STANDARD| + |behind|
  {
    (STANDARD + behind)[..last + 1]
  }

  /**
   What `x29set_default` does with the configured profile.  It takes X29_profile_len == 0 for "no profile
   configured", although that is also the last index of a profile with one entry.
   */
  function Sent(pars: seq<Par>, behind: seq<Par>): Transmission
    requires behind != []
  {
    Transmitted(if |pars| == 1 then StandardUpTo(STANDARD_LAST, behind) else pars)
  }

  /** How a PAD reads the parameter field: alternating references and values. */
  function DecodePairs(s: seq<byte>): Option<seq<Par>> {
    if s == [] then Some([])
    else if |s| == 1 then None
    else
      var rest := DecodePairs(s[2..]);
      if rest.None? then None else Some([Par(s[0], s[1])] + rest.value)
  }

  /** A qualified packet with the message code of Set. */
  function DecodeSet(message: seq<byte>): Option<seq<Par>> {
    if |message| < 2 || message[0] != 1 || message[1] != X29_SET then None else DecodePairs(message[2..])
  }

  lemma DecodeFirst(p: Par, s: seq<byte>)
    requires DecodePairs(s).Some?
    ensures DecodePairs([p.ref, p.value] + s) == Some([p] + DecodePairs(s).value)
  {
    assert ([p.ref, p.value] + s)[2..] == s;
  }

  lemma {:induction false} DecodeSplit(a: seq<Par>, s: seq<byte>)
    requires DecodePairs(s).Some?
    ensures DecodePairs(Pairs(a) + s) == Some(a + DecodePairs(s).value)
  {
    hide DecodePairs;
    var v := DecodePairs(s).value;
    if a == [] {
      assert Pairs(a) + s == s;
      assert a + v == v;
    } else {
      var k := |a| - 1;
      var pair := [a[k].ref, a[k].value];
      DecodeFirst(a[k], s);
      DecodeSplit(a[..k], pair + s);
      Regroup(Pairs(a[..k]), pair, s);
      Regroup(a[..k], [a[k]], v);
      assert a == a[..k] + [a[k]];
    }
  }

  /** The message carries the profile. */
  lemma SetRoundTrip(pars: seq<Par>)
    ensures DecodeSet(SetMessage(pars)) == Some(pars)
  {
    DecodeSplit(pars, []);
    assert Pairs(pars) + [] == Pairs(pars);
    assert SetMessage(pars)[2..] == Pairs(pars);
    assert pars + [] == pars;
  }

  lemma {:induction false} PairsLength(pars: seq<Par>)
    ensures |Pairs(pars)| == 2 * |pars|
  {
    if pars != [] {
      PairsLength(pars[..|pars| - 1]);
    }
  }

  /** The peer receives this profile. */
  predicate Carries(t: Transmission, pars: seq<Par>) { t.Message? && DecodeSet(t.bytes) == Some(pars) }

  /** A profile goes out as it is exactly when it has an entry and at most 24. */
  lemma TransmittedCarriesIff(used: seq<Par>, pars: seq<Par>)
    ensures Carries(Transmitted(used), pars) <==> used == pars && 1 <= |pars| < MAXX29PROFILE
  {
    PairsLength(used);
    SetRoundTrip(used);
    hide DecodeSet, Pairs;
  }

  /**
   The peer receives the configured profile exactly when that has from 2 to 24 entries, although the table
   holds 25: a profile with one entry is taken for none, and one with 25 overruns the buffer.
   */
  lemma ConfiguredProfileIsSentIff(pars: seq<Par>, behind: seq<Par>)
    requires behind != []
    ensures Carries(Sent(pars, behind), pars) <==> 2 <= |pars| <= 24
    ensures Sent(pars, behind).Overrun? <==> |pars| >= 25
  {
    var used := if |pars| == 1 then StandardUpTo(STANDARD_LAST, behind) else pars;
    PairsLength(used);
    TransmittedCarriesIff(used, pars);
    hide Carries, Transmitted, Pairs;
    assert |used| > SET_SIZE / 2 - 1 <==> Transmitted(used).Overrun? by { TransmittedOverrunsIff(used); }
  }

  lemma TransmittedOverrunsIff(used: seq<Par>)
    ensures Transmitted(used).Overrun? <==> |used| >= MAXX29PROFILE
  {
    PairsLength(used);
  }

  /**
   The loop over the program's own profile sends exactly that profile if and only if its last index is 5.  The
   program says 6, so the peer receives a seventh parameter, read from behind the array.
   */
  lemma StandardProfileIsSentIff(last: nat, behind: seq<Par>)
    requires last < |STANDARD| + |behind|
    ensures Carries(Transmitted(StandardUpTo(last, behind)), STANDARD) <==> last == 5
    ensures last == 6 ==> Carries(Transmitted(StandardUpTo(last, behind)), STANDARD + [behind[0]])
  {
    var used := StandardUpTo(last, behind);
    TransmittedCarriesIff(used, STANDARD);
    if last == 5 { assert used == STANDARD; }
    if last == STANDARD_LAST {
      assert used == STANDARD + [behind[0]];
      TransmittedCarriesIff(used, used);
    }
    hide Carries, Transmitted;
  }

  /**
   With no profile configured the peer receives the program's own, and a seventh parameter from behind the array;
   a configured profile of one entry counts as none.
   */
  lemma DefaultProfileIsSent(pars: seq<Par>, behind: seq<Par>)
    requires behind != [] && |pars| == 1
    ensures Carries(Sent(pars, behind),
                    [Par(1, 0), Par(2, 0), Par(3, 0), Par(4, 1), Par(13, 4), Par(15, 0), behind[0]])
  {
    StandardProfileIsSentIff(STANDARD_LAST, behind);
    hide Carries, Transmitted;
    assert STANDARD + [behind[0]]
        == [Par(1, 0), Par(2, 0), Par(3, 0), Par(4, 1), Par(13, 4), Par(15, 0), behind[0]];
  }

  /** The bytes of a Set message: Q byte 1, code 2, then reference and value of each parameter in turn. */
  lemma SetLayout(pars: seq<Par>, i: nat)
    requires i < |pars|
    ensures |SetMessage(pars)| == 2 + 2 * |pars| && SetMessage(pars)[0] == 1 && SetMessage(pars)[1] == 2
    ensures SetMessage(pars)[2 + 2 * i] == pars[i].ref && SetMessage(pars)[3 + 2 * i] == pars[i].value
  {
    PairsLength(pars);
    PairAt(pars, i);
    hide Pairs;
  }

  lemma {:induction false} PairAt(pars: seq<Par>, i: nat)
    requires i < |pars|
    ensures |Pairs(pars)| == 2 * |pars|
    ensures Pairs(pars)[2 * i] == pars[i].ref && Pairs(pars)[2 * i + 1] == pars[i].value
  {
    var k := |pars| - 1;
    PairsLength(pars);
    PairsLength(pars[..k]);
    if i < k { PairAt(pars[..k], i); }
  }

  /** The shortest profile line: its one entry is stored, and the peer receives something else. */
  lemma OneEntryIsNotSent(behind: seq<Par>)
    requires behind != []
    ensures ReadProfile("1:0") == Stored([Par(1, 0)]) && !Carries(Sent([Par(1, 0)], behind), [Par(1, 0)])
  {
    var p := Par(1, 0);
    assert Item(p) == "1:0";
    ParseFirst(p, []);
    PlainItem(p);
    TokenOf("1:0", [], COMMA);
    assert "1:0" + [] == "1:0";
    ConfiguredProfileIsSentIff([p], behind);
  }

  /** `n` times the same entry. */
  function Repeated(n: nat, p: Par): seq<Par> { seq(n, _ => p) }

  lemma {:induction false} RepeatedLength(n: nat, p: Par)
    ensures |Items(Repeated(n, p))| == n * (|Item(p)| + 1)
  {
    hide Items, Item;
    if n == 0 {
      NoItems();
    } else {
      var w := |Item(p)| + 1;
      RepeatedLength(n - 1, p);
      ItemsSnoc(Repeated(n - 1, p), p);
      assert Repeated(n, p) == Repeated(n - 1, p) + [p];
      assert (n - 1) * w + w == n * w;
    }
  }

  /** A full table of 25 entries, read from a text of 99 characters, overruns the buffer. */
  lemma FullTableOverruns(behind: seq<Par>)
    requires behind != []
    ensures var pars := Repeated(25, Par(1, 0)); var text := Joined(pars);
            |text| == 99 && ReadProfile(text) == Stored(pars) && Sent(pars, behind).Overrun?
  {
    var p := Par(1, 0);
    var pars := Repeated(25, p);
    assert Item(p) == "1:0";
    RepeatedLength(25, p);
    JoinedIsItems(pars);
    JoinedReads(pars, Joined(pars));
    ConfiguredProfileIsSentIff(pars, behind);
  }

  /** A profile of 20 entries that need 140 characters reads back differently once printed. */
  lemma LongProfileIsCut()
    ensures var pars := Repeated(20, Par(10, 100)); ParsePars(Echo(pars)) != pars
  {
    assert Item(Par(10, 100)) == "10:100";
    RepeatedLength(20, Par(10, 100));
    EchoRoundTrip(Repeated(20, Par(10, 100)));
  }

  /** However `writensockint` splits the message, every packet is qualified and together they carry the profile. */
  lemma SetSurvivesSplitting(pars: seq<Par>, answers: seq<W.Answer>)
    requires 1 <= |pars|
    ensures var msg := SetMessage(pars); var j := W.Calls(W.Start(msg, |msg|), answers);
            && (forall i :: 0 <= i < |j.packets| ==> j.packets[i] != [] && j.packets[i][0] == 1)
            && (j.status == W.Complete ==> DecodeSet([1] + W.Payloads(j.packets)) == Some(pars))
  {
    var msg := SetMessage(pars);
    assert |msg| >= 2 && [1] + msg[1..] == msg && msg[1..|msg|] == msg[1..];
    SetRoundTrip(pars);
    hide SetMessage, DecodeSet, W.Calls, W.Payloads;
    W.FramingLossless(msg, |msg|, answers);
  }

  /**
   `x29set_default`: `last` is X29_profile_len, the last index of the table in use; the loop stops where it
   would leave the zeroed buffer of 50 bytes.
   */
  method X29SetDefault(table: array<Par>, last: int, behind: seq<Par>) returns (sent: Transmission)
    requires table.Length == MAXX29PROFILE && -1 <= last < table.Length && behind != []
    ensures sent == Sent(table[..last + 1], behind)
    ensures last == 0 ==> Carries(sent, [Par(1, 0), Par(2, 0), Par(3, 0), Par(4, 1), Par(13, 4), Par(15, 0), behind[0]])
    ensures 1 <= last <= 23 ==> Carries(sent, table[..last + 1])
  {
    hide Carries;
    if last == 0 {
      DefaultProfileIsSent(table[..1], behind);
      sent := SendPairs(STANDARD + behind, STANDARD_LAST);
      assert table[..1] == [table[0]];
    } else {
      sent := SendPairs(table[..], last);
      assert table[..][..last + 1] == table[..last + 1];
      ConfiguredProfileIsSentIff(table[..last + 1], behind);
    }
  }

  lemma PairsSnoc(memory: seq<Par>, i: nat)
    requires i < |memory|
    ensures Pairs(memory[..i + 1]) == Pairs(memory[..i]) + [memory[i].ref, memory[i].value]
  {
    assert memory[..i + 1][..i] == memory[..i];
  }

  /** Either loop, over the entries from `memory` with indices up to `last`. */
  method SendPairs(memory: seq<Par>, last: int) returns (sent: Transmission)
    requires -1 <= last < |memory|
    ensures sent == Transmitted(memory[..last + 1])
  {
    var buf := new byte[SET_SIZE](_ => 0);
    var c: nat := 0;
    buf[c] := 1;
    c := c + 1;
    buf[c] := X29_SET;
    c := c + 1;
    var i: nat := 0;
    assert memory[..0] == [] && buf[..c] == [1, X29_SET] + Pairs([]);
    PairsLength(memory[..last + 1]);
    hide Pairs;
    while i <= last
      invariant i <= last + 1 && c == 2 + 2 * i <= SET_SIZE
      invariant buf[..c] == [1, X29_SET] + Pairs(memory[..i])
    {
      if c + 2 > buf.Length { return Overrun; }
      PairsSnoc(memory, i);
      Regroup([1, X29_SET], Pairs(memory[..i]), [memory[i].ref, memory[i].value]);
      c := StorePair(buf, c, memory[i]);
      i := i + 1;
    }
    sent := if i > 0 then Message(buf[..c]) else Nothing;
  }

  method StorePair(buf: array<byte>, c: nat, p: Par) returns (c': nat)
    requires c + 2 <= buf.Length
    modifies buf
    ensures c' == c + 2 && buf[..c'] == old(buf[..c]) + [p.ref, p.value]
  {
    c' := c;
    buf[c'] := p.ref;
    c' := c' + 1;
    buf[c'] := p.value;
    c' := c' + 1;
  }

  // ---------------------------------------------------------------------------------------------
  // From the configuration file to the peer.

  /** A profile of at least two entries, printed whole and configured again, reaches the peer unless it has 25. */
  lemma ProfileReachesPeer(pars: seq<Par>, behind: seq<Par>)
    requires 2 <= |pars| <= 25 && InRange(pars) && |Items(pars)| < 140 && behind != []
    ensures ReadProfile(Echo(pars)) == Stored(pars)
    ensures Carries(Sent(pars, behind), pars) <==> |pars| < 25
  {
    EchoRoundTrip(pars);
    ConfiguredProfileIsSentIff(pars, behind);
    assert NextToken(Echo(pars), COMMA).Token?;
  }
}
