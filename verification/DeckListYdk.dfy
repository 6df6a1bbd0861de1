/**
 `collection/DeckListLoader.java` and `collection/DeckListWriter.java`: deck lists printed as YDK text and read back.
 */
module DeckListYdk {
  import opened JavaText
  import opened Wrappers

  const DRAFT_CARDS := 512
  const INT_MAX := 0x7FFF_FFFF

  datatype DeckList = DeckList(main: seq<int>, extra: seq<int>, side: seq<int>) {
    function Total(): nat { |main| + |extra| + |side| }

    /** What the `DeckList` constructor demands of its codes, which are Java ints. */
    predicate Fits() {
      (forall c <- main :: 0 < c <= INT_MAX) && (forall c <- extra :: 0 < c <= INT_MAX) && (forall c <- side :: 0 < c <= INT_MAX)
    }
  }

  // ----- Printing -----

  function Digit(d: int): char
    requires 0 <= d < 10
  {
    "0123456789"[d]
  }

  function Decimal(n: nat): string {
    if n < 10 then [Digit(n)] else Decimal(n / 10) + [Digit(n % 10)]
  }

  /** Every line ended by a line feed. */
  function Joined(lines: seq<string>): string {
    if lines == [] then "" else Joined(lines[..|lines| - 1]) + lines[|lines| - 1] + "\n"
  }

  function CodeLines(codes: seq<int>): (r: seq<string>)
    requires forall c <- codes :: c > 0
    ensures |r| == |codes|
  {
    seq(|codes|, i requires 0 <= i < |codes| => assert codes[i] in codes; Decimal(codes[i]))
  }

  function YdkLines(d: DeckList): seq<string>
    requires d.Fits()
  {
    ["#created by Duelcraft", "#main"] + CodeLines(d.main) + ["#extra"] + CodeLines(d.extra) + ["!side"] + CodeLines(d.side)
  }

  method ToYdk(d: DeckList) returns (text: string)
    requires d.Fits()
    ensures text == Joined(YdkLines(d))
  {
    text := "#created by Duelcraft\n#main\n";
    ghost var lines := ["#created by Duelcraft", "#main"];
    JoinedSnoc([], "#created by Duelcraft");
    JoinedSnoc(["#created by Duelcraft"], "#main");
    assert ["#created by Duelcraft"] + ["#main"] == lines && [] + ["#created by Duelcraft"] == ["#created by Duelcraft"];
    text := AppendCodes(text, d.main, lines);
    lines := lines + CodeLines(d.main);
    JoinedSnoc(lines, "#extra");
    text := text + "#extra\n";
    lines := lines + ["#extra"];
    text := AppendCodes(text, d.extra, lines);
    lines := lines + CodeLines(d.extra);
    JoinedSnoc(lines, "!side");
    text := text + "!side\n";
    lines := lines + ["!side"];
    text := AppendCodes(text, d.side, lines);
  }

  method AppendCodes(start: string, codes: seq<int>, ghost lines: seq<string>) returns (text: string)
    requires start == Joined(lines) && forall c <- codes :: c > 0
    ensures text == Joined(lines + CodeLines(codes))
  {
    text := start;
    assert lines + CodeLines(codes)[..0] == lines;
    for i := 0 to |codes|
      invariant text == Joined(lines + CodeLines(codes)[..i])
    {
      assert codes[i] in codes;
      JoinedSnoc(lines + CodeLines(codes)[..i], CodeLines(codes)[i]);
      assert lines + CodeLines(codes)[..i + 1] == lines + CodeLines(codes)[..i] + [CodeLines(codes)[i]];
      text := text + Decimal(codes[i]) + "\n";
    }
    assert CodeLines(codes)[..|codes|] == CodeLines(codes);
  }

  lemma JoinedSnoc(lines: seq<string>, line: string)
    ensures Joined(lines + [line]) == Joined(lines) + line + "\n"
  {
    assert (lines + [line])[..|lines|] == lines;
  }

  // ----- Reading -----

  predicate Breaks(c: char) { IsLineBreak(c as int) }

  /** The lines of a text, cut at every line break, empty ones kept. */
  function Lines(text: string): (r: seq<string>)
    ensures |r| > 0
  {
    LinesFrom(text, "")
  }

  /** The lines of `line + text`, where `line` has no break. */
  function LinesFrom(text: string, line: string): (r: seq<string>)
    ensures |r| > 0
    decreases |text|
  {
    if text == "" then [line]
    else if text[0] == '\r' && |text| > 1 && text[1] == '\n' then [line] + LinesFrom(text[2..], "")
    else if Breaks(text[0]) then [line] + LinesFrom(text[1..], "")
    else LinesFrom(text[1..], line + [text[0]])
  }

  predicate Unbroken(s: string) { forall c <- s :: !Breaks(c) }

  predicate Blank(c: char) { IsWhitespace(c as int) }

  function StripFront(s: string): string { if s != "" && Blank(s[0]) then StripFront(s[1..]) else s }

  function StripBack(s: string): string { if s != "" && Blank(s[|s| - 1]) then StripBack(s[..|s| - 1]) else s }

  function Strip(s: string): string { StripBack(StripFront(s)) }

  function LowerChar(c: char): char { if 'A' <= c <= 'Z' then c - 'A' + 'a' else c }

  function Lower(s: string): string { seq(|s|, i requires 0 <= i < |s| => LowerChar(s[i])) }

  predicate IsDigit(c: char) { '0' <= c <= '9' }

  function DigitsValue(s: string): nat
    requires forall c <- s :: IsDigit(c)
  {
    if s == "" then 0
    else
      assert IsDigit(s[|s| - 1]);
      DigitsValue(s[..|s| - 1]) * 10 + (s[|s| - 1] as int - '0' as int)
  }

  /** `Integer.parseInt`, of ASCII digits. */
  function ParseInt(s: string): Option<int> {
    var negative := s != "" && s[0] == '-';
    var digits := if s != "" && (s[0] == '-' || s[0] == '+') then s[1..] else s;
    if digits == "" || exists c <- digits :: !IsDigit(c) then None
    else
      var value: int := DigitsValue(digits);
      if negative then (if value <= INT_MAX + 1 then Some(-value) else None)
      else if value <= INT_MAX then Some(value)
      else None
  }

  datatype Section = NONE | MAIN | EXTRA | SIDE
  datatype Problem = NotANumber | NotPositive | BeforeSection | TooManyCards | MissingMain
  datatype Result<T> = Ok(value: T) | Err(problem: Problem, line: nat)

  datatype Reading = Reading(section: Section, sawMain: bool, cards: DeckList)

  const NOTHING := Reading(NONE, false, DeckList([], [], []))

  function Add(r: Reading, code: int): Reading
    requires r.section != NONE
  {
    match r.section
    case MAIN => r.(cards := r.cards.(main := r.cards.main + [code]))
    case EXTRA => r.(cards := r.cards.(extra := r.cards.extra + [code]))
    case SIDE => r.(cards := r.cards.(side := r.cards.side + [code]))
  }

  function ReadLine(r: Reading, raw: string, lineNum: nat): Result<Reading> {
    var line := Strip(raw);
    if line == "" then Ok(r)
    else if line[0] == '#' then
      var header := Lower(line);
      Ok(if header == "#main" then r.(section := MAIN, sawMain := true)
         else if header == "#extra" then r.(section := EXTRA) else r)
    else if line == "!side" then Ok(r.(section := SIDE))
    else
      var code := ParseInt(line);
      if code.None? then Err(NotANumber, lineNum)
      else if code.value <= 0 then Err(NotPositive, lineNum)
      else if r.section == NONE then Err(BeforeSection, lineNum)
      else
        var t := Add(r, code.value);
        if t.cards.Total() > DRAFT_CARDS then Err(TooManyCards, lineNum) else Ok(t)
  }

  function ReadLines(r: Reading, lines: seq<string>, lineNum: nat): Result<Reading>
    decreases |lines|
  {
    if lines == [] then Ok(r)
    else
      match ReadLine(r, lines[0], lineNum + 1)
      case Err(problem, line) => Err(problem, line)
      case Ok(t) => ReadLines(t, lines[1..], lineNum + 1)
  }

  function Parsed(content: string): Result<DeckList> {
    var text := if content != "" && content[0] == '\U{FEFF}' then content[1..] else content;
    var lines := Lines(text);
    match ReadLines(NOTHING, lines, 0)
    case Err(problem, line) => Err(problem, line)
    case Ok(r) => if r.sawMain then Ok(r.cards) else Err(MissingMain, |lines|)
  }

  method ParseYdk(content: string) returns (result: Result<DeckList>)
    ensures result == Parsed(content)
  {
    hide ReadLine;
    var text := content;
    if text != "" && text[0] == '\U{FEFF}' { text := text[1..]; }
    var lines := Lines(text);
    var reading := NOTHING;
    var lineNum := 0;
    while lineNum < |lines|
      invariant 0 <= lineNum <= |lines|
      invariant ReadLines(NOTHING, lines, 0) == ReadLines(reading, lines[lineNum..], lineNum)
    {
      var next := ReadLine(reading, lines[lineNum], lineNum + 1);
      assert lines[lineNum..][0] == lines[lineNum] && lines[lineNum..][1..] == lines[lineNum + 1..];
      if next.Err? { return Err(next.problem, next.line); }
      reading := next.value;
      lineNum := lineNum + 1;
    }
    assert lines[lineNum..] == [];
    if !reading.sawMain { return Err(MissingMain, lineNum); }
    result := Ok(reading.cards);
  }

  // ----- What is read is a deck list -----

  lemma {:induction false} ReadLinesFits(r: Reading, lines: seq<string>, lineNum: nat)
    requires r.cards.Fits() && r.cards.Total() <= DRAFT_CARDS
    ensures var t := ReadLines(r, lines, lineNum); t.Ok? ==> t.value.cards.Fits() && t.value.cards.Total() <= DRAFT_CARDS
    decreases |lines|
  {
    hide Strip, Lower;
    if lines == [] {
    } else {
      var t := ReadLine(r, lines[0], lineNum + 1);
      if t.Ok? { ReadLinesFits(t.value, lines[1..], lineNum + 1); }
    }
  }

  /** Every text that is accepted holds positive codes, at most 512 of them. */
  lemma AcceptedFits(content: string)
    ensures Parsed(content).Ok? ==> Parsed(content).value.Fits() && Parsed(content).value.Total() <= DRAFT_CARDS
  {
    hide ReadLines, Lines;
    var text := if content != "" && content[0] == '\U{FEFF}' then content[1..] else content;
    ReadLinesFits(NOTHING, Lines(text), 0);
  }

  // ----- Reading undoes printing -----

  lemma {:induction false} LinesOfText(line: string, text: string, before: string)
    requires Unbroken(line)
    ensures LinesFrom(line + "\n" + text, before) == [before + line] + LinesFrom(text, "")
    decreases |line|
  {
    var s := line + "\n" + text;
    if line == "" {
      assert s[1..] == text && before + line == before;
      assert s[0] == '\n';
    } else {
      assert line[0] in line;
      assert s[1..] == line[1..] + "\n" + text;
      LinesOfText(line[1..], text, before + [line[0]]);
      assert before + [line[0]] + line[1..] == before + line;
    }
  }

  lemma {:induction false} LinesOfJoined(lines: seq<string>, text: string)
    requires forall l <- lines :: Unbroken(l)
    ensures Lines(Joined(lines) + text) == lines + Lines(text)
    decreases |lines|
  {
    if lines == [] {
      assert Joined(lines) + text == text;
    } else {
      var n := |lines| - 1;
      var rest := lines[n] + "\n" + text;
      assert lines[n] in lines;
      LinesOfJoined(lines[..n], rest);
      assert Joined(lines) + text == Joined(lines[..n]) + rest;
      LinesOfText(lines[n], text, "");
      assert [""] + [lines[n]] == ["", lines[n]] && "" + lines[n] == lines[n];
      assert lines == lines[..n] + [lines[n]];
    }
  }

  lemma {:induction false} DecimalIsDigits(n: nat)
    ensures Decimal(n) != "" && forall c <- Decimal(n) :: IsDigit(c)
    ensures DigitsValue(Decimal(n)) == n
  {
    if n >= 10 {
      DecimalIsDigits(n / 10);
      assert Decimal(n)[..|Decimal(n)| - 1] == Decimal(n / 10);
    } else {
      assert Decimal(n)[..0] == "";
    }
  }

  lemma CodeLineRead(r: Reading, code: int, lineNum: nat)
    requires 0 < code <= INT_MAX && r.section != NONE
    ensures ReadLine(r, Decimal(code), lineNum) ==
              if Add(r, code).cards.Total() > DRAFT_CARDS then Err(TooManyCards, lineNum) else Ok(Add(r, code))
  {
    var s := Decimal(code);
    DecimalIsDigits(code);
    assert s[0] in s && s[|s| - 1] in s;
    assert StripFront(s) == s && StripBack(s) == s;
    assert "!side"[0] == '!';
  }

  /** The reading after all these codes, if there is room for them. */
  function AddAll(r: Reading, codes: seq<int>): Reading
    requires r.section != NONE
  {
    match r.section
    case MAIN => r.(cards := r.cards.(main := r.cards.main + codes))
    case EXTRA => r.(cards := r.cards.(extra := r.cards.extra + codes))
    case SIDE => r.(cards := r.cards.(side := r.cards.side + codes))
  }

  lemma AddOneMore(r: Reading, codes: seq<int>)
    requires r.section != NONE && codes != []
    ensures AddAll(Add(r, codes[0]), codes[1..]) == AddAll(r, codes)
  {
    assert forall xs: seq<int> :: xs + [codes[0]] + codes[1..] == xs + codes;
  }

  lemma AddNone(r: Reading)
    requires r.section != NONE
    ensures AddAll(r, []) == r
  {
    assert forall xs: seq<int> :: xs + [] == xs;
  }

  /** Printed codes are read back in order, up to the card that is one too many. */
  lemma {:induction false} ReadCodeLines(r: Reading, codes: seq<int>, lineNum: nat)
    requires r.section != NONE && r.cards.Total() <= DRAFT_CARDS && forall c <- codes :: 0 < c <= INT_MAX
    ensures var t := ReadLines(r, CodeLines(codes), lineNum);
            if r.cards.Total() + |codes| <= DRAFT_CARDS then t == Ok(AddAll(r, codes)) else t.Err? && t.problem == TooManyCards
    decreases |codes|
  {
    hide ReadLine, AddAll;
    if codes == [] {
      AddNone(r);
    } else {
      assert codes[0] in codes && forall c <- codes[1..] :: c in codes;
      assert CodeLines(codes)[1..] == CodeLines(codes[1..]);
      CodeLineRead(r, codes[0], lineNum + 1);
      if r.cards.Total() < DRAFT_CARDS {
        AddOneMore(r, codes);
        ReadCodeLines(Add(r, codes[0]), codes[1..], lineNum + 1);
      }
    }
  }

  lemma {:induction false} ReadConcat(r: Reading, a: seq<string>, b: seq<string>, lineNum: nat)
    ensures var t := ReadLines(r, a, lineNum);
            ReadLines(r, a + b, lineNum) == if t.Ok? then ReadLines(t.value, b, lineNum + |a|) else t
    decreases |a|
  {
    hide ReadLine;
    if a == [] {
      assert a + b == b;
    } else {
      assert (a + b)[1..] == a[1..] + b;
      var t := ReadLine(r, a[0], lineNum + 1);
      if t.Ok? { ReadConcat(t.value, a[1..], b, lineNum + 1); }
    }
  }

  /** A header and the codes under it. */
  lemma ReadSection(r: Reading, header: string, t: Reading, codes: seq<int>, lineNum: nat)
    requires ReadLine(r, header, lineNum + 1) == Ok(t) && t.section != NONE && t.cards.Total() <= DRAFT_CARDS
    requires forall c <- codes :: 0 < c <= INT_MAX
    ensures var u := ReadLines(r, [header] + CodeLines(codes), lineNum);
            if t.cards.Total() + |codes| <= DRAFT_CARDS then u == Ok(AddAll(t, codes)) else u.Err? && u.problem == TooManyCards
  {
    hide ReadLine, CodeLines, AddAll;
    assert ([header] + CodeLines(codes))[1..] == CodeLines(codes);
    ReadCodeLines(t, codes, lineNum + 1);
  }

  lemma HeadersRead(r: Reading, lineNum: nat)
    ensures ReadLine(r, "#created by Duelcraft", lineNum) == Ok(r)
    ensures ReadLine(r, "#main", lineNum) == Ok(r.(section := MAIN, sawMain := true))
    ensures ReadLine(r, "#extra", lineNum) == Ok(r.(section := EXTRA))
    ensures ReadLine(r, "!side", lineNum) == Ok(r.(section := SIDE))
    ensures ReadLine(r, "", lineNum) == Ok(r)
  {
    HeaderAsIs("#created by Duelcraft");
    HeaderAsIs("#main");
    HeaderAsIs("#extra");
    HeaderAsIs("!side");
    assert Lower("#created by Duelcraft")[1] == 'c' && Lower("#main")[1] == 'm' && Lower("#extra")[1] == 'e';
    assert |Lower("#created by Duelcraft")| == 21;
    assert Lower("#main") == "#main";
    assert Lower("#extra") == "#extra";
  }

  lemma HeaderAsIs(s: string)
    requires s != "" && !Blank(s[0]) && !Blank(s[|s| - 1])
    ensures Strip(s) == s
  {
  }

  /** Reading what was printed gives the list back if it has at most 512 cards, and is refused if it has more. */
  lemma PrintedIsReadBack(d: DeckList)
    requires d.Fits()
    ensures var r := Parsed(Joined(YdkLines(d)));
            if d.Total() <= DRAFT_CARDS then r == Ok(d) else r.Err? && r.problem == TooManyCards
  {
    hide ReadLines, ReadLine, Lines, Joined, CodeLines;
    var text := Joined(YdkLines(d));
    PrintedLines(d);
    PrintedIsRead(d);
    ReadConcat(NOTHING, YdkLines(d), [""], 0);
    if d.Total() <= DRAFT_CARDS { LastLine(Reading(SIDE, true, d), |YdkLines(d)|); }
  }

  lemma LastLine(r: Reading, lineNum: nat)
    ensures ReadLines(r, [""], lineNum) == Ok(r)
  {
    HeadersRead(r, lineNum + 1);
    assert [""][1..] == [];
  }

  /** The text is its lines and an empty one, and does not start with a byte order mark. */
  lemma PrintedLines(d: DeckList)
    requires d.Fits()
    ensures var text := Joined(YdkLines(d));
            text != "" && text[0] != '\U{FEFF}' && Lines(text) == YdkLines(d) + [""]
  {
    var lines, text := YdkLines(d), Joined(YdkLines(d));
    forall l <- lines ensures Unbroken(l) { LineUnbroken(d, l); }
    LinesOfJoined(lines, "");
    assert text + "" == text;
    assert Lines("") == [""];
    FirstLine(lines);
  }

  lemma {:induction false} FirstLine(lines: seq<string>)
    requires lines != [] && lines[0] != ""
    ensures Joined(lines) != "" && Joined(lines)[0] == lines[0][0]
    decreases |lines|
  {
    if |lines| > 1 {
      FirstLine(lines[..|lines| - 1]);
    } else {
      assert Joined(lines[..0]) == "";
    }
  }

  lemma LineUnbroken(d: DeckList, l: string)
    requires d.Fits() && l in YdkLines(d)
    ensures Unbroken(l)
  {
    if l in CodeLines(d.main) {
      CodeUnbroken(d.main, l);
    } else if l in CodeLines(d.extra) {
      CodeUnbroken(d.extra, l);
    } else if l in CodeLines(d.side) {
      CodeUnbroken(d.side, l);
    }
  }

  lemma CodeUnbroken(codes: seq<int>, l: string)
    requires (forall c <- codes :: c > 0) && l in CodeLines(codes)
    ensures Unbroken(l)
  {
    var i :| 0 <= i < |codes| && CodeLines(codes)[i] == l;
    assert codes[i] in codes;
    DecimalIsDigits(codes[i]);
  }

  lemma PrintedIsRead(d: DeckList)
    requires d.Fits()
    ensures var r := ReadLines(NOTHING, YdkLines(d), 0);
            if d.Total() <= DRAFT_CARDS then r == Ok(Reading(SIDE, true, d)) else r.Err? && r.problem == TooManyCards
  {
    hide ReadLines, ReadLine, CodeLines;
    var m := ["#main"] + CodeLines(d.main);
    var e := ["#extra"] + CodeLines(d.extra);
    var s := ["!side"] + CodeLines(d.side);
    assert YdkLines(d) == ["#created by Duelcraft"] + (m + (e + s));
    CommentRead();
    ReadConcat(NOTHING, ["#created by Duelcraft"], m + (e + s), 0);
    ReadConcat(NOTHING, m, e + s, 1);
    HeadersRead(NOTHING, 2);
    ReadSection(NOTHING, "#main", Reading(MAIN, true, NOTHING.cards), d.main, 1);
    if |d.main| <= DRAFT_CARDS {
      var afterMain := Reading(MAIN, true, DeckList(d.main, [], []));
      assert [] + d.main == d.main;
      var n := 1 + |m|;
      ReadConcat(afterMain, e, s, n);
      HeadersRead(afterMain, n + 1);
      ReadSection(afterMain, "#extra", afterMain.(section := EXTRA), d.extra, n);
      if |d.main| + |d.extra| <= DRAFT_CARDS {
        var afterExtra := Reading(EXTRA, true, DeckList(d.main, d.extra, []));
        assert [] + d.extra == d.extra && [] + d.side == d.side;
        HeadersRead(afterExtra, n + |e| + 1);
        ReadSection(afterExtra, "!side", afterExtra.(section := SIDE), d.side, n + |e|);
      }
    }
  }

  lemma CommentRead()
    ensures ReadLines(NOTHING, ["#created by Duelcraft"], 0) == Ok(NOTHING)
  {
    HeadersRead(NOTHING, 1);
    assert ["#created by Duelcraft"][1..] == [];
  }

  /** Whatever text was accepted, printing what it holds and reading that gives the same list. */
  lemma AcceptedIsStable(content: string)
    requires Parsed(content).Ok?
    ensures Parsed(content).value.Fits() && Parsed(Joined(YdkLines(Parsed(content).value))) == Parsed(content)
  {
    AcceptedFits(content);
    PrintedIsReadBack(Parsed(content).value);
  }

  // ----- Which lines of a text end up in which list -----

  /** The section header a line is, in lower case, or nothing. */
  function HeaderOf(line: string): string {
    var s := Strip(line);
    if Lower(s) in {"#main", "#extra"} then Lower(s) else if s == "!side" then s else ""
  }

  /** The last section header among these lines, or nothing. */
  function NearestHeader(lines: seq<string>): string {
    if lines == [] then ""
    else if HeaderOf(lines[|lines| - 1]) != "" then HeaderOf(lines[|lines| - 1])
    else NearestHeader(lines[..|lines| - 1])
  }

  /** Neither blank, nor a comment, nor a header. */
  predicate IsCard(line: string) {
    var s := Strip(line);
    s != "" && s[0] != '#' && s != "!side"
  }

  /** The number on a line, zero where there is none. */
  function CodeOn(line: string): int { match ParseInt(Strip(line)) case Some(code) => code case None => 0 }

  /** The codes on the card lines whose nearest header above is this one, in order. */
  function CodesUnder(lines: seq<string>, header: string): seq<int> {
    if lines == [] then []
    else
      var above, line := lines[..|lines| - 1], lines[|lines| - 1];
      CodesUnder(above, header) + if IsCard(line) && NearestHeader(above) == header then [CodeOn(line)] else []
  }

  function Listed(lines: seq<string>): DeckList {
    DeckList(CodesUnder(lines, "#main"), CodesUnder(lines, "#extra"), CodesUnder(lines, "!side"))
  }

  predicate HasMain(lines: seq<string>) { exists line <- lines :: HeaderOf(line) == "#main" }

  /** What is wrong with the line below these, if anything. */
  function Fault(above: seq<string>, line: string): Option<Problem> {
    if !IsCard(line) then None
    else if ParseInt(Strip(line)).None? then Some(NotANumber)
    else if CodeOn(line) <= 0 then Some(NotPositive)
    else if NearestHeader(above) == "" then Some(BeforeSection)
    else if Listed(above + [line]).Total() > DRAFT_CARDS then Some(TooManyCards)
    else None
  }

  predicate Faultless(lines: seq<string>) { forall i :: 0 <= i < |lines| ==> Fault(lines[..i], lines[i]).None? }

  function SectionOf(header: string): Section {
    if header == "#main" then MAIN else if header == "#extra" then EXTRA else if header == "!side" then SIDE else NONE
  }

  /** What has been read is what these lines say. */
  predicate Tells(r: Reading, lines: seq<string>) {
    r.section == SectionOf(NearestHeader(lines)) && r.sawMain == HasMain(lines) && r.cards == Listed(lines)
  }

  lemma {:induction false} HeaderKinds(lines: seq<string>)
    ensures NearestHeader(lines) in {"", "#main", "#extra", "!side"}
  {
    hide Strip, Lower;
    if lines == [] {
    } else {
      HeaderKinds(lines[..|lines| - 1]);
    }
  }

  lemma LowerKeepsMark(s: string)
    requires s != ""
    ensures |Lower(s)| == |s| && (Lower(s)[0] == '#' <==> s[0] == '#') && ("!side" == s ==> Lower(s)[0] == '!')
  {
  }

  /** One line more under these. */
  lemma OneLineMore(lines: seq<string>, line: string)
    ensures NearestHeader(lines + [line]) == if HeaderOf(line) != "" then HeaderOf(line) else NearestHeader(lines)
    ensures HasMain(lines + [line]) <==> HasMain(lines) || HeaderOf(line) == "#main"
    ensures forall header :: CodesUnder(lines + [line], header) ==
                               CodesUnder(lines, header) + if IsCard(line) && NearestHeader(lines) == header then [CodeOn(line)] else []
  {
    hide HeaderOf, IsCard;
    assert (lines + [line])[..|lines|] == lines;
    MainBelow(lines, line);
  }

  lemma MainBelow(lines: seq<string>, line: string)
    ensures HasMain(lines + [line]) <==> HasMain(lines) || HeaderOf(line) == "#main"
  {
    hide HeaderOf;
    assert line in lines + [line];
    assert forall l <- lines :: l in lines + [line];
  }

  lemma NoCodeMore(lines: seq<string>, line: string)
    requires !IsCard(line)
    ensures Listed(lines + [line]) == Listed(lines)
  {
    hide IsCard, CodesUnder;
    OneLineMore(lines, line);
    assert forall xs: seq<int> :: xs + [] == xs;
  }

  lemma KindOfLine(line: string)
    ensures HeaderOf(line) in {"", "#main", "#extra", "!side"} && (HeaderOf(line) == "!side" <==> Strip(line) == "!side")
    ensures HeaderOf(line) in {"#main", "#extra"} ==> Strip(line) != "" && Strip(line)[0] == '#' && HeaderOf(line) == Lower(Strip(line))
    ensures HeaderOf(line) == "" ==> Lower(Strip(line)) !in {"#main", "#extra"}
    ensures HeaderOf(line) != "" ==> !IsCard(line)
  {
    hide Strip, Lower;
    var s := Strip(line);
    if s != "" { LowerKeepsMark(s); } else { LowerNothing(); }
  }

  lemma LowerNothing()
    ensures Lower("") == ""
  {
  }

  lemma LineTells(r: Reading, above: seq<string>, line: string, lineNum: nat)
    requires Tells(r, above)
    ensures LineToldRight(ReadLine(r, line, lineNum), above, line, lineNum)
  {
    hide LineToldRight;
    if HeaderOf(line) != "" {
      HeaderTells(r, above, line, lineNum);
    } else if !IsCard(line) {
      NothingTells(r, above, line, lineNum);
    } else {
      CardTells(r, above, line, lineNum);
    }
  }

  /** Reading a line refuses it exactly if something is wrong with it. */
  predicate LineToldRight(result: Result<Reading>, above: seq<string>, line: string, lineNum: nat) {
    match result
    case Ok(t) => Fault(above, line) == None && Tells(t, above + [line])
    case Err(problem, n) => Fault(above, line) == Some(problem) && n == lineNum
  }

  lemma HeaderTells(r: Reading, above: seq<string>, line: string, lineNum: nat)
    requires Tells(r, above) && HeaderOf(line) != ""
    ensures LineToldRight(ReadLine(r, line, lineNum), above, line, lineNum)
  {
    hide Strip, Lower, HeaderOf, IsCard, ParseInt, NearestHeader, Listed, HasMain;
    KindOfLine(line);
    OneLineMore(above, line);
    NoCodeMore(above, line);
  }

  lemma NothingTells(r: Reading, above: seq<string>, line: string, lineNum: nat)
    requires Tells(r, above) && HeaderOf(line) == "" && !IsCard(line)
    ensures LineToldRight(ReadLine(r, line, lineNum), above, line, lineNum)
  {
    hide Strip, Lower, HeaderOf, ParseInt, NearestHeader, Listed, HasMain;
    KindOfLine(line);
    OneLineMore(above, line);
    NoCodeMore(above, line);
  }

  lemma CardTells(r: Reading, above: seq<string>, line: string, lineNum: nat)
    requires Tells(r, above) && HeaderOf(line) == "" && IsCard(line)
    ensures LineToldRight(ReadLine(r, line, lineNum), above, line, lineNum)
  {
    hide Strip, Lower, HeaderOf, ParseInt, NearestHeader, CodesUnder, HasMain;
    OneLineMore(above, line);
    HeaderKinds(above);
    assert forall xs: seq<int> :: xs + [] == xs;
  }

  // ----- Whole texts -----

  /** The lines up to the first that is refused, if any. */
  lemma {:induction false} LinesTell(lines: seq<string>)
    ensures match ReadLines(NOTHING, lines, 0)
            case Ok(t) => Faultless(lines) && Tells(t, lines)
            case Err(problem, n) => 0 < n <= |lines| && Faultless(lines[..n - 1]) && Fault(lines[..n - 1], lines[n - 1]) == Some(problem)
    decreases |lines|
  {
    hide ReadLine, Fault, Tells;
    if lines == [] {
      NothingTold();
    } else {
      var k := |lines| - 1;
      LinesTell(lines[..k]);
      assert lines == lines[..k] + [lines[k]];
      ReadConcat(NOTHING, lines[..k], [lines[k]], 0);
      var t := ReadLines(NOTHING, lines[..k], 0);
      if t.Ok? {
        LineTells(t.value, lines[..k], lines[k], k + 1);
        OneLineRead(t.value, lines[k], k);
        FaultlessSnoc(lines);
      } else {
        assert lines[..k][..t.line - 1] == lines[..t.line - 1];
      }
    }
  }

  lemma NothingTold()
    ensures Tells(NOTHING, [])
  {
  }

  lemma OneLineRead(r: Reading, line: string, lineNum: nat)
    ensures ReadLines(r, [line], lineNum) == ReadLine(r, line, lineNum + 1)
  {
    hide ReadLine;
    assert [line][1..] == [];
  }

  lemma FaultlessSnoc(lines: seq<string>)
    requires lines != []
    ensures var k := |lines| - 1; Faultless(lines) <==> Faultless(lines[..k]) && Fault(lines[..k], lines[k]).None?
  {
    hide Fault;
    assert forall i :: 0 <= i < |lines| - 1 ==> lines[..|lines| - 1][..i] == lines[..i];
  }

  /**
   A text is accepted exactly if nothing is wrong with any of its lines and one of them opens the main deck, and then every
   list holds the codes under its header. Otherwise the first line with a fault is named, or the last one.
   */
  lemma AcceptedExactly(content: string)
    ensures var lines := Lines(if content != "" && content[0] == '\U{FEFF}' then content[1..] else content);
            match Parsed(content)
            case Ok(cards) =>
              && Faultless(lines) && HasMain(lines) && cards.main == CodesUnder(lines, "#main")
              && cards.extra == CodesUnder(lines, "#extra") && cards.side == CodesUnder(lines, "!side")
            case Err(problem, n) =>
              && 0 < n <= |lines| && Faultless(lines[..n - 1])
              && if problem == MissingMain then n == |lines| && Faultless(lines) && !HasMain(lines)
                 else Fault(lines[..n - 1], lines[n - 1]) == Some(problem)
  {
    hide ReadLines, Lines, Fault;
    var lines := Lines(if content != "" && content[0] == '\U{FEFF}' then content[1..] else content);
    LinesTell(lines);
    if Faultless(lines) { FaultlessSnoc(lines); }
    forall above, line ensures Fault(above, line) != Some(MissingMain) { NeverMissing(above, line); }
  }

  lemma NeverMissing(above: seq<string>, line: string)
    ensures Fault(above, line) != Some(MissingMain)
  {
    hide ParseInt, Strip;
  }

  lemma CodeLineIs(code: int)
    requires 0 < code <= INT_MAX
    ensures var line := Decimal(code); IsCard(line) && HeaderOf(line) == "" && CodeOn(line) == code
  {
    hide Lower;
    var s := Decimal(code);
    DecimalIsDigits(code);
    assert s[0] in s && s[|s| - 1] in s;
    assert StripFront(s) == s && StripBack(s) == s;
    assert "!side"[0] == '!';
    LowerKeepsMark(s);
  }

  lemma {:induction false} CodesBelow(lines: seq<string>, codes: seq<int>, header: string)
    requires forall c <- codes :: 0 < c <= INT_MAX
    ensures NearestHeader(lines + CodeLines(codes)) == NearestHeader(lines)
    ensures CodesUnder(lines + CodeLines(codes), header) ==
              CodesUnder(lines, header) + if NearestHeader(lines) == header then codes else []
    decreases |codes|
  {
    hide NearestHeader, CodesUnder, IsCard, HeaderOf, CodeOn;
    if codes == [] {
      assert lines + CodeLines(codes) == lines;
    } else {
      var k := |codes| - 1;
      assert forall c <- codes[..k] :: c in codes;
      var before := lines + CodeLines(codes[..k]);
      assert codes[k] in codes && codes == codes[..k] + [codes[k]];
      assert lines + CodeLines(codes) == before + [Decimal(codes[k])];
      CodesBelow(lines, codes[..k], header);
      CodeLineIs(codes[k]);
      OneLineMore(before, Decimal(codes[k]));
    }
  }

  lemma HeaderBelow(lines: seq<string>, line: string, header: string)
    requires HeaderOf(line) == header != ""
    ensures NearestHeader(lines + [line]) == header
    ensures forall h :: CodesUnder(lines + [line], h) == CodesUnder(lines, h)
  {
    hide NearestHeader, CodesUnder, IsCard, HeaderOf, CodeOn;
    OneLineMore(lines, line);
    KindOfLine(line);
  }

  lemma HeadersAsPrinted()
    ensures HeaderOf("#created by Duelcraft") == "" && !IsCard("#created by Duelcraft") && HeaderOf("") == "" && !IsCard("")
    ensures HeaderOf("#main") == "#main" && HeaderOf("#extra") == "#extra" && HeaderOf("!side") == "!side"
  {
    HeaderAsIs("#created by Duelcraft");
    HeaderAsIs("#main");
    HeaderAsIs("#extra");
    HeaderAsIs("!side");
    assert Lower("#created by Duelcraft")[1] == 'c' && Lower("!side")[0] == '!';
    assert Lower("#main") == "#main" && Lower("#extra") == "#extra";
  }

  /** A printed list, whatever its size, has every code under the header of its list. */
  lemma PrintedSays(d: DeckList)
    requires d.Fits()
    ensures Listed(Lines(Joined(YdkLines(d)))) == d
  {
    hide Lines, Joined, CodesUnder, NearestHeader, HeaderOf, IsCard, CodeLines;
    PrintedLines(d);
    HeadersAsPrinted();
    var start := ["#created by Duelcraft"];
    var m := start + ["#main"] + CodeLines(d.main);
    var e := m + ["#extra"] + CodeLines(d.extra);
    var s := e + ["!side"] + CodeLines(d.side);
    assert YdkLines(d) == s;
    StartSays();
    HeaderBelow(start, "#main", "#main");
    HeaderBelow(m, "#extra", "#extra");
    HeaderBelow(e, "!side", "!side");
    forall header ensures CodesUnder(s, header) ==
      if header == "#main" then d.main else if header == "#extra" then d.extra else if header == "!side" then d.side else []
    {
      CodesBelow(start + ["#main"], d.main, header);
      CodesBelow(m + ["#extra"], d.extra, header);
      CodesBelow(e + ["!side"], d.side, header);
    }
    NoCodeMore(s, "");
  }

  lemma StartSays()
    ensures forall header :: CodesUnder(["#created by Duelcraft"], header) == []
  {
    hide IsCard;
    HeadersAsPrinted();
    assert ["#created by Duelcraft"][..0] == [];
  }
}
