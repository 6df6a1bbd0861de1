/**
 `server/PreparationWire.java`: preparation requests and states as bytes. What each writer appends is said as a
 function, what each reader takes off the front as another, and the two are proved to undo each other.
 */
module PreparationWire {
  import opened Wrappers
  import opened P = Preparation

  type Byte = b: int | 0 <= b < 0x100
  type Bytes = seq<Byte>

  const MAX_BYTES := 24 * 1024
  const INT_MODULUS := 0x1_0000_0000
  const UUID_MODULUS := 0x1_0000_0000_0000_0000_0000_0000_0000_0000

  /** What a reader took off the front, and what is left; none if it threw. */
  datatype Taken<+T> = Taken(value: T, rest: Bytes)

  function Wrap(value: int, modulus: int): int
    requires modulus > 0
  {
    var low := value % modulus;
    if low >= modulus / 2 then low - modulus else low
  }

  // ----- Fixed-width numbers -----

  /** `n` bytes, most significant first. */
  function BigEndian(value: nat, n: nat): (r: Bytes)
    ensures |r| == n
  {
    if n == 0 then [] else BigEndian(value / 0x100, n - 1) + [value % 0x100]
  }

  function FromBigEndian(s: Bytes): nat {
    if s == [] then 0 else FromBigEndian(s[..|s| - 1]) * 0x100 + s[|s| - 1]
  }

  function Power(n: nat): nat { if n == 0 then 1 else 0x100 * Power(n - 1) }

  lemma {:induction false} BigEndianRead(value: nat, n: nat)
    requires value < Power(n)
    ensures FromBigEndian(BigEndian(value, n)) == value
  {
    if n == 0 {
    } else {
      BigEndianRead(value / 0x100, n - 1);
      assert BigEndian(value, n)[..n - 1] == BigEndian(value / 0x100, n - 1);
    }
  }

  function TakeFixed(s: Bytes, n: nat): Option<Taken<nat>> {
    if |s| < n then None else Some(Taken(FromBigEndian(s[..n]), s[n..]))
  }

  lemma FixedTaken(value: nat, n: nat, rest: Bytes)
    requires value < Power(n)
    ensures TakeFixed(BigEndian(value, n) + rest, n) == Some(Taken(value, rest))
  {
    BigEndianRead(value, n);
    var s := BigEndian(value, n) + rest;
    assert s[..n] == BigEndian(value, n) && s[n..] == rest;
  }

  lemma Powers()
    ensures Power(1) == 0x100 && Power(8) == LONG_MODULUS && Power(16) == UUID_MODULUS
  {
    assert Power(4) == 0x1_0000_0000;
    assert Power(8) == 0x100 * 0x100 * 0x100 * 0x100 * Power(4);
    assert Power(12) == 0x100 * 0x100 * 0x100 * 0x100 * Power(8);
    assert Power(16) == 0x100 * 0x100 * 0x100 * 0x100 * Power(12);
  }

  function LongBytes(v: int): Bytes { BigEndian(v % LONG_MODULUS, 8) }

  function TakeLong(s: Bytes): Option<Taken<int>> {
    var t :- TakeFixed(s, 8);
    Some(Taken(Wrap(t.value, LONG_MODULUS), t.rest))
  }

  predicate IsLong(v: int) { -(LONG_MODULUS / 2) <= v < LONG_MODULUS / 2 }

  lemma LongTaken(v: int, rest: Bytes)
    requires IsLong(v)
    ensures TakeLong(LongBytes(v) + rest) == Some(Taken(v, rest))
  {
    Powers();
    FixedTaken(v % LONG_MODULUS, 8, rest);
  }

  // ----- Booleans, tags and optional values -----

  function BoolBytes(b: bool): Bytes { [if b then 1 else 0] }

  function TakeBool(s: Bytes): Option<Taken<bool>> { if s == [] then None else Some(Taken(s[0] != 0, s[1..])) }

  function TakeByte(s: Bytes): Option<Taken<Byte>> { if s == [] then None else Some(Taken(s[0], s[1..])) }

  lemma OneTaken(b: Byte, rest: Bytes)
    ensures TakeByte([b] + rest) == Some(Taken(b, rest)) && TakeBool([b] + rest) == Some(Taken(b != 0, rest))
  {
    assert ([b] + rest)[1..] == rest;
  }

  function UuidBytes(id: Uid): Bytes { BigEndian(id, 16) }

  function TakeUuid(s: Bytes): Option<Taken<Uid>> { TakeFixed(s, 16) }

  predicate IsUuid(id: Uid) { id < UUID_MODULUS }

  lemma UuidTaken(id: Uid, rest: Bytes)
    requires IsUuid(id)
    ensures TakeUuid(UuidBytes(id) + rest) == Some(Taken(id, rest))
  {
    Powers();
    FixedTaken(id, 16, rest);
  }

  function OptionalIdBytes(id: Option<Uid>): Bytes {
    if id.None? then BoolBytes(false) else BoolBytes(true) + UuidBytes(id.value)
  }

  function TakeOptionalId(s: Bytes): Option<Taken<Option<Uid>>> {
    var present :- TakeBool(s);
    if !present.value then Some(Taken(None, present.rest))
    else
      var id :- TakeUuid(present.rest);
      Some(Taken(Some(id.value), id.rest))
  }

  predicate IsOptionalUuid(id: Option<Uid>) { id.Some? ==> IsUuid(id.value) }

  lemma OptionalIdTaken(id: Option<Uid>, rest: Bytes)
    requires IsOptionalUuid(id)
    ensures TakeOptionalId(OptionalIdBytes(id) + rest) == Some(Taken(id, rest))
  {
    hide TakeUuid, UuidBytes;
    if id.None? {
      OneTaken(0, rest);
    } else {
      OneTaken(1, UuidBytes(id.value) + rest);
      assert OptionalIdBytes(id) + rest == [1] + (UuidBytes(id.value) + rest);
      UuidTaken(id.value, rest);
    }
  }

  // ----- Base-128 numbers -----

  function VarBytes(v: nat): Bytes {
    if v < 0x80 then [v] else [v % 0x80 + 0x80] + VarBytes(v / 0x80)
  }

  /** Up to `groups` groups of seven bits, lowest first. */
  function TakeGroups(s: Bytes, groups: nat): Option<Taken<nat>> {
    if groups == 0 || s == [] then None
    else if s[0] < 0x80 then Some(Taken(s[0], s[1..]))
    else
      var low: int := s[0];
      var t :- TakeGroups(s[1..], groups - 1);
      Some(Taken(low - 0x80 + 0x80 * t.value, t.rest))
  }

  function TakeVarInt(s: Bytes): Option<Taken<int>> {
    var t :- TakeGroups(s, 5);
    Some(Taken(Wrap(t.value, INT_MODULUS), t.rest))
  }

  function TakeVarLong(s: Bytes): Option<Taken<int>> {
    var t :- TakeGroups(s, 10);
    Some(Taken(Wrap(t.value, LONG_MODULUS), t.rest))
  }

  function Power128(n: nat): nat { if n == 0 then 1 else 0x80 * Power128(n - 1) }

  lemma {:induction false} GroupsTaken(v: nat, groups: nat, rest: Bytes)
    requires groups > 0 && v < Power128(groups)
    ensures TakeGroups(VarBytes(v) + rest, groups) == Some(Taken(v, rest)) && |VarBytes(v)| <= groups
    decreases groups
  {
    var s := VarBytes(v) + rest;
    if v < 0x80 {
      assert s[1..] == rest;
    } else {
      assert s[1..] == VarBytes(v / 0x80) + rest;
      assert v / 0x80 < Power128(groups - 1);
      GroupsTaken(v / 0x80, groups - 1, rest);
    }
  }

  lemma Powers128()
    ensures Power128(5) == 0x8_0000_0000 && Power128(10) == 0x40_0000_0000_0000_0000
  {
    assert Power128(3) == 0x20_0000;
    assert Power128(5) == 0x80 * 0x80 * Power128(3);
    assert Power128(7) == 0x80 * 0x80 * Power128(5);
    assert Power128(9) == 0x80 * 0x80 * Power128(7);
  }

  lemma VarIntTaken(v: nat, rest: Bytes)
    requires v < INT_MODULUS / 2
    ensures TakeVarInt(VarBytes(v) + rest) == Some(Taken(v, rest)) && |VarBytes(v)| <= 5
  {
    hide TakeGroups, VarBytes, Power128;
    Powers128();
    GroupsTaken(v, 5, rest);
  }

  lemma VarLongTaken(v: nat, rest: Bytes)
    requires v < LONG_MODULUS / 2
    ensures TakeVarLong(VarBytes(v) + rest) == Some(Taken(v, rest)) && |VarBytes(v)| <= 10
  {
    hide TakeGroups, VarBytes, Power128;
    Powers128();
    GroupsTaken(v, 10, rest);
  }

  // ----- Text -----

  /** UTF-8 of one character, six bits at a time. */
  function CharBytes(c: char): Bytes {
    var u := c as int;
    var v := u / 0x40;
    var w := v / 0x40;
    if u < 0x80 then [u]
    else if u < 0x800 then [0xC0 + v, 0x80 + u % 0x40]
    else if u < 0x1_0000 then [0xE0 + w, 0x80 + v % 0x40, 0x80 + u % 0x40]
    else [0xF0 + w / 0x40, 0x80 + w % 0x40, 0x80 + v % 0x40, 0x80 + u % 0x40]
  }

  function TextBytes(text: string): Bytes { if text == "" then [] else CharBytes(text[0]) + TextBytes(text[1..]) }

  /** How many UTF-16 units a character has. */
  function Units(c: char): nat { if c as int < 0x1_0000 then 1 else 2 }

  function JavaLength(text: string): nat { if text == "" then 0 else Units(text[0]) + JavaLength(text[1..]) }

  /** The character with this code, if there is one. */
  function CharAt(u: int): Option<char> {
    if 0 <= u < 0xD800 || 0xE000 <= u < 0x11_0000 then Some(u as char) else None
  }

  /** How many bytes a character takes that starts with this one. */
  function Width(lead: Byte): nat { if lead < 0x80 then 1 else if lead < 0xE0 then 2 else if lead < 0xF0 then 3 else 4 }

  function Low(b: Byte): int { b % 0x40 }

  function CodeOf(s: Bytes, n: nat): int
    requires 1 <= n <= 4 && n <= |s|
  {
    var lead: int := s[0];
    match n
    case 1 => lead
    case 2 => (lead - 0xC0) * 0x40 + Low(s[1])
    case 3 => ((lead - 0xE0) * 0x40 + Low(s[1])) * 0x40 + Low(s[2])
    case _ => (((lead - 0xF0) * 0x40 + Low(s[1])) * 0x40 + Low(s[2])) * 0x40 + Low(s[3])
  }

  /** The first character of well-formed text and the bytes it takes. */
  function FirstChar(s: Bytes): Option<(char, nat)>
    requires s != []
    ensures FirstChar(s).Some? ==> 1 <= FirstChar(s).value.1 <= |s|
  {
    var n := Width(s[0]);
    if |s| < n then None
    else
      match CharAt(CodeOf(s, n))
      case None => None
      case Some(c) => if CharBytes(c) == s[..n] then Some((c, n)) else None
  }

  /** Well-formed UTF-8; of anything else nothing is said. */
  function FromText(s: Bytes): Option<string>
    decreases |s|
  {
    if s == [] then Some("")
    else
      match FirstChar(s)
      case None => None
      case Some((c, n)) =>
        match FromText(s[n..])
        case None => None
        case Some(text) => Some([c] + text)
  }

  lemma CodeOfChar(c: char)
    ensures 1 <= |CharBytes(c)| <= 4 && Width(CharBytes(c)[0]) == |CharBytes(c)| && CodeOf(CharBytes(c), |CharBytes(c)|) == c as int
  {
    var u := c as int;
    SixBits(u);
    SixBits(u / 0x40);
    SixBits(u / 0x40 / 0x40);
    if u < 0x80 {
    } else if u < 0x800 {
    } else if u < 0x1_0000 {
    } else {
      assert (u / 0x40 / 0x40 / 0x40) * 0x40 + u / 0x40 / 0x40 % 0x40 == u / 0x40 / 0x40;
    }
  }

  /** A number is its low six bits and the rest. */
  lemma SixBits(u: nat)
    ensures u == u / 0x40 * 0x40 + u % 0x40 && (0x80 + u % 0x40) % 0x40 == u % 0x40
  {
  }

  lemma FirstCharTaken(c: char, rest: Bytes)
    ensures CharBytes(c) != [] && FirstChar(CharBytes(c) + rest) == Some((c, |CharBytes(c)|))
  {
    hide CharBytes, CodeOf, Width;
    var s, n := CharBytes(c) + rest, |CharBytes(c)|;
    CodeOfChar(c);
    CodeOfPrefix(CharBytes(c), rest);
    assert s[..n] == CharBytes(c);
    assert CharAt(c as int) == Some(c);
  }

  lemma CodeOfPrefix(s: Bytes, rest: Bytes)
    requires 1 <= |s| <= 4
    ensures CodeOf(s + rest, |s|) == CodeOf(s, |s|)
  {
  }

  lemma {:induction false} TextRead(text: string)
    ensures FromText(TextBytes(text)) == Some(text)
    ensures |TextBytes(text)| <= 3 * JavaLength(text)
  {
    hide FirstChar;
    if text == "" {
    } else {
      var s, n := TextBytes(text), |CharBytes(text[0])|;
      FirstCharTaken(text[0], TextBytes(text[1..]));
      assert s[n..] == TextBytes(text[1..]);
      TextRead(text[1..]);
      assert [text[0]] + text[1..] == text;
    }
  }

  function UtfBytes(text: string): Bytes { VarBytes(|TextBytes(text)|) + TextBytes(text) }

  function TakeUtf(s: Bytes, max: nat): Option<Taken<string>> {
    var length :- TakeVarInt(s);
    if length.value > 3 * max || length.value < 0 || length.value > |length.rest| then None
    else
      var text :- FromText(length.rest[..length.value]);
      if JavaLength(text) > max then None else Some(Taken(text, length.rest[length.value..]))
  }

  lemma UtfTaken(text: string, max: nat, rest: Bytes)
    requires JavaLength(text) <= max < 0x1_0000
    ensures TakeUtf(UtfBytes(text) + rest, max) == Some(Taken(text, rest))
    ensures |UtfBytes(text)| <= 5 + 3 * max
  {
    hide TextBytes, FromText, VarBytes, TakeVarInt;
    var t := TextBytes(text);
    TextRead(text);
    VarIntTaken(|t|, t + rest);
    assert UtfBytes(text) + rest == VarBytes(|t|) + (t + rest);
    assert (t + rest)[..|t|] == t && (t + rest)[|t|..] == rest;
  }

  // ----- Tags -----

  function TakeTag(s: Bytes, values: nat): Option<Taken<Byte>> {
    var tag :- TakeByte(s);
    if tag.value >= values then None else Some(tag)
  }

  lemma TagTaken(b: Byte, values: nat, rest: Bytes)
    requires b < values
    ensures TakeTag([b] + rest, values) == Some(Taken(b, rest))
  {
    OneTaken(b, rest);
  }

  const MODES: seq<Mode> := [IDLE, INVITED, RPS, FIRST_CHOICE, STARTING, DUEL]
  const CODES: seq<Code> := [OK, OFFLINE, BUSY, INELIGIBLE, STALE, INVALID, START_FAILED]
  const HANDS: seq<Hand> := [ROCK, PAPER, SCISSORS]

  function ModeTag(m: Mode): (b: Byte)
    ensures b < |MODES| && MODES[b] == m
  {
    match m case IDLE => 0 case INVITED => 1 case RPS => 2 case FIRST_CHOICE => 3 case STARTING => 4 case DUEL => 5
  }

  function CodeTag(c: Code): (b: Byte)
    ensures b < |CODES| && CODES[b] == c
  {
    match c case OK => 0 case OFFLINE => 1 case BUSY => 2 case INELIGIBLE => 3 case STALE => 4 case INVALID => 5 case START_FAILED => 6
  }

  function HandTag(h: Hand): (b: Byte)
    ensures b < |HANDS| && HANDS[b] == h
  {
    match h case ROCK => 0 case PAPER => 1 case SCISSORS => 2
  }

  // ----- Rules, options and settings -----

  const RULE_IDS: seq<string> := ["mr1", "goat", "mr2", "mr3", "mr4", "mr5", "speed", "rush"]

  /** What `equalsIgnoreCase` makes of a character, as far as the letters of rule ids go: the long s counts as an s. */
  function Fold(c: char): char { if 'A' <= c <= 'Z' then c - 'A' + 'a' else if c == '\U{017F}' then 's' else c }

  predicate SameLetters(a: string, b: string) { |a| == |b| && forall i :: 0 <= i < |a| ==> Fold(a[i]) == Fold(b[i]) }

  function FindRule(id: string, i: nat): Option<nat>
    requires i <= RULES
    decreases RULES - i
  {
    if i == RULES then None else if SameLetters(RULE_IDS[i], id) then Some(i) else FindRule(id, i + 1)
  }

  function TakeRule(s: Bytes): Option<Taken<nat>> {
    var id :- TakeUtf(s, 16);
    var rule :- FindRule(id.value, 0);
    Some(Taken(rule, id.rest))
  }

  function RuleBytes(rule: nat): Bytes
    requires rule < RULES
  {
    UtfBytes(RULE_IDS[rule])
  }

  lemma RuleIdsShort(rule: nat)
    requires rule < RULES
    ensures JavaLength(RULE_IDS[rule]) <= 5
  {
    var id := RULE_IDS[rule];
    assert forall i :: 0 <= i < |id| ==> Units(id[i]) == 1;
    LengthOfAscii(id);
  }

  lemma {:induction false} LengthOfAscii(s: string)
    requires forall i :: 0 <= i < |s| ==> Units(s[i]) == 1
    ensures JavaLength(s) == |s|
  {
    if s == "" {
    } else {
      LengthOfAscii(s[1..]);
    }
  }

  lemma RuleTaken(rule: nat, rest: Bytes)
    requires rule < RULES
    ensures TakeRule(RuleBytes(rule) + rest) == Some(Taken(rule, rest)) && |RuleBytes(rule)| <= 53
  {
    hide UtfBytes, TakeUtf, JavaLength;
    RuleIdsShort(rule);
    UtfTaken(RULE_IDS[rule], 16, rest);
    RuleFound(rule, 0);
  }

  lemma {:induction false} RuleFound(rule: nat, i: nat)
    requires i <= rule < RULES
    ensures FindRule(RULE_IDS[rule], i) == Some(rule)
    decreases rule - i
  {
    if i == rule {
    } else {
      RulesDiffer(i, rule);
      RuleFound(rule, i + 1);
    }
  }

  lemma RulesDiffer(i: nat, j: nat)
    requires i < j < RULES
    ensures !SameLetters(RULE_IDS[i], RULE_IDS[j])
  {
    if |RULE_IDS[i]| == |RULE_IDS[j]| { assert Fold(RULE_IDS[i][2]) != Fold(RULE_IDS[j][2]); }
  }

  predicate OptionsFit(o: Options) { SettingsValid(Settings(0, 0, o)) }

  function OptionsBytes(o: Options): Bytes
    requires OptionsFit(o)
  {
    VarBytes(o.lp) + VarBytes(o.startHand) + VarBytes(o.drawPerTurn)
  }

  function TakeOptions(s: Bytes): Option<Taken<Options>> {
    var lp :- TakeVarInt(s);
    var startHand :- TakeVarInt(lp.rest);
    var drawPerTurn :- TakeVarInt(startHand.rest);
    Some(Taken(Options(lp.value, startHand.value, drawPerTurn.value), drawPerTurn.rest))
  }

  lemma OptionsTaken(o: Options, rest: Bytes)
    requires OptionsFit(o)
    ensures TakeOptions(OptionsBytes(o) + rest) == Some(Taken(o, rest)) && |OptionsBytes(o)| <= 15
  {
    hide VarBytes, TakeVarInt;
    var a, b, c := VarBytes(o.lp), VarBytes(o.startHand), VarBytes(o.drawPerTurn);
    VarIntTaken(o.lp, b + c + rest);
    VarIntTaken(o.startHand, c + rest);
    VarIntTaken(o.drawPerTurn, rest);
    assert OptionsBytes(o) + rest == a + (b + c + rest) && b + c + rest == b + (c + rest);
  }

  function SettingsBytes(s: Settings): Bytes
    requires SettingsValid(s)
  {
    RuleBytes(s.rule) + LongBytes(s.seed) + OptionsBytes(s.options)
  }

  function TakeSettings(s: Bytes): Option<Taken<Settings>> {
    var rule :- TakeRule(s);
    var seed :- TakeLong(rule.rest);
    var options :- TakeOptions(seed.rest);
    var settings := Settings(rule.value, seed.value, options.value);
    if SettingsValid(settings) then Some(Taken(settings, options.rest)) else None
  }

  lemma SettingsTaken(s: Settings, rest: Bytes)
    requires SettingsValid(s) && IsLong(s.seed)
    ensures TakeSettings(SettingsBytes(s) + rest) == Some(Taken(s, rest)) && |SettingsBytes(s)| <= 76
  {
    hide RuleBytes, TakeRule, LongBytes, TakeLong, OptionsBytes, TakeOptions;
    var a, b, c := RuleBytes(s.rule), LongBytes(s.seed), OptionsBytes(s.options);
    RuleTaken(s.rule, b + c + rest);
    LongTaken(s.seed, c + rest);
    OptionsTaken(s.options, rest);
    LongSize(s.seed);
    assert SettingsBytes(s) + rest == a + (b + c + rest) && b + c + rest == b + (c + rest);
  }

  lemma LongSize(v: int)
    ensures |LongBytes(v)| == 8
  {
  }

  // ----- Requests -----

  datatype Command =
    | ViewState
    | Invite(target: Uid, rule: nat, seed: Option<int>, options: Options)
    | Accept(invitationId: Uid)
    | Decline(invitationId: Uid)
    | Cancel(flowId: Uid)
    | Throw(flowId: Uid, roundId: Uid, hand: Hand)
    | First(flowId: Uid, goFirst: bool)

  datatype Request = Request(requestId: Uid, command: Command)

  /** The checks of the command's constructor. */
  predicate CommandAccepted(c: Command) {
    c.Invite? ==> SettingsValid(Settings(c.rule, if c.seed.Some? then c.seed.value else 0, c.options))
  }

  /** A request whose fields are what Java can hold. */
  predicate RequestFits(r: Request) {
    && IsUuid(r.requestId) && CommandAccepted(r.command)
    && match r.command
       case ViewState => true
       case Invite(target, _, seed, _) => IsUuid(target) && (seed.Some? ==> IsLong(seed.value))
       case Accept(id) => IsUuid(id)
       case Decline(id) => IsUuid(id)
       case Cancel(id) => IsUuid(id)
       case Throw(flow, round, _) => IsUuid(flow) && IsUuid(round)
       case First(flow, _) => IsUuid(flow)
  }

  function OptionalLongBytes(v: Option<int>): Bytes {
    if v.None? then BoolBytes(false) else BoolBytes(true) + LongBytes(v.value)
  }

  function TakeOptionalLong(s: Bytes): Option<Taken<Option<int>>> {
    var present :- TakeBool(s);
    if !present.value then Some(Taken(None, present.rest))
    else
      var v :- TakeLong(present.rest);
      Some(Taken(Some(v.value), v.rest))
  }

  lemma OptionalLongTaken(v: Option<int>, rest: Bytes)
    requires v.Some? ==> IsLong(v.value)
    ensures TakeOptionalLong(OptionalLongBytes(v) + rest) == Some(Taken(v, rest)) && |OptionalLongBytes(v)| <= 9
  {
    hide TakeLong, LongBytes;
    if v.None? {
      OneTaken(0, rest);
    } else {
      OneTaken(1, LongBytes(v.value) + rest);
      assert OptionalLongBytes(v) + rest == [1] + (LongBytes(v.value) + rest);
      LongTaken(v.value, rest);
      LongSize(v.value);
    }
  }

  function CommandBytes(c: Command): Bytes
    requires CommandAccepted(c)
  {
    match c
    case ViewState => [0]
    case Invite(target, rule, seed, options) =>
      [1] + (UuidBytes(target) + (RuleBytes(rule) + (OptionalLongBytes(seed) + OptionsBytes(options))))
    case Accept(id) => [2] + UuidBytes(id)
    case Decline(id) => [3] + UuidBytes(id)
    case Cancel(id) => [4] + UuidBytes(id)
    case Throw(flow, round, hand) => [5] + (UuidBytes(flow) + (UuidBytes(round) + [HandTag(hand)]))
    case First(flow, goFirst) => [6] + (UuidBytes(flow) + BoolBytes(goFirst))
  }

  function TakeInvite(s: Bytes): Option<Taken<Command>> {
    var target :- TakeUuid(s);
    var rule :- TakeRule(target.rest);
    var seed :- TakeOptionalLong(rule.rest);
    var options :- TakeOptions(seed.rest);
    var c := Invite(target.value, rule.value, seed.value, options.value);
    if CommandAccepted(c) then Some(Taken(c, options.rest)) else None
  }

  function TakeThrow(s: Bytes): Option<Taken<Command>> {
    var flow :- TakeUuid(s);
    var round :- TakeUuid(flow.rest);
    var hand :- TakeTag(round.rest, |HANDS|);
    Some(Taken(Throw(flow.value, round.value, HANDS[hand.value]), hand.rest))
  }

  function TakeFirst(s: Bytes): Option<Taken<Command>> {
    var flow :- TakeUuid(s);
    var goFirst :- TakeBool(flow.rest);
    Some(Taken(First(flow.value, goFirst.value), goFirst.rest))
  }

  function TakeCommand(s: Bytes): Option<Taken<Command>> {
    var tag :- TakeByte(s);
    match tag.value
    case 0 => Some(Taken(ViewState, tag.rest))
    case 1 => TakeInvite(tag.rest)
    case 2 => var id :- TakeUuid(tag.rest); Some(Taken(Accept(id.value), id.rest))
    case 3 => var id :- TakeUuid(tag.rest); Some(Taken(Decline(id.value), id.rest))
    case 4 => var id :- TakeUuid(tag.rest); Some(Taken(Cancel(id.value), id.rest))
    case 5 => TakeThrow(tag.rest)
    case 6 => TakeFirst(tag.rest)
    case _ => None
  }

  lemma UuidSize(id: Uid)
    ensures |UuidBytes(id)| == 16
  {
  }

  lemma Tail(b: Byte, s: Bytes)
    ensures ([b] + s)[1..] == s
  {
  }

  lemma Shift(a: Bytes, b: Bytes, c: Bytes)
    ensures a + b + c == a + (b + c)
  {
  }

  lemma Regroup(a: Bytes, b: Bytes, c: Bytes, d: Bytes)
    ensures a + (b + c) + d == a + (b + (c + d))
  {
  }

  lemma InviteTaken(c: Command, rest: Bytes)
    requires c.Invite? && RequestFits(Request(0, c))
    ensures TakeInvite(CommandBytes(c)[1..] + rest) == Some(Taken(c, rest)) && |CommandBytes(c)| <= 94
  {
    hide UuidBytes, TakeUuid, RuleBytes, TakeRule, OptionalLongBytes, TakeOptionalLong, OptionsBytes, TakeOptions;
    var a, b, d, e := UuidBytes(c.target), RuleBytes(c.rule), OptionalLongBytes(c.seed), OptionsBytes(c.options);
    UuidTaken(c.target, b + (d + (e + rest)));
    RuleTaken(c.rule, d + (e + rest));
    OptionalLongTaken(c.seed, e + rest);
    OptionsTaken(c.options, rest);
    UuidSize(c.target);
    Tail(1, a + (b + (d + e)));
    Regroup(a, b, d + e, rest);
    Shift(d, e, rest);
  }

  lemma ThrowTaken(c: Command, rest: Bytes)
    requires c.Throw? && RequestFits(Request(0, c))
    ensures TakeThrow(CommandBytes(c)[1..] + rest) == Some(Taken(c, rest)) && |CommandBytes(c)| == 34
  {
    hide UuidBytes, TakeUuid, TakeTag;
    var a, b, h := UuidBytes(c.flowId), UuidBytes(c.roundId), [HandTag(c.hand)];
    UuidTaken(c.flowId, b + (h + rest));
    UuidTaken(c.roundId, h + rest);
    TagTaken(HandTag(c.hand), |HANDS|, rest);
    UuidSize(c.flowId);
    UuidSize(c.roundId);
    Tail(5, a + (b + h));
    Regroup(a, b, h, rest);
  }

  lemma FirstTaken(c: Command, rest: Bytes)
    requires c.First? && RequestFits(Request(0, c))
    ensures TakeFirst(CommandBytes(c)[1..] + rest) == Some(Taken(c, rest)) && |CommandBytes(c)| == 18
  {
    hide UuidBytes, TakeUuid;
    UuidTaken(c.flowId, BoolBytes(c.goFirst) + rest);
    OneTaken(if c.goFirst then 1 else 0, rest);
    UuidSize(c.flowId);
    Tail(6, UuidBytes(c.flowId) + BoolBytes(c.goFirst));
    Shift(UuidBytes(c.flowId), BoolBytes(c.goFirst), rest);
  }

  lemma CommandTaken(c: Command, rest: Bytes)
    requires RequestFits(Request(0, c))
    ensures TakeCommand(CommandBytes(c) + rest) == Some(Taken(c, rest)) && |CommandBytes(c)| <= 94
  {
    hide UuidBytes, TakeUuid, TakeInvite, TakeThrow, TakeFirst, RuleBytes, OptionalLongBytes, OptionsBytes;
    var s := CommandBytes(c);
    OneTaken(s[0], s[1..] + rest);
    assert s + rest == [s[0]] + (s[1..] + rest);
    match c
    case ViewState => assert s[1..] + rest == rest;
    case Invite(_, _, _, _) => InviteTaken(c, rest);
    case Accept(id) => UuidTaken(id, rest); UuidSize(id); assert s[1..] == UuidBytes(id);
    case Decline(id) => UuidTaken(id, rest); UuidSize(id); assert s[1..] == UuidBytes(id);
    case Cancel(id) => UuidTaken(id, rest); UuidSize(id); assert s[1..] == UuidBytes(id);
    case Throw(_, _, _) => ThrowTaken(c, rest);
    case First(_, _) => FirstTaken(c, rest);
  }

  function RequestBytes(r: Request): Bytes
    requires CommandAccepted(r.command)
  {
    UuidBytes(r.requestId) + CommandBytes(r.command)
  }

  function TakeRequest(s: Bytes): Option<Taken<Request>> {
    var id :- TakeUuid(s);
    var command :- TakeCommand(id.rest);
    Some(Taken(Request(id.value, command.value), command.rest))
  }

  /** A packet over the budget or with anything left over is refused. */
  function DecodeRequest(s: Bytes): Option<Request> {
    if |s| > MAX_BYTES then None
    else
      var r :- TakeRequest(s);
      if r.rest == [] then Some(r.value) else None
  }

  lemma RequestTaken(r: Request, rest: Bytes)
    requires RequestFits(r)
    ensures TakeRequest(RequestBytes(r) + rest) == Some(Taken(r, rest)) && |RequestBytes(r)| <= 110
  {
    hide UuidBytes, TakeUuid, CommandBytes, TakeCommand;
    UuidTaken(r.requestId, CommandBytes(r.command) + rest);
    CommandTaken(r.command, rest);
    UuidSize(r.requestId);
    assert RequestBytes(r) + rest == UuidBytes(r.requestId) + (CommandBytes(r.command) + rest);
  }

  /** A request comes back as it was sent; with anything after it, it is refused. */
  lemma RequestRoundTrip(r: Request, extra: Bytes)
    requires RequestFits(r)
    ensures DecodeRequest(RequestBytes(r)) == Some(r)
    ensures extra != [] ==> DecodeRequest(RequestBytes(r) + extra) == None
  {
    hide RequestBytes, TakeRequest;
    RequestTaken(r, []);
    RequestTaken(r, extra);
    assert RequestBytes(r) + [] == RequestBytes(r);
  }

  /** Whatever is decoded passed the checks of the command's constructor. */
  lemma DecodedRequestAccepted(s: Bytes)
    ensures DecodeRequest(s).Some? ==> CommandAccepted(DecodeRequest(s).value.command)
  {
    hide TakeUuid, TakeRule, TakeOptionalLong, TakeOptions;
  }

  // ----- States -----

  datatype StatePayload = StatePayload(requestId: Option<Uid>, result: Code, view: View)

  /** A state whose view its constructor accepts and whose fields are what Java can hold. */
  predicate StateFits(p: StatePayload) {
    var v := p.view;
    && ViewAccepted(v) && IsOptionalUuid(p.requestId) && v.revision < LONG_MODULUS / 2
    && IsOptionalUuid(v.flowId) && IsOptionalUuid(v.roundId) && IsOptionalUuid(v.opponentId) && JavaLength(v.opponentName) <= 128
    && (v.settings.Some? ==> SettingsValid(v.settings.value) && IsLong(v.settings.value.seed))
  }

  datatype Head = Head(requestId: Option<Uid>, result: Code, revision: int, mode: Mode)
  datatype Ids = Ids(flow: Option<Uid>, round: Option<Uid>, opponent: Option<Uid>)
  datatype Status = Status(name: string, outgoing: bool, submitted: bool, chooser: bool, remaining: int)

  function HeadBytes(h: Head): Bytes
    requires h.revision >= 0
  {
    OptionalIdBytes(h.requestId) + ([CodeTag(h.result)] + (VarBytes(h.revision) + [ModeTag(h.mode)]))
  }

  function TakeHead(s: Bytes): Option<Taken<Head>> {
    var id :- TakeOptionalId(s);
    var result :- TakeTag(id.rest, |CODES|);
    var revision :- TakeVarLong(result.rest);
    var mode :- TakeTag(revision.rest, |MODES|);
    Some(Taken(Head(id.value, CODES[result.value], revision.value, MODES[mode.value]), mode.rest))
  }

  lemma HeadTaken(h: Head, rest: Bytes)
    requires IsOptionalUuid(h.requestId) && 0 <= h.revision < LONG_MODULUS / 2
    ensures TakeHead(HeadBytes(h) + rest) == Some(Taken(h, rest)) && |HeadBytes(h)| <= 29
  {
    hide OptionalIdBytes, TakeOptionalId, TakeTag, VarBytes, TakeVarLong;
    var a, b, c, d := OptionalIdBytes(h.requestId), [CodeTag(h.result)], VarBytes(h.revision), [ModeTag(h.mode)];
    OptionalIdTaken(h.requestId, b + (c + (d + rest)));
    TagTaken(CodeTag(h.result), |CODES|, c + (d + rest));
    VarLongTaken(h.revision, d + rest);
    TagTaken(ModeTag(h.mode), |MODES|, rest);
    OptionalIdSize(h.requestId);
    Regroup(a, b, c + d, rest);
    Shift(c, d, rest);
  }

  lemma OptionalIdSize(id: Option<Uid>)
    ensures |OptionalIdBytes(id)| <= 17
  {
  }

  function IdsBytes(i: Ids): Bytes { OptionalIdBytes(i.flow) + (OptionalIdBytes(i.round) + OptionalIdBytes(i.opponent)) }

  function TakeIds(s: Bytes): Option<Taken<Ids>> {
    var flow :- TakeOptionalId(s);
    var round :- TakeOptionalId(flow.rest);
    var opponent :- TakeOptionalId(round.rest);
    Some(Taken(Ids(flow.value, round.value, opponent.value), opponent.rest))
  }

  lemma IdsTaken(i: Ids, rest: Bytes)
    requires IsOptionalUuid(i.flow) && IsOptionalUuid(i.round) && IsOptionalUuid(i.opponent)
    ensures TakeIds(IdsBytes(i) + rest) == Some(Taken(i, rest)) && |IdsBytes(i)| <= 51
  {
    hide OptionalIdBytes, TakeOptionalId;
    var a, b, c := OptionalIdBytes(i.flow), OptionalIdBytes(i.round), OptionalIdBytes(i.opponent);
    OptionalIdTaken(i.flow, b + (c + rest));
    OptionalIdTaken(i.round, c + rest);
    OptionalIdTaken(i.opponent, rest);
    OptionalIdSize(i.flow);
    OptionalIdSize(i.round);
    OptionalIdSize(i.opponent);
    Regroup(a, b, c, rest);
  }

  function FlagBytes(t: Status): Bytes { BoolBytes(t.outgoing) + (BoolBytes(t.submitted) + BoolBytes(t.chooser)) }

  function StatusBytes(t: Status): Bytes
    requires t.remaining >= 0
  {
    UtfBytes(t.name) + (FlagBytes(t) + VarBytes(t.remaining))
  }

  function TakeStatus(s: Bytes): Option<Taken<Status>> {
    var name :- TakeUtf(s, 128);
    var outgoing :- TakeBool(name.rest);
    var submitted :- TakeBool(outgoing.rest);
    var chooser :- TakeBool(submitted.rest);
    var remaining :- TakeVarLong(chooser.rest);
    Some(Taken(Status(name.value, outgoing.value, submitted.value, chooser.value, remaining.value), remaining.rest))
  }

  lemma StatusTaken(t: Status, rest: Bytes)
    requires JavaLength(t.name) <= 128 && 0 <= t.remaining < LONG_MODULUS / 2
    ensures TakeStatus(StatusBytes(t) + rest) == Some(Taken(t, rest)) && |StatusBytes(t)| <= 402
  {
    hide UtfBytes, TakeUtf, VarBytes, TakeVarLong, JavaLength;
    var a, d := UtfBytes(t.name), VarBytes(t.remaining);
    var o, u, c := BoolBytes(t.outgoing), BoolBytes(t.submitted), BoolBytes(t.chooser);
    UtfTaken(t.name, 128, FlagBytes(t) + (d + rest));
    OneTaken(o[0], u + (c + (d + rest)));
    OneTaken(u[0], c + (d + rest));
    OneTaken(c[0], d + rest);
    VarLongTaken(t.remaining, rest);
    Regroup(o, u, c, d + rest);
    Regroup(a, FlagBytes(t), d, rest);
  }

  function OptionalSettingsBytes(s: Option<Settings>): Bytes
    requires s.Some? ==> SettingsValid(s.value)
  {
    if s.None? then BoolBytes(false) else BoolBytes(true) + SettingsBytes(s.value)
  }

  function TakeOptionalSettings(s: Bytes): Option<Taken<Option<Settings>>> {
    var present :- TakeBool(s);
    if !present.value then Some(Taken(None, present.rest))
    else
      var settings :- TakeSettings(present.rest);
      Some(Taken(Some(settings.value), settings.rest))
  }

  lemma OptionalSettingsTaken(s: Option<Settings>, rest: Bytes)
    requires s.Some? ==> SettingsValid(s.value) && IsLong(s.value.seed)
    ensures TakeOptionalSettings(OptionalSettingsBytes(s) + rest) == Some(Taken(s, rest)) && |OptionalSettingsBytes(s)| <= 77
  {
    hide SettingsBytes, TakeSettings;
    if s.None? {
      OneTaken(0, rest);
    } else {
      OneTaken(1, SettingsBytes(s.value) + rest);
      assert OptionalSettingsBytes(s) + rest == [1] + (SettingsBytes(s.value) + rest);
      SettingsTaken(s.value, rest);
    }
  }

  function HeadOf(p: StatePayload): Head { Head(p.requestId, p.result, p.view.revision, p.view.mode) }
  function IdsOf(v: View): Ids { Ids(v.flowId, v.roundId, v.opponentId) }
  function StatusOf(v: View): Status { Status(v.opponentName, v.outgoing, v.ownHandSubmitted, v.canChooseFirst, v.remainingMillis) }

  function StateBytes(p: StatePayload): Bytes
    requires p.view.remainingMillis >= 0 && (p.view.settings.Some? ==> SettingsValid(p.view.settings.value))
  {
    HeadBytes(HeadOf(p)) + (IdsBytes(IdsOf(p.view)) + (StatusBytes(StatusOf(p.view)) + OptionalSettingsBytes(p.view.settings)))
  }

  /** The view these parts make, if its constructor accepts them. */
  function ViewFrom(h: Head, i: Ids, t: Status, settings: Option<Settings>): Option<View> {
    if h.revision < 0 then None
    else
      var v := View(h.revision, h.mode, i.flow, i.round, i.opponent, t.name, t.outgoing, t.submitted, t.chooser, t.remaining, settings);
      if ViewAccepted(v) then Some(v) else None
  }

  function TakeState(s: Bytes): Option<Taken<StatePayload>> {
    var h :- TakeHead(s);
    var i :- TakeIds(h.rest);
    var t :- TakeStatus(i.rest);
    var settings :- TakeOptionalSettings(t.rest);
    var view :- ViewFrom(h.value, i.value, t.value, settings.value);
    Some(Taken(StatePayload(h.value.requestId, h.value.result, view), settings.rest))
  }

  function DecodeState(s: Bytes): Option<StatePayload> {
    if |s| > MAX_BYTES then None
    else
      var p :- TakeState(s);
      if p.rest == [] then Some(p.value) else None
  }

  lemma StateTaken(p: StatePayload, rest: Bytes)
    requires StateFits(p)
    ensures TakeState(StateBytes(p) + rest) == Some(Taken(p, rest)) && |StateBytes(p)| <= 559
  {
    hide HeadBytes, TakeHead, IdsBytes, TakeIds, StatusBytes, TakeStatus, OptionalSettingsBytes, TakeOptionalSettings, ViewAccepted, JavaLength;
    StateInRange(p);
    var a, b, c, d := HeadBytes(HeadOf(p)), IdsBytes(IdsOf(p.view)), StatusBytes(StatusOf(p.view)), OptionalSettingsBytes(p.view.settings);
    HeadTaken(HeadOf(p), b + (c + (d + rest)));
    IdsTaken(IdsOf(p.view), c + (d + rest));
    StatusTaken(StatusOf(p.view), d + rest);
    OptionalSettingsTaken(p.view.settings, rest);
    Regroup(a, b, c + d, rest);
    Shift(c, d, rest);
  }

  lemma StateInRange(p: StatePayload)
    requires StateFits(p)
    ensures 0 <= p.view.remainingMillis < LONG_MODULUS / 2 && (p.view.settings.Some? ==> SettingsValid(p.view.settings.value))
  {
  }

  /** A state comes back as it was sent and fits the budget; with anything after it, it is refused. */
  lemma StateRoundTrip(p: StatePayload, extra: Bytes)
    requires StateFits(p)
    ensures p.view.remainingMillis >= 0 && (p.view.settings.Some? ==> SettingsValid(p.view.settings.value))
    ensures |StateBytes(p)| <= MAX_BYTES && DecodeState(StateBytes(p)) == Some(p)
    ensures extra != [] ==> DecodeState(StateBytes(p) + extra) == None
  {
    hide StateBytes, TakeState, ViewAccepted, JavaLength;
    StateInRange(p);
    StateTaken(p, []);
    StateTaken(p, extra);
    assert StateBytes(p) + [] == StateBytes(p);
  }

  /** Whatever is decoded, its view passed the checks of its constructor. */
  lemma DecodedStateAccepted(s: Bytes)
    ensures DecodeState(s).Some? ==> ViewAccepted(DecodeState(s).value.view)
  {
    hide TakeHead, TakeIds, TakeStatus, TakeOptionalSettings, ViewAccepted;
  }

  // ----- The buffer -----

  /** Bytes written to the end and read from a cursor. A read that cannot be done throws: it returns none. */
  class ByteBuf {
    var data: Bytes
    var reader: nat

    ghost predicate Valid()
      reads this
    {
      reader <= |data|
    }

    function Unread(): Bytes
      requires Valid()
      reads this
    {
      data[reader..]
    }

    constructor (data: Bytes)
      ensures Valid() && this.data == data && Unread() == data && reader == 0
    {
      this.data, reader := data, 0;
    }

    method Append(bytes: Bytes)
      modifies this`data
      ensures data == old(data) + bytes
    {
      data := data + bytes;
    }

    method WriteVar(value: nat)
      modifies this`data
      ensures data == old(data) + VarBytes(value)
    {
      var v := value;
      while v >= 0x80
        invariant data + VarBytes(v) == old(data) + VarBytes(value)
      {
        Shift(data, [v % 0x80 + 0x80], VarBytes(v / 0x80));
        Append([v % 0x80 + 0x80]);
        v := v / 0x80;
      }
      Append([v]);
    }

    method WriteUtf(text: string)
      modifies this`data
      ensures data == old(data) + UtfBytes(text)
    {
      var bytes := TextBytes(text);
      Shift(data, VarBytes(|bytes|), bytes);
      WriteVar(|bytes|);
      Append(bytes);
    }

    method WriteOptionalId(id: Option<Uid>)
      modifies this`data
      ensures data == old(data) + OptionalIdBytes(id)
    {
      Append(BoolBytes(id.Some?));
      if id.Some? {
        Shift(old(data), BoolBytes(true), UuidBytes(id.value));
        Append(UuidBytes(id.value));
      }
    }

    method WriteOptions(o: Options)
      requires OptionsFit(o)
      modifies this`data
      ensures data == old(data) + OptionsBytes(o)
    {
      hide VarBytes;
      var a, b, c := VarBytes(o.lp), VarBytes(o.startHand), VarBytes(o.drawPerTurn);
      Shift(data, a, b);
      Shift(data, a + b, c);
      WriteVar(o.lp);
      WriteVar(o.startHand);
      WriteVar(o.drawPerTurn);
    }

    method WriteSettings(s: Settings)
      requires SettingsValid(s)
      modifies this`data
      ensures data == old(data) + SettingsBytes(s)
    {
      hide RuleBytes, LongBytes, OptionsBytes;
      var a, b, c := RuleBytes(s.rule), LongBytes(s.seed), OptionsBytes(s.options);
      Shift(data, a, b);
      Shift(data, a + b, c);
      Append(a);
      Append(b);
      WriteOptions(s.options);
    }

    method ReadByte() returns (b: Option<Byte>)
      requires Valid()
      modifies this`reader
      ensures Valid()
      ensures match TakeByte(old(Unread())) case None => b == None case Some(t) => b == Some(t.value) && Unread() == t.rest
    {
      if reader == |data| { return None; }
      b := Some(data[reader]);
      reader := reader + 1;
    }

    method ReadBoolean() returns (b: Option<bool>)
      requires Valid()
      modifies this`reader
      ensures Valid()
      ensures match TakeBool(old(Unread())) case None => b == None case Some(t) => b == Some(t.value) && Unread() == t.rest
    {
      var byte := ReadByte();
      b := if byte.None? then None else Some(byte.value != 0);
    }

    method ReadTag(values: nat) returns (tag: Option<Byte>)
      requires Valid()
      modifies this`reader
      ensures Valid()
      ensures match TakeTag(old(Unread()), values) case None => tag == None case Some(t) => tag == Some(t.value) && Unread() == t.rest && t.value < values
    {
      tag := ReadByte();
      if tag.Some? && tag.value >= values { tag := None; }
    }

    method ReadFixed(n: nat) returns (v: Option<nat>)
      requires Valid()
      modifies this`reader
      ensures Valid()
      ensures match TakeFixed(old(Unread()), n) case None => v == None case Some(t) => v == Some(t.value) && Unread() == t.rest
    {
      if |data| - reader < n { return None; }
      v := Some(FromBigEndian(data[reader..reader + n]));
      assert data[reader..][..n] == data[reader..reader + n];
      reader := reader + n;
    }

    method ReadLong() returns (v: Option<int>)
      requires Valid()
      modifies this`reader
      ensures Valid()
      ensures match TakeLong(old(Unread())) case None => v == None case Some(t) => v == Some(t.value) && Unread() == t.rest
    {
      var bits := ReadFixed(8);
      v := if bits.None? then None else Some(Wrap(bits.value, LONG_MODULUS));
    }

    method ReadOptionalId() returns (id: Option<Option<Uid>>)
      requires Valid()
      modifies this`reader
      ensures Valid()
      ensures match TakeOptionalId(old(Unread())) case None => id == None case Some(t) => id == Some(t.value) && Unread() == t.rest
    {
      var present := ReadBoolean();
      if present.None? { return None; }
      if !present.value { return Some(None); }
      var v := ReadFixed(16);
      id := if v.None? then None else Some(Some(v.value));
    }

    /** Seven bits at a time, lowest first, for as long as the high bit is set. */
    method ReadGroups(groups: nat) returns (v: Option<nat>)
      requires Valid()
      modifies this`reader
      ensures Valid()
      ensures match TakeGroups(old(Unread()), groups) case None => v == None case Some(t) => v == Some(t.value) && Unread() == t.rest
    {
      hide TakeGroups, Scaled;
      var value: nat, scale: nat, left := 0, 1, groups;
      ScaledOnce(TakeGroups(Unread(), groups));
      while left > 0
        invariant Valid()
        invariant TakeGroups(old(Unread()), groups) == Scaled(value, scale, TakeGroups(Unread(), left))
        decreases left
      {
        ghost var before := Unread();
        var b := ReadByte();
        GroupsStep(before, left, value, scale);
        if b.None? { return None; }
        var low: int := b.value;
        if low < 0x80 { return Some(value + scale * low); }
        value, scale, left := value + scale * (low - 0x80), scale * 0x80, left - 1;
      }
      GroupsStep(Unread(), 0, value, scale);
      v := None;
    }

    method ReadVarInt() returns (v: Option<int>)
      requires Valid()
      modifies this`reader
      ensures Valid()
      ensures match TakeVarInt(old(Unread())) case None => v == None case Some(t) => v == Some(t.value) && Unread() == t.rest
    {
      var bits := ReadGroups(5);
      v := if bits.None? then None else Some(Wrap(bits.value, INT_MODULUS));
    }

    method ReadVarLong() returns (v: Option<int>)
      requires Valid()
      modifies this`reader
      ensures Valid()
      ensures match TakeVarLong(old(Unread())) case None => v == None case Some(t) => v == Some(t.value) && Unread() == t.rest
    {
      var bits := ReadGroups(10);
      v := if bits.None? then None else Some(Wrap(bits.value, LONG_MODULUS));
    }

    method ReadUtf(max: nat) returns (text: Option<string>)
      requires Valid()
      modifies this`reader
      ensures Valid()
      ensures match TakeUtf(old(Unread()), max) case None => text == None case Some(t) => text == Some(t.value) && Unread() == t.rest
    {
      hide TakeVarInt, FromText;
      var length := ReadVarInt();
      if length.None? || length.value > 3 * max || length.value < 0 || length.value > |data| - reader { return None; }
      var n := length.value;
      assert Unread()[..n] == data[reader..reader + n] && Unread()[n..] == data[reader + n..];
      text := FromText(data[reader..reader + n]);
      reader := reader + n;
      if text.Some? && JavaLength(text.value) > max { text := None; }
    }

    method ReadRule() returns (rule: Option<nat>)
      requires Valid()
      modifies this`reader
      ensures Valid()
      ensures match TakeRule(old(Unread())) case None => rule == None case Some(t) => rule == Some(t.value) && Unread() == t.rest
    {
      hide TakeUtf, FindRule;
      var id := ReadUtf(16);
      rule := if id.None? then None else FindRule(id.value, 0);
    }

    method ReadOptions() returns (o: Option<Options>)
      requires Valid()
      modifies this`reader
      ensures Valid()
      ensures match TakeOptions(old(Unread())) case None => o == None case Some(t) => o == Some(t.value) && Unread() == t.rest
    {
      hide TakeVarInt;
      var lp := ReadVarInt();
      if lp.None? { return None; }
      var startHand := ReadVarInt();
      if startHand.None? { return None; }
      var drawPerTurn := ReadVarInt();
      o := if drawPerTurn.None? then None else Some(Options(lp.value, startHand.value, drawPerTurn.value));
    }

    method ReadSettings() returns (s: Option<Settings>)
      requires Valid()
      modifies this`reader
      ensures Valid()
      ensures match TakeSettings(old(Unread())) case None => s == None case Some(t) => s == Some(t.value) && Unread() == t.rest
    {
      hide TakeRule, TakeLong, TakeOptions;
      var rule := ReadRule();
      if rule.None? { return None; }
      var seed := ReadLong();
      if seed.None? { return None; }
      var options := ReadOptions();
      if options.None? { return None; }
      var settings := Settings(rule.value, seed.value, options.value);
      s := if SettingsValid(settings) then Some(settings) else None;
    }
  }

  /** What comes of groups read later, when some were read already. */
  function Scaled(value: nat, scale: nat, t: Option<Taken<nat>>): Option<Taken<nat>> {
    if t.None? then None else Some(Taken(value + scale * t.value.value, t.value.rest))
  }

  lemma ScaledOnce(t: Option<Taken<nat>>)
    ensures Scaled(0, 1, t) == t
  {
  }

  /** One byte of a base-128 number. */
  lemma GroupsStep(s: Bytes, left: nat, value: nat, scale: nat)
    ensures left == 0 || s == [] ==> Scaled(value, scale, TakeGroups(s, left)) == None
    ensures left > 0 && s != [] && s[0] < 0x80 ==>
              Scaled(value, scale, TakeGroups(s, left)) == Some(Taken(value + scale * (s[0] as int), s[1..]))
    ensures left > 0 && s != [] && s[0] >= 0x80 ==>
              Scaled(value, scale, TakeGroups(s, left))
              == Scaled(value + scale * (s[0] as int - 0x80), scale * 0x80, TakeGroups(s[1..], left - 1))
  {
    if left > 0 && s != [] && s[0] >= 0x80 {
      var t := TakeGroups(s[1..], left - 1);
      if t.Some? {
        var low, v := s[0] as int, t.value.value;
        assert scale * (low - 0x80 + 0x80 * v) == scale * (low - 0x80) + (scale * 0x80) * v;
      }
    }
  }

  // ----- Packets -----

  /** What is written goes to the target if it is within the budget, and nothing does otherwise. */
  method Send(target: ByteBuf, buf: ByteBuf) returns (ok: bool)
    requires target != buf
    modifies target`data
    ensures ok == (|buf.data| <= MAX_BYTES)
    ensures target.data == if ok then old(target.data) + buf.data else old(target.data)
  {
    ok := |buf.data| <= MAX_BYTES;
    if ok { target.Append(buf.data); }
  }

  method EncodeRequest(target: ByteBuf, payload: Request) returns (ok: bool)
    requires CommandAccepted(payload.command)
    modifies target`data
    ensures target.data == if ok then old(target.data) + RequestBytes(payload) else old(target.data)
    ensures RequestFits(payload) ==> ok
  {
    hide RequestFits, UuidBytes, UtfBytes, LongBytes, OptionsBytes;
    var buf := new ByteBuf([]);
    buf.Append(UuidBytes(payload.requestId));
    WriteCommand(buf, payload.command);
    assert [] + UuidBytes(payload.requestId) == UuidBytes(payload.requestId);
    if RequestFits(payload) { RequestTaken(payload, []); }
    ok := Send(target, buf);
  }

  method WriteCommand(buf: ByteBuf, c: Command)
    requires CommandAccepted(c)
    modifies buf`data
    ensures buf.data == old(buf.data) + CommandBytes(c)
  {
    hide UuidBytes, RuleBytes, LongBytes, OptionsBytes;
    match c
    case ViewState => buf.Append([0]);
    case Invite(target, rule, seed, options) => WriteInvite(buf, target, rule, seed, options);
    case Accept(id) => WriteTagged(buf, 2, UuidBytes(id));
    case Decline(id) => WriteTagged(buf, 3, UuidBytes(id));
    case Cancel(id) => WriteTagged(buf, 4, UuidBytes(id));
    case Throw(flow, round, hand) =>
      WriteTagged(buf, 5, UuidBytes(flow));
      Shift([5], UuidBytes(flow), UuidBytes(round) + [HandTag(hand)]);
      Shift(old(buf.data), [5] + UuidBytes(flow), UuidBytes(round) + [HandTag(hand)]);
      Shift(buf.data, UuidBytes(round), [HandTag(hand)]);
      buf.Append(UuidBytes(round));
      buf.Append([HandTag(hand)]);
    case First(flow, goFirst) =>
      WriteTagged(buf, 6, UuidBytes(flow));
      Shift([6], UuidBytes(flow), BoolBytes(goFirst));
      Shift(old(buf.data), [6] + UuidBytes(flow), BoolBytes(goFirst));
      buf.Append(BoolBytes(goFirst));
  }

  method WriteTagged(buf: ByteBuf, tag: Byte, bytes: Bytes)
    modifies buf`data
    ensures buf.data == old(buf.data) + ([tag] + bytes)
  {
    Shift(buf.data, [tag], bytes);
    buf.Append([tag]);
    buf.Append(bytes);
  }

  method WriteInvite(buf: ByteBuf, target: Uid, rule: nat, seed: Option<int>, options: Options)
    requires CommandAccepted(Invite(target, rule, seed, options))
    modifies buf`data
    ensures buf.data == old(buf.data) + CommandBytes(Invite(target, rule, seed, options))
  {
    hide UuidBytes, RuleBytes, LongBytes, OptionsBytes;
    var a, b, c, d := UuidBytes(target), RuleBytes(rule), OptionalLongBytes(seed), OptionsBytes(options);
    Shift(buf.data, [1], a + (b + (c + d)));
    Shift(buf.data + [1], a, b + (c + d));
    Shift(buf.data + [1] + a, b, c + d);
    Shift(buf.data + [1] + a + b, c, d);
    buf.Append([1]);
    buf.Append(a);
    buf.Append(b);
    WriteOptionalLong(buf, seed);
    buf.WriteOptions(options);
  }

  method WriteOptionalLong(buf: ByteBuf, v: Option<int>)
    modifies buf`data
    ensures buf.data == old(buf.data) + OptionalLongBytes(v)
  {
    buf.Append(BoolBytes(v.Some?));
    if v.Some? {
      Shift(old(buf.data), BoolBytes(true), LongBytes(v.value));
      buf.Append(LongBytes(v.value));
    }
  }

  method EncodeState(target: ByteBuf, payload: StatePayload) returns (ok: bool)
    requires StateFits(payload)
    modifies target`data
    ensures ok && payload.view.remainingMillis >= 0
    ensures payload.view.settings.Some? ==> SettingsValid(payload.view.settings.value)
    ensures target.data == old(target.data) + StateBytes(payload)
  {
    hide StateFits, HeadBytes, IdsBytes, StatusBytes, OptionalSettingsBytes;
    StateInRange(payload);
    StateTaken(payload, []);
    var v := payload.view;
    var a, b, c := HeadBytes(HeadOf(payload)), IdsBytes(IdsOf(v)), StatusBytes(StatusOf(v));
    var buf := new ByteBuf([]);
    WriteHead(buf, HeadOf(payload));
    assert [] + a == a;
    Shift(a, b, c + OptionalSettingsBytes(v.settings));
    Shift(a + b, c, OptionalSettingsBytes(v.settings));
    WriteIds(buf, IdsOf(v));
    WriteStatus(buf, StatusOf(v));
    buf.Append(BoolBytes(v.settings.Some?));
    if v.settings.Some? {
      Shift(a + b + c, BoolBytes(true), SettingsBytes(v.settings.value));
      buf.WriteSettings(v.settings.value);
    }
    SettingsPart(v.settings);
    ok := Send(target, buf);
  }

  lemma SettingsPart(s: Option<Settings>)
    requires s.Some? ==> SettingsValid(s.value)
    ensures OptionalSettingsBytes(s) == if s.None? then BoolBytes(false) else BoolBytes(true) + SettingsBytes(s.value)
  {
  }

  method WriteHead(buf: ByteBuf, h: Head)
    requires h.revision >= 0
    modifies buf`data
    ensures buf.data == old(buf.data) + HeadBytes(h)
  {
    hide OptionalIdBytes, VarBytes;
    var a, b, c, d := OptionalIdBytes(h.requestId), [CodeTag(h.result)], VarBytes(h.revision), [ModeTag(h.mode)];
    Shift(buf.data, a, b + (c + d));
    Shift(buf.data + a, b, c + d);
    Shift(buf.data + a + b, c, d);
    buf.WriteOptionalId(h.requestId);
    buf.Append(b);
    buf.WriteVar(h.revision);
    buf.Append(d);
  }

  method WriteIds(buf: ByteBuf, i: Ids)
    modifies buf`data
    ensures buf.data == old(buf.data) + IdsBytes(i)
  {
    hide OptionalIdBytes;
    var a, b, c := OptionalIdBytes(i.flow), OptionalIdBytes(i.round), OptionalIdBytes(i.opponent);
    Shift(buf.data, a, b + c);
    Shift(buf.data + a, b, c);
    buf.WriteOptionalId(i.flow);
    buf.WriteOptionalId(i.round);
    buf.WriteOptionalId(i.opponent);
  }

  method WriteStatus(buf: ByteBuf, t: Status)
    requires t.remaining >= 0
    modifies buf`data
    ensures buf.data == old(buf.data) + StatusBytes(t)
  {
    hide UtfBytes, VarBytes;
    var a, o, u, c, d := UtfBytes(t.name), BoolBytes(t.outgoing), BoolBytes(t.submitted), BoolBytes(t.chooser), VarBytes(t.remaining);
    Shift(buf.data, a, FlagBytes(t) + d);
    Shift(buf.data + a, FlagBytes(t), d);
    Shift(buf.data + a, o, u + c);
    Shift(buf.data + a + o, u, c);
    buf.WriteUtf(t.name);
    buf.Append(o);
    buf.Append(u);
    buf.Append(c);
    buf.WriteVar(t.remaining);
  }

  method ReceiveState(buffer: ByteBuf) returns (payload: Option<StatePayload>)
    requires buffer.Valid()
    modifies buffer`reader
    ensures buffer.Valid() && payload == DecodeState(old(buffer.Unread()))
  {
    hide TakeOptionalId, TakeTag, TakeVarLong, TakeUtf, TakeBool, TakeSettings, ViewAccepted;
    if |buffer.data| - buffer.reader > MAX_BYTES { return None; }
    var head := ReadHead(buffer);
    if head.None? { return None; }
    var ids := ReadIds(buffer);
    if ids.None? { return None; }
    var status := ReadStatus(buffer);
    if status.None? { return None; }
    var settings := ReadOptionalSettings(buffer);
    if settings.None? { return None; }
    var view := ViewFrom(head.value, ids.value, status.value, settings.value);
    if view.None? || buffer.reader < |buffer.data| { return None; }
    payload := Some(StatePayload(head.value.requestId, head.value.result, view.value));
  }

  method ReadHead(buffer: ByteBuf) returns (h: Option<Head>)
    requires buffer.Valid()
    modifies buffer`reader
    ensures buffer.Valid()
    ensures match TakeHead(old(buffer.Unread())) case None => h == None case Some(t) => h == Some(t.value) && buffer.Unread() == t.rest
  {
    hide TakeOptionalId, TakeTag, TakeVarLong;
    var id := buffer.ReadOptionalId();
    if id.None? { return None; }
    var result := buffer.ReadTag(|CODES|);
    if result.None? { return None; }
    var revision := buffer.ReadVarLong();
    if revision.None? { return None; }
    var mode := buffer.ReadTag(|MODES|);
    if mode.None? { return None; }
    h := Some(Head(id.value, CODES[result.value], revision.value, MODES[mode.value]));
  }

  method ReadIds(buffer: ByteBuf) returns (i: Option<Ids>)
    requires buffer.Valid()
    modifies buffer`reader
    ensures buffer.Valid()
    ensures match TakeIds(old(buffer.Unread())) case None => i == None case Some(t) => i == Some(t.value) && buffer.Unread() == t.rest
  {
    hide TakeOptionalId;
    var flow := buffer.ReadOptionalId();
    if flow.None? { return None; }
    var round := buffer.ReadOptionalId();
    if round.None? { return None; }
    var opponent := buffer.ReadOptionalId();
    if opponent.None? { return None; }
    i := Some(Ids(flow.value, round.value, opponent.value));
  }

  method ReadStatus(buffer: ByteBuf) returns (s: Option<Status>)
    requires buffer.Valid()
    modifies buffer`reader
    ensures buffer.Valid()
    ensures match TakeStatus(old(buffer.Unread())) case None => s == None case Some(t) => s == Some(t.value) && buffer.Unread() == t.rest
  {
    hide TakeUtf, TakeBool, TakeVarLong;
    var name := buffer.ReadUtf(128);
    if name.None? { return None; }
    var outgoing := buffer.ReadBoolean();
    if outgoing.None? { return None; }
    var submitted := buffer.ReadBoolean();
    if submitted.None? { return None; }
    var chooser := buffer.ReadBoolean();
    if chooser.None? { return None; }
    var remaining := buffer.ReadVarLong();
    if remaining.None? { return None; }
    s := Some(Status(name.value, outgoing.value, submitted.value, chooser.value, remaining.value));
  }

  method ReadOptionalSettings(buffer: ByteBuf) returns (s: Option<Option<Settings>>)
    requires buffer.Valid()
    modifies buffer`reader
    ensures buffer.Valid()
    ensures match TakeOptionalSettings(old(buffer.Unread())) case None => s == None case Some(t) => s == Some(t.value) && buffer.Unread() == t.rest
  {
    hide TakeBool, TakeSettings;
    var present := buffer.ReadBoolean();
    if present.None? { return None; }
    if !present.value { return Some(None); }
    var settings := buffer.ReadSettings();
    s := if settings.None? then None else Some(Some(settings.value));
  }

  method ReceiveRequest(buffer: ByteBuf) returns (payload: Option<Request>)
    requires buffer.Valid()
    modifies buffer`reader
    ensures buffer.Valid() && payload == DecodeRequest(old(buffer.Unread()))
  {
    hide TakeUuid, TakeCommand;
    if |buffer.data| - buffer.reader > MAX_BYTES { return None; }
    var id := ReadUuid(buffer);
    if id.None? { return None; }
    var command := ReadCommand(buffer);
    if command.None? || buffer.reader < |buffer.data| { return None; }
    payload := Some(Request(id.value, command.value));
  }

  method ReadUuid(buffer: ByteBuf) returns (id: Option<Uid>)
    requires buffer.Valid()
    modifies buffer`reader
    ensures buffer.Valid()
    ensures match TakeUuid(old(buffer.Unread())) case None => id == None case Some(t) => id == Some(t.value) && buffer.Unread() == t.rest
  {
    id := buffer.ReadFixed(16);
  }

  method ReadCommand(buffer: ByteBuf) returns (c: Option<Command>)
    requires buffer.Valid()
    modifies buffer`reader
    ensures buffer.Valid()
    ensures match TakeCommand(old(buffer.Unread())) case None => c == None case Some(t) => c == Some(t.value) && buffer.Unread() == t.rest
  {
    hide TakeUuid, TakeInvite, TakeThrow, TakeFirst, TakeByte;
    var tag := buffer.ReadByte();
    if tag.None? { return None; }
    match tag.value {
      case 0 => c := Some(ViewState);
      case 1 => c := ReadInvite(buffer);
      case 2 => var id := ReadUuid(buffer); c := if id.None? then None else Some(Accept(id.value));
      case 3 => var id := ReadUuid(buffer); c := if id.None? then None else Some(Decline(id.value));
      case 4 => var id := ReadUuid(buffer); c := if id.None? then None else Some(Cancel(id.value));
      case 5 => c := ReadThrow(buffer);
      case 6 => c := ReadFirst(buffer);
      case _ => c := None;
    }
  }

  method ReadInvite(buffer: ByteBuf) returns (c: Option<Command>)
    requires buffer.Valid()
    modifies buffer`reader
    ensures buffer.Valid()
    ensures match TakeInvite(old(buffer.Unread())) case None => c == None case Some(t) => c == Some(t.value) && buffer.Unread() == t.rest
  {
    hide TakeUuid, TakeRule, TakeOptionalLong, TakeOptions;
    var target := ReadUuid(buffer);
    if target.None? { return None; }
    var rule := buffer.ReadRule();
    if rule.None? { return None; }
    var seed := ReadOptionalLong(buffer);
    if seed.None? { return None; }
    var options := buffer.ReadOptions();
    if options.None? { return None; }
    var invite := Invite(target.value, rule.value, seed.value, options.value);
    c := if CommandAccepted(invite) then Some(invite) else None;
  }

  method ReadOptionalLong(buffer: ByteBuf) returns (v: Option<Option<int>>)
    requires buffer.Valid()
    modifies buffer`reader
    ensures buffer.Valid()
    ensures match TakeOptionalLong(old(buffer.Unread())) case None => v == None case Some(t) => v == Some(t.value) && buffer.Unread() == t.rest
  {
    hide TakeLong, TakeBool;
    var present := buffer.ReadBoolean();
    if present.None? { return None; }
    if !present.value { return Some(None); }
    var long := buffer.ReadLong();
    v := if long.None? then None else Some(Some(long.value));
  }

  method ReadThrow(buffer: ByteBuf) returns (c: Option<Command>)
    requires buffer.Valid()
    modifies buffer`reader
    ensures buffer.Valid()
    ensures match TakeThrow(old(buffer.Unread())) case None => c == None case Some(t) => c == Some(t.value) && buffer.Unread() == t.rest
  {
    hide TakeUuid, TakeTag;
    var flow := ReadUuid(buffer);
    if flow.None? { return None; }
    var round := ReadUuid(buffer);
    if round.None? { return None; }
    var hand := buffer.ReadTag(|HANDS|);
    c := if hand.None? then None else Some(Throw(flow.value, round.value, HANDS[hand.value]));
  }

  method ReadFirst(buffer: ByteBuf) returns (c: Option<Command>)
    requires buffer.Valid()
    modifies buffer`reader
    ensures buffer.Valid()
    ensures match TakeFirst(old(buffer.Unread())) case None => c == None case Some(t) => c == Some(t.value) && buffer.Unread() == t.rest
  {
    hide TakeUuid, TakeBool;
    var flow := ReadUuid(buffer);
    if flow.None? { return None; }
    var goFirst := buffer.ReadBoolean();
    c := if goFirst.None? then None else Some(First(flow.value, goFirst.value));
  }
}
