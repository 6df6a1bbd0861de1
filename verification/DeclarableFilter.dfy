/**
 `client/carddata/DeclarableFilter.java`: a stack machine over opcode lists, against the meaning of the expressions
 such lists denote.
 */
module DeclarableFilter {
  /** A Java `long`. */
  type Long = bv64

  const OPCODE_ADD: Long := 0x4000000000000000
  const OPCODE_SUB: Long := 0x4000000100000000
  const OPCODE_MUL: Long := 0x4000000200000000
  const OPCODE_DIV: Long := 0x4000000300000000
  const OPCODE_AND: Long := 0x4000000400000000
  const OPCODE_OR: Long := 0x4000000500000000
  const OPCODE_NEG: Long := 0x4000000600000000
  const OPCODE_NOT: Long := 0x4000000700000000
  const OPCODE_BAND: Long := 0x4000000800000000
  const OPCODE_BOR: Long := 0x4000000900000000
  const OPCODE_BNOT: Long := 0x4000001000000000
  const OPCODE_BXOR: Long := 0x4000001100000000
  const OPCODE_LSHIFT: Long := 0x4000001200000000
  const OPCODE_RSHIFT: Long := 0x4000001300000000
  const OPCODE_ALLOW_ALIASES: Long := 0x4000001400000000
  const OPCODE_ALLOW_TOKENS: Long := 0x4000001500000000
  const OPCODE_ISCODE: Long := 0x4000010000000000
  const OPCODE_ISSETCARD: Long := 0x4000010100000000
  const OPCODE_ISTYPE: Long := 0x4000010200000000
  const OPCODE_ISRACE: Long := 0x4000010300000000
  const OPCODE_ISATTRIBUTE: Long := 0x4000010400000000
  const OPCODE_GETCODE: Long := 0x4000010500000000
  const OPCODE_GETTYPE: Long := 0x4000010700000000
  const OPCODE_GETRACE: Long := 0x4000010800000000
  const OPCODE_GETATTRIBUTE: Long := 0x4000010900000000

  const CARD_MARINE_DOLPHIN: bv32 := 78734254
  const CARD_TWINKLE_MOSS: bv32 := 13857930
  const TYPE_MONSTER_TOKEN: bv32 := 0x4001

  datatype CardFacts = CardFacts(code: bv32, alias: bv32, setcodes: Long, kind: bv32, race: Long, attribute: bv32)

  // ----- Opcodes -----

  datatype BinaryOp = ADD | SUB | MUL | DIV | AND | OR | BAND | BOR | BXOR | LSHIFT | RSHIFT
  datatype UnaryOp = NEG | NOT | BNOT | ISCODE | ISSETCARD | ISTYPE | ISRACE | ISATTRIBUTE
  datatype Getter = GETCODE | GETTYPE | GETRACE | GETATTRIBUTE

  datatype Opcode = Binary(b: BinaryOp) | Unary(u: UnaryOp) | Get(g: Getter) | AllowAliases | AllowTokens | Operand(value: Long)

  /** What a word of the list stands for; every word that is none of the others is an operand. */
  function Read(word: Long): Opcode {
    if word == OPCODE_ADD then Binary(ADD)
    else if word == OPCODE_SUB then Binary(SUB)
    else if word == OPCODE_MUL then Binary(MUL)
    else if word == OPCODE_DIV then Binary(DIV)
    else if word == OPCODE_AND then Binary(AND)
    else if word == OPCODE_OR then Binary(OR)
    else if word == OPCODE_BAND then Binary(BAND)
    else if word == OPCODE_BOR then Binary(BOR)
    else if word == OPCODE_BXOR then Binary(BXOR)
    else if word == OPCODE_LSHIFT then Binary(LSHIFT)
    else if word == OPCODE_RSHIFT then Binary(RSHIFT)
    else if word == OPCODE_NEG then Unary(NEG)
    else if word == OPCODE_NOT then Unary(NOT)
    else if word == OPCODE_BNOT then Unary(BNOT)
    else if word == OPCODE_ISCODE then Unary(ISCODE)
    else if word == OPCODE_ISSETCARD then Unary(ISSETCARD)
    else if word == OPCODE_ISTYPE then Unary(ISTYPE)
    else if word == OPCODE_ISRACE then Unary(ISRACE)
    else if word == OPCODE_ISATTRIBUTE then Unary(ISATTRIBUTE)
    else if word == OPCODE_GETCODE then Get(GETCODE)
    else if word == OPCODE_GETTYPE then Get(GETTYPE)
    else if word == OPCODE_GETRACE then Get(GETRACE)
    else if word == OPCODE_GETATTRIBUTE then Get(GETATTRIBUTE)
    else if word == OPCODE_ALLOW_ALIASES then AllowAliases
    else if word == OPCODE_ALLOW_TOKENS then AllowTokens
    else Operand(word)
  }

  // ----- The operations on 64-bit words -----

  function Bool(value: bool): Long { if value then 1 else 0 }

  /** A 32-bit field as a word. */
  function Unsigned(value: bv32): Long { value as Long }

  /** `(int) v`. */
  function Narrow(v: Long): bv32 { (v & 0xFFFF_FFFF) as bv32 }

  function Signed(v: Long): int { if v >= 0x8000_0000_0000_0000 then v as int - 0x1_0000_0000_0000_0000 else v as int }

  /** Division towards zero; by zero it yields zero. */
  function Quotient(a: int, b: int): int {
    if b == 0 then 0
    else
      var size := (if a < 0 then -a else a) / (if b < 0 then -b else b);
      if (a < 0) != (b < 0) then -size else size
  }

  /** The word a number wraps around to. */
  function Wrapped(n: int): Long { (n % 0x1_0000_0000_0000_0000) as Long }

  function Divide(l: Long, r: Long): Long {
    hide *;
    Wrapped(Quotient(Signed(l), Signed(r)))
  }

  function Multiply(l: Long, r: Long): Long { l * r }

  function Both(l: Long, r: Long): Long { l & r }

  function Either(l: Long, r: Long): Long { l | r }

  function OneOf(l: Long, r: Long): Long { l ^ r }

  function Flip(v: Long): Long { !v }

  function Up(v: Long, n: Long): Long
    requires n < 64
  {
    v << n
  }

  /** Zeros are shifted in. */
  function Down(v: Long, n: Long): Long
    requires n < 64
  {
    v >> n
  }

  /** How far a shift by `r` goes: its lowest six bits. */
  function Distance(r: Long): (n: Long)
    ensures n < 64
  {
    r & 63
  }

  /** The sign is shifted in. */
  function ShiftRight(l: Long, r: Long): Long {
    if l >= 0x8000_0000_0000_0000 then Flip(Down(Flip(l), Distance(r))) else Down(l, Distance(r))
  }

  function Apply(op: BinaryOp, l: Long, r: Long): Long {
    match op
    case ADD => l + r
    case SUB => l - r
    case MUL => Multiply(l, r)
    case DIV => Divide(l, r)
    case AND => Bool(l != 0 && r != 0)
    case OR => Bool(l != 0 || r != 0)
    case BAND => Both(l, r)
    case BOR => Either(l, r)
    case BXOR => OneOf(l, r)
    case LSHIFT => Up(l, Distance(r))
    case RSHIFT => ShiftRight(l, r)
  }

  function Low16(v: Long): Long { v & 0xFFFF }

  /** The set code in one of the four slots, sixteen bits each. */
  function Slot(setcodes: Long, slot: int): bv32
    requires 0 <= slot < 4
  {
    Narrow(Low16(match slot
                 case 0 => setcodes
                 case 1 => Down(setcodes, 16)
                 case 2 => Down(setcodes, 32)
                 case _ => Down(setcodes, 48)))
  }

  /** The archetype matches exactly, the wanted sub-archetypes are among the card's. */
  predicate SlotMatches(setcode: bv32, wanted: bv32) {
    setcode != 0 && setcode & 0xFFF == wanted & 0xFFF && (setcode & 0xF000) & (wanted & 0xF000) == wanted & 0xF000
  }

  predicate IsSetCard(setcodes: Long, wanted: bv32) { exists slot :: 0 <= slot < 4 && SlotMatches(Slot(setcodes, slot), wanted) }

  method FindSetCard(setcodes: Long, wanted: bv32) returns (found: bool)
    ensures found == IsSetCard(setcodes, wanted)
  {
    hide Slot, SlotMatches;
    var slot := 0;
    while slot < 4
      invariant 0 <= slot <= 4
      invariant forall s :: 0 <= s < slot ==> !SlotMatches(Slot(setcodes, s), wanted)
    {
      if SlotMatches(Slot(setcodes, slot), wanted) { return true; }
      slot := slot + 1;
    }
    found := false;
  }

  function ApplyUnary(op: UnaryOp, v: Long, card: CardFacts): Long {
    match op
    case NEG => 0 - v
    case NOT => Bool(v == 0)
    case BNOT => Flip(v)
    case ISCODE => Bool(card.code == Narrow(v))
    case ISSETCARD => Bool(IsSetCard(card.setcodes, Narrow(v)))
    case ISTYPE => Both(Unsigned(card.kind), v)
    case ISRACE => Both(card.race, v)
    case ISATTRIBUTE => Both(Unsigned(card.attribute), v)
  }

  function Fetch(g: Getter, card: CardFacts): Long {
    match g
    case GETCODE => Unsigned(card.code)
    case GETTYPE => Unsigned(card.kind)
    case GETRACE => card.race
    case GETATTRIBUTE => Unsigned(card.attribute)
  }

  // ----- The machine -----

  /** One word: the stack's top is its last entry. An operator without enough operands does nothing. */
  function Step(stack: seq<Long>, word: Long, card: CardFacts): seq<Long> {
    match Read(word)
    case Binary(op) =>
      var n := |stack|;
      if n < 2 then stack else stack[..n - 2] + [Apply(op, stack[n - 2], stack[n - 1])]
    case Unary(op) =>
      var n := |stack|;
      if n < 1 then stack else stack[..n - 1] + [ApplyUnary(op, stack[n - 1], card)]
    case Get(g) => stack + [Fetch(g, card)]
    case AllowAliases => stack
    case AllowTokens => stack
    case Operand(value) => stack + [value]
  }

  function RunMachine(words: seq<Long>, stack: seq<Long>, card: CardFacts): seq<Long> {
    if words == [] then stack else Step(RunMachine(words[..|words| - 1], stack, card), words[|words| - 1], card)
  }

  /** The cards declarable whatever the alias and token rules say, and those rules. */
  predicate Permitted(card: CardFacts, allowAliases: bool, allowTokens: bool) {
    card.code == CARD_MARINE_DOLPHIN || card.code == CARD_TWINKLE_MOSS
    || ((allowAliases || card.alias == 0) && (allowTokens || card.kind & TYPE_MONSTER_TOKEN != TYPE_MONSTER_TOKEN))
  }

  predicate Allows(words: seq<Long>, a: Opcode) { exists w :: w in words && Read(w) == a }

  /** Exactly one truthy value is left, and the card is permitted. */
  predicate Accepted(words: seq<Long>, card: CardFacts) {
    var stack := RunMachine(words, [], card);
    && |stack| == 1 && stack[0] != 0
    && Permitted(card, Allows(words, AllowAliases), Allows(words, AllowTokens))
  }

  method Matches(opcodes: seq<Long>, card: CardFacts) returns (declarable: bool)
    ensures declarable == Accepted(opcodes, card)
  {
    hide Read, Apply, ApplyUnary, Fetch, Permitted, RunMachine, Allows;
    Nothing(card);
    var stack: seq<Long> := [];
    var allowAliases, allowTokens := false, false;
    for i := 0 to |opcodes|
      invariant stack == RunMachine(opcodes[..i], [], card)
      invariant allowAliases == Allows(opcodes[..i], AllowAliases) && allowTokens == Allows(opcodes[..i], AllowTokens)
    {
      var word := opcodes[i];
      assert opcodes[..i + 1] == opcodes[..i] + [word];
      RunSnoc(opcodes[..i], word, card);
      AllowsSnoc(opcodes[..i], word, AllowAliases);
      AllowsSnoc(opcodes[..i], word, AllowTokens);
      match Read(word)
      case Binary(op) =>
        if |stack| >= 2 {
          var rhs, lhs := stack[|stack| - 1], stack[|stack| - 2];
          stack := stack[..|stack| - 2] + [Apply(op, lhs, rhs)];
        }
      case Unary(op) =>
        if |stack| >= 1 { stack := stack[..|stack| - 1] + [ApplyUnary(op, stack[|stack| - 1], card)]; }
      case Get(g) => stack := stack + [Fetch(g, card)];
      case AllowAliases => allowAliases := true;
      case AllowTokens => allowTokens := true;
      case Operand(value) => stack := stack + [value];
    }
    assert opcodes[..|opcodes|] == opcodes;
    declarable := |stack| == 1 && stack[0] != 0 && Permitted(card, allowAliases, allowTokens);
  }

  lemma Nothing(card: CardFacts)
    ensures RunMachine([], [], card) == [] && !Allows([], AllowAliases) && !Allows([], AllowTokens)
  {
  }

  lemma RunSnoc(words: seq<Long>, word: Long, card: CardFacts)
    ensures RunMachine(words + [word], [], card) == Step(RunMachine(words, [], card), word, card)
  {
    hide Step;
    assert (words + [word])[..|words|] == words;
  }

  lemma AllowsSnoc(words: seq<Long>, word: Long, a: Opcode)
    ensures Allows(words + [word], a) <==> Allows(words, a) || Read(word) == a
  {
    hide Read;
    if Read(word) == a { assert word in words + [word]; }
    if Allows(words, a) {
      var w :| w in words && Read(w) == a;
      assert w in words + [word];
    }
  }

  // ----- Expressions -----

  /** The leaves and operators carry the words that stand for them. */
  datatype Expr = Leaf(word: Long) | Op1(word: Long, arg: Expr) | Op2(word: Long, left: Expr, right: Expr) {
    predicate Fits() {
      match this
      case Leaf(w) => Read(w).Get? || Read(w).Operand?
      case Op1(w, e) => Read(w).Unary? && e.Fits()
      case Op2(w, l, r) => Read(w).Binary? && l.Fits() && r.Fits()
    }

    /** Operands first, then the operator. */
    function Postfix(): seq<Long> {
      match this
      case Leaf(w) => [w]
      case Op1(w, e) => e.Postfix() + [w]
      case Op2(w, l, r) => l.Postfix() + r.Postfix() + [w]
    }

    function Eval(card: CardFacts): Long
      requires Fits()
    {
      match this
      case Leaf(w) => (match Read(w) case Get(g) => Fetch(g, card) case Operand(value) => value)
      case Op1(w, e) => ApplyUnary(Read(w).u, e.Eval(card), card)
      case Op2(w, l, r) => Apply(Read(w).b, l.Eval(card), r.Eval(card))
    }
  }

  lemma {:induction false} RunConcat(a: seq<Long>, b: seq<Long>, stack: seq<Long>, card: CardFacts)
    ensures RunMachine(a + b, stack, card) == RunMachine(b, RunMachine(a, stack, card), card)
    decreases |b|
  {
    hide Step;
    if b == [] {
      assert a + b == a;
    } else {
      assert (a + b)[..|a + b| - 1] == a + b[..|b| - 1];
      RunConcat(a, b[..|b| - 1], stack, card);
    }
  }

  lemma RunOne(w: Long, stack: seq<Long>, card: CardFacts)
    ensures RunMachine([w], stack, card) == Step(stack, w, card)
  {
    hide Step;
    assert [w][..0] == [];
  }

  /** On any stack, the postfix form of an expression pushes exactly the expression's value. */
  lemma {:induction false} PostfixEvaluates(e: Expr, stack: seq<Long>, card: CardFacts)
    requires e.Fits()
    ensures RunMachine(e.Postfix(), stack, card) == stack + [e.Eval(card)]
  {
    hide Read, Apply, ApplyUnary, Fetch, RunMachine;
    match e
    case Leaf(w) => RunOne(w, stack, card);
    case Op1(w, arg) =>
      PostfixEvaluates(arg, stack, card);
      RunConcat(arg.Postfix(), [w], stack, card);
      RunOne(w, stack + [arg.Eval(card)], card);
    case Op2(w, l, r) =>
      var x, y := l.Eval(card), r.Eval(card);
      PostfixEvaluates(l, stack, card);
      PostfixEvaluates(r, stack + [x], card);
      RunConcat(l.Postfix(), r.Postfix(), stack, card);
      RunConcat(l.Postfix() + r.Postfix(), [w], stack, card);
      RunOne(w, stack + [x] + [y], card);
      assert (stack + [x] + [y])[..|stack|] == stack;
  }

  // ----- Allowances -----

  predicate IsAllowance(word: Long) { Read(word).AllowAliases? || Read(word).AllowTokens? }

  function WithoutAllowances(words: seq<Long>): seq<Long> {
    if words == [] then []
    else WithoutAllowances(words[..|words| - 1]) + if IsAllowance(words[|words| - 1]) then [] else [words[|words| - 1]]
  }

  lemma {:induction false} AllowancesDoNothing(words: seq<Long>, stack: seq<Long>, card: CardFacts)
    ensures RunMachine(words, stack, card) == RunMachine(WithoutAllowances(words), stack, card)
    decreases |words|
  {
    hide Read, Apply, ApplyUnary, Fetch;
    if words == [] {
    } else {
      var n := |words| - 1;
      AllowancesDoNothing(words[..n], stack, card);
      var rest := WithoutAllowances(words[..n]);
      assert rest + [] == rest;
      if !IsAllowance(words[n]) {
        RunConcat(WithoutAllowances(words[..n]), [words[n]], stack, card);
        RunOne(words[n], RunMachine(WithoutAllowances(words[..n]), stack, card), card);
      }
    }
  }

  /** Allowances may stand anywhere: lists that have the same ones and are otherwise the same accept the same cards. */
  lemma AllowancesMayMove(a: seq<Long>, b: seq<Long>, card: CardFacts)
    requires WithoutAllowances(a) == WithoutAllowances(b)
    requires Allows(a, AllowAliases) == Allows(b, AllowAliases) && Allows(a, AllowTokens) == Allows(b, AllowTokens)
    ensures Accepted(a, card) == Accepted(b, card)
  {
    hide RunMachine, WithoutAllowances;
    AllowancesDoNothing(a, [], card);
    AllowancesDoNothing(b, [], card);
  }

  /** A list that is an expression with allowances strewn in accepts a card exactly if the expression is truthy of it. */
  lemma AcceptedMeans(words: seq<Long>, e: Expr, card: CardFacts)
    requires e.Fits() && WithoutAllowances(words) == e.Postfix()
    ensures Accepted(words, card) <==>
              e.Eval(card) != 0 && Permitted(card, Allows(words, AllowAliases), Allows(words, AllowTokens))
  {
    hide Read, Permitted, RunMachine, WithoutAllowances, Allows;
    AllowancesDoNothing(words, [], card);
    PostfixEvaluates(e, [], card);
    assert [] + [e.Eval(card)] == [e.Eval(card)];
  }

  // ----- Every list at all denotes expressions -----

  /** What a word does to a stack of expressions: an operator without operands is left out. */
  function Denote(es: seq<Expr>, w: Long): seq<Expr> {
    var n := |es|;
    match Read(w)
    case Binary(_) => if n < 2 then es else es[..n - 2] + [Op2(w, es[n - 2], es[n - 1])]
    case Unary(_) => if n < 1 then es else es[..n - 1] + [Op1(w, es[n - 1])]
    case AllowAliases => es
    case AllowTokens => es
    case _ => es + [Leaf(w)]
  }

  /** The expressions on the stack after a list, whatever the list. */
  function Denoted(words: seq<Long>): (es: seq<Expr>)
    ensures forall i :: 0 <= i < |es| ==> es[i].Fits()
  {
    hide Read;
    if words == [] then [] else Denote(Denoted(words[..|words| - 1]), words[|words| - 1])
  }

  function Values(es: seq<Expr>, card: CardFacts): seq<Long>
    requires forall i :: 0 <= i < |es| ==> es[i].Fits()
  {
    seq(|es|, i requires 0 <= i < |es| => es[i].Eval(card))
  }

  lemma ValuesReplaced(es: seq<Expr>, k: nat, e: Expr, card: CardFacts)
    requires k <= |es| && e.Fits() && forall i :: 0 <= i < |es| ==> es[i].Fits()
    ensures forall i :: 0 <= i < |es[..k] + [e]| ==> (es[..k] + [e])[i].Fits()
    ensures Values(es[..k] + [e], card) == Values(es, card)[..k] + [e.Eval(card)]
  {
  }

  /** The machine is total: on any list at all its stack holds the values of the expressions the list denotes. */
  lemma {:induction false} MachineMeansExpressions(words: seq<Long>, card: CardFacts)
    ensures RunMachine(words, [], card) == Values(Denoted(words), card)
    decreases |words|
  {
    hide Read, Apply, ApplyUnary, Fetch, Values;
    if words == [] {
      NoValues(card);
    } else {
      var w, before := words[|words| - 1], words[..|words| - 1];
      MachineMeansExpressions(before, card);
      StepMeans(Denoted(before), w, card);
    }
  }

  lemma NoValues(card: CardFacts)
    ensures Values([], card) == []
  {
  }

  /** The last expression on a stack and its value. */
  lemma ValuesTop(es: seq<Expr>, k: nat, card: CardFacts)
    requires k < |es| && forall i :: 0 <= i < |es| ==> es[i].Fits()
    ensures |Values(es, card)| == |es| && Values(es, card)[k] == es[k].Eval(card)
  {
  }

  /** One word does to the values what it does to the expressions. */
  lemma StepMeans(es: seq<Expr>, w: Long, card: CardFacts)
    requires forall i :: 0 <= i < |es| ==> es[i].Fits()
    ensures var after := Denote(es, w);
            (forall i :: 0 <= i < |after| ==> after[i].Fits()) && Step(Values(es, card), w, card) == Values(after, card)
  {
    hide Read, Apply, ApplyUnary, Fetch, Values;
    var n := |es|;
    ValuesLength(es, card);
    match Read(w)
    case Binary(op) =>
      if n >= 2 {
        ValuesTop(es, n - 2, card);
        ValuesTop(es, n - 1, card);
        ValuesReplaced(es, n - 2, Op2(w, es[n - 2], es[n - 1]), card);
      }
    case Unary(op) =>
      if n >= 1 {
        ValuesTop(es, n - 1, card);
        ValuesReplaced(es, n - 1, Op1(w, es[n - 1]), card);
      }
    case AllowAliases =>
    case AllowTokens =>
    case _ =>
      ValuesReplaced(es, n, Leaf(w), card);
      assert es[..n] == es && Values(es, card)[..n] == Values(es, card);
  }

  lemma ValuesLength(es: seq<Expr>, card: CardFacts)
    requires forall i :: 0 <= i < |es| ==> es[i].Fits()
    ensures |Values(es, card)| == |es|
  {
  }

  // ----- Which words of a list count -----

  /** The words that were not left out for want of operands, allowances aside. */
  function Effective(words: seq<Long>): seq<Long> {
    if words == [] then []
    else
      var before, w := words[..|words| - 1], words[|words| - 1];
      var n := |Denoted(before)|;
      match Read(w)
      case Binary(_) => if n < 2 then Effective(before) else Effective(before) + [w]
      case Unary(_) => if n < 1 then Effective(before) else Effective(before) + [w]
      case AllowAliases => Effective(before)
      case AllowTokens => Effective(before)
      case _ => Effective(before) + [w]
  }

  function Postfixes(es: seq<Expr>): seq<Long> {
    if es == [] then [] else Postfixes(es[..|es| - 1]) + es[|es| - 1].Postfix()
  }

  /** The denoted expressions, written out again, are the list without what had no effect. */
  lemma {:induction false} DenotedWrittenOut(words: seq<Long>)
    ensures Postfixes(Denoted(words)) == Effective(words)
    decreases |words|
  {
    hide Read, Postfixes;
    assert Postfixes([]) == [] by { EmptyPostfixes(); }
    if words == [] {
    } else {
      var before, w := words[..|words| - 1], words[|words| - 1];
      DenotedWrittenOut(before);
      var es := Denoted(before);
      var n := |es|;
      match Read(w)
      case Binary(_) => if n >= 2 { BinaryWrittenOut(es, w); }
      case Unary(_) => if n >= 1 { UnaryWrittenOut(es, w); }
      case AllowAliases =>
      case AllowTokens =>
      case _ => PostfixesSnoc(es, Leaf(w));
    }
  }

  lemma BinaryWrittenOut(es: seq<Expr>, w: Long)
    requires |es| >= 2
    ensures Postfixes(es[..|es| - 2] + [Op2(w, es[|es| - 2], es[|es| - 1])]) == Postfixes(es) + [w]
  {
    hide Postfixes, Read;
    var left, right := es[|es| - 2], es[|es| - 1];
    LastTwo(es);
    PostfixesSnoc(es[..|es| - 2], Op2(w, left, right));
    Reassociate(Postfixes(es[..|es| - 2]), left.Postfix(), right.Postfix(), [w]);
  }

  lemma Reassociate(a: seq<Long>, b: seq<Long>, c: seq<Long>, d: seq<Long>)
    ensures a + (b + c + d) == a + b + c + d
  {
  }

  lemma UnaryWrittenOut(es: seq<Expr>, w: Long)
    requires |es| >= 1
    ensures Postfixes(es[..|es| - 1] + [Op1(w, es[|es| - 1])]) == Postfixes(es) + [w]
  {
    PostfixesSnoc(es[..|es| - 1], Op1(w, es[|es| - 1]));
  }

  lemma EmptyPostfixes()
    ensures Postfixes([]) == []
  {
  }

  lemma PostfixesSnoc(es: seq<Expr>, e: Expr)
    ensures Postfixes(es + [e]) == Postfixes(es) + e.Postfix()
  {
    assert (es + [e])[..|es|] == es;
  }

  lemma LastTwo(es: seq<Expr>)
    requires |es| >= 2
    ensures Postfixes(es) == Postfixes(es[..|es| - 2]) + es[|es| - 2].Postfix() + es[|es| - 1].Postfix()
  {
    assert es[..|es| - 1][..|es| - 2] == es[..|es| - 2];
  }
}
