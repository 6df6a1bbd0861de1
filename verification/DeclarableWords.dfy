/**
 What every word of an opcode list does to the stack, said of numbers, bits and card facts: the words by their values,
 their effects without the machine's own tables.
 */
module DeclarableWords {
  import opened DeclarableFilter

  // ----- One word on a stack -----

  lemma LastOff(stack: seq<Long>, l: Long, r: Long)
    ensures (stack + [r])[..|stack|] == stack && (stack + [l, r])[..|stack|] == stack
  {
  }

  /** A word that stands for an operator with two operands takes the second from the top first. */
  lemma BinaryStep(stack: seq<Long>, l: Long, r: Long, word: Long, op: BinaryOp, card: CardFacts)
    requires Read(word) == Binary(op)
    ensures Step(stack + [l, r], word, card) == stack + [Apply(op, l, r)]
  {
    hide Read, Apply;
    LastOff(stack, l, r);
  }

  lemma UnaryStep(stack: seq<Long>, v: Long, word: Long, op: UnaryOp, card: CardFacts)
    requires Read(word) == Unary(op)
    ensures Step(stack + [v], word, card) == stack + [ApplyUnary(op, v, card)]
  {
    hide Read, ApplyUnary;
    LastOff(stack, 0, v);
  }

  lemma BinaryWords()
    ensures Read(OPCODE_ADD) == Binary(ADD) && Read(OPCODE_SUB) == Binary(SUB) && Read(OPCODE_MUL) == Binary(MUL)
    ensures Read(OPCODE_DIV) == Binary(DIV) && Read(OPCODE_AND) == Binary(AND) && Read(OPCODE_OR) == Binary(OR)
    ensures Read(OPCODE_BAND) == Binary(BAND) && Read(OPCODE_BOR) == Binary(BOR) && Read(OPCODE_BXOR) == Binary(BXOR)
    ensures Read(OPCODE_LSHIFT) == Binary(LSHIFT) && Read(OPCODE_RSHIFT) == Binary(RSHIFT)
  {
  }

  lemma UnaryWords()
    ensures Read(OPCODE_NEG) == Unary(NEG) && Read(OPCODE_NOT) == Unary(NOT) && Read(OPCODE_BNOT) == Unary(BNOT)
    ensures Read(OPCODE_ISCODE) == Unary(ISCODE) && Read(OPCODE_ISSETCARD) == Unary(ISSETCARD)
    ensures Read(OPCODE_ISTYPE) == Unary(ISTYPE) && Read(OPCODE_ISRACE) == Unary(ISRACE)
    ensures Read(OPCODE_ISATTRIBUTE) == Unary(ISATTRIBUTE)
  {
  }

  // ----- Numbers -----

  /** Sums, differences, products and negations of 64-bit words, which wrap around. */
  lemma ArithmeticYields(stack: seq<Long>, l: Long, r: Long, card: CardFacts)
    ensures Step(stack + [l, r], OPCODE_ADD, card) == stack + [l + r]
    ensures Step(stack + [l, r], OPCODE_SUB, card) == stack + [l - r]
    ensures Step(stack + [l, r], OPCODE_MUL, card) == stack + [l * r]
    ensures Step(stack + [r], OPCODE_NEG, card) == stack + [0 - r]
  {
    hide Step, Read;
    BinaryWords();
    UnaryWords();
    BinaryStep(stack, l, r, OPCODE_ADD, ADD, card);
    BinaryStep(stack, l, r, OPCODE_SUB, SUB, card);
    BinaryStep(stack, l, r, OPCODE_MUL, MUL, card);
    UnaryStep(stack, r, OPCODE_NEG, NEG, card);
  }

  function Magnitude(n: int): nat { if n < 0 then -n else n }

  /** A quotient and a remainder: the remainder is smaller than the divisor and has the sign of the dividend. */
  predicate Divides(a: int, b: int, q: int, m: int) {
    b != 0 && a == q * b + m && Magnitude(m) < Magnitude(b) && (m == 0 || (m < 0) == (a < 0))
  }

  /** Division of signed numbers is towards zero, and by zero yields zero. */
  lemma DivisionYields(stack: seq<Long>, l: Long, r: Long, q: int, m: int, card: CardFacts)
    ensures Divides(Signed(l), Signed(r), q, m) ==> Step(stack + [l, r], OPCODE_DIV, card) == stack + [Wrapped(q)]
    ensures Signed(r) == 0 ==> Step(stack + [l, r], OPCODE_DIV, card) == stack + [Wrapped(0)]
  {
    hide Step, Read, Signed, Wrapped, Quotient, Divides;
    BinaryWords();
    BinaryStep(stack, l, r, OPCODE_DIV, DIV, card);
    DivideIs(l, r);
    ByZero(Signed(l));
    if Divides(Signed(l), Signed(r), q, m) { QuotientUnique(Signed(l), Signed(r), q, m); }
  }

  lemma DivideIs(l: Long, r: Long)
    ensures Apply(DIV, l, r) == Wrapped(Quotient(Signed(l), Signed(r)))
  {
    hide Wrapped, Quotient, Signed;
  }

  lemma ByZero(a: int)
    ensures Quotient(a, 0) == 0
  {
  }

  lemma QuotientUnique(a: int, b: int, q: int, m: int)
    requires Divides(a, b, q, m)
    ensures Quotient(a, b) == q
  {
    var k := if (a < 0) != (b < 0) then -q else q;
    assert Magnitude(a) == k * Magnitude(b) + Magnitude(m);
    RatioUnique(Magnitude(a), Magnitude(b), k, Magnitude(m));
  }

  lemma RatioUnique(a: nat, b: nat, k: int, m: nat)
    requires a == k * b + m && m < b
    ensures a / b == k
  {
    SameRatio(a / b, a % b, k, m, b);
  }

  lemma SameRatio(d: int, e: int, k: int, m: int, b: int)
    requires d * b + e == k * b + m && 0 <= e < b && 0 <= m < b
    ensures d == k
  {
    Distribute(k, d, b);
    assert k > d ==> (k - d) * b >= b by { if k > d { AtLeastOnce(k - d, b); } }
    assert k < d ==> (d - k) * b >= b by { if k < d { AtLeastOnce(d - k, b); } }
  }

  lemma Distribute(k: int, d: int, b: int)
    ensures (k - d) * b == k * b - d * b && (d - k) * b == d * b - k * b
  {
  }

  lemma AtLeastOnce(x: int, b: int)
    requires x >= 1 && b > 0
    ensures x * b >= b
  {
  }

  /** Every division by a number other than zero has such a quotient. */
  lemma QuotientExists(a: int, b: int)
    requires b != 0
    ensures exists m :: Divides(a, b, Quotient(a, b), m)
  {
    var k, t := Magnitude(a) / Magnitude(b), Magnitude(a) % Magnitude(b);
    var m := if a < 0 then -t else t;
    assert Magnitude(a) == k * Magnitude(b) + t;
    assert Divides(a, b, Quotient(a, b), m);
  }

  /** Truth is a word other than zero; the answers are one and zero. */
  lemma LogicYields(stack: seq<Long>, l: Long, r: Long, card: CardFacts)
    ensures Step(stack + [l, r], OPCODE_AND, card) == stack + [if l != 0 && r != 0 then 1 else 0]
    ensures Step(stack + [l, r], OPCODE_OR, card) == stack + [if l == 0 && r == 0 then 0 else 1]
    ensures Step(stack + [r], OPCODE_NOT, card) == stack + [if r == 0 then 1 else 0]
  {
    hide Step, Read;
    BinaryWords();
    UnaryWords();
    BinaryStep(stack, l, r, OPCODE_AND, AND, card);
    BinaryStep(stack, l, r, OPCODE_OR, OR, card);
    UnaryStep(stack, r, OPCODE_NOT, NOT, card);
  }

  // ----- Bits -----

  /** Bit `i` of a word, counted from the lowest. */
  predicate Bit(v: Long, i: Long)
    requires i < 64
  {
    (v >> i) & 1 == 1
  }

  /** The bit `n` places below, zero where there is none. */
  predicate BitBelow(v: Long, n: Long, i: Long)
    requires n < 64 && i < 64
  {
    i >= n && Bit(v, i - n)
  }

  /** The bit `n` places above, the sign where there is none. */
  predicate BitAbove(v: Long, n: Long, i: Long)
    requires n < 64 && i < 64
  {
    Bit(v, if i + n < 64 then i + n else 63)
  }

  /** The stack is `below` and a word on top of it, whose bit `i` is `bit`. */
  predicate Tops(stack: seq<Long>, below: seq<Long>, i: Long, bit: bool)
    requires i < 64
  {
    |stack| == |below| + 1 && stack[..|below|] == below && Bit(stack[|below|], i) == bit
  }

  lemma TopIs(below: seq<Long>, top: Long, i: Long)
    requires i < 64
    ensures Tops(below + [top], below, i, Bit(top, i))
  {
    hide Bit;
  }

  lemma AndBit(l: Long, r: Long, i: Long)
    requires i < 64
    ensures Bit(l & r, i) == (Bit(l, i) && Bit(r, i))
  {
  }

  lemma BothBit(l: Long, r: Long, i: Long)
    requires i < 64
    ensures Bit(Both(l, r), i) == (Bit(l, i) && Bit(r, i))
  {
    hide Bit;
    AndBit(l, r, i);
  }

  lemma OrBit(l: Long, r: Long, i: Long)
    requires i < 64
    ensures Bit(l | r, i) == (Bit(l, i) || Bit(r, i))
  {
  }

  lemma EitherBit(l: Long, r: Long, i: Long)
    requires i < 64
    ensures Bit(Either(l, r), i) == (Bit(l, i) || Bit(r, i))
  {
    hide Bit;
    OrBit(l, r, i);
  }

  lemma XorBit(l: Long, r: Long, i: Long)
    requires i < 64
    ensures Bit(l ^ r, i) == (Bit(l, i) != Bit(r, i))
  {
  }

  lemma OneOfBit(l: Long, r: Long, i: Long)
    requires i < 64
    ensures Bit(OneOf(l, r), i) == (Bit(l, i) != Bit(r, i))
  {
    hide Bit;
    XorBit(l, r, i);
  }

  lemma NotBit(v: Long, i: Long)
    requires i < 64
    ensures Bit(!v, i) == !Bit(v, i)
  {
  }

  lemma FlipBit(v: Long, i: Long)
    requires i < 64
    ensures Bit(Flip(v), i) == !Bit(v, i)
  {
    hide Bit;
    NotBit(v, i);
  }

  lemma SignBit(v: Long)
    ensures Bit(v, 63) == (v >= 0x8000_0000_0000_0000)
  {
  }

  lemma UpByLess8(v: Long, n: Long, i: Long)
    requires i < 64 && n < 8
    ensures Bit(v << n, i) == (i >= n && Bit(v, i - n))
  {
  }

  lemma UpByLess16(v: Long, n: Long, i: Long)
    requires i < 64 && 8 <= n < 16
    ensures Bit(v << n, i) == (i >= n && Bit(v, i - n))
  {
  }

  lemma UpByLess32(v: Long, n: Long, i: Long)
    requires i < 64 && 16 <= n < 32
    ensures Bit(v << n, i) == (i >= n && Bit(v, i - n))
  {
  }

  lemma UpByMore(v: Long, n: Long, i: Long)
    requires i < 64 && 32 <= n < 64
    ensures Bit(v << n, i) == (i >= n && Bit(v, i - n))
  {
  }

  lemma UpBit(v: Long, n: Long, i: Long)
    requires i < 64 && n < 64
    ensures Bit(Up(v, n), i) == (i >= n && Bit(v, i - n))
  {
    hide Bit;
    if n < 8 { UpByLess8(v, n, i); }
    else if n < 16 { UpByLess16(v, n, i); }
    else if n < 32 { UpByLess32(v, n, i); }
    else { UpByMore(v, n, i); }
  }

  lemma DownByLess8(v: Long, n: Long, i: Long)
    requires i < 64 && n < 8
    ensures Bit(v >> n, i) == (i + n < 64 && Bit(v, i + n))
  {
  }

  lemma DownByLess16(v: Long, n: Long, i: Long)
    requires i < 64 && 8 <= n < 16
    ensures Bit(v >> n, i) == (i + n < 64 && Bit(v, i + n))
  {
  }

  lemma DownByLess32(v: Long, n: Long, i: Long)
    requires i < 64 && 16 <= n < 32
    ensures Bit(v >> n, i) == (i + n < 64 && Bit(v, i + n))
  {
  }

  lemma DownByMore(v: Long, n: Long, i: Long)
    requires i < 64 && 32 <= n < 64
    ensures Bit(v >> n, i) == (i + n < 64 && Bit(v, i + n))
  {
  }

  lemma DownBit(v: Long, n: Long, i: Long)
    requires i < 64 && n < 64
    ensures Bit(Down(v, n), i) == (i + n < 64 && Bit(v, i + n))
  {
    hide Bit;
    if n < 8 { DownByLess8(v, n, i); }
    else if n < 16 { DownByLess16(v, n, i); }
    else if n < 32 { DownByLess32(v, n, i); }
    else { DownByMore(v, n, i); }
  }

  /** The bitwise words, bit by bit. */
  lemma BitsYield(stack: seq<Long>, l: Long, r: Long, i: Long, card: CardFacts)
    requires i < 64
    ensures Tops(Step(stack + [l, r], OPCODE_BAND, card), stack, i, Bit(l, i) && Bit(r, i))
    ensures Tops(Step(stack + [l, r], OPCODE_BOR, card), stack, i, Bit(l, i) || Bit(r, i))
    ensures Tops(Step(stack + [l, r], OPCODE_BXOR, card), stack, i, Bit(l, i) != Bit(r, i))
    ensures Tops(Step(stack + [r], OPCODE_BNOT, card), stack, i, !Bit(r, i))
  {
    hide Step, Read, Bit, Tops, Apply, ApplyUnary, Both, Either, OneOf, Flip;
    BinaryWords();
    UnaryWords();
    BinaryStep(stack, l, r, OPCODE_BAND, BAND, card);
    BinaryStep(stack, l, r, OPCODE_BOR, BOR, card);
    BinaryStep(stack, l, r, OPCODE_BXOR, BXOR, card);
    UnaryStep(stack, r, OPCODE_BNOT, BNOT, card);
    BitwiseApplied(l, r, card);
    BothBit(l, r, i);
    EitherBit(l, r, i);
    OneOfBit(l, r, i);
    FlipBit(r, i);
    TopIs(stack, Both(l, r), i);
    TopIs(stack, Either(l, r), i);
    TopIs(stack, OneOf(l, r), i);
    TopIs(stack, Flip(r), i);
  }

  lemma BitwiseApplied(l: Long, r: Long, card: CardFacts)
    ensures Apply(BAND, l, r) == Both(l, r) && Apply(BOR, l, r) == Either(l, r) && Apply(BXOR, l, r) == OneOf(l, r)
    ensures ApplyUnary(BNOT, r, card) == Flip(r)
  {
    hide Multiply, Divide, Both, Either, OneOf, Flip, Up, ShiftRight, IsSetCard, Narrow;
  }

  /** A left shift moves bits up and zeros in. */
  lemma LeftShiftYields(stack: seq<Long>, l: Long, r: Long, i: Long, card: CardFacts)
    requires i < 64
    ensures Tops(Step(stack + [l, r], OPCODE_LSHIFT, card), stack, i, BitBelow(l, Distance(r), i))
  {
    hide Step, Read, Bit, BitBelow, Tops, Apply, Distance, Up;
    BinaryWords();
    BinaryStep(stack, l, r, OPCODE_LSHIFT, LSHIFT, card);
    ShiftsApplied(l, r);
    ShiftLeftBit(l, Distance(r), i);
    TopIs(stack, Up(l, Distance(r)), i);
  }

  /** A right shift moves bits down and the sign in. */
  lemma RightShiftYields(stack: seq<Long>, l: Long, r: Long, i: Long, card: CardFacts)
    requires i < 64
    ensures Tops(Step(stack + [l, r], OPCODE_RSHIFT, card), stack, i, BitAbove(l, Distance(r), i))
  {
    hide Step, Read, Bit, BitAbove, Tops, Apply, Distance, ShiftRight;
    BinaryWords();
    BinaryStep(stack, l, r, OPCODE_RSHIFT, RSHIFT, card);
    ShiftsApplied(l, r);
    ShiftRightBit(l, r, i);
    TopIs(stack, ShiftRight(l, r), i);
  }

  lemma ShiftLeftBit(v: Long, n: Long, i: Long)
    requires n < 64 && i < 64
    ensures Bit(Up(v, n), i) == BitBelow(v, n, i)
  {
    hide Bit, Up;
    UpBit(v, n, i);
  }

  lemma ShiftsApplied(l: Long, r: Long)
    ensures Apply(LSHIFT, l, r) == Up(l, Distance(r)) && Apply(RSHIFT, l, r) == ShiftRight(l, r)
  {
    hide Multiply, Divide, Both, Either, OneOf, Up, ShiftRight, Distance;
  }

  lemma ShiftRightBit(l: Long, r: Long, i: Long)
    requires i < 64
    ensures Bit(ShiftRight(l, r), i) == BitAbove(l, Distance(r), i)
  {
    hide Bit, Distance, Flip, Down, BitAbove;
    if l >= 0x8000_0000_0000_0000 { SignedDown(l, Distance(r), i); } else { UnsignedDown(l, Distance(r), i); }
  }

  lemma UnsignedDown(v: Long, n: Long, i: Long)
    requires n < 64 && i < 64 && v < 0x8000_0000_0000_0000
    ensures Bit(Down(v, n), i) == BitAbove(v, n, i)
  {
    hide Bit, Down;
    SignBit(v);
    DownBit(v, n, i);
  }

  lemma SignedDown(v: Long, n: Long, i: Long)
    requires n < 64 && i < 64 && v >= 0x8000_0000_0000_0000
    ensures Bit(Flip(Down(Flip(v), n)), i) == BitAbove(v, n, i)
  {
    hide Bit, Flip, Down;
    SignBit(v);
    DownBit(Flip(v), n, i);
    FlipBit(Down(Flip(v), n), i);
    if i + n < 64 { FlipBit(v, i + n); }
  }

  // ----- Card facts -----

  /** The words that compare with the card: its code whole, its kind, race and attribute bit by bit. */
  lemma CardWordsYield(stack: seq<Long>, v: Long, i: Long, card: CardFacts)
    requires i < 64
    ensures Step(stack + [v], OPCODE_ISCODE, card) == stack + [if card.code as Long == v & 0xFFFF_FFFF then 1 else 0]
    ensures Tops(Step(stack + [v], OPCODE_ISTYPE, card), stack, i, Bit(card.kind as Long, i) && Bit(v, i))
    ensures Tops(Step(stack + [v], OPCODE_ISRACE, card), stack, i, Bit(card.race, i) && Bit(v, i))
    ensures Tops(Step(stack + [v], OPCODE_ISATTRIBUTE, card), stack, i, Bit(card.attribute as Long, i) && Bit(v, i))
  {
    hide Step, Read, Bit, Tops, ApplyUnary, Both, Narrow;
    UnaryWords();
    UnaryStep(stack, v, OPCODE_ISCODE, ISCODE, card);
    UnaryStep(stack, v, OPCODE_ISTYPE, ISTYPE, card);
    UnaryStep(stack, v, OPCODE_ISRACE, ISRACE, card);
    UnaryStep(stack, v, OPCODE_ISATTRIBUTE, ISATTRIBUTE, card);
    FactsApplied(v, card);
    NarrowIs(card.code, v);
    BothBit(card.kind as Long, v, i);
    BothBit(card.race, v, i);
    BothBit(card.attribute as Long, v, i);
    TopIs(stack, Both(card.kind as Long, v), i);
    TopIs(stack, Both(card.race, v), i);
    TopIs(stack, Both(card.attribute as Long, v), i);
  }

  lemma FactsApplied(v: Long, card: CardFacts)
    ensures ApplyUnary(ISCODE, v, card) == if card.code == Narrow(v) then 1 else 0
    ensures ApplyUnary(ISTYPE, v, card) == Both(card.kind as Long, v) && ApplyUnary(ISRACE, v, card) == Both(card.race, v)
    ensures ApplyUnary(ISATTRIBUTE, v, card) == Both(card.attribute as Long, v)
  {
    hide IsSetCard, Narrow, Both, Flip;
  }

  lemma NarrowIs(code: bv32, v: Long)
    ensures code == Narrow(v) <==> code as Long == v & 0xFFFF_FFFF
  {
  }

  /** The words that put a fact of the card on the stack. */
  lemma GettersYield(stack: seq<Long>, card: CardFacts)
    ensures Step(stack, OPCODE_GETCODE, card) == stack + [card.code as Long]
    ensures Step(stack, OPCODE_GETTYPE, card) == stack + [card.kind as Long]
    ensures Step(stack, OPCODE_GETRACE, card) == stack + [card.race]
    ensures Step(stack, OPCODE_GETATTRIBUTE, card) == stack + [card.attribute as Long]
  {
    hide Read, Step;
    GetterWords();
    GetStep(stack, OPCODE_GETCODE, GETCODE, card);
    GetStep(stack, OPCODE_GETTYPE, GETTYPE, card);
    GetStep(stack, OPCODE_GETRACE, GETRACE, card);
    GetStep(stack, OPCODE_GETATTRIBUTE, GETATTRIBUTE, card);
  }

  lemma GetStep(stack: seq<Long>, word: Long, g: Getter, card: CardFacts)
    requires Read(word) == Get(g)
    ensures Step(stack, word, card) == stack + [Fetch(g, card)]
  {
    hide Read, Fetch;
  }

  lemma GetterWords()
    ensures Read(OPCODE_GETCODE) == Get(GETCODE) && Read(OPCODE_GETTYPE) == Get(GETTYPE)
    ensures Read(OPCODE_GETRACE) == Get(GETRACE) && Read(OPCODE_GETATTRIBUTE) == Get(GETATTRIBUTE)
  {
  }

  // ----- Set codes -----

  /** A 16-bit set code answers to a wanted one: not zero, the same lowest twelve bits, and all its other bits set. */
  ghost predicate Answers(code: Long, wanted: Long) {
    && code != 0
    && forall i: Long :: i < 16 && (i < 12 || Bit(wanted, i)) ==> Bit(code, i) == Bit(wanted, i)
  }

  /** The card's four set codes, the first in the lowest bits. */
  function SetCodes(setcodes: Long): seq<Long> {
    [setcodes & 0xFFFF, (setcodes >> 16) & 0xFFFF, (setcodes >> 32) & 0xFFFF, (setcodes >> 48) & 0xFFFF]
  }

  /** The word that asks for a set code: one of the card's four answers to it. */
  lemma SetCardYields(stack: seq<Long>, v: Long, card: CardFacts)
    ensures Step(stack + [v], OPCODE_ISSETCARD, card) ==
              stack + [if exists code <- SetCodes(card.setcodes) :: Answers(code, v) then 1 else 0]
  {
    hide Step, Read, Answers, SlotMatches, Slot, SetCodes, Narrow;
    UnaryWords();
    UnaryStep(stack, v, OPCODE_ISSETCARD, ISSETCARD, card);
    var codes := SetCodes(card.setcodes);
    SlotsAreCodes(card.setcodes);
    forall k | 0 <= k < 4 ensures SlotMatches(Slot(card.setcodes, k), Narrow(v)) == Answers(codes[k], v) {
      MatchAnswers(codes[k], v);
    }
    if code :| code in codes && Answers(code, v) {
      var k :| 0 <= k < |codes| && codes[k] == code;
      assert SlotMatches(Slot(card.setcodes, k), Narrow(v));
    }
  }

  lemma SlotsAreCodes(setcodes: Long)
    ensures var codes := SetCodes(setcodes);
            |codes| == 4 && forall k :: 0 <= k < 4 ==> codes[k] <= 0xFFFF && Slot(setcodes, k) == Narrow(codes[k])
  {
    hide SetCodes, Slot, Narrow, Low16, Down;
    FourCodes(setcodes);
    FourSlots(setcodes);
    LowCode(setcodes);
    LowCode(Down(setcodes, 16));
    LowCode(Down(setcodes, 32));
    LowCode(Down(setcodes, 48));
  }

  lemma FourCodes(setcodes: Long)
    ensures SetCodes(setcodes) ==
              [Low16(setcodes), Low16(Down(setcodes, 16)), Low16(Down(setcodes, 32)), Low16(Down(setcodes, 48))]
  {
  }

  lemma FourSlots(setcodes: Long)
    ensures Slot(setcodes, 0) == Narrow(Low16(setcodes)) && Slot(setcodes, 1) == Narrow(Low16(Down(setcodes, 16)))
    ensures Slot(setcodes, 2) == Narrow(Low16(Down(setcodes, 32))) && Slot(setcodes, 3) == Narrow(Low16(Down(setcodes, 48)))
  {
    hide Narrow, Low16, Down;
  }

  lemma LowCode(v: Long)
    ensures Low16(v) <= 0xFFFF
  {
  }

  /** Comparing the masked codes is comparing their bits. */
  lemma MatchAnswers(code: Long, v: Long)
    requires code <= 0xFFFF
    ensures SlotMatches(Narrow(code), Narrow(v)) == Answers(code, v)
  {
    hide SlotMatches, Bit;
    if Answers(code, v) {
      AnswersMatch(code, v);
    } else if SlotMatches(Narrow(code), Narrow(v)) {
      MatchedNonzero(code, v);
      forall i: Long | i < 16 && (i < 12 || Bit(v, i)) ensures Bit(code, i) == Bit(v, i) { MatchedBit(code, v, i); }
    }
  }

  lemma MatchedNonzero(code: Long, v: Long)
    requires code <= 0xFFFF && SlotMatches(Narrow(code), Narrow(v))
    ensures code != 0
  {
  }

  lemma MatchedBit(code: Long, v: Long, i: Long)
    requires code <= 0xFFFF && SlotMatches(Narrow(code), Narrow(v)) && i < 16 && (i < 12 || Bit(v, i))
    ensures Bit(code, i) == Bit(v, i)
  {
  }

  lemma AnswersMatch(code: Long, v: Long)
    requires code <= 0xFFFF && Answers(code, v)
    ensures SlotMatches(Narrow(code), Narrow(v))
  {
    hide Bit;
    assert Bit(code, 0) == Bit(v, 0) && Bit(code, 1) == Bit(v, 1) && Bit(code, 2) == Bit(v, 2) && Bit(code, 3) == Bit(v, 3);
    assert Bit(code, 4) == Bit(v, 4) && Bit(code, 5) == Bit(v, 5) && Bit(code, 6) == Bit(v, 6) && Bit(code, 7) == Bit(v, 7);
    assert Bit(code, 8) == Bit(v, 8) && Bit(code, 9) == Bit(v, 9) && Bit(code, 10) == Bit(v, 10) && Bit(code, 11) == Bit(v, 11);
    assert Bit(v, 12) ==> Bit(code, 12);
    assert Bit(v, 13) ==> Bit(code, 13);
    assert Bit(v, 14) ==> Bit(code, 14);
    assert Bit(v, 15) ==> Bit(code, 15);
    SixteenBits(code, v);
  }

  lemma SixteenBits(code: Long, v: Long)
    requires 0 < code <= 0xFFFF
    requires Bit(code, 0) == Bit(v, 0) && Bit(code, 1) == Bit(v, 1) && Bit(code, 2) == Bit(v, 2) && Bit(code, 3) == Bit(v, 3)
    requires Bit(code, 4) == Bit(v, 4) && Bit(code, 5) == Bit(v, 5) && Bit(code, 6) == Bit(v, 6) && Bit(code, 7) == Bit(v, 7)
    requires Bit(code, 8) == Bit(v, 8) && Bit(code, 9) == Bit(v, 9) && Bit(code, 10) == Bit(v, 10) && Bit(code, 11) == Bit(v, 11)
    requires (Bit(v, 12) ==> Bit(code, 12)) && (Bit(v, 13) ==> Bit(code, 13))
    requires (Bit(v, 14) ==> Bit(code, 14)) && (Bit(v, 15) ==> Bit(code, 15))
    ensures SlotMatches(Narrow(code), Narrow(v))
  {
  }

  // ----- The other words -----

  /** The words that take operands or fetch a fact. */
  const OPERATORS: set<Long> := {
    OPCODE_ADD, OPCODE_SUB, OPCODE_MUL, OPCODE_DIV, OPCODE_AND, OPCODE_OR, OPCODE_NEG, OPCODE_NOT, OPCODE_BAND, OPCODE_BOR,
    OPCODE_BNOT, OPCODE_BXOR, OPCODE_LSHIFT, OPCODE_RSHIFT, OPCODE_ISCODE, OPCODE_ISSETCARD, OPCODE_ISTYPE, OPCODE_ISRACE,
    OPCODE_ISATTRIBUTE, OPCODE_GETCODE, OPCODE_GETTYPE, OPCODE_GETRACE, OPCODE_GETATTRIBUTE}

  /** The two allowances leave the stack alone and say only that they are there; any further word is put on the stack. */
  lemma OtherWordsYield(stack: seq<Long>, words: seq<Long>, word: Long, card: CardFacts)
    ensures Step(stack, OPCODE_ALLOW_ALIASES, card) == stack && Step(stack, OPCODE_ALLOW_TOKENS, card) == stack
    ensures Allows(words, AllowAliases) <==> OPCODE_ALLOW_ALIASES in words
    ensures Allows(words, AllowTokens) <==> OPCODE_ALLOW_TOKENS in words
    ensures word !in OPERATORS + {OPCODE_ALLOW_ALIASES, OPCODE_ALLOW_TOKENS} ==> Step(stack, word, card) == stack + [word]
  {
    hide Apply, ApplyUnary, Fetch, Read;
    AllowanceWords(OPCODE_ALLOW_ALIASES);
    AllowanceWords(OPCODE_ALLOW_TOKENS);
    forall w <- words ensures (Read(w) == AllowAliases) == (w == OPCODE_ALLOW_ALIASES) { AllowanceWords(w); }
    forall w <- words ensures (Read(w) == AllowTokens) == (w == OPCODE_ALLOW_TOKENS) { AllowanceWords(w); }
    OperandWord(word);
  }

  lemma AllowanceWords(w: Long)
    ensures (Read(w) == AllowAliases) == (w == OPCODE_ALLOW_ALIASES)
    ensures (Read(w) == AllowTokens) == (w == OPCODE_ALLOW_TOKENS)
  {
  }

  lemma OperandWord(word: Long)
    ensures word !in OPERATORS + {OPCODE_ALLOW_ALIASES, OPCODE_ALLOW_TOKENS} ==> Read(word) == Operand(word)
  {
  }
}
