/** What the Java library says of characters. Every character named here is a single UTF-16 unit. */
module JavaText {
  /** `Character.isISOControl`. */
  predicate IsIsoControl(unit: nat) { unit <= 0x1F || 0x7F <= unit <= 0x9F }

  /** `Character.isWhitespace`. */
  predicate IsWhitespace(unit: nat) {
    || 0x09 <= unit <= 0x0D || 0x1C <= unit <= 0x20 || unit == 0x1680 || 0x2000 <= unit <= 0x2006
    || 0x2008 <= unit <= 0x200A || unit == 0x2028 || unit == 0x2029 || unit == 0x205F || unit == 0x3000
  }

  /** A line break of the pattern `\R`, carriage return and line feed together counting as one. */
  predicate IsLineBreak(unit: nat) { 0x0A <= unit <= 0x0D || unit == 0x85 || unit == 0x2028 || unit == 0x2029 }
}
