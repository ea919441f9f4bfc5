/** SGMathShortcuts' integer random helpers, with the word `arc4random()`
    returns as a parameter. NSUInteger arithmetic is 32-bit and unsigned,
    so `rightBound - leftBound` and the final addition wrap around. */
module MathShortcuts {

  /** ARC4RANDOM_MAX: one more than the largest word `arc4random()` returns,
      and the modulus of 32-bit NSUInteger arithmetic. */
  const WordModulus: nat := 0x1_0000_0000

  /** A 32-bit unsigned value. */
  predicate IsWord(x: nat) {
    x < WordModulus
  }

  /** `rightBound - leftBound` in NSUInteger arithmetic. */
  function Span(leftBound: nat, rightBound: nat): (span: nat)
    requires IsWord(leftBound) && IsWord(rightBound)
    ensures IsWord(span)
    ensures leftBound <= rightBound ==> span == rightBound - leftBound
    ensures rightBound < leftBound ==> span == WordModulus - (leftBound - rightBound)
  {
    (rightBound - leftBound) % WordModulus
  }

  /** `sgRandomBounded(leftBound, rightBound)` for the random word `word`:
      the word reduced modulo the span, plus the left bound. The bounds
      must differ, or the span is zero and the remainder undefined. With
      leftBound < rightBound the value lies in [leftBound, rightBound); with
      the bounds the other way round the span wraps and so does the value,
      which then lies outside [rightBound, leftBound). */
  function RandomBounded(word: nat, leftBound: nat, rightBound: nat): (value: nat)
    requires IsWord(word) && IsWord(leftBound) && IsWord(rightBound)
    requires leftBound != rightBound
    ensures IsWord(value)
    ensures leftBound < rightBound ==> leftBound <= value < rightBound
    ensures rightBound < leftBound ==> leftBound <= value || value < rightBound
  {
    (word % Span(leftBound, rightBound) + leftBound) % WordModulus
  }

  /** A range of one value always yields that value. */
  lemma RandomBoundedUnitRange(word: nat, leftBound: nat)
    requires IsWord(word) && IsWord(leftBound + 1)
    ensures RandomBounded(word, leftBound, leftBound + 1) == leftBound
  {
  }

  /** The value depends on the word only through its residue modulo the
      span. */
  lemma RandomBoundedDependsOnResidue(word1: nat, word2: nat, leftBound: nat, rightBound: nat)
    requires IsWord(word1) && IsWord(word2) && IsWord(leftBound) && IsWord(rightBound)
    requires leftBound != rightBound
    requires word1 % Span(leftBound, rightBound) == word2 % Span(leftBound, rightBound)
    ensures RandomBounded(word1, leftBound, rightBound) == RandomBounded(word2, leftBound, rightBound)
  {
  }

  /** Every value of [leftBound, rightBound) is produced by some word. */
  lemma RandomBoundedReachesEveryValue(leftBound: nat, rightBound: nat, value: nat)
    requires IsWord(rightBound) && leftBound <= value < rightBound
    ensures exists word :: IsWord(word) && RandomBounded(word, leftBound, rightBound) == value
  {
    var word := value - leftBound;
    var span := Span(leftBound, rightBound);
    assert span == rightBound - leftBound;
    SmallResidue(word, span);
    SmallResidue(value, WordModulus);
    assert RandomBounded(word, leftBound, rightBound) == value;
  }

  /** A number below the modulus is its own residue. */
  lemma SmallResidue(a: nat, m: nat)
    requires a < m
    ensures a % m == a
  {
  }

  /** `sgRandomBoolean()` for the random word `word`: its low bit. */
  function RandomBoolean(word: nat): (bit: nat)
    requires IsWord(word)
    ensures bit <= 1
    ensures bit == RandomBounded(word, 0, 2)
    ensures bit == 1 <==> word % 2 == 1
  {
    word % 2
  }

  /** Both truth values occur, for half of the words each: a word and its
      successor in an even pair give different values. */
  lemma RandomBooleanAlternates(word: nat)
    requires IsWord(word + 1) && word % 2 == 0
    ensures RandomBoolean(word) == 0 && RandomBoolean(word + 1) == 1
  {
  }
}
