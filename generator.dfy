/**
 * The card's password generator: an alphabet built from three fixed
 * character groups, and one character drawn from it per position.
 * `Math.random()` is replaced by a sequence of draws, each a real in [0, 1).
 */
module Generator {

  const Lower: string := "abcdefghijklmnopqrstuvwxyz"
  const Upper: string := "ABCDEFGHIJKLMNOPQRSTUVWXYZ"
  const Letters: string := Lower + Upper
  const Digits: string := "0123456789"
  const Symbols: string := "!@#$%^&*"

  predicate IsLetter(c: char) { 'a' <= c <= 'z' || 'A' <= c <= 'Z' }
  predicate IsDigit(c: char) { '0' <= c <= '9' }
  predicate IsSymbol(c: char) {
    c == '!' || c == '@' || c == '#' || c == '$' || c == '%' || c == '^' || c == '&' || c == '*'
  }

  /** The alphabet: the letters, then the digits if asked for, then the symbols if asked for. */
  function Alphabet(useNumbers: bool, useSymbols: bool): (chars: string)
    ensures |Letters| == 52 && Letters <= chars
    ensures |chars| in {52, 60, 62, 70}
  {
    Letters + (if useNumbers then Digits else "") + (if useSymbols then Symbols else "")
  }

  /** Every character of each group belongs to its character class. */
  lemma GroupClasses()
    ensures forall i :: 0 <= i < |Letters| ==> IsLetter(Letters[i])
    ensures forall i :: 0 <= i < |Digits| ==> IsDigit(Digits[i])
    ensures forall i :: 0 <= i < |Symbols| ==> IsSymbol(Symbols[i])
  {
    assert forall i :: 0 <= i < |Lower| ==> 'a' <= Lower[i] <= 'z';
    assert forall i :: 0 <= i < |Upper| ==> 'A' <= Upper[i] <= 'Z';
  }

  /**
   * The alphabet's layout: 52, 60, 62 or 70 characters, the letters first,
   * then the digits, then the symbols; a digit is in it exactly when numbers
   * are asked for and a symbol exactly when symbols are.
   */
  lemma AlphabetLayout(useNumbers: bool, useSymbols: bool)
    ensures var chars := Alphabet(useNumbers, useSymbols);
      && |chars| == 52 + (if useNumbers then 10 else 0) + (if useSymbols then 8 else 0)
      && chars[..52] == Letters
      && (useNumbers ==> chars[52..62] == Digits)
      && (useSymbols ==> chars[|chars| - 8..] == Symbols)
      && (forall c :: c in Digits ==> (c in chars <==> useNumbers))
      && (forall c :: c in Symbols ==> (c in chars <==> useSymbols))
  {
    var chars := Alphabet(useNumbers, useSymbols);
    GroupClasses();
    assert chars[..52] == Letters;
    forall c | c in Digits ensures c !in Letters && c !in Symbols {
      var i :| 0 <= i < |Digits| && Digits[i] == c;
    }
    forall c | c in Symbols ensures c !in Letters && c !in Digits {
      var i :| 0 <= i < |Symbols| && Symbols[i] == c;
    }
    if useNumbers {
      assert chars[52..62] == Digits;
    }
  }

  /** Every character of the alphabet is a letter, a digit (only with numbers) or a symbol (only with symbols). */
  lemma AlphabetClasses(useNumbers: bool, useSymbols: bool, c: char)
    requires c in Alphabet(useNumbers, useSymbols)
    ensures IsLetter(c) || (useNumbers && IsDigit(c)) || (useSymbols && IsSymbol(c))
  {
    GroupClasses();
    if c in Letters {
      var i :| 0 <= i < |Letters| && Letters[i] == c;
    } else if useNumbers && c in Digits {
      var i :| 0 <= i < |Digits| && Digits[i] == c;
    } else {
      assert useSymbols && c in Symbols;
      var i :| 0 <= i < |Symbols| && Symbols[i] == c;
    }
  }

  /** A draw of `Math.random()`: a number in [0, 1). */
  predicate IsDraws(randoms: seq<real>) {
    forall i :: 0 <= i < |randoms| ==> 0.0 <= randoms[i] < 1.0
  }

  /** `Math.floor(r * n)`: the index a draw `r` selects among `n` characters. */
  function Pick(r: real, n: nat): (k: nat)
    requires 0.0 <= r < 1.0 && n > 0
    ensures k < n
    ensures k as real <= r * n as real < k as real + 1.0
  {
    var x := r * n as real;
    assert 0.0 <= x < n as real by {
      assert r * n as real < 1.0 * n as real;
    }
    x.Floor
  }

  /** `Array.from({ length }, ...)`: one character of `chars` per draw. */
  function Draw(chars: string, randoms: seq<real>): (pw: string)
    requires |chars| > 0 && IsDraws(randoms)
    ensures |pw| == |randoms|
    ensures forall i :: 0 <= i < |pw| ==> pw[i] == chars[Pick(randoms[i], |chars|)]
  {
    if randoms == [] then ""
    else [chars[Pick(randoms[0], |chars|)]] + Draw(chars, randoms[1..])
  }

  /** The number of positions `Array.from` makes for `length`: negative lengths give none. */
  function DrawCount(length: int): (n: nat)
    ensures n == length || (length < 0 && n == 0)
  {
    if length < 0 then 0 else length
  }

  /** `_generatePassword(length, use_numbers, use_symbols)` with its draws supplied. */
  function GeneratePassword(length: int, useNumbers: bool, useSymbols: bool, randoms: seq<real>): (pw: string)
    requires |randoms| == DrawCount(length) && IsDraws(randoms)
    ensures length >= 0 ==> |pw| == length
    ensures length <= 0 ==> pw == ""
    ensures forall i :: 0 <= i < |pw| ==> pw[i] in Alphabet(useNumbers, useSymbols)
  {
    Draw(Alphabet(useNumbers, useSymbols), randoms)
  }

  /** Each generated character is a letter, or a digit only with numbers, or a symbol only with symbols. */
  lemma GeneratedClasses(length: int, useNumbers: bool, useSymbols: bool, randoms: seq<real>)
    requires |randoms| == DrawCount(length) && IsDraws(randoms)
    ensures var pw := GeneratePassword(length, useNumbers, useSymbols, randoms);
      forall i :: 0 <= i < |pw| ==>
        IsLetter(pw[i]) || (useNumbers && IsDigit(pw[i])) || (useSymbols && IsSymbol(pw[i]))
  {
    var pw := GeneratePassword(length, useNumbers, useSymbols, randoms);
    forall i | 0 <= i < |pw|
      ensures IsLetter(pw[i]) || (useNumbers && IsDigit(pw[i])) || (useSymbols && IsSymbol(pw[i]))
    {
      AlphabetClasses(useNumbers, useSymbols, pw[i]);
    }
  }
}
