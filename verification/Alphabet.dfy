/** The 64-letter alphabet of JS8 messages. */
module Alphabet {
  import opened Wrappers

  const DIGITS := "0123456789"
  const UPPER := "ABCDEFGHIJKLMNOPQRSTUVWXYZ"
  const LOWER := "abcdefghijklmnopqrstuvwxyz"
  const ALPHABET := DIGITS + UPPER + LOWER + "-+"

  // The table that maps a character to its index is filled in order of the alphabet, so it
  // would hold the last index of a character that occurred twice.
  function LastIndex(c: char, n: nat): Option<nat>
    requires n <= |ALPHABET|
  {
    if n == 0 then None
    else if ALPHABET[n - 1] == c then Some(n - 1)
    else LastIndex(c, n - 1)
  }

  // The word of a character, or nothing where the program throws.
  function AlphabetWord(c: char): Option<nat> {
    LastIndex(c, |ALPHABET|)
  }

  // The letter with index w, by ranges of the character set.
  function Letter(w: nat): char
    requires w < 64
  {
    if w < 10 then '0' + w as char
    else if w < 36 then 'A' + (w - 10) as char
    else if w < 62 then 'a' + (w - 36) as char
    else if w == 62 then '-'
    else '+'
  }

  lemma UpperIs(k: nat)
    requires k < 26
    ensures |UPPER| == 26 && UPPER[k] == 'A' + k as char
  {
  }

  lemma LowerIs(k: nat)
    requires k < 26
    ensures |LOWER| == 26 && LOWER[k] == 'a' + k as char
  {
  }

  lemma LetterIs(w: nat)
    requires w < 64
    ensures |ALPHABET| == 64 && ALPHABET[w] == Letter(w)
  {
    hide UPPER, LOWER;
    UpperIs(if 10 <= w < 36 then w - 10 else 0);
    LowerIs(if 36 <= w < 62 then w - 36 else 0);
  }

  lemma {:induction false} LastIndexFinds(c: char, n: nat)
    requires n <= |ALPHABET|
    ensures match LastIndex(c, n)
            case Some(w) => w < n && ALPHABET[w] == c
            case None => c !in ALPHABET[..n]
  {
    hide ALPHABET;
    if n > 0 && ALPHABET[n - 1] != c {
      LastIndexFinds(c, n - 1);
    }
  }

  // Looking a letter up undoes indexing the alphabet, and only letters can be looked up.
  lemma AlphabetRoundTrip(c: char)
    ensures |ALPHABET| == 64
    ensures c in ALPHABET <==> AlphabetWord(c).Some?
    ensures AlphabetWord(c).Some? ==> AlphabetWord(c).value < 64 && ALPHABET[AlphabetWord(c).value] == c
    ensures forall w | 0 <= w < 64 && ALPHABET[w] == c :: AlphabetWord(c) == Some(w)
  {
    hide ALPHABET;
    LetterIs(0);
    LastIndexFinds(c, |ALPHABET|);
    forall w | 0 <= w < 64 && ALPHABET[w] == c
      ensures AlphabetWord(c) == Some(w)
    {
      LetterIs(w);
      LetterIs(AlphabetWord(c).value);
    }
  }
}
