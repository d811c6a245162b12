/** Well-formed UTF-8 (section 4 of RFC 3629), and cutting it short without breaking a character. */
module Utf8 {
  import opened Bytes

  // A byte that only continues a character: its two top bits are 10.
  predicate IsTail(b: Byte) {
    b / 0x40 == 2
  }

  // The encoding of one character.
  predicate IsCharacter(s: seq<Byte>) {
    || (|s| == 1 && s[0] <= 0x7F)
    || (|s| == 2 && 0xC2 <= s[0] <= 0xDF && IsTail(s[1]))
    || (|s| == 3 && 0xE0 <= s[0] <= 0xEF && IsTail(s[1]) && IsTail(s[2])
        && (s[0] == 0xE0 ==> s[1] >= 0xA0) && (s[0] == 0xED ==> s[1] <= 0x9F))
    || (|s| == 4 && 0xF0 <= s[0] <= 0xF4 && IsTail(s[1]) && IsTail(s[2]) && IsTail(s[3])
        && (s[0] == 0xF0 ==> s[1] >= 0x90) && (s[0] == 0xF4 ==> s[1] <= 0x8F))
  }

  // The length of the character a text starts with, or 0 if it starts with none.
  function Leading(s: seq<Byte>): (n: nat)
    ensures n <= 4 && n <= |s| && (n > 0 ==> IsCharacter(s[..n]))
  {
    if |s| >= 1 && IsCharacter(s[..1]) then 1
    else if |s| >= 2 && IsCharacter(s[..2]) then 2
    else if |s| >= 3 && IsCharacter(s[..3]) then 3
    else if |s| >= 4 && IsCharacter(s[..4]) then 4
    else 0
  }

  predicate WellFormed(s: seq<Byte>) {
    s == [] || (Leading(s) > 0 && WellFormed(s[Leading(s)..]))
  }

  type Text = s: seq<Byte> | WellFormed(s)

  // The whole characters from the front that fit the limit.
  function Fit(s: Text, limit: nat): (r: seq<Byte>)
    ensures |r| <= |s| && |r| <= limit && r == s[..|r|]
  {
    var n := Leading(s);
    if s == [] || n > limit then [] else s[..n] + Fit(s[n..], limit - n)
  }

  // The first byte tells the length, so no character starts another.
  lemma LeadingIs(s: seq<Byte>, n: nat)
    requires 0 < n <= |s| && IsCharacter(s[..n])
    ensures Leading(s) == n
  {
    assert forall k | 0 < k <= |s| :: s[..k][0] == s[0];
  }

  lemma CharacterStarts(s: seq<Byte>, n: nat)
    requires 0 < n <= |s| && IsCharacter(s[..n])
    ensures !IsTail(s[0])
    ensures forall i | 0 < i < n :: IsTail(s[i]) && !IsCharacter(s[..i])
    ensures n <= 4
  {
    assert forall k | 0 <= k < n :: s[..n][k] == s[k];
    forall i | 0 < i < n
      ensures IsTail(s[i]) && !IsCharacter(s[..i])
    {
      assert s[i] == s[..n][i];
      assert s[..i][0] == s[0];
    }
  }

  lemma SliceOfSlice(s: seq<Byte>, n: nat, i: nat)
    requires n <= i <= |s|
    ensures s[..i][n..] == s[n..][..i - n] && s[..i][..n] == s[..n]
  {
  }

  lemma InsideCharacter(s: seq<Byte>, n: nat, i: nat)
    requires 0 < i < n <= |s| && IsCharacter(s[..n])
    ensures IsTail(s[i]) && Leading(s[..i]) == 0
  {
    hide IsCharacter, IsTail;
    CharacterStarts(s, n);
    forall k | 0 < k <= i
      ensures !IsCharacter(s[..i][..k])
    {
      SliceOfSlice(s, k, i);
    }
  }

  // A well-formed text may be cut exactly where no tail byte follows.
  lemma {:induction false} CutsBetweenCharacters(s: Text, i: nat)
    requires i <= |s|
    ensures WellFormed(s[..i]) <==> (i == |s| || !IsTail(s[i]))
    decreases |s|
  {
    hide IsCharacter, IsTail;
    if s != [] {
      var n := Leading(s);
      CharacterStarts(s, n);
      if 0 < i < n {
        InsideCharacter(s, n, i);
      } else if i >= n {
        CutsBetweenCharacters(s[n..], i - n);
        SliceOfSlice(s, n, i);
        LeadingIs(s[..i], n);
        assert i < |s| ==> s[i] == s[n..][i - n];
      }
    }
  }

  lemma NextStarts(s: Text, n: nat)
    requires s != [] && n == Leading(s) < |s|
    ensures !IsTail(s[n])
  {
    hide IsCharacter, IsTail;
    var t := s[n..];
    assert s[n] == t[0] && WellFormed(t);
    CharacterStarts(t, Leading(t));
  }

  // Of four bytes in a row, one starts a character.
  lemma {:induction false} TailsAreShort(s: Text, i: nat)
    requires i + 3 < |s|
    ensures !IsTail(s[i]) || !IsTail(s[i + 1]) || !IsTail(s[i + 2]) || !IsTail(s[i + 3])
    decreases |s|
  {
    hide IsCharacter, IsTail;
    var n := Leading(s);
    CharacterStarts(s, n);
    if i >= n {
      var t := s[n..];
      assert s[i] == t[i - n] && s[i + 1] == t[i + 1 - n] && s[i + 2] == t[i + 2 - n] && s[i + 3] == t[i + 3 - n];
      TailsAreShort(t, i - n);
    } else if i > 0 {
      NextStarts(s, n);
    }
  }

  lemma {:induction false} FitIsWellFormed(s: Text, limit: nat)
    ensures WellFormed(Fit(s, limit))
  {
    hide IsCharacter;
    var n := Leading(s);
    if s != [] && n <= limit {
      FitIsWellFormed(s[n..], limit - n);
      Joined(s[..n], Fit(s[n..], limit - n));
    }
  }

  // A character before a well-formed text makes a well-formed text.
  lemma Joined(c: seq<Byte>, t: seq<Byte>)
    requires IsCharacter(c) && WellFormed(t)
    ensures WellFormed(c + t)
  {
    hide IsCharacter;
    CharacterIsShort(c);
    assert (c + t)[..|c|] == c && (c + t)[|c|..] == t;
    LeadingIs(c + t, |c|);
  }

  lemma CharacterIsShort(c: seq<Byte>)
    requires IsCharacter(c)
    ensures 1 <= |c| <= 4
  {
  }

  // No well-formed prefix that fits is longer.
  lemma {:induction false} FitIsLongest(s: Text, limit: nat, i: nat)
    requires i <= |s| && i <= limit && WellFormed(s[..i])
    ensures i <= |Fit(s, limit)|
    decreases |s|
  {
    hide IsCharacter, IsTail;
    if i > 0 {
      var n := Leading(s);
      CharacterStarts(s, n);
      CutsBetweenCharacters(s, i);
      SliceOfSlice(s, n, i);
      LeadingIs(s[..i], n);
      FitIsLongest(s[n..], limit - n, i - n);
    }
  }

  lemma ShortTextFits(s: Text, limit: nat)
    requires |s| <= limit
    ensures Fit(s, limit) == s
  {
    assert s[..|s|] == s;
    FitIsLongest(s, limit, |s|);
  }

  // The cut is the last byte at or before the limit that starts a character.
  lemma FitEndsAt(s: Text, limit: nat, i: nat)
    requires i <= limit < |s| && !IsTail(s[i])
    requires forall k | i < k <= limit :: IsTail(s[k])
    ensures Fit(s, limit) == s[..i]
  {
    CutsBetweenCharacters(s, i);
    FitIsLongest(s, limit, i);
    FitIsWellFormed(s, limit);
    CutsBetweenCharacters(s, |Fit(s, limit)|);
  }

  // At most three bytes of the room are left unused.
  lemma FitWastesLittle(s: Text, limit: nat)
    requires 3 <= limit < |s|
    ensures |Fit(s, limit)| >= limit - 3
  {
    TailsAreShort(s, limit - 3);
    var i :| limit - 3 <= i <= limit && !IsTail(s[i]);
    CutsBetweenCharacters(s, i);
    FitIsLongest(s, limit, i);
  }
}
