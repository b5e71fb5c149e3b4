/** Shared value types and functions, and two facts about finite sets and sequences. */
module Wrappers {
  datatype Option<+T> = None | Some(value: T)

  /** The statuses of a release row. */
  datatype Status = BUILDING | CANDIDATE | READY | ACTIVATING | ACTIVE | SUPERSEDED | FAILED

  function Max(a: int, b: int): int { if a < b then b else a }

  function LowerChar(c: char): char { if 'A' <= c <= 'Z' then (c as int + 32) as char else c }

  /** The two characters are one letter, capital or small, or the same character. */
  predicate SameLetter(a: char, b: char) {
    || a == b
    || ('A' <= a <= 'Z' && b as int - 'a' as int == a as int - 'A' as int)
    || ('A' <= b <= 'Z' && a as int - 'a' as int == b as int - 'A' as int)
  }

  /** Small letters tell everything but case. */
  lemma LowerTellsLetters(a: char, b: char)
    ensures LowerChar(a) == LowerChar(b) <==> SameLetter(a, b)
    ensures !('A' <= LowerChar(a) <= 'Z')
  {
    if LowerChar(a) == LowerChar(b) && 'A' <= a <= 'Z' && a != b {
      assert b as int == a as int + 32;
    }
    if LowerChar(a) == LowerChar(b) && 'A' <= b <= 'Z' && a != b {
      assert a as int == b as int + 32;
    }
  }

  lemma {:induction false} SubsetIsNoLarger<T>(a: set<T>, b: set<T>)
    requires a <= b
    ensures |a| <= |b|
  {
    if a != {} {
      var x :| x in a;
      SubsetIsNoLarger(a - {x}, b - {x});
    }
  }

  /** What is there later and never comes has been there before. */
  lemma {:induction false} ThereBefore(there: seq<bool>, comes: seq<bool>, i: nat, j: nat)
    requires i <= j < |there| == |comes| + 1 && there[j]
    requires forall k {:trigger comes[k]} :: i <= k < j ==> (there[k + 1] ==> there[k] || comes[k]) && !comes[k]
    ensures there[i]
    decreases j
  {
    if i < j {
      assert !comes[j - 1];
      ThereBefore(there, comes, i, j - 1);
    }
  }
}
