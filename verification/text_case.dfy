/** Letter case, as the account code compares and stores addresses: Django's `normalize_email`
    lower-cases the domain, and the `iexact` lookup compares ignoring case. Only ASCII letters
    are folded. */
module TextCase {
  /** One character folded to lower case. */
  function LowerAscii(c: char): (d: char)
    ensures 'A' <= c <= 'Z' ==> d as int == c as int + 32
    ensures !('A' <= c <= 'Z') ==> d == c
  {
    if 'A' <= c <= 'Z' then (c as int + 32) as char else c
  }

  /** A string folded to lower case, character by character. */
  function Fold(s: string): (t: string)
    ensures |t| == |s|
    ensures forall i :: 0 <= i < |s| ==> t[i] == LowerAscii(s[i])
  {
    seq(|s|, i requires 0 <= i < |s| => LowerAscii(s[i]))
  }

  /** Folding twice is folding once. */
  lemma FoldIsIdempotent(s: string)
    ensures Fold(Fold(s)) == Fold(s)
  {
    assert Fold(Fold(s)) == Fold(s) by {
      forall i | 0 <= i < |s|
        ensures Fold(Fold(s))[i] == Fold(s)[i]
      {
      }
    }
  }

  /** Folding distributes over concatenation. */
  lemma FoldOfConcat(a: string, b: string)
    ensures Fold(a + b) == Fold(a) + Fold(b)
  {
    assert forall i :: 0 <= i < |a + b| ==> Fold(a + b)[i] == (Fold(a) + Fold(b))[i];
  }

  /** Folding never makes or removes an `@`: only `A`..`Z` change, and none of them becomes `@`. */
  lemma FoldKeepsAt(s: string)
    ensures forall i :: 0 <= i < |s| ==> (Fold(s)[i] == '@' <==> s[i] == '@')
  {
  }
}
