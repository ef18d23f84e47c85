/**
 * Substring search on strings, as JavaScript's `String.prototype.includes`
 * performs it: `s.includes(search)` holds when `search` occurs in `s` at
 * some position (the empty string occurs everywhere).
 */
module Strings {

  /** `search` occurs in `s` starting at index `i`. */
  predicate OccursAt(s: string, search: string, i: nat)
  {
    i + |search| <= |s| && s[i..i + |search|] == search
  }

  /** `s.includes(search)`: scan `s` from the left for a prefix equal to `search`. */
  function Includes(s: string, search: string): bool
    decreases |s|
  {
    if search <= s then true
    else if s == [] then false
    else Includes(s[1..], search)
  }

  /** The scan answers yes exactly when there is a position where `search` occurs. */
  lemma {:induction false} IncludesIffOccurs(s: string, search: string)
    ensures Includes(s, search) <==> exists i: nat :: OccursAt(s, search, i)
    decreases |s|
  {
    if search <= s {
      assert OccursAt(s, search, 0);
    } else if s == [] {
      forall i: nat ensures !OccursAt(s, search, i) {
        assert OccursAt(s, search, i) ==> search == [];
      }
    } else {
      IncludesIffOccurs(s[1..], search);
      if Includes(s[1..], search) {
        var j: nat :| OccursAt(s[1..], search, j);
        assert s[j + 1..j + 1 + |search|] == s[1..][j..j + |search|];
        assert OccursAt(s, search, j + 1);
      } else {
        forall i: nat ensures !OccursAt(s, search, i) {
          if OccursAt(s, search, i) {
            assert i != 0;
            assert s[1..][i - 1..i - 1 + |search|] == s[i..i + |search|];
            assert OccursAt(s[1..], search, i - 1);
          }
        }
      }
    }
  }

  /** Text that embeds `search` anywhere includes it. */
  lemma IncludesInfix(before: string, search: string, after: string)
    ensures Includes(before + search + after, search)
  {
    var s := before + search + after;
    assert s[|before|..|before| + |search|] == search;
    assert OccursAt(s, search, |before|);
    IncludesIffOccurs(s, search);
  }
}
