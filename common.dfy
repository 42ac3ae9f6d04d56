/** Small value types and string helpers shared by the pipeline modules. */
module Common {

  datatype Option<+T> = None | Some(value: T)

  /** Either a value or the exception the source would raise instead. */
  datatype Result<+T, +E> = Ok(value: T) | Fail(error: E)

  newtype byte = x: int | 0 <= x < 256

  /** `sub` occurs in `s` starting at index `i`. */
  predicate OccursAt(s: string, sub: string, i: nat)
  {
    i + |sub| <= |s| && s[i..i + |sub|] == sub
  }

  /** Python's substring test `sub in s`. */
  predicate Contains(s: string, sub: string)
  {
    exists i :: 0 <= i <= |s| && OccursAt(s, sub, i)
  }

  /**
   * An occurrence of `sub` starts with its first character, and one starting at or after `k`
   * would not fit when fewer than `|sub|` characters follow `k`.
   */
  lemma FirstCharNeeded(s: string, sub: string, k: nat)
    requires |sub| > 0 && k <= |s| && |s| - k < |sub| && sub[0] !in s[..k]
    ensures !Contains(s, sub)
  {
    forall i | 0 <= i <= |s|
      ensures !OccursAt(s, sub, i)
    {
      if i + |sub| <= |s| {
        assert s[i..i + |sub|][0] == s[i];
        assert s[..k][i] == s[i];
      }
    }
  }

  /** A text that starts with `sub` contains it. */
  lemma PrefixContained(s: string, sub: string)
    requires |sub| <= |s| && s[..|sub|] == sub
    ensures Contains(s, sub)
  {
    assert OccursAt(s, sub, 0);
  }

  /** `n` copies of `x`, the trace of `n` identical calls. */
  function Repeat<T>(x: T, n: nat): (r: seq<T>)
    ensures |r| == n
    ensures forall j :: 0 <= j < n ==> r[j] == x
  {
    if n == 0 then [] else Repeat(x, n - 1) + [x]
  }
}
