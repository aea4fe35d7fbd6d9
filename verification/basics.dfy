/** Types shared by the source records, the generated records and the render plan. */
module Basics {

  /** Rust's `u32`: every numeric field of the level-editor export is decoded as one. */
  type u32 = x: int | 0 <= x < 0x1_0000_0000

  /** Rust's `Option<T>`. */
  datatype Option<+T> = None | Some(value: T)

  /** True iff `prefix` is an initial segment of `s` (Rust's `str::starts_with`). */
  predicate StartsWith(s: string, prefix: string) {
    |prefix| <= |s| && s[..|prefix|] == prefix
  }

  /** Index of the first key equal to `key` (`Iterator::find` / `position`). */
  function FindFirst<K(==)>(keys: seq<K>, key: K): (r: Option<nat>)
    ensures r.Some? ==> r.value < |keys| && keys[r.value] == key
  {
    if |keys| == 0 then None
    else if keys[0] == key then Some(0)
    else
      match FindFirst(keys[1..], key)
      case None => None
      case Some(k) => Some(k + 1)
  }

  /** `FindFirst` finds the first match, and finds nothing only when there is no match. */
  lemma {:induction false} FindFirstIsFirst<K>(keys: seq<K>, key: K)
    ensures var r := FindFirst(keys, key);
            && (r.Some? ==> forall j :: 0 <= j < r.value ==> keys[j] != key)
            && (r.None? <==> forall j :: 0 <= j < |keys| ==> keys[j] != key)
  {
    if |keys| > 0 && keys[0] != key {
      FindFirstIsFirst(keys[1..], key);
      assert forall j :: 1 <= j < |keys| ==> keys[j] == keys[1..][j - 1];
    }
  }
}
