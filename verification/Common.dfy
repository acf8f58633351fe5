/** Shared value types. */
module Common {

  datatype Option<+T> = None | Some(value: T)

  datatype Result<+T, +E> = Success(value: T) | Failure(error: E)
  {
    predicate IsFailure()
    {
      Failure?
    }

    function PropagateFailure<U>(): Result<U, E>
      requires Failure?
    {
      Failure(error)
    }

    function Extract(): T
      requires Success?
    {
      value
    }
  }

  lemma Regroup<T>(a: seq<T>, b: seq<T>, c: seq<T>)
    ensures a + (b + c) == a + b + c
  {}

  lemma Cancel<T(!new)>(x: multiset<T>, y: multiset<T>, e: T)
    requires x + multiset{e} == y + multiset{e}
    ensures x == y
  {
    forall k ensures x[k] == y[k] {
      assert (x + multiset{e})[k] == (y + multiset{e})[k];
    }
  }
}

/** White space as `String.prototype.trim` and the regular expression class `\s` see it, by code unit. */
module Whitespace {

  predicate IsSpaceCode(c: int)
  {
    || 9 <= c <= 13 || c == 32 || c == 160 || c == 0x1680 || 0x2000 <= c <= 0x200A
    || c == 0x2028 || c == 0x2029 || c == 0x202F || c == 0x205F || c == 0x3000 || c == 0xFEFF
  }

  /** `value.trim().length > 0`. */
  predicate NonBlank(s: string)
  {
    exists i :: 0 <= i < |s| && !IsSpaceCode(s[i] as int)
  }
}
