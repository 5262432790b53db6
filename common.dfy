/** Small shared vocabulary: optional values, results carrying an error message,
    integer minimum/maximum and distinctness of a sequence. */
module Common {

  datatype Option<+T> = None | Some(value: T)

  /** A value, or the message of the exception that was raised instead. */
  datatype Result<+T> = Success(value: T) | Failure(error: string)

  function Min(a: int, b: int): int { if a <= b then a else b }

  function Max(a: int, b: int): int { if a >= b then a else b }

  /** Sequence concatenation is associative; stated once so that proofs can name it. */
  lemma ConcatAssoc<T>(a: seq<T>, b: seq<T>, c: seq<T>)
    ensures (a + b) + c == a + (b + c)
  {
  }

  /** A concatenation starts with its first part and ends with its last. */
  lemma ConcatEnds<T>(head: seq<T>, middle: seq<T>, tail: seq<T>)
    ensures head <= head + middle + tail
    ensures var s := head + middle + tail; s[|s| - |tail|..] == tail
  {
    var s := head + middle + tail;
    assert s[..|head|] == head;
    assert s[|s| - |tail|..] == tail;
  }

  ghost predicate Distinct<T>(s: seq<T>)
  {
    forall i, j :: 0 <= i < j < |s| ==> s[i] != s[j]
  }
}
