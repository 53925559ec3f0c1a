/** Shared value types: optional results, octets and what several modules need of sequences. */
module Common {

  /** `None` stands for the error returns of the source; error texts are not modelled. */
  datatype Option<+T> = None | Some(value: T)

  /** One octet (`uint8_t`). */
  type byte = b: int | 0 <= b < 256

  function Least(x: nat, y: nat): (m: nat) { if x <= y then x else y }

  lemma Regroup<T>(a: seq<T>, b: seq<T>, c: seq<T>)
    ensures (a + b) + c == a + (b + c)
  {}
}
