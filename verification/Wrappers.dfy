/** Result shapes shared by the modules of the model. */
module Wrappers {

  datatype Option<+T> = None | Some(value: T)

  /** `Err` stands for an exception the program raises. */
  datatype Result<+T, +E> = Ok(value: T) | Err(error: E)

  function Max(a: int, b: int): int { if a < b then b else a }

  /** A dictionary that remembers insertion order: a key put again keeps its place. */
  datatype Dict<K(==,!new), V> = Dict(keys: seq<K>, at: map<K, V>) {

    function Put(k: K, v: V): Dict<K, V> {
      Dict(if k in at then keys else keys + [k], at[k := v])
    }

    ghost predicate Valid() {
      && (forall k :: k in keys <==> k in at)
      && (forall i, j :: 0 <= i < j < |keys| ==> keys[i] != keys[j])
    }

    lemma PutIsValid(k: K, v: V)
      requires Valid()
      ensures Put(k, v).Valid()
    {}
  }
}
