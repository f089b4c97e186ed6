/** Shared vocabulary: a nullable value, used for C++ pointers (`Song*`) and for
    the result of `std::string::find` (`npos` is `None`). */
module Common {

  datatype Option<T> = None | Some(value: T)

  function Min(a: nat, b: nat): nat {
    if a <= b then a else b
  }

  /** Regrouping a concatenation, stated once so that loops which grow a
      sequence piece by piece need not rediscover it element by element. */
  lemma AppendAssoc<T>(a: seq<T>, b: seq<T>, c: seq<T>)
    ensures (a + b) + c == a + (b + c)
  {
  }
}
