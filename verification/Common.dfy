/** Shared vocabulary. */
module Common {

  datatype Option<V> = None | Some(value: V)

  function Min(a: int, b: int): int { if a < b then a else b }

  function Max(a: int, b: int): int { if a > b then a else b }

  /** One step of a FIFO account: if contents plus arrivals are departures plus the new contents, for a
      first step and for the rest of a run, then also for the whole run. */
  lemma Glue<E>(c: seq<E>, i: seq<E>, o: seq<E>, c1: seq<E>, rest: seq<E>, out: seq<E>, end: seq<E>)
    requires c + i == o + c1 && c1 + rest == out + end
    ensures c + (i + rest) == (o + out) + end
  {
    assert c + (i + rest) == (c + i) + rest;
    assert (o + c1) + rest == o + (c1 + rest);
  }
}
