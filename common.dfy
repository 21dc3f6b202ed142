/** Option and Result, the failure-carrying values every service returns. */
module Wrappers {
  datatype Option<+T> = None | Some(value: T) {
    function GetOr(default: T): T {
      match this
      case Some(v) => v
      case None => default
    }
  }

  datatype Result<+T, +E> = Ok(value: T) | Err(error: E)
}

/**
 * Money is kept in cents (fen): the yuan amounts of the tables, scaled by 100.
 * PHP's `intval` on a yuan amount truncates toward zero; it is written out here.
 */
module Money {
  function Abs(x: int): (r: int)
    ensures r >= 0
    ensures r == x || r == -x
  {
    if x < 0 then -x else x
  }

  /** `intval(c / 100)`: whole yuan of an amount of `c` cents, truncated toward zero. */
  function WholeUnits(c: int): (q: int)
    ensures c >= 0 ==> 0 <= 100 * q <= c < 100 * q + 100
    ensures c < 0 ==> 100 * q - 100 < c <= 100 * q <= 0
  {
    if c >= 0 then c / 100 else -((-c) / 100)
  }

  /** An amount of cents truncated to whole yuan, still in cents. */
  function Truncated(c: int): (t: int)
    ensures t % 100 == 0
    ensures Abs(t) <= Abs(c) && Abs(c - t) < 100
    ensures (c >= 0 ==> t >= 0) && (c <= 0 ==> t <= 0)
  {
    WholeUnits(c) * 100
  }

  lemma {:induction false} TruncatedWhole(k: int)
    ensures Truncated(100 * k) == 100 * k
  {
    if k >= 0 {
      assert (100 * k) / 100 == k;
    } else {
      assert (-(100 * k)) / 100 == -k;
    }
  }
}

/**
 * The account table shared by both ledgers: an account exists exactly when its
 * `unid` is a key, and maps to its `extra` attributes, where the recounts cache
 * their aggregates.
 */
module Accounts {
  type Extra = map<string, int>

  /** PHP `array_merge` on string keys: the keys of `data` win, the rest of `base` stays. */
  function Merge(base: Extra, data: Extra): (r: Extra)
    ensures r.Keys == base.Keys + data.Keys
    ensures forall k :: k in data ==> r[k] == data[k]
    ensures forall k :: k in base && k !in data ==> r[k] == base[k]
  {
    base + data
  }

  class AccountTable {
    var extra: map<int, Extra>

    constructor (initial: map<int, Extra>)
      ensures extra == initial
    {
      extra := initial;
    }
  }
}
