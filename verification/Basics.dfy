/** What several modules share: optional values, places on a ring, priorities. */
module Basics {

  datatype Option<T> = None | Some(value: T)

  /** configMAX_PRIORITIES */
  const MAX_PRIORITIES: nat := 7

  type Priority = p: nat | p < MAX_PRIORITIES

  /** The event item value for a priority: a higher priority sorts first. */
  function ItemValue(p: Priority): (v: nat)
    ensures 0 < v <= MAX_PRIORITIES
  {
    MAX_PRIORITIES - p
  }

  function Max(a: Priority, b: Priority): Priority { if a < b then b else a }

  /** The place `k` after `start` on a ring of `n`; all the way round is `start` again. */
  function Idx(n: nat, start: nat, k: nat): (r: nat)
    requires start < n && k <= n
    ensures r < n
  {
    if start + k < n then start + k else start + k - n
  }

  /** How far `to_` is after `from` on a ring of `n`. */
  function Dist(n: nat, from: nat, to_: nat): (r: nat)
    requires from < n && to_ < n
    ensures r < n
  {
    if from <= to_ then to_ - from else to_ - from + n
  }
}
