/**
 * Swift's `Hasher`, seen only through what is fed into it: `combine(v)`
 * appends `v`. Two values hash alike whenever they feed the hasher alike,
 * which is all the `Hashable` contract asks of `hash(into:)`.
 */
module Hashing {
  datatype Hasher = Hasher(fed: seq<int>)

  function Combine(h: Hasher, v: int): Hasher {
    Hasher(h.fed + [v])
  }
}
