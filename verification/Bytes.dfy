/** Bytes: conversion from their values, and exclusive or. */
module Bytes {
  type Byte = bv8

  lemma Successor(b: Byte)
    requires b as int < 255
    ensures (b + 1) as int == b as int + 1
  {}

  /** The byte of a given value: the solver counts up to it more easily than it converts. */
  function ByteOf(x: int): (b: Byte)
    requires 0 <= x < 256
    ensures b as int == x
    decreases x
  {
    if x == 0 then 0
    else
      var previous := ByteOf(x - 1);
      Successor(previous);
      previous + 1
  }

  lemma XorCancel(a: Byte, b: Byte)
    ensures a ^ (a ^ b) == b
  {}

  /** Bits once set stay set: what a running difference of byte pairs is zero for. */
  lemma CollectDifference(diff: Byte, a: Byte, b: Byte)
    ensures diff | (a ^ b) == 0 <==> diff == 0 && a == b
  {}
}
