/**
 * The routine tree that the default reporters walk when computing the
 * width of the key column. Only the parts the reporters read are kept:
 * the routine's key and its ordered child routines.
 */
module Routines {

  datatype RoutineTree = RoutineTree(key: string, routines: seq<RoutineTree>)

  /** A routine key together with the depth at which it sits in the tree. */
  datatype KeyAt = KeyAt(key: string, depth: nat)

  function Max(a: int, b: int): (r: int)
    ensures r >= a && r >= b && (r == a || r == b)
  {
    if a < b then b else a
  }

  /**
   * Every routine of the forest `rs`, with its depth when the roots sit at
   * `depth` and children one level below their parent. This is the
   * reference listing that the key-length computations are proved against.
   */
  function Entries(rs: seq<RoutineTree>, depth: nat): (r: seq<KeyAt>)
    ensures |r| >= |rs|
  {
    if rs == [] then []
    else
      var last := rs[|rs| - 1];
      Entries(rs[..|rs| - 1], depth) + [KeyAt(last.key, depth)] + Entries(last.routines, depth + 1)
  }
}
