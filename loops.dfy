/**
 * The two nested `for` loops both batch drivers run, over creators and then
 * over each creator's videos, as folds of a turn function. A turn on a state
 * that has halted (an uncaught exception) is not taken, so such a state is
 * the final one.
 */
module Loops {
  /** The first `j` turns of the inner loop for creator `i`. */
  function Prefix<S>(step: (S, nat, nat) -> S, halted: S -> bool, st: S, i: nat, j: nat): S
    decreases j, 0
  {
    if j == 0 then st else Next(step, halted, st, i, j - 1)
  }

  /** Turn `j` of the inner loop, taken unless the run has already halted. */
  function Next<S>(step: (S, nat, nat) -> S, halted: S -> bool, st: S, i: nat, j: nat): S
    decreases j, 1
  {
    var s := Prefix(step, halted, st, i, j);
    if halted(s) then s else step(s, i, j)
  }

  /** The first `i` turns of the outer loop, over creators with `shape[i]` videos each. */
  function Upto<S>(step: (S, nat, nat) -> S, halted: S -> bool, shape: seq<nat>, st: S, i: nat): S
    requires i <= |shape|
    decreases i, 0
  {
    if i == 0 then st else Outer(step, halted, shape, st, i - 1)
  }

  /** Turn `i` of the outer loop: the whole inner loop over creator `i`. */
  function Outer<S>(step: (S, nat, nat) -> S, halted: S -> bool, shape: seq<nat>, st: S, i: nat): S
    requires i < |shape|
    decreases i, 1
  {
    var s := Upto(step, halted, shape, st, i);
    if halted(s) then s else Prefix(step, halted, s, i, shape[i])
  }

  /** A creator without videos changes nothing. */
  lemma PrefixZero<S>(step: (S, nat, nat) -> S, halted: S -> bool, st: S, i: nat)
    ensures Prefix(step, halted, st, i, 0) == st
  {
  }

  /** One more creator, when the run has not halted. */
  lemma UptoSucc<S>(step: (S, nat, nat) -> S, halted: S -> bool, shape: seq<nat>, st: S, i: nat)
    requires i < |shape| && !halted(Upto(step, halted, shape, st, i))
    ensures Upto(step, halted, shape, st, i + 1) == Prefix(step, halted, Upto(step, halted, shape, st, i), i, shape[i])
  {
  }

  /** The state after turn `j` is the state after `j + 1` turns, and the creator's last one if it has halted. */
  lemma InnerNext<S>(step: (S, nat, nat) -> S, halted: S -> bool, st: S, i: nat, j: nat, n: nat, r: S)
    requires j < n && !halted(Prefix(step, halted, st, i, j))
    requires r == step(Prefix(step, halted, st, i, j), i, j)
    ensures Prefix(step, halted, st, i, j + 1) == r
    ensures halted(r) ==> Prefix(step, halted, st, i, n) == r
  {
    if halted(r) {
      PrefixHalted(step, halted, st, i, j + 1, n);
    }
  }

  /** The state after creator `i` is the state after `i + 1` creators, and the final one if it has halted. */
  lemma OuterNext<S>(step: (S, nat, nat) -> S, halted: S -> bool, shape: seq<nat>, st: S, i: nat, r: S)
    requires i < |shape| && !halted(Upto(step, halted, shape, st, i))
    requires r == Prefix(step, halted, Upto(step, halted, shape, st, i), i, shape[i])
    ensures Upto(step, halted, shape, st, i + 1) == r
    ensures halted(r) ==> Upto(step, halted, shape, st, |shape|) == r
  {
    if halted(r) {
      UptoHalted(step, halted, shape, st, i + 1, |shape|);
    }
  }

  /** Once halted, the inner loop changes nothing more. */
  lemma {:induction false} PrefixHalted<S>(step: (S, nat, nat) -> S, halted: S -> bool, st: S, i: nat, j: nat, n: nat)
    requires j <= n && halted(Prefix(step, halted, st, i, j))
    ensures Prefix(step, halted, st, i, n) == Prefix(step, halted, st, i, j)
    decreases n
  {
    if n > j {
      PrefixHalted(step, halted, st, i, j, n - 1);
    }
  }

  /** Once halted, the outer loop changes nothing more. */
  lemma {:induction false} UptoHalted<S>(step: (S, nat, nat) -> S, halted: S -> bool, shape: seq<nat>, st: S, i: nat, n: nat)
    requires i <= n <= |shape| && halted(Upto(step, halted, shape, st, i))
    ensures Upto(step, halted, shape, st, n) == Upto(step, halted, shape, st, i)
    decreases n
  {
    if n > i {
      UptoHalted(step, halted, shape, st, i, n - 1);
    }
  }

  /** A halt part-way through creator `i` is where the whole run ends. */
  lemma HaltEndsRun<S>(step: (S, nat, nat) -> S, halted: S -> bool, shape: seq<nat>, st: S, i: nat, j: nat)
    requires i < |shape| && j <= shape[i]
    requires !halted(Upto(step, halted, shape, st, i))
    requires halted(Prefix(step, halted, Upto(step, halted, shape, st, i), i, j))
    ensures Upto(step, halted, shape, st, |shape|) == Prefix(step, halted, Upto(step, halted, shape, st, i), i, j)
  {
    PrefixHalted(step, halted, Upto(step, halted, shape, st, i), i, j, shape[i]);
    UptoHalted(step, halted, shape, st, i + 1, |shape|);
  }
}
