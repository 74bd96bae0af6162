/**
 * The table-driven state machine engine behind `fsm_init`, `fsm_on`, `fsm_trigger`
 * and `fsm_state`. The table maps a (state, trigger) pair to a target state; a pair
 * with no entry is a no-op, and registering a pair again overwrites its entry.
 */
module Fsm {

  /** The transition table. */
  type Table<S(==), T(==)> = map<(S, T), S>

  /** The state reached from `s` when trigger `t` fires. */
  function Step<S(==), T(==)>(table: Table<S, T>, s: S, t: T): S
  {
    if (s, t) in table then table[(s, t)] else s
  }

  /** The state reached from `s` after the triggers `ts` fire in order. */
  function Run<S(==), T(==)>(table: Table<S, T>, s: S, ts: seq<T>): S
    decreases |ts|
  {
    if ts == [] then s else Run(table, Step(table, s, ts[0]), ts[1..])
  }

  /** A state every trigger leaves where it is stays there for any sequence of triggers. */
  lemma {:induction false} AbsorbingStaysPut<S, T>(table: Table<S, T>, a: S, ts: seq<T>)
    requires forall t: T :: Step(table, a, t) == a
    ensures Run(table, a, ts) == a
    decreases |ts|
  {
    if ts != [] {
      AbsorbingStaysPut(table, a, ts[1..]);
    }
  }

  /** A set of states that every single step keeps to is kept to by every run. */
  lemma {:induction false} ClosedStaysIn<S, T>(table: Table<S, T>, c: set<S>, s: S, ts: seq<T>)
    requires s in c
    requires forall x, t: T :: x in c ==> Step(table, x, t) in c
    ensures Run(table, s, ts) in c
    decreases |ts|
  {
    if ts != [] {
      ClosedStaysIn(table, c, Step(table, s, ts[0]), ts[1..]);
    }
  }

  /** A machine: its transition table and its current state, both updated in place.
      `fired` records every trigger fired so far, in order. */
  class Machine<S(==), T(==)> {
    var table: Table<S, T>
    var current: S
    ghost var fired: seq<T>

    /** `fsm_init`: an empty table and the given initial state. */
    constructor (initial: S)
      ensures table == map[] && current == initial && fired == []
    {
      table := map[];
      current := initial;
      fired := [];
    }

    /** `fsm_on`: registers `from --t--> to`, overwriting any earlier entry for (from, t). */
    method On(from: S, t: T, to: S)
      modifies this
      ensures table == old(table)[(from, t) := to]
      ensures current == old(current) && fired == old(fired)
    {
      table := table[(from, t) := to];
    }

    /** `fsm_trigger`: moves to the registered target, or stays when (current, t) has no entry. */
    method Fire(t: T)
      modifies this
      ensures current == Step(old(table), old(current), t)
      ensures (old(current), t) !in old(table) ==> current == old(current)
      ensures table == old(table) && fired == old(fired) + [t]
    {
      if (current, t) in table {
        current := table[(current, t)];
      }
      fired := fired + [t];
    }
  }
}
