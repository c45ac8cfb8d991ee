/**
 * First-match payload-type dispatch. Each factory of the modules is a chain
 * `if (raw_dt.find(pattern) != npos) return ...;` tried in a fixed order; it
 * is modelled as a table of (pattern, specialisation) rows searched in order.
 */
module Dispatch {
  import opened Wrappers
  import opened Substring
  import opened Pipelines

  /** Some pattern of the table occurs in `tag`. */
  ghost predicate AnyMatch<V>(table: seq<(string, V)>, tag: string)
  {
    exists i :: 0 <= i < |table| && Contains(tag, table[i].0)
  }

  /** Row `i` is the branch taken for `tag`: its pattern occurs, no earlier one does. */
  ghost predicate Wins<V>(table: seq<(string, V)>, tag: string, i: int)
  {
    0 <= i < |table| && Contains(tag, table[i].0) &&
    forall j :: 0 <= j < i ==> !Contains(tag, table[j].0)
  }

  /** The first row at or after `from` whose pattern occurs in `tag`. */
  function FirstMatchFrom<V>(table: seq<(string, V)>, tag: string, from: nat): (r: Option<nat>)
    requires from <= |table|
    ensures r.Some? ==> from <= r.value < |table| && Contains(tag, table[r.value].0)
    ensures r.Some? ==> forall j :: from <= j < r.value ==> !Contains(tag, table[j].0)
    ensures r.None? <==> forall j :: from <= j < |table| ==> !Contains(tag, table[j].0)
    decreases |table| - from
  {
    if from == |table| then None
    else if Contains(tag, table[from].0) then Some(from)
    else FirstMatchFrom(table, tag, from + 1)
  }

  /** The index of the branch an if-chain over `table` takes for `tag`; None when it falls through. */
  function FirstMatch<V>(table: seq<(string, V)>, tag: string): (r: Option<nat>)
    ensures r.Some? ==> Wins(table, tag, r.value)
    ensures r.None? <==> !AnyMatch(table, tag)
  {
    FirstMatchFrom(table, tag, 0)
  }

  /** The specialisation chosen for `tag`, or None (the factory returns nullptr). */
  function Select<V>(table: seq<(string, V)>, tag: string): (r: Option<V>)
    ensures r.Some? <==> AnyMatch(table, tag)
    ensures r.Some? ==> exists i :: Wins(table, tag, i) && table[i].1 == r.value
  {
    match FirstMatch(table, tag)
    case None => None
    case Some(i) => Some(table[i].1)
  }

  /** At most one row wins: the choice is deterministic. */
  lemma WinnerUnique<V>(table: seq<(string, V)>, tag: string, i: int, j: int)
    requires Wins(table, tag, i) && Wins(table, tag, j)
    ensures i == j
  {
  }

  /** The winning row is the one `FirstMatch` reports. */
  lemma FirstMatchIsWinner<V>(table: seq<(string, V)>, tag: string, i: int)
    requires Wins(table, tag, i)
    ensures FirstMatch(table, tag) == Some(i)
  {
  }

  /** The winning row's specialisation is the one selected. */
  lemma SelectsRow<V>(table: seq<(string, V)>, tag: string, i: nat)
    requires Wins(table, tag, i)
    ensures Select(table, tag) == Some(table[i].1)
  {
    FirstMatchIsWinner(table, tag, i);
  }

  /** When no pattern of the table occurs in `tag`, nothing is selected. */
  lemma SelectsNothing<V>(table: seq<(string, V)>, tag: string)
    requires forall j :: 0 <= j < |table| ==> !Contains(tag, table[j].0)
    ensures Select(table, tag) == None
  {
  }

  /**
   * Shadowing: when an earlier pattern occurs inside a later one, every tag
   * that contains the later pattern also contains the earlier one, so the
   * later branch is never taken.
   */
  lemma Shadowed<V>(table: seq<(string, V)>, early: nat, late: nat, tag: string)
    requires early < late < |table|
    requires Contains(table[late].0, table[early].0)
    ensures FirstMatch(table, tag) != Some(late)
  {
    if FirstMatch(table, tag) == Some(late) {
      ContainsTransitive(tag, table[late].0, table[early].0);
      assert false;
    }
  }

  /**
   * A tag equal to a registered pattern takes that pattern's own branch
   * when no earlier pattern occurs in it (the converse is Shadowed).
   */
  lemma OwnBranch<V>(table: seq<(string, V)>, i: nat)
    requires i < |table|
    requires forall j :: 0 <= j < i ==> !Contains(table[i].0, table[j].0)
    ensures FirstMatch(table, table[i].0) == Some(i)
    ensures Select(table, table[i].0) == Some(table[i].1)
  {
    ContainsSelf(table[i].0);
    FirstMatchIsWinner(table, table[i].0, i);
  }

  /** What a creator returns: the model (None for nullptr) and whether the data-type set size was reported. */
  datatype Creation<M> = Creation(model: Option<M>, sizeReported: bool)

  /**
   * The common shape of the readout factories: a data-type set whose size is
   * not one is only reported (`ers::error`) and its first element is used;
   * the branch taken builds its model and calls `init(args)` on it once
   * before returning it; falling through returns nullptr.
   */
  function Create<V>(table: seq<(string, V)>, datatypes: seq<string>): (c: Creation<Pipeline<V>>)
    requires |datatypes| >= 1
    ensures c.sizeReported <==> |datatypes| != 1
    ensures c.model.Some? <==> AnyMatch(table, datatypes[0])
    ensures c.model.Some? ==> exists i :: Wins(table, datatypes[0], i) && c.model.value.impl == table[i].1
    ensures c.model.Some? ==> c.model.value == Initialized(Created(c.model.value.impl))
  {
    var model := match Select(table, datatypes[0])
      case None => None
      case Some(r) => Some(Initialized(Created(r)));
    Creation(model, |datatypes| != 1)
  }
}
