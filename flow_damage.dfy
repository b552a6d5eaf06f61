/**
 * Restyle damage and the two damage traversals of a reflow. A flow tree is
 * stored as an arena: node 0 is the root, every other node `i` records its
 * parent, and parents come before their children (`parent[i] < i`), so that
 * visiting nodes by increasing index visits every parent before its children
 * (as a preorder traversal does), and visiting by decreasing index visits
 * every child before its parent (as a postorder traversal does). Each node's
 * damage sits in an array that the traversals update in place.
 */
module FlowDamage {

  /** A restyle-damage value: the set of recomputation bits it carries. */
  type Damage = set<nat>

  /**
   * The bit algebra of `RestyleDamage`, whose internals are not part of this
   * model: the value with every bit set, the damage a child contributes to
   * its parent, and the damage a parent forces on its children. Everything
   * below holds for every choice of these three.
   */
  datatype DamageRules = DamageRules(
    all: Damage,
    propagateUp: Damage -> Damage,
    propagateDown: Damage -> Damage)

  /** The shape of an arena flow tree: a root, and every other node's parent before it. */
  predicate IsFlowTree(parent: seq<nat>)
  {
    |parent| > 0 && forall i :: 0 < i < |parent| ==> parent[i] < i
  }

  // ---------------------------------------------------------------------------
  // The top-down pass (`PropagateDamageTraversal`), as a function of the input damage.

  /**
   * The damage node `i` holds after the top-down pass: its own damage, what
   * its parent pushed down after the parent was visited, and, when every
   * node is to be fully restyled, the value with all bits set.
   */
  function PropagatedAt(d: seq<Damage>, parent: seq<nat>, allStyleDamage: bool,
                        rules: DamageRules, i: nat): (r: Damage)
    requires IsFlowTree(parent) && |d| == |parent| && i < |d|
    ensures d[i] <= r
    ensures allStyleDamage ==> rules.all <= r
    ensures 0 < i ==> rules.propagateDown(PropagatedAt(d, parent, allStyleDamage, rules, parent[i])) <= r
    decreases i
  {
    (if i == 0 then d[0]
     else d[i] + rules.propagateDown(PropagatedAt(d, parent, allStyleDamage, rules, parent[i])))
    + (if allStyleDamage then rules.all else {})
  }

  function Propagated(d: seq<Damage>, parent: seq<nat>, allStyleDamage: bool,
                      rules: DamageRules): (r: seq<Damage>)
    requires IsFlowTree(parent) && |d| == |parent|
    ensures |r| == |d|
  {
    seq(|d|, i requires 0 <= i < |d| => PropagatedAt(d, parent, allStyleDamage, rules, i))
  }

  /**
   * The top-down pass changes a node only by what its parent forces on it and
   * by the full value when every node is restyled: without a full restyle, a
   * node whose parent pushes nothing down (and the root) keeps its damage.
   */
  lemma PropagatedUnchanged(d: seq<Damage>, parent: seq<nat>, rules: DamageRules, i: nat)
    requires IsFlowTree(parent) && |d| == |parent| && i < |d|
    requires i > 0 ==> rules.propagateDown(PropagatedAt(d, parent, false, rules, parent[i])) == {}
    ensures PropagatedAt(d, parent, false, rules, i) == d[i]
  {
  }

  /** Every bit the top-down pass gives a node was its own, forced by its parent, or full restyle. */
  lemma PropagatedExact(d: seq<Damage>, parent: seq<nat>, allStyleDamage: bool,
                        rules: DamageRules, i: nat, b: nat)
    requires IsFlowTree(parent) && |d| == |parent| && i < |d|
    requires b in PropagatedAt(d, parent, allStyleDamage, rules, i)
    ensures || b in d[i]
            || (allStyleDamage && b in rules.all)
            || (0 < i && b in rules.propagateDown(PropagatedAt(d, parent, allStyleDamage, rules, parent[i])))
  {
  }

  /**
   * With `all` the top element, as `RestyleDamage::all()` is (every node's
   * damage and everything pushed down lie within it), a full-restyle top-down
   * pass leaves every node with exactly every bit.
   */
  lemma PropagatedSaturates(d: seq<Damage>, parent: seq<nat>, rules: DamageRules, i: nat)
    requires IsFlowTree(parent) && |d| == |parent| && i < |d|
    requires forall j :: 0 <= j < |d| ==> d[j] <= rules.all
    requires forall x :: rules.propagateDown(x) <= rules.all
    ensures PropagatedAt(d, parent, true, rules, i) == rules.all
  {
  }

  // ---------------------------------------------------------------------------
  // The bottom-up pass (`ComputeDamageTraversal`), as a function of the input damage.

  /** The damage node `i` holds after the bottom-up pass: its own, and every child's contribution. */
  function AggregatedAt(d: seq<Damage>, parent: seq<nat>, up: Damage -> Damage, i: nat): (r: Damage)
    requires IsFlowTree(parent) && |d| == |parent| && i < |d|
    ensures d[i] <= r
    decreases |d| - i, |d| + 1
  {
    d[i] + KidsUp(d, parent, up, i, |d|)
  }

  /** The union of `up` of the aggregated damage of the children of `i` below index `j`. */
  function KidsUp(d: seq<Damage>, parent: seq<nat>, up: Damage -> Damage, i: nat, j: nat): Damage
    requires IsFlowTree(parent) && |d| == |parent| && i < |d| && j <= |d|
    decreases |d| - i, j
  {
    if j <= i + 1 then {}
    else
      KidsUp(d, parent, up, i, j - 1)
      + (if parent[j - 1] == i then up(AggregatedAt(d, parent, up, j - 1)) else {})
  }

  function Aggregated(d: seq<Damage>, parent: seq<nat>, up: Damage -> Damage): (r: seq<Damage>)
    requires IsFlowTree(parent) && |d| == |parent|
    ensures |r| == |d|
  {
    seq(|d|, i requires 0 <= i < |d| => AggregatedAt(d, parent, up, i))
  }

  lemma {:induction false} KidsUpIncludes(d: seq<Damage>, parent: seq<nat>, up: Damage -> Damage,
                                          i: nat, j: nat, k: nat)
    requires IsFlowTree(parent) && |d| == |parent| && i < k < j <= |d| && parent[k] == i
    ensures up(AggregatedAt(d, parent, up, k)) <= KidsUp(d, parent, up, i, j)
    decreases j
  {
    if k < j - 1 {
      KidsUpIncludes(d, parent, up, i, j - 1, k);
    }
  }

  lemma {:induction false} KidsUpFrom(d: seq<Damage>, parent: seq<nat>, up: Damage -> Damage,
                                      i: nat, j: nat, b: nat)
    requires IsFlowTree(parent) && |d| == |parent| && i < |d| && j <= |d|
    requires b in KidsUp(d, parent, up, i, j)
    ensures exists k :: i < k < j && parent[k] == i && b in up(AggregatedAt(d, parent, up, k))
    decreases j
  {
    if j > i + 1 && b !in (if parent[j - 1] == i then up(AggregatedAt(d, parent, up, j - 1)) else {}) {
      KidsUpFrom(d, parent, up, i, j - 1, b);
    }
  }

  /** After the bottom-up pass a parent covers the contribution of each of its children. */
  lemma ChildContributes(d: seq<Damage>, parent: seq<nat>, up: Damage -> Damage, k: nat)
    requires IsFlowTree(parent) && |d| == |parent| && 0 < k < |d|
    ensures up(AggregatedAt(d, parent, up, k)) <= AggregatedAt(d, parent, up, parent[k])
  {
    KidsUpIncludes(d, parent, up, parent[k], |d|, k);
  }

  /**
   * And it holds nothing else: every bit of a node after the bottom-up pass
   * was its own or is the contribution of one of its children.
   */
  lemma AggregatedExact(d: seq<Damage>, parent: seq<nat>, up: Damage -> Damage, i: nat, b: nat)
    requires IsFlowTree(parent) && |d| == |parent| && i < |d|
    requires b in AggregatedAt(d, parent, up, i)
    ensures b in d[i] || exists k :: i < k < |d| && parent[k] == i && b in up(AggregatedAt(d, parent, up, k))
  {
    if b !in d[i] {
      KidsUpFrom(d, parent, up, i, |d|, b);
    }
  }

  /**
   * The two passes of a reflow together never remove a bit, and with full
   * restyle damage every node ends up with every bit set.
   */
  lemma ReflowDamageGrows(d: seq<Damage>, parent: seq<nat>, allStyleDamage: bool, rules: DamageRules, i: nat)
    requires IsFlowTree(parent) && |d| == |parent| && i < |d|
    ensures var after := Aggregated(Propagated(d, parent, allStyleDamage, rules), parent, rules.propagateUp);
            d[i] <= after[i] && (allStyleDamage ==> rules.all <= after[i])
  {
    var p := Propagated(d, parent, allStyleDamage, rules);
    assert p[i] == PropagatedAt(d, parent, allStyleDamage, rules, i);
    assert Aggregated(p, parent, rules.propagateUp)[i] == AggregatedAt(p, parent, rules.propagateUp, i);
  }

  /**
   * One visit of the top-down pass on node `i`, from `cur` to `next`: the node
   * gains the full value under full restyle damage, and each child of it gains
   * what the node, updated, forces downward.
   */
  ghost predicate PreorderStep(parent: seq<nat>, allStyleDamage: bool, rules: DamageRules,
                               cur: seq<Damage>, next: seq<Damage>, i: nat)
  {
    && |next| == |cur| && i < |cur| && |cur| == |parent|
    && next[i] == cur[i] + (if allStyleDamage then rules.all else {})
    && forall k :: 0 <= k < |cur| && k != i ==>
         next[k] == cur[k] + (if i < k && parent[k] == i then rules.propagateDown(next[i]) else {})
  }

  /**
   * The state of the top-down pass before visiting node `i`: the nodes visited
   * hold their final damage; every other node holds its own damage and what an
   * already visited parent pushed down.
   */
  ghost predicate PropagateInv(d0: seq<Damage>, parent: seq<nat>, allStyleDamage: bool,
                               rules: DamageRules, cur: seq<Damage>, i: nat)
    requires IsFlowTree(parent) && |d0| == |parent|
  {
    && |cur| == |d0| && i <= |d0|
    && (forall k :: 0 <= k < i ==> cur[k] == PropagatedAt(d0, parent, allStyleDamage, rules, k))
    && (forall k :: i <= k < |d0| ==>
          cur[k] == d0[k] + (if 0 < k && parent[k] < i
                             then rules.propagateDown(PropagatedAt(d0, parent, allStyleDamage, rules, parent[k]))
                             else {}))
  }

  /** Visiting node `i` advances the state of the top-down pass by one node. */
  lemma PropagateStep(d0: seq<Damage>, parent: seq<nat>, allStyleDamage: bool, rules: DamageRules,
                      cur: seq<Damage>, next: seq<Damage>, i: nat)
    requires IsFlowTree(parent) && |d0| == |parent| && i < |d0|
    requires PropagateInv(d0, parent, allStyleDamage, rules, cur, i)
    requires PreorderStep(parent, allStyleDamage, rules, cur, next, i)
    ensures PropagateInv(d0, parent, allStyleDamage, rules, next, i + 1)
  {
    assert next[i] == PropagatedAt(d0, parent, allStyleDamage, rules, i);
    forall k | i + 1 <= k < |d0|
      ensures next[k] == d0[k] + (if 0 < k && parent[k] < i + 1
                                  then rules.propagateDown(PropagatedAt(d0, parent, allStyleDamage, rules, parent[k]))
                                  else {})
    {
      if parent[k] == i {
        assert next[k] == cur[k] + rules.propagateDown(PropagatedAt(d0, parent, allStyleDamage, rules, i));
      }
    }
  }

  /** Every bit after the bottom-up pass lies within a bound that holds the input and every `up` value. */
  lemma {:induction false} AggregatedWithin(d: seq<Damage>, parent: seq<nat>, up: Damage -> Damage,
                                            top: Damage, i: nat)
    requires IsFlowTree(parent) && |d| == |parent| && i < |d|
    requires forall j :: 0 <= j < |d| ==> d[j] <= top
    requires forall x :: up(x) <= top
    ensures AggregatedAt(d, parent, up, i) <= top
  {
    forall b | b in AggregatedAt(d, parent, up, i) ensures b in top {
      AggregatedExact(d, parent, up, i, b);
    }
  }

  /**
   * With `all` the top element, a full-restyle reflow's two passes leave every
   * node with exactly every bit.
   */
  lemma ReflowSaturates(d: seq<Damage>, parent: seq<nat>, rules: DamageRules, i: nat)
    requires IsFlowTree(parent) && |d| == |parent| && i < |d|
    requires forall j :: 0 <= j < |d| ==> d[j] <= rules.all
    requires forall x :: rules.propagateDown(x) <= rules.all
    requires forall x :: rules.propagateUp(x) <= rules.all
    ensures Aggregated(Propagated(d, parent, true, rules), parent, rules.propagateUp)[i] == rules.all
  {
    var p := Propagated(d, parent, true, rules);
    forall j | 0 <= j < |p| ensures p[j] <= rules.all {
      PropagatedSaturates(d, parent, rules, j);
    }
    AggregatedWithin(p, parent, rules.propagateUp, rules.all, i);
    ReflowDamageGrows(d, parent, true, rules, i);
  }

  // ---------------------------------------------------------------------------
  // The flow tree whose damage the traversals update in place.

  class FlowTree {
    const parent: seq<nat>
    const damage: array<Damage>

    ghost predicate Valid()
      reads this
    {
      IsFlowTree(parent) && damage.Length == |parent|
    }

    constructor (parent: seq<nat>, initial: seq<Damage>)
      requires IsFlowTree(parent) && |initial| == |parent|
      ensures Valid() && fresh(damage)
      ensures this.parent == parent && damage[..] == initial
    {
      this.parent := parent;
      damage := new Damage[|initial|](i requires 0 <= i < |initial| => initial[i]);
    }

    /**
     * `PropagateDamageTraversal`: visit parents before children, applying
     * `ProcessPreorder` to each node.
     */
    method PropagateDamage(allStyleDamage: bool, rules: DamageRules)
      requires Valid()
      modifies damage
      ensures damage[..] == Propagated(old(damage[..]), parent, allStyleDamage, rules)
    {
      ghost var d0 := damage[..];
      var n := damage.Length;
      var i := 0;
      while i < n
        invariant 0 <= i <= n
        invariant PropagateInv(d0, parent, allStyleDamage, rules, damage[..], i)
      {
        ghost var cur := damage[..];
        ProcessPreorder(i, allStyleDamage, rules);
        PropagateStep(d0, parent, allStyleDamage, rules, cur, damage[..], i);
        i := i + 1;
      }
      assert forall k :: 0 <= k < n ==> damage[..][k] == Propagated(d0, parent, allStyleDamage, rules)[k];
    }

    /**
     * `PropagateDamageTraversal::process` on node `i`: union the full value
     * into it when every node is restyled, then, when what it forces downward
     * is not empty, union that into each of its children.
     */
    method ProcessPreorder(i: nat, allStyleDamage: bool, rules: DamageRules)
      requires Valid() && i < damage.Length
      modifies damage
      ensures PreorderStep(parent, allStyleDamage, rules, old(damage[..]), damage[..], i)
    {
      if allStyleDamage {
        damage[i] := damage[i] + rules.all;
      }
      ghost var mid := damage[..];
      var prop := rules.propagateDown(damage[i]);
      if prop != {} {
        PushToChildren(i, prop);
      }
      assert forall k :: 0 <= k < damage.Length ==> damage[k] == mid[k] + (if i < k && parent[k] == i then prop else {});
      assert damage[i] == mid[i];
      forall k | 0 <= k < damage.Length && k != i
        ensures damage[..][k] == old(damage[..])[k]
                                 + (if i < k && parent[k] == i then rules.propagateDown(damage[..][i]) else {})
      {
        assert mid[k] == old(damage[k]);
      }
    }

    /** The loop over the children of node `i`: union `prop` into each of them. */
    method PushToChildren(i: nat, prop: Damage)
      requires Valid() && i < damage.Length
      modifies damage
      ensures forall k :: 0 <= k < damage.Length ==>
        damage[k] == old(damage[k]) + (if i < k && parent[k] == i then prop else {})
    {
      var j := i + 1;
      while j < damage.Length
        invariant i + 1 <= j <= damage.Length
        invariant forall k :: 0 <= k < damage.Length ==>
          damage[k] == old(damage[k]) + (if i < k < j && parent[k] == i then prop else {})
      {
        if parent[j] == i {
          damage[j] := damage[j] + prop;
        }
        j := j + 1;
      }
    }

    /**
     * `ComputeDamageTraversal`: visit children before parents; a node's new
     * damage is its own unioned with `propagateUp` of each child's new damage.
     */
    method ComputeDamage(rules: DamageRules)
      requires Valid()
      modifies damage
      ensures damage[..] == Aggregated(old(damage[..]), parent, rules.propagateUp)
    {
      ghost var d0 := damage[..];
      var n := damage.Length;
      var i := n;
      while i > 0
        invariant 0 <= i <= n
        invariant forall k :: i <= k < n ==> damage[k] == AggregatedAt(d0, parent, rules.propagateUp, k)
        invariant forall k :: 0 <= k < i ==> damage[k] == d0[k]
      {
        i := i - 1;
        var acc := damage[i];
        var j := i + 1;
        while j < n
          invariant i + 1 <= j <= n
          invariant acc == d0[i] + KidsUp(d0, parent, rules.propagateUp, i, j)
        {
          if parent[j] == i {
            acc := acc + rules.propagateUp(damage[j]);
          }
          j := j + 1;
        }
        damage[i] := acc;
      }
      assert forall k :: 0 <= k < n ==> damage[..][k] == Aggregated(d0, parent, rules.propagateUp)[k];
    }
  }
}
