/** The segment-rule editor of the new-campaign page
    (frontend/src/app/dashboard/campaigns/new/page.tsx): a tree of AND/OR
    groups over conditions, and the edits its blocks make. Every edit
    builds a new tree; an edit inside a nested group reaches the root by
    replacing, at each level, the one child on its path. */
module RuleTree {
  import opened Wrappers

  datatype Logic = And | Or

  /** A condition block: the attribute (`spend`, `visits`, `inactiveDays`),
      the comparison and the number it is compared with. */
  datatype Condition = Condition(kind: string, operator: string, value: real)

  datatype Node = Cond(condition: Condition) | Sub(group: Group)

  datatype Group = Group(logic: Logic, children: seq<Node>)

  /** `defaultCondition`: spend > 0. */
  function DefaultCondition(): (c: Condition)
    ensures c.kind == "spend" && c.operator == ">" && c.value == 0.0
  {
    Condition("spend", ">", 0.0)
  }

  /** `defaultGroup`: an AND group holding one default condition. */
  function DefaultGroup(): (g: Group)
    ensures g.logic == And && g.children == [Cond(DefaultCondition())]
  {
    Group(And, [Cond(DefaultCondition())])
  }

  /** The three selectors of a condition block each replace one field. */
  function SetKind(c: Condition, kind: string): (r: Condition)
    ensures r.kind == kind && r.operator == c.operator && r.value == c.value
  {
    c.(kind := kind)
  }

  function SetOperator(c: Condition, operator: string): (r: Condition)
    ensures r.operator == operator && r.kind == c.kind && r.value == c.value
  {
    c.(operator := operator)
  }

  function SetValue(c: Condition, value: real): (r: Condition)
    ensures r.value == value && r.kind == c.kind && r.operator == c.operator
  {
    c.(value := value)
  }

  /** `handleLogicChange`: only the logic changes. */
  function SetLogic(g: Group, logic: Logic): (r: Group)
    ensures r.logic == logic && r.children == g.children
  {
    g.(logic := logic)
  }

  /** `handleAddCondition`: one default condition at the end. */
  function AddCondition(g: Group): (r: Group)
    ensures r.logic == g.logic
    ensures |r.children| == |g.children| + 1
    ensures r.children[..|g.children|] == g.children
    ensures r.children[|g.children|] == Cond(DefaultCondition())
  {
    g.(children := g.children + [Cond(DefaultCondition())])
  }

  /** `handleAddGroup`: one default group at the end. */
  function AddGroup(g: Group): (r: Group)
    ensures r.logic == g.logic
    ensures |r.children| == |g.children| + 1
    ensures r.children[..|g.children|] == g.children
    ensures r.children[|g.children|] == Sub(DefaultGroup())
  {
    g.(children := g.children + [Sub(DefaultGroup())])
  }

  /** `handleChildChange`: the child at `idx` is replaced; an index outside
      the list changes nothing. */
  function ChangeChild(g: Group, idx: int, child: Node): (r: Group)
    ensures r.logic == g.logic
    ensures |r.children| == |g.children|
    ensures forall i :: 0 <= i < |g.children| ==> r.children[i] == if i == idx then child else g.children[i]
  {
    g.(children := seq(|g.children|, i requires 0 <= i < |g.children| => if i == idx then child else g.children[i]))
  }

  /** `handleRemoveChild`: the child at `idx` is dropped and the others keep
      their order; an index outside the list changes nothing. */
  function RemoveChild(g: Group, idx: int): (r: Group)
    ensures r.logic == g.logic
    ensures 0 <= idx < |g.children| ==> |r.children| == |g.children| - 1
    ensures 0 <= idx < |g.children| ==>
      forall i :: 0 <= i < |r.children| ==> r.children[i] == g.children[if i < idx then i else i + 1]
    ensures !(0 <= idx < |g.children|) ==> r == g
  {
    if 0 <= idx < |g.children| then g.(children := g.children[..idx] + g.children[idx + 1..]) else g
  }

  /** The child of `g` at `i`, if there is one and it is a group. */
  function ChildGroup(g: Group, i: int): Option<Group> {
    if 0 <= i < |g.children| && g.children[i].Sub? then Some(g.children[i].group) else None
  }

  /** The group reached by following child indices from `g`, if every step
      lands on a group. Walking down from the root is the same as reaching
      the parent and then taking the last step. */
  function Subgroup(g: Group, path: seq<int>): (r: Option<Group>)
    ensures |path| == 0 ==> r == Some(g)
    ensures |path| > 0 ==>
      r == (var p := Subgroup(g, path[..|path| - 1]);
            if p.Some? then ChildGroup(p.value, path[|path| - 1]) else None)
    decreases |path|
  {
    if |path| == 0 then Some(g)
    else if 0 <= path[0] < |g.children| && g.children[path[0]].Sub? then
      assert |path| > 1 ==> path[..|path| - 1][1..] == path[1..][..|path| - 2];
      Subgroup(g.children[path[0]].group, path[1..])
    else None
  }

  /** An edit `f` made by the group block at `path`: each enclosing block
      hands the new group to its own `handleChildChange`. */
  function EditAt(g: Group, path: seq<int>, f: Group -> Group): (r: Group)
    ensures Subgroup(g, path).None? ==> r == g
    ensures |path| > 0 ==> r.logic == g.logic && |r.children| == |g.children|
    ensures |path| > 0 ==> forall i :: 0 <= i < |g.children| && i != path[0] ==> r.children[i] == g.children[i]
    decreases |path|
  {
    if |path| == 0 then f(g)
    else if 0 <= path[0] < |g.children| && g.children[path[0]].Sub? then
      ChangeChild(g, path[0], Sub(EditAt(g.children[path[0]].group, path[1..], f)))
    else g
  }

  /** After an edit, the group at its path is the edited group. */
  lemma {:induction false} EditAtReaches(g: Group, path: seq<int>, f: Group -> Group)
    requires Subgroup(g, path).Some?
    ensures Subgroup(EditAt(g, path, f), path) == Some(f(Subgroup(g, path).value))
    decreases |path|
  {
    if |path| > 0 {
      EditAtReaches(g.children[path[0]].group, path[1..], f);
    }
  }

  /** Two paths part ways below a common prefix. */
  predicate Diverge(p: seq<int>, q: seq<int>)
    decreases |p|
  {
    |p| > 0 && |q| > 0 && (p[0] != q[0] || Diverge(p[1..], q[1..]))
  }

  /** An edit changes nothing off its path: any group whose path parts
      ways with the edited one is as before. */
  lemma {:induction false} EditAtOffPath(g: Group, p: seq<int>, q: seq<int>, f: Group -> Group)
    requires Diverge(p, q)
    ensures Subgroup(EditAt(g, p, f), q) == Subgroup(g, q)
    decreases |p|
  {
    if 0 <= p[0] < |g.children| && g.children[p[0]].Sub? {
      var r := EditAt(g, p, f);
      if p[0] == q[0] {
        EditAtOffPath(g.children[p[0]].group, p[1..], q[1..], f);
      } else {
        assert 0 <= q[0] < |g.children| ==> r.children[q[0]] == g.children[q[0]];
      }
    }
  }

  /** Adding then removing the last child gives the group back. */
  lemma AddThenRemove(g: Group)
    ensures RemoveChild(AddCondition(g), |g.children|) == g
    ensures RemoveChild(AddGroup(g), |g.children|) == g
  {
    assert AddCondition(g).children[..|g.children|] == g.children;
    assert AddGroup(g).children[..|g.children|] == g.children;
  }

  /** Replacing a child with itself changes nothing. */
  lemma ChangeChildSame(g: Group, idx: int)
    requires 0 <= idx < |g.children|
    ensures ChangeChild(g, idx, g.children[idx]) == g
  {
    assert ChangeChild(g, idx, g.children[idx]).children == g.children;
  }
}
