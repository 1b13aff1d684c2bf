/** Grouping by key in a dictionary of lists, in order of first appearance. */
module Grouping {

  import opened Sequences

  datatype Group<T> = Group(key: string, members: seq<T>)

  /** `groups.setdefault(key, []).append(x)` */
  function Add<T>(groups: seq<Group<T>>, key: string, x: T): seq<Group<T>> {
    if groups == [] then [Group(key, [x])]
    else if groups[0].key == key then [groups[0].(members := groups[0].members + [x])] + groups[1..]
    else [groups[0]] + Add(groups[1..], key, x)
  }

  function GroupBy<T>(items: seq<T>, keyOf: T -> string): seq<Group<T>> {
    if items == [] then [] else Add(GroupBy(items[..|items| - 1], keyOf), keyOf(items[|items| - 1]), items[|items| - 1])
  }

  method GroupByKey<T>(items: seq<T>, keyOf: T -> string) returns (groups: seq<Group<T>>)
    ensures groups == GroupBy(items, keyOf)
  {
    groups := [];
    for i := 0 to |items|
      invariant groups == GroupBy(items[..i], keyOf)
    {
      assert items[..i + 1][..i] == items[..i];
      groups := Add(groups, keyOf(items[i]), items[i]);
    }
    assert items[..|items|] == items;
  }

  function Members<T>(g: Group<T>): multiset<T> {
    multiset(g.members)
  }

  /** No group is empty, keys are distinct, and every member has its group's key. */
  ghost predicate Grouped<T>(groups: seq<Group<T>>, keyOf: T -> string) {
    && (forall i :: 0 <= i < |groups| ==> WellGrouped(groups[i], keyOf))
    && (forall i, j :: 0 <= i < j < |groups| ==> groups[i].key != groups[j].key)
  }

  lemma {:induction false} AddGathers<T>(groups: seq<Group<T>>, key: string, x: T)
    ensures Gather(Add(groups, key, x), Members) == Gather(groups, Members) + multiset{x}
  {
    if groups == [] {
      assert Gather(Add(groups, key, x), Members) == Members(Group(key, [x])) + Gather<Group<T>, T>([], Members);
    } else if groups[0].key == key {
      assert Add(groups, key, x)[1..] == groups[1..];
    } else {
      AddGathers(groups[1..], key, x);
      assert Add(groups, key, x)[1..] == Add(groups[1..], key, x);
    }
  }

  /** A group after adding is one from before, or the one with the key. */
  lemma {:induction false} AddedGroups<T>(groups: seq<Group<T>>, key: string, x: T, g: Group<T>)
    requires g in Add(groups, key, x)
    ensures g in groups || (g.key == key && (g.members == [x] || exists h :: h in groups && h.key == key && g.members == h.members + [x]))
  {
    if groups != [] {
      if groups[0].key == key {
        assert groups[0] in groups;
      } else if g != groups[0] {
        AddedGroups(groups[1..], key, x, g);
      }
    }
  }

  predicate WellGrouped<T>(g: Group<T>, keyOf: T -> string) {
    g.members != [] && forall k :: 0 <= k < |g.members| ==> keyOf(g.members[k]) == g.key
  }

  lemma {:induction false} AddKeepsKeys<T>(groups: seq<Group<T>>, key: string, x: T)
    requires forall i, j :: 0 <= i < j < |groups| ==> groups[i].key != groups[j].key
    ensures var r := Add(groups, key, x); forall i, j :: 0 <= i < j < |r| ==> r[i].key != r[j].key
  {
    if groups != [] && groups[0].key != key {
      AddKeepsKeys(groups[1..], key, x);
      var added := Add(groups[1..], key, x);
      forall j | 0 <= j < |added| ensures groups[0].key != added[j].key {
        AddedGroups(groups[1..], key, x, added[j]);
      }
    }
  }

  lemma AddKeeps<T>(groups: seq<Group<T>>, keyOf: T -> string, x: T)
    requires Grouped(groups, keyOf)
    ensures Grouped(Add(groups, keyOf(x), x), keyOf)
  {
    AddKeepsKeys(groups, keyOf(x), x);
    var r := Add(groups, keyOf(x), x);
    forall i | 0 <= i < |r| ensures WellGrouped(r[i], keyOf) {
      AddedGroups(groups, keyOf(x), x, r[i]);
      if h :| h in groups && h.key == keyOf(x) && r[i].members == h.members + [x] {
        assert WellGrouped(h, keyOf);
      }
    }
  }

  lemma {:induction false} GroupByIsGrouped<T>(items: seq<T>, keyOf: T -> string)
    ensures Grouped(GroupBy(items, keyOf), keyOf)
    ensures Gather(GroupBy(items, keyOf), Members) == multiset(items)
  {
    if items != [] {
      var front, x := items[..|items| - 1], items[|items| - 1];
      assert items == front + [x];
      assert GroupBy(items, keyOf) == Add(GroupBy(front, keyOf), keyOf(x), x);
      hide *;
      GroupByIsGrouped(front, keyOf);
      AddKeeps(GroupBy(front, keyOf), keyOf, x);
      AddGathers(GroupBy(front, keyOf), keyOf(x), x);
    }
  }

  lemma {:induction false} InSomeGroup<T>(groups: seq<Group<T>>, x: T) returns (i: nat)
    requires x in Gather(groups, Members)
    ensures i < |groups| && x in groups[i].members
  {
    if x in multiset(groups[0].members) {
      i := 0;
    } else {
      var k := InSomeGroup(groups[1..], x);
      i := k + 1;
    }
  }

  /** Items with the same key share a group. */
  lemma SameKeySameGroup<T>(items: seq<T>, keyOf: T -> string, x: T, y: T) returns (i: nat)
    requires x in items && y in items && keyOf(x) == keyOf(y)
    ensures var groups := GroupBy(items, keyOf); i < |groups| && x in groups[i].members && y in groups[i].members
  {
    GroupByIsGrouped(items, keyOf);
    var groups := GroupBy(items, keyOf);
    assert x in multiset(items) && y in multiset(items);
    i := InSomeGroup(groups, x);
    var j := InSomeGroup(groups, y);
    var k :| 0 <= k < |groups[i].members| && groups[i].members[k] == x;
    var l :| 0 <= l < |groups[j].members| && groups[j].members[l] == y;
    assert WellGrouped(groups[i], keyOf) && WellGrouped(groups[j], keyOf);
    assert keyOf(groups[i].members[k]) == groups[i].key && keyOf(groups[j].members[l]) == groups[j].key;
  }
}
