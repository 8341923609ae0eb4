/** Flattening a sequence of groups, and where each group's members land in it. */
module Seqs {

  /** `iter().flatten()` collected: the groups one after another. */
  function Flatten<T>(groups: seq<seq<T>>): seq<T>
    decreases |groups|
  {
    if groups == [] then [] else groups[0] + Flatten(groups[1..])
  }

  /** Where group `g` starts in the flattened sequence. */
  function Offset<T>(groups: seq<seq<T>>, g: nat): nat
    requires g <= |groups|
  {
    |Flatten(groups[..g])|
  }

  /** Concatenation regroups freely. */
  lemma AppendAssoc<T>(a: seq<T>, b: seq<T>, c: seq<T>)
    ensures (a + b) + c == a + (b + c)
  {
  }

  /** Taking one more element appends it. */
  lemma TakeSnoc<T>(s: seq<T>, j: nat)
    requires j < |s|
    ensures s[..j + 1] == s[..j] + [s[j]]
  {
  }

  lemma {:induction false} FlattenAppend<T>(a: seq<seq<T>>, b: seq<seq<T>>)
    ensures Flatten(a + b) == Flatten(a) + Flatten(b)
    decreases |a|
  {
    if a == [] {
      assert a + b == b;
    } else {
      assert (a + b)[1..] == a[1..] + b;
      FlattenAppend(a[1..], b);
    }
  }

  /** Adding a group at the end adds its members at the end. */
  lemma FlattenSnoc<T>(a: seq<seq<T>>, last: seq<T>)
    ensures Flatten(a + [last]) == Flatten(a) + last
  {
    FlattenAppend(a, [last]);
    assert Flatten([last]) == last + Flatten([last][1..]);
    assert [last][1..] == [];
  }

  /** Member `j` of group `g` sits at `Offset(groups, g) + j` of the flattened sequence. */
  lemma FlattenAt<T>(groups: seq<seq<T>>, g: nat, j: nat)
    requires g < |groups| && j < |groups[g]|
    ensures Offset(groups, g) + j < |Flatten(groups)|
    ensures Flatten(groups)[Offset(groups, g) + j] == groups[g][j]
  {
    assert groups == groups[..g] + ([groups[g]] + groups[g + 1..]);
    FlattenAppend(groups[..g], [groups[g]] + groups[g + 1..]);
    assert Flatten([groups[g]] + groups[g + 1..]) == groups[g] + Flatten(groups[g + 1..]);
  }

  /** The offsets grow by the size of each group. */
  lemma OffsetNext<T>(groups: seq<seq<T>>, g: nat)
    requires g < |groups|
    ensures Offset(groups, g + 1) == Offset(groups, g) + |groups[g]|
  {
    assert groups[..g + 1] == groups[..g] + [groups[g]];
    FlattenSnoc(groups[..g], groups[g]);
  }

  /** `f` applied to every element together with its running index, counting from `first`. */
  function MapIndexed<T, U>(f: (nat, T) -> U, s: seq<T>, first: nat): (r: seq<U>)
    ensures |r| == |s|
    decreases |s|
  {
    if s == [] then [] else [f(first, s[0])] + MapIndexed(f, s[1..], first + 1)
  }

  /** Element `j` is mapped with the index `first + j`. */
  lemma {:induction false} MapIndexedAt<T, U>(f: (nat, T) -> U, s: seq<T>, first: nat, j: nat)
    requires j < |s|
    ensures MapIndexed(f, s, first)[j] == f(first + j, s[j])
    decreases j
  {
    if j > 0 {
      MapIndexedAt(f, s[1..], first + 1, j - 1);
      assert s[1..][j - 1] == s[j];
    }
  }

  /** Mapping a concatenation maps the second part with the indexes running on. */
  lemma {:induction false} MapIndexedAppend<T, U>(f: (nat, T) -> U, a: seq<T>, b: seq<T>, first: nat)
    ensures MapIndexed(f, a + b, first) == MapIndexed(f, a, first) + MapIndexed(f, b, first + |a|)
    decreases |a|
  {
    if a == [] {
      assert a + b == b;
    } else {
      assert (a + b)[1..] == a[1..] + b;
      MapIndexedAppend(f, a[1..], b, first + 1);
    }
  }

  /**
   * The first `n` groups mapped with indexes running across all of them, one
   * row per group that is not empty.
   */
  function Rows<T, U>(f: (nat, T) -> U, groups: seq<seq<T>>, n: nat): seq<seq<U>>
    requires n <= |groups|
  {
    if n == 0 then []
    else Rows(f, groups, n - 1) + (if groups[n - 1] == [] then [] else [MapIndexed(f, groups[n - 1], Offset(groups, n - 1))])
  }

  /** Read row by row, the rows are the flattened groups mapped with indexes from 0. */
  lemma {:induction false} RowsFlatten<T, U>(f: (nat, T) -> U, groups: seq<seq<T>>, n: nat)
    requires n <= |groups|
    ensures Flatten(Rows(f, groups, n)) == MapIndexed(f, Flatten(groups[..n]), 0)
  {
    if n == 0 {
      assert groups[..0] == [];
    } else {
      var row: seq<seq<U>> := if groups[n - 1] == [] then [] else [MapIndexed(f, groups[n - 1], Offset(groups, n - 1))];
      RowsFlatten(f, groups, n - 1);
      FlattenAppend(Rows(f, groups, n - 1), row);
      if groups[n - 1] != [] {
        FlattenSnoc([], MapIndexed(f, groups[n - 1], Offset(groups, n - 1)));
        assert [] + [MapIndexed(f, groups[n - 1], Offset(groups, n - 1))] == row;
      }
      assert groups[..n] == groups[..n - 1] + [groups[n - 1]];
      FlattenSnoc(groups[..n - 1], groups[n - 1]);
      MapIndexedAppend(f, Flatten(groups[..n - 1]), groups[n - 1], 0);
    }
  }
}
