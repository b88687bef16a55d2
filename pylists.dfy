/**
 * A Python list that the navigation code changes in place: the caller's list
 * object is shared, so every update through one reference is seen through
 * all of them.  Only the operations the modelled code performs are given, on
 * indices the callers keep in range.
 */
module PyLists {

  class PyList<T> {
    var items: seq<T>

    constructor (xs: seq<T>)
      ensures items == xs
    {
      items := xs;
    }

    /** `len(l)`. */
    function Length(): (n: nat)
      reads this
      ensures n == |items|
    {
      |items|
    }

    /** `l[i]`. */
    function Get(i: nat): (x: T)
      reads this
      requires i < |items|
      ensures x == items[i]
    {
      items[i]
    }

    /** `l[i] = x`. */
    method Set(i: nat, x: T)
      modifies this
      requires i < |items|
      ensures items == old(items)[i := x]
    {
      items := items[i := x];
    }

    /** `del l[i]`. */
    method Delete(i: nat)
      modifies this
      requires i < |items|
      ensures items == Removed(old(items), i)
    {
      items := Removed(items, i);
    }

    /** `l.insert(i, x)`. */
    method Insert(i: nat, x: T)
      modifies this
      requires i <= |items|
      ensures items == Inserted(old(items), i, x)
    {
      items := Inserted(items, i, x);
    }

    /** `l[i:] = xs`: everything from index i on is replaced by xs. */
    method SetTail(i: nat, xs: seq<T>)
      modifies this
      requires i <= |items|
      ensures items == old(items)[..i] + xs
    {
      items := items[..i] + xs;
    }
  }

  /** The list after `del l[i]`: one shorter, the elements after i move down by one. */
  function Removed<T>(s: seq<T>, i: nat): (r: seq<T>)
    requires i < |s|
    ensures |r| == |s| - 1
    ensures forall k :: 0 <= k < i ==> r[k] == s[k]
    ensures forall k :: i <= k < |r| ==> r[k] == s[k + 1]
  {
    s[..i] + s[i + 1..]
  }

  /** The list after `l.insert(i, x)`: one longer, x at i, the elements from i on move up by one. */
  function Inserted<T>(s: seq<T>, i: nat, x: T): (r: seq<T>)
    requires i <= |s|
    ensures |r| == |s| + 1 && r[i] == x
    ensures forall k :: 0 <= k < i ==> r[k] == s[k]
    ensures forall k :: i < k < |r| ==> r[k] == s[k - 1]
  {
    s[..i] + [x] + s[i..]
  }

  /** Deleting an element and inserting it back at the same index restores the list. */
  lemma RemoveInsertRoundTrip<T>(s: seq<T>, i: nat)
    requires i < |s|
    ensures Inserted(Removed(s, i), i, s[i]) == s
  {
    var r := Inserted(Removed(s, i), i, s[i]);
    forall k | 0 <= k < |s|
      ensures r[k] == s[k]
    {
      if k < i {
      } else if k == i {
      } else {
        assert r[k] == Removed(s, i)[k - 1];
      }
    }
  }

  /** Inserting an element and deleting it again restores the list. */
  lemma InsertRemoveRoundTrip<T>(s: seq<T>, i: nat, x: T)
    requires i <= |s|
    ensures Removed(Inserted(s, i, x), i) == s
  {
    var r := Removed(Inserted(s, i, x), i);
    forall k | 0 <= k < |s|
      ensures r[k] == s[k]
    {
      if k >= i {
        assert r[k] == Inserted(s, i, x)[k + 1];
      }
    }
  }

  /**
   * `del l[i]` followed by `l.insert(i, x)` overwrites position i and nothing
   * else: it is `l[i] = x`.
   */
  lemma RemoveInsertIsUpdate<T>(s: seq<T>, i: nat, x: T)
    requires i < |s|
    ensures Inserted(Removed(s, i), i, x) == s[i := x]
  {
    var r := Inserted(Removed(s, i), i, x);
    forall k | 0 <= k < |s|
      ensures r[k] == s[i := x][k]
    {
      if k > i {
        assert r[k] == Removed(s, i)[k - 1];
      }
    }
  }
}
