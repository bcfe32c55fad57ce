/** The collections a relationship with `back_populates` and `order_by` yields: the rows of the
    child table whose foreign key names the parent, in ascending order of the `order_by` column. */
module Relationships {
  import opened Wrappers

  /** The value of an `order_by` column: an integer identifier or a string key. */
  datatype Key = IntKey(i: int) | StrKey(s: string)

  /** Strings ordered character by character by code point; a proper prefix comes first. */
  predicate StrLe(a: string, b: string)
    decreases |a|
  {
    |a| == 0 || (|b| > 0 && (a[0] < b[0] || (a[0] == b[0] && StrLe(a[1..], b[1..]))))
  }

  /** The order of keys: integers by value, strings by `StrLe`. A column holds keys of one kind;
      the order of an integer against a string only makes the relation total. */
  predicate KeyLe(a: Key, b: Key) {
    match a
    case IntKey(x) => (b.IntKey? ==> x <= b.i)
    case StrKey(x) => b.StrKey? && StrLe(x, b.s)
  }

  lemma {:induction false} StrLeTotal(a: string, b: string)
    ensures StrLe(a, b) || StrLe(b, a)
    decreases |a|
  {
    if |a| > 0 && |b| > 0 && a[0] == b[0] {
      StrLeTotal(a[1..], b[1..]);
    }
  }

  lemma {:induction false} StrLeTransitive(a: string, b: string, c: string)
    requires StrLe(a, b) && StrLe(b, c)
    ensures StrLe(a, c)
    decreases |a|
  {
    if |a| > 0 && a[0] == b[0] && b[0] == c[0] {
      StrLeTransitive(a[1..], b[1..], c[1..]);
    }
  }

  lemma {:induction false} StrLeAntisymmetric(a: string, b: string)
    requires StrLe(a, b) && StrLe(b, a)
    ensures a == b
    decreases |a|
  {
    if |a| > 0 {
      StrLeAntisymmetric(a[1..], b[1..]);
      assert a == [a[0]] + a[1..] && b == [b[0]] + b[1..];
    }
  }

  /** `KeyLe` is a total order. */
  lemma KeyLeTotal(a: Key, b: Key)
    ensures KeyLe(a, b) || KeyLe(b, a)
  {
    if a.StrKey? && b.StrKey? {
      StrLeTotal(a.s, b.s);
    }
  }

  lemma KeyLeTransitive(a: Key, b: Key, c: Key)
    requires KeyLe(a, b) && KeyLe(b, c)
    ensures KeyLe(a, c)
  {
    if a.StrKey? {
      StrLeTransitive(a.s, b.s, c.s);
    }
  }

  lemma KeyLeAntisymmetric(a: Key, b: Key)
    requires KeyLe(a, b) && KeyLe(b, a)
    ensures a == b
  {
    if a.StrKey? {
      StrLeAntisymmetric(a.s, b.s);
    }
  }

  /** Every row comes no later in `key` order than the rows after it. */
  predicate SortedBy<T>(s: seq<T>, key: T -> Key) {
    forall i, j :: 0 <= i < j < |s| ==> KeyLe(key(s[i]), key(s[j]))
  }

  /** One row put into a sorted sequence before the first row whose key is not smaller. */
  function Insert<T(==)>(x: T, s: seq<T>, key: T -> Key): (r: seq<T>)
    requires SortedBy(s, key)
    ensures SortedBy(r, key)
    ensures multiset(r) == multiset(s) + multiset{x}
    decreases |s|
  {
    if |s| == 0 then [x]
    else
      assert s == [s[0]] + s[1..];
      if KeyLe(key(x), key(s[0])) then
        FirstIsLeast(x, s, key);
        ConsSorted(x, s, key);
        [x] + s
      else
        var t := Insert(x, s[1..], key);
        KeyLeTotal(key(x), key(s[0]));
        HeadBelowInserted(x, s, t, key);
        ConsSorted(s[0], t, key);
        [s[0]] + t
  }

  /** A row no later than the first of a sorted sequence is no later than any of them. */
  lemma FirstIsLeast<T>(x: T, s: seq<T>, key: T -> Key)
    requires SortedBy(s, key) && |s| > 0 && KeyLe(key(x), key(s[0]))
    ensures forall y <- s :: KeyLe(key(x), key(y))
  {
    forall j | 0 <= j < |s|
      ensures KeyLe(key(x), key(s[j]))
    {
      if j > 0 {
        KeyLeTransitive(key(x), key(s[0]), key(s[j]));
      }
    }
  }

  /** The first row of a sorted sequence is no later than anything the insertion of a later row
      into its tail yields. */
  lemma HeadBelowInserted<T>(x: T, s: seq<T>, t: seq<T>, key: T -> Key)
    requires SortedBy(s, key) && |s| > 0 && KeyLe(key(s[0]), key(x))
    requires multiset(t) == multiset(s[1..]) + multiset{x}
    ensures forall y <- t :: KeyLe(key(s[0]), key(y))
  {
    forall y | y in t
      ensures KeyLe(key(s[0]), key(y))
    {
      assert y in multiset(t);
      if y != x {
        assert y in multiset(s[1..]);
        var j :| 0 <= j < |s[1..]| && s[1..][j] == y;
        assert s[j + 1] == y;
      }
    }
  }

  /** A row no later than every row of a sorted sequence can go in front of it. */
  lemma ConsSorted<T>(h: T, t: seq<T>, key: T -> Key)
    requires SortedBy(t, key) && forall y <- t :: KeyLe(key(h), key(y))
    ensures SortedBy([h] + t, key)
  {
    var r := [h] + t;
    forall i, j | 0 <= i < j < |r|
      ensures KeyLe(key(r[i]), key(r[j]))
    {
      assert r[j] == t[j - 1];
      if i > 0 {
        assert r[i] == t[i - 1];
      }
    }
  }

  /** The rows in ascending `key` order: an insertion sort. */
  function OrderBy<T(==)>(s: seq<T>, key: T -> Key): (r: seq<T>)
    ensures SortedBy(r, key)
    ensures multiset(r) == multiset(s)
    decreases |s|
  {
    if |s| == 0 then []
    else
      assert s == [s[0]] + s[1..];
      Insert(s[0], OrderBy(s[1..], key), key)
  }

  /** The rows whose foreign key names `parent`, in table order. */
  function Where<T(==,!new), P(==)>(rows: seq<T>, fk: T -> Option<P>, parent: P): (r: seq<T>)
    ensures forall x :: multiset(r)[x] == if fk(x) == Some(parent) then multiset(rows)[x] else 0
    decreases |rows|
  {
    if |rows| == 0 then []
    else
      assert rows == [rows[0]] + rows[1..];
      var rest := Where(rows[1..], fk, parent);
      if fk(rows[0]) == Some(parent) then [rows[0]] + rest else rest
  }

  /** The relationship collection of `parent`: the child rows whose foreign key names it, ordered by
      `key`. */
  function Collection<T(==,!new), P(==)>(rows: seq<T>, fk: T -> Option<P>, parent: P, key: T -> Key): (r: seq<T>)
    ensures SortedBy(r, key)
    ensures forall x :: multiset(r)[x] == if fk(x) == Some(parent) then multiset(rows)[x] else 0
    ensures forall x :: x in r <==> x in rows && fk(x) == Some(parent)
  {
    var r := OrderBy(Where(rows, fk, parent), key);
    assert forall x :: x in r <==> multiset(r)[x] > 0;
    r
  }

  /** Keys are distinct when no two rows of a sequence share one. */
  predicate DistinctKeys<T>(s: seq<T>, key: T -> Key) {
    forall i, j :: 0 <= i < j < |s| ==> key(s[i]) != key(s[j])
  }

  /** Each row comes strictly before the rows after it in `key` order. */
  predicate StrictlyAscending<T>(s: seq<T>, key: T -> Key) {
    forall i, j :: 0 <= i < j < |s| ==> KeyLe(key(s[i]), key(s[j])) && key(s[i]) != key(s[j])
  }

  /** When the table's keys are distinct, so are the collection's: the collection is the one
      strictly ascending arrangement of its rows. */
  lemma CollectionStrictlyAscending<T(!new), P>(rows: seq<T>, fk: T -> Option<P>, parent: P, key: T -> Key)
    requires DistinctKeys(rows, key)
    ensures StrictlyAscending(Collection(rows, fk, parent, key), key)
  {
    var r := Collection(rows, fk, parent, key);
    forall i, j | 0 <= i < j < |r|
      ensures key(r[i]) != key(r[j])
    {
      assert r[i] in rows && r[j] in rows;
      var a :| 0 <= a < |rows| && rows[a] == r[i];
      var b :| 0 <= b < |rows| && rows[b] == r[j];
      MultisetOnce(rows, a, key);
      if r[i] == r[j] {
        MultisetTwice(r, i, j);
        assert false;
      }
      assert a != b;
    }
  }

  /** A value found at two positions counts at least twice. */
  lemma MultisetTwice<T>(s: seq<T>, i: nat, j: nat)
    requires i < j < |s| && s[i] == s[j]
    ensures multiset(s)[s[i]] >= 2
  {
    assert s == s[..j] + s[j..];
    assert s[i] in s[..j];
    assert s[j..] == [s[j]] + s[j + 1..];
  }

  /** In rows with distinct keys every row occurs once. */
  lemma {:induction false} MultisetOnce<T>(rows: seq<T>, a: nat, key: T -> Key)
    requires DistinctKeys(rows, key) && a < |rows|
    ensures multiset(rows)[rows[a]] == 1
    decreases |rows|
  {
    assert rows == [rows[0]] + rows[1..];
    if a == 0 {
      forall k | 0 <= k < |rows| - 1
        ensures rows[1..][k] != rows[0]
      {
        assert key(rows[0]) != key(rows[k + 1]);
      }
      assert rows[0] !in rows[1..];
    } else {
      assert DistinctKeys(rows[1..], key);
      MultisetOnce(rows[1..], a - 1, key);
      assert rows[1..][a - 1] == rows[a];
      assert rows[a] != rows[0] by {
        assert key(rows[0]) != key(rows[a]);
      }
    }
  }

  /** The parent a foreign key value names: the first parent whose key it is. `pk` is `None` for a
      parent the foreign key cannot name (a row of a base table without the referenced subtype
      row). */
  function Owner<P, K(==)>(parents: seq<P>, pk: P -> Option<K>, fk: Option<K>): (r: Option<P>)
    ensures r.Some? ==> r.value in parents && fk.Some? && pk(r.value) == fk
    ensures r.None? ==> forall p <- parents :: !(fk.Some? && pk(p) == fk)
  {
    if fk.None? || |parents| == 0 then None
    else if pk(parents[0]) == fk then Some(parents[0])
    else
      var r := Owner(parents[1..], pk, fk);
      assert r.Some? ==> r.value in parents;
      assert forall p <- parents :: p == parents[0] || p in parents[1..];
      r
  }

  /** The parents' keys are distinct where they have one. */
  predicate DistinctParents<P, K(==)>(parents: seq<P>, pk: P -> Option<K>) {
    forall i, j :: 0 <= i < j < |parents| && pk(parents[i]).Some? ==> pk(parents[i]) != pk(parents[j])
  }

  /** `back_populates`: a child row is in a parent's collection exactly when the parent is the
      row's owner, provided the parents' keys are distinct. */
  lemma BackPopulated<T(!new), P, K>(rows: seq<T>, fk: T -> Option<K>, key: T -> Key,
                                     parents: seq<P>, pk: P -> Option<K>, p: P, x: T)
    requires p in parents && pk(p).Some? && DistinctParents(parents, pk) && x in rows
    ensures x in Collection(rows, fk, pk(p).value, key) <==> Owner(parents, pk, fk(x)) == Some(p)
  {
    var o := Owner(parents, pk, fk(x));
    if fk(x) == pk(p) {
      var q := o.value;
      var a :| 0 <= a < |parents| && parents[a] == p;
      var b :| 0 <= b < |parents| && parents[b] == q;
      assert a == b;
    }
  }
}
