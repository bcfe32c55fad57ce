/** The Python values the JSON encoders read and produce: objects seen only through their class and
    their attributes, the built-in scalars, dates, enumeration members, and the containers. A `dict`
    keeps its insertion order, as Python's does. */
module PyValues {
  import opened Wrappers

  /** A Python class: the module that defines it (`home`), its name and its direct base classes. */
  datatype Cls = Cls(home: string, name: string, bases: seq<Cls>)

  /** `issubclass(c, k)`: `k` is `c` itself or an ancestor along the bases. */
  predicate IsSubclass(c: Cls, k: Cls)
    decreases c
  {
    c == k || exists i :: 0 <= i < |c.bases| && IsSubclass(c.bases[i], k)
  }

  lemma {:induction false} SubclassTransitive(a: Cls, b: Cls, c: Cls)
    requires IsSubclass(a, b) && IsSubclass(b, c)
    ensures IsSubclass(a, c)
    decreases a
  {
    if a != b {
      var i :| 0 <= i < |a.bases| && IsSubclass(a.bases[i], b);
      SubclassTransitive(a.bases[i], b, c);
    }
  }

  type Entries = seq<(string, Py)>

  /** A Python value. An enumeration member carries its `name` (the token) and its `value` (the
      label); an object carries its class and its attribute dictionary. */
  datatype Py =
    | PyNone
    | PyBool(b: bool)
    | PyInt(i: int)
    | PyFloat(r: real)
    | PyStr(s: string)
    | PyDate(year: int, month: int, day: int)
    | PyEnum(name: string, value: string)
    | PyTuple(items: seq<Py>)
    | PyList(items: seq<Py>)
    | PyDict(entries: Entries)
    | PyObj(cls: Cls, attrs: map<string, Py>)

  /** The exceptions the encoders can raise. */
  datatype Error =
    | AttributeError(attr: string)  // reading an attribute the value does not have
    | NotSerializable               // the TypeError of `json.JSONEncoder.default`
    | NotIterable                   // the TypeError of `for` over a non-iterable
    | NoLength                      // the TypeError of `len()` on a value without a length
    | NotSubscriptable              // the TypeError of `d[k] = v` on a value that is no dict
    | KeyError                      // a class missing from an encoder table

  /** `v.attr`: an object's own attributes, an enumeration member's `name` and `value`, a date's
      `year`, `month` and `day`; anything else raises `AttributeError`. */
  function GetAttr(v: Py, attr: string): (r: Result<Py, Error>)
    ensures r.Failure? ==> r.error == AttributeError(attr)
    ensures v.PyObj? ==> (r.Success? <==> attr in v.attrs)
    ensures v.PyObj? && attr in v.attrs ==> r.value == v.attrs[attr]
  {
    match v
    case PyObj(_, attrs) =>
      if attr in attrs then Success(attrs[attr]) else Failure(AttributeError(attr))
    case PyEnum(name, value) =>
      if attr == "name" then Success(PyStr(name))
      else if attr == "value" then Success(PyStr(value))
      else Failure(AttributeError(attr))
    case PyDate(y, m, d) =>
      if attr == "year" then Success(PyInt(y))
      else if attr == "month" then Success(PyInt(m))
      else if attr == "day" then Success(PyInt(d))
      else Failure(AttributeError(attr))
    case _ => Failure(AttributeError(attr))
  }

  /** `getattr(v, attr, None)`. */
  function GetAttrOr(v: Py, attr: string): (r: Py)
    ensures GetAttr(v, attr).Success? ==> r == GetAttr(v, attr).value
    ensures GetAttr(v, attr).Failure? ==> r == PyNone
  {
    match GetAttr(v, attr)
    case Success(x) => x
    case Failure(_) => PyNone
  }

  /** `bool(v)`: `None`, `False`, zero and the empty containers are false. */
  predicate Truthy(v: Py) {
    match v
    case PyNone => false
    case PyBool(b) => b
    case PyInt(i) => i != 0
    case PyFloat(r) => r != 0.0
    case PyStr(s) => |s| > 0
    case PyTuple(items) => |items| > 0
    case PyList(items) => |items| > 0
    case PyDict(entries) => |entries| > 0
    case _ => true
  }

  /** `len(v)`. */
  function Len(v: Py): (r: Result<nat, Error>)
    ensures r.Failure? ==> r.error == NoLength
    ensures r.Success? ==> (r.value > 0 <==> Truthy(v))
  {
    match v
    case PyStr(s) => Success(|s|)
    case PyTuple(items) => Success(|items|)
    case PyList(items) => Success(|items|)
    case PyDict(entries) => Success(|entries|)
    case _ => Failure(NoLength)
  }

  /** What `for x in v` visits: the items of a list or tuple, the one-character strings of a
      string, the keys of a dict. */
  function Iterate(v: Py): (r: Result<seq<Py>, Error>)
    ensures r.Failure? ==> r.error == NotIterable
    ensures v.PyList? || v.PyTuple? ==> r == Success(v.items)
    ensures !(v.PyList? || v.PyTuple?) && r.Success? ==> forall x <- r.value :: x.PyStr?
    ensures r.Success? ==> (|r.value| > 0 <==> Truthy(v))
  {
    match v
    case PyTuple(items) => Success(items)
    case PyList(items) => Success(items)
    case PyStr(s) => Success(seq(|s|, i requires 0 <= i < |s| => PyStr([s[i]])))
    case PyDict(entries) => Success(seq(|entries|, i requires 0 <= i < |entries| => PyStr(entries[i].0)))
    case _ => Failure(NotIterable)
  }

  /** The keys of a dict, in insertion order. */
  function Keys(e: Entries): (r: seq<string>)
    ensures |r| == |e|
    ensures forall i :: 0 <= i < |e| ==> r[i] == e[i].0
  {
    seq(|e|, i requires 0 <= i < |e| => e[i].0)
  }

  /** `d.get(k)`. */
  function Lookup(e: Entries, k: string): (r: Option<Py>)
    ensures r.None? <==> k !in Keys(e)
  {
    if |e| == 0 then None
    else if e[0].0 == k then Some(e[0].1)
    else Lookup(e[1..], k)
  }

  /** A dict never holds a key twice. */
  predicate UniqueKeys(e: Entries) {
    forall i, j :: 0 <= i < j < |e| ==> e[i].0 != e[j].0
  }

  /** `d[k] = v`: a key already present keeps its place and takes the new value; a new key goes
      last. */
  function Assign(e: Entries, k: string, v: Py): (r: Entries)
    ensures forall k' :: Lookup(r, k') == if k' == k then Some(v) else Lookup(e, k')
    ensures k in Keys(e) ==> Keys(r) == Keys(e)
    ensures k !in Keys(e) ==> Keys(r) == Keys(e) + [k]
  {
    if |e| == 0 then [(k, v)]
    else
      assert e == [e[0]] + e[1..];
      Cons(e[0], e[1..]);
      if e[0].0 == k then
        Cons((k, v), e[1..]);
        [(k, v)] + e[1..]
      else
        var rest := Assign(e[1..], k, v);
        Cons(e[0], rest);
        assert k in Keys(e) <==> k in Keys(e[1..]);
        assert k !in Keys(e) ==> [e[0].0] + (Keys(e[1..]) + [k]) == [e[0].0] + Keys(e[1..]) + [k];
        [e[0]] + rest
  }

  /** A dict with one entry in front: its keys, and what each key finds. */
  lemma Cons(h: (string, Py), t: Entries)
    ensures Keys([h] + t) == [h.0] + Keys(t)
    ensures forall k :: Lookup([h] + t, k) == if h.0 == k then Some(h.1) else Lookup(t, k)
  {
    var e := [h] + t;
    assert e[1..] == t;
    assert forall i :: 0 <= i < |e| ==> Keys(e)[i] == ([h.0] + Keys(t))[i];
  }

  /** Assignment keeps a dict's keys unique. */
  lemma AssignKeepsKeysUnique(e: Entries, k: string, v: Py)
    requires UniqueKeys(e)
    ensures UniqueKeys(Assign(e, k, v))
  {
    var r := Assign(e, k, v);
    forall i, j | 0 <= i < j < |r|
      ensures r[i].0 != r[j].0
    {
      assert r[i].0 == Keys(r)[i] && r[j].0 == Keys(r)[j];
      if k !in Keys(e) && j == |e| {
        assert Keys(r)[i] == Keys(e)[i];
      }
    }
  }

  /** In a dict with unique keys, the key at each position finds that position's value. */
  lemma {:induction false} LookupAt(e: Entries, i: nat)
    requires UniqueKeys(e) && i < |e|
    ensures Lookup(e, e[i].0) == Some(e[i].1)
  {
    if i > 0 {
      assert UniqueKeys(e[1..]);
      LookupAt(e[1..], i - 1);
    }
  }

  /** The class tag the metadata encoder writes: `__<module>.<class>__`. */
  function Tag(c: Cls): (r: string)
    ensures |r| == |c.home| + |c.name| + 5
    ensures r[0] == '_' && r[1] == '_' && r[|r| - 2] == '_' && r[|r| - 1] == '_'
  {
    "__" + c.home + "." + c.name + "__"
  }
}
