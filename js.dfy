// JavaScript values as the budgeting screens see them: documents read from
// the store, ordered plain objects, and numbers that may turn into NaN.

module Js {

  datatype Option<T> = None | Some(value: T)

  /** A value read from a stored document. Stored numbers are finite. */
  datatype Raw =
    | Null
    | Bool(b: bool)
    | Num(x: real)
    | Str(s: string)
    | List(items: seq<Raw>)
    | Obj(fields: seq<(string, Raw)>)

  /** A plain JavaScript object: its own properties in `Object.entries` order. */
  type Dict<V> = seq<(string, V)>

  /** JavaScript objects never hold the same key twice. */
  ghost predicate UniqueKeys<V>(o: Dict<V>)
  {
    forall i, j :: 0 <= i < j < |o| ==> o[i].0 != o[j].0
  }

  function KeySet<V>(o: Dict<V>): set<string>
  {
    set i | 0 <= i < |o| :: o[i].0
  }

  /** Property read `o[k]`; `None` stands for `undefined`. */
  function Lookup<V>(o: Dict<V>, k: string): Option<V>
  {
    if o == [] then None
    else if o[0].0 == k then Some(o[0].1)
    else Lookup(o[1..], k)
  }

  /** Property assignment `o[k] = v`: an existing key keeps its position, a new
      one goes last. (JavaScript lists keys that are array indices, such as
      "2025", before all others; this order does not.) */
  function Put<V>(o: Dict<V>, k: string, v: V): Dict<V>
  {
    if o == [] then [(k, v)]
    else if o[0].0 == k then [(k, v)] + o[1..]
    else [o[0]] + Put(o[1..], k, v)
  }

  lemma LookupPut<V>(o: Dict<V>, k: string, v: V, x: string)
    ensures Lookup(Put(o, k, v), x) == if x == k then Some(v) else Lookup(o, x)
  {
  }

  /** Assignment brings in the one pair assigned and no pair that was not
      there before. */
  lemma {:induction false} PutMembers<V>(o: Dict<V>, k: string, v: V)
    ensures forall p :: p in Put(o, k, v) ==> p == (k, v) || p in o
  {
    if o != [] && o[0].0 != k {
      PutMembers(o[1..], k, v);
      assert Put(o, k, v) == [o[0]] + Put(o[1..], k, v);
      assert forall p :: p in o[1..] ==> p in o;
    } else if o != [] {
      assert forall p :: p in o[1..] ==> p in o;
    }
  }

  /** Assigning a key twice leaves the second value, at the key's place. */
  lemma PutPut<V>(o: Dict<V>, k: string, v: V, w: V)
    ensures Put(Put(o, k, v), k, w) == Put(o, k, w)
  {
  }

  lemma KeySetPut<V>(o: Dict<V>, k: string, v: V)
    ensures KeySet(Put(o, k, v)) == KeySet(o) + {k}
  {
    var r := Put(o, k, v);
    if o == [] {
      assert KeySet(r) == {k} by { KeySetTail(r); }
    } else {
      KeySetTail(o);
      KeySetTail(r);
      if o[0].0 != k {
        KeySetPut(o[1..], k, v);
        assert r[1..] == Put(o[1..], k, v);
      } else {
        assert r[1..] == o[1..];
      }
    }
  }

  lemma KeySetTail<V>(o: Dict<V>)
    requires o != []
    ensures KeySet(o) == {o[0].0} + KeySet(o[1..])
  {
    forall x | x in KeySet(o) ensures x in {o[0].0} + KeySet(o[1..]) {
      var i :| 0 <= i < |o| && o[i].0 == x;
      if i > 0 { assert o[1..][i - 1].0 == x; }
    }
    forall x | x in KeySet(o[1..]) ensures x in KeySet(o) {
      var i :| 0 <= i < |o[1..]| && o[1..][i].0 == x;
      assert o[i + 1].0 == x;
    }
  }

  /** The last key of an object is not among the keys before it. */
  lemma LastKeyFresh<V>(o: Dict<V>)
    requires o != [] && UniqueKeys(o)
    ensures o[|o| - 1].0 !in KeySet(o[..|o| - 1])
    ensures UniqueKeys(o[..|o| - 1])
  {
  }

  lemma KeySetTailLast<V>(o: Dict<V>)
    requires o != []
    ensures KeySet(o) == KeySet(o[..|o| - 1]) + {o[|o| - 1].0}
  {
    var init := o[..|o| - 1];
    forall x | x in KeySet(o) ensures x in KeySet(init) + {o[|o| - 1].0} {
      var i :| 0 <= i < |o| && o[i].0 == x;
      if i < |o| - 1 { assert init[i] == o[i]; }
    }
    forall x | x in KeySet(init) ensures x in KeySet(o) {
      var i :| 0 <= i < |init| && init[i].0 == x;
      assert o[i] == init[i];
    }
  }

  lemma PutFresh<V>(o: Dict<V>, k: string, v: V)
    requires k !in KeySet(o)
    ensures Put(o, k, v) == o + [(k, v)]
  {
    if o != [] {
      KeySetTail(o);
      PutFresh(o[1..], k, v);
    }
  }

  lemma PutKeepsUnique<V>(o: Dict<V>, k: string, v: V)
    requires UniqueKeys(o)
    ensures UniqueKeys(Put(o, k, v))
  {
    if o != [] {
      KeySetTail(o);
      var r := Put(o, k, v);
      if o[0].0 != k {
        PutKeepsUnique(o[1..], k, v);
        KeySetPut(o[1..], k, v);
        assert o[0].0 !in KeySet(o[1..]) by {
          forall j | 0 <= j < |o[1..]| ensures o[1..][j].0 != o[0].0 {
            assert o[1..][j] == o[j + 1];
          }
        }
        forall j | 1 <= j < |r| ensures r[0].0 != r[j].0 {
          assert r[j].0 in KeySet(Put(o[1..], k, v)) by { assert r[j] == Put(o[1..], k, v)[j - 1]; }
        }
        forall i, j | 1 <= i < j < |r| ensures r[i].0 != r[j].0 {
          assert r[i] == Put(o[1..], k, v)[i - 1] && r[j] == Put(o[1..], k, v)[j - 1];
        }
      } else {
        forall i, j | 0 <= i < j < |r| ensures r[i].0 != r[j].0 {
          if i > 0 { assert r[i] == o[i]; }
          assert r[j] == o[j];
        }
      }
    }
  }

  lemma LookupFound<V>(o: Dict<V>, i: int)
    requires UniqueKeys(o) && 0 <= i < |o|
    ensures Lookup(o, o[i].0) == Some(o[i].1)
  {
    if i > 0 {
      LookupFound(o[1..], i - 1);
    }
  }

  lemma LookupMissing<V>(o: Dict<V>, k: string)
    requires k !in KeySet(o)
    ensures Lookup(o, k) == None
  {
    if o != [] {
      KeySetTail(o);
      LookupMissing(o[1..], k);
    }
  }

  /** Decimal text of an array index, as `Object.entries` gives it. */
  function IndexKey(i: nat): string
  {
    if i < 10 then ["0123456789"[i]] else IndexKey(i / 10) + ["0123456789"[i % 10]]
  }

  /** `typeof v === 'object'`, which holds for null and arrays as well. */
  predicate IsObjectType(v: Raw)
  {
    v.Null? || v.List? || v.Obj?
  }

  /** JavaScript truthiness of a stored value; `None` is `undefined`. */
  predicate Truthy(v: Option<Raw>)
  {
    match v
    case None => false
    case Some(Null) => false
    case Some(Bool(b)) => b
    case Some(Num(x)) => x != 0.0
    case Some(Str(s)) => s != ""
    case Some(_) => true
  }

  /** `Object.entries(v)`: `None` where it throws a TypeError (on null). */
  function EntriesOf(v: Raw): (r: Option<Dict<Raw>>)
    ensures r.None? <==> v.Null?
    ensures v.Obj? ==> r == Some(v.fields)
    ensures v.Bool? || v.Num? ==> r == Some([])
  {
    match v
    case Null => None
    case Bool(_) => Some([])
    case Num(_) => Some([])
    case Str(s) => Some(seq(|s|, i requires 0 <= i < |s| => (IndexKey(i), Str([s[i]]))))
    case List(items) => Some(seq(|items|, i requires 0 <= i < |items| => (IndexKey(i), items[i])))
    case Obj(fields) => Some(fields)
  }

  /** Property read `v.k` on a value that is not null; `None` is `undefined`. */
  function Prop(v: Raw, k: string): Option<Raw>
  {
    if v.Obj? then Lookup(v.fields, k) else None
  }

  /** A JavaScript number as arithmetic on stored amounts can produce it. */
  datatype Number = Finite(val: real) | NaN

  function Add(a: Number, b: Number): (r: Number)
    ensures r.Finite? <==> a.Finite? && b.Finite?
    ensures r.Finite? ==> r.val == a.val + b.val
  {
    if a.Finite? && b.Finite? then Finite(a.val + b.val) else NaN
  }

  function Sub(a: Number, b: Number): (r: Number)
    ensures r.Finite? <==> a.Finite? && b.Finite?
    ensures r.Finite? ==> r.val == a.val - b.val
  {
    if a.Finite? && b.Finite? then Finite(a.val - b.val) else NaN
  }

  /** `!x` is false exactly for these numbers: NaN and zero are falsy. */
  predicate NumberTruthy(n: Number)
  {
    n.Finite? && n.val != 0.0
  }
}
