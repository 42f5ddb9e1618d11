/**
 * The PHP values the JSON-RPC layer handles: the results of
 * `json_decode($text, true)`, the arrays the server builds, and the
 * handful of array operations the server and client apply to them
 * (`$a['k']`, `isset`, `??`, `$a['k'] = v`, `$a + $b`).
 *
 * A PHP array is an ordered map from integer or string keys to values.
 * It is modelled as a sequence of entries in insertion order; a JSON list
 * and a JSON object both decode to one (`[]` and `{}` both to the empty
 * array).
 */
module PhpValues {

  datatype Option<+T> = None | Some(value: T) {
    function GetOr(default: T): T {
      if Some? then value else default
    }
  }

  datatype Key = IntKey(n: int) | StrKey(s: string)

  datatype Value =
    | Null
    | Bool(b: bool)
    | Int(n: int)
    | Str(s: string)
    | Arr(entries: seq<Entry>)
    | Object(handle: nat)   // an opaque PHP object (a handler result, a callback target)

  datatype Entry = Entry(key: Key, val: Value)

  /** PHP's `!$v`: the values that convert to false. */
  predicate Falsy(v: Value): (b: bool)
    ensures b <==> v in {Null, Bool(false), Int(0), Str(""), Str("0"), Arr([])}
  {
    match v
    case Null => true
    case Bool(b) => !b
    case Int(n) => n == 0
    case Str(s) => s == "" || s == "0"
    case Arr(es) => es == []
    case Object(_) => false
  }

  /**
   * `!$x = json_decode($text, true)`: `None` stands for text that is not
   * JSON, which json_decode reports as null.
   */
  predicate FalsyDecoded(d: Option<Value>) {
    d.None? || Falsy(d.value)
  }

  function KeySet(es: seq<Entry>): set<Key> {
    set e | e in es :: e.key
  }

  lemma KeySetConcat(a: seq<Entry>, b: seq<Entry>)
    ensures KeySet(a + b) == KeySet(a) + KeySet(b)
  {
    assert forall e :: e in a + b <==> e in a || e in b;
  }

  lemma KeySetPair(a: Entry, b: Entry)
    ensures KeySet([a]) == {a.key}
    ensures KeySet([a, b]) == {a.key, b.key}
  {
    assert forall e :: e in [a] <==> e == a;
    assert forall e :: e in [a, b] <==> e == a || e == b;
  }

  /** `$a[k]` when the key exists; the first entry with that key. */
  function Find(es: seq<Entry>, k: Key): (r: Option<Value>)
    ensures r.Some? <==> k in KeySet(es)
  {
    if es == [] then None
    else if es[0].key == k then Some(es[0].val)
    else
      assert es == [es[0]] + es[1..];
      KeySetConcat([es[0]], es[1..]);
      Find(es[1..], k)
  }

  /** What `Find` returns is the value of an entry with that key. */
  lemma FindIsEntry(es: seq<Entry>, k: Key)
    requires Find(es, k).Some?
    ensures Entry(k, Find(es, k).value) in es
  {
    if es[0].key != k {
      FindIsEntry(es[1..], k);
    }
  }

  /** `$a[k] = v`: overwrite the value of an existing key in place, or append a new entry. */
  function Assign(es: seq<Entry>, k: Key, v: Value): (r: seq<Entry>)
    ensures Find(r, k) == Some(v)
    ensures forall k' :: k' != k ==> Find(r, k') == Find(es, k')
    ensures KeySet(r) == KeySet(es) + {k}
    ensures k !in KeySet(es) ==> r == es + [Entry(k, v)]
  {
    if es == [] then
      KeySetPair(Entry(k, v), Entry(k, v));
      [Entry(k, v)]
    else if es[0].key == k then
      AssignFirst(es, k, v);
      [Entry(k, v)] + es[1..]
    else
      var tail := Assign(es[1..], k, v);
      AssignLater(es, k, v, tail);
      [es[0]] + tail
  }

  /** Overwriting the first entry keeps every other entry. */
  lemma AssignFirst(es: seq<Entry>, k: Key, v: Value)
    requires es != [] && es[0].key == k
    ensures var r := [Entry(k, v)] + es[1..];
      && Find(r, k) == Some(v)
      && (forall k' :: k' != k ==> Find(r, k') == Find(es, k'))
      && KeySet(r) == KeySet(es) + {k}
      && k in KeySet(es)
  {
    var r := [Entry(k, v)] + es[1..];
    assert es == [es[0]] + es[1..];
    KeySetConcat([es[0]], es[1..]);
    KeySetConcat([Entry(k, v)], es[1..]);
    KeySetPair(es[0], es[0]);
    KeySetPair(Entry(k, v), Entry(k, v));
    assert r[1..] == es[1..];
  }

  /** Assigning past a first entry with another key keeps that entry in front. */
  lemma AssignLater(es: seq<Entry>, k: Key, v: Value, tail: seq<Entry>)
    requires es != [] && es[0].key != k
    requires Find(tail, k) == Some(v)
    requires forall k' :: k' != k ==> Find(tail, k') == Find(es[1..], k')
    requires KeySet(tail) == KeySet(es[1..]) + {k}
    requires k !in KeySet(es[1..]) ==> tail == es[1..] + [Entry(k, v)]
    ensures var r := [es[0]] + tail;
      && Find(r, k) == Some(v)
      && (forall k' :: k' != k ==> Find(r, k') == Find(es, k'))
      && KeySet(r) == KeySet(es) + {k}
      && (k !in KeySet(es) ==> r == es + [Entry(k, v)])
  {
    AssignLaterFind(es, k, v, tail);
    AssignLaterKeys(es, k, v, tail);
  }

  lemma AssignLaterFind(es: seq<Entry>, k: Key, v: Value, tail: seq<Entry>)
    requires es != [] && es[0].key != k
    requires Find(tail, k) == Some(v)
    requires forall k' :: k' != k ==> Find(tail, k') == Find(es[1..], k')
    ensures var r := [es[0]] + tail;
      && Find(r, k) == Some(v)
      && (forall k' :: k' != k ==> Find(r, k') == Find(es, k'))
  {
    var r := [es[0]] + tail;
    assert r[1..] == tail;
    forall k' | k' != k
      ensures Find(r, k') == Find(es, k')
    {
      if es[0].key != k' {
        assert Find(r, k') == Find(tail, k');
      }
    }
  }

  lemma AssignLaterKeys(es: seq<Entry>, k: Key, v: Value, tail: seq<Entry>)
    requires es != []
    requires KeySet(tail) == KeySet(es[1..]) + {k}
    requires k !in KeySet(es[1..]) ==> tail == es[1..] + [Entry(k, v)]
    ensures var r := [es[0]] + tail;
      && KeySet(r) == KeySet(es) + {k}
      && (k !in KeySet(es) ==> r == es + [Entry(k, v)])
  {
    var e := Entry(k, v);
    assert es == [es[0]] + es[1..];
    KeySetConcat([es[0]], es[1..]);
    KeySetConcat([es[0]], tail);
    if k !in KeySet(es) {
      assert es + [e] == [es[0]] + (es[1..] + [e]);
    }
  }

  /** The entries of `es` whose key is not in `ks`, in order. */
  function Without(es: seq<Entry>, ks: set<Key>): (r: seq<Entry>)
    ensures KeySet(r) == KeySet(es) - ks
    ensures forall k :: k !in ks ==> Find(r, k) == Find(es, k)
    ensures forall k :: k in ks ==> Find(r, k) == None
  {
    if es == [] then []
    else
      var tail := Without(es[1..], ks);
      assert es == [es[0]] + es[1..];
      KeySetConcat([es[0]], es[1..]);
      if es[0].key in ks then tail
      else
        var r := [es[0]] + tail;
        assert r[1..] == tail;
        KeySetConcat([es[0]], tail);
        r
  }

  lemma {:induction false} FindConcat(a: seq<Entry>, b: seq<Entry>, k: Key)
    ensures Find(a + b, k) == if k in KeySet(a) then Find(a, k) else Find(b, k)
  {
    if a == [] {
      assert a + b == b;
    } else {
      assert (a + b)[0] == a[0];
      assert (a + b)[1..] == a[1..] + b;
      assert a == [a[0]] + a[1..];
      KeySetConcat([a[0]], a[1..]);
      if a[0].key != k {
        FindConcat(a[1..], b, k);
      }
    }
  }

  lemma FindPair(a: Entry, b: Entry, k: Key)
    ensures Find([a], k) == if a.key == k then Some(a.val) else None
    ensures Find([a, b], k) == if a.key == k then Some(a.val) else if b.key == k then Some(b.val) else None
  {
    assert [a, b] == [a] + [b];
    FindConcat([a], [b], k);
    KeySetPair(a, b);
    assert [a][1..] == [];
  }

  /** Lookups in a four-entry array literal. */
  lemma FindFour(a: Entry, b: Entry, c: Entry, d: Entry, k: Key)
    ensures Find([a, b, c, d], k) ==
      if a.key == k then Some(a.val) else if b.key == k then Some(b.val)
      else if c.key == k then Some(c.val) else if d.key == k then Some(d.val) else None
  {
    assert [a, b, c, d] == [a, b] + [c, d];
    FindConcat([a, b], [c, d], k);
    KeySetPair(a, b);
    FindPair(a, b, k);
    FindPair(c, d, k);
  }

  lemma KeySetFour(a: Entry, b: Entry, c: Entry, d: Entry)
    ensures KeySet([a, b, c, d]) == {a.key, b.key, c.key, d.key}
  {
    assert forall e :: e in [a, b, c, d] <==> e == a || e == b || e == c || e == d;
  }

  /**
   * `$a + $b`: the entries of `a` followed by those of `b` whose key `a`
   * does not have; on a shared key the left-hand value wins.
   */
  function Union(a: seq<Entry>, b: seq<Entry>): (r: seq<Entry>)
    ensures KeySet(r) == KeySet(a) + KeySet(b)
    ensures forall k :: k in KeySet(a) ==> Find(r, k) == Find(a, k)
    ensures forall k :: k !in KeySet(a) ==> Find(r, k) == Find(b, k)
    ensures |a| <= |r| && r[..|a|] == a
  {
    var rest := Without(b, KeySet(a));
    var r := a + rest;
    assert r[..|a|] == a;
    KeySetConcat(a, rest);
    assert forall k :: Find(r, k) == if k in KeySet(a) then Find(a, k) else Find(rest, k) by {
      forall k ensures Find(r, k) == if k in KeySet(a) then Find(a, k) else Find(rest, k) {
        FindConcat(a, rest, k);
      }
    }
    r
  }

  /** Overwriting an existing key keeps every key in its position. */
  lemma {:induction false} AssignKeepsPosition(es: seq<Entry>, k: Key, v: Value)
    requires k in KeySet(es)
    ensures |Assign(es, k, v)| == |es|
    ensures forall i :: 0 <= i < |es| ==> Assign(es, k, v)[i].key == es[i].key
  {
    if es[0].key != k {
      assert es == [es[0]] + es[1..];
      KeySetConcat([es[0]], es[1..]);
      KeySetPair(es[0], es[0]);
      AssignKeepsPosition(es[1..], k, v);
      var tail := Assign(es[1..], k, v);
      assert Assign(es, k, v) == [es[0]] + tail;
    }
  }

  /** Removing keys none of the entries has keeps the array as it is. */
  lemma {:induction false} WithoutDisjoint(es: seq<Entry>, ks: set<Key>)
    requires KeySet(es) !! ks
    ensures Without(es, ks) == es
  {
    if es != [] {
      assert es == [es[0]] + es[1..];
      KeySetConcat([es[0]], es[1..]);
      KeySetPair(es[0], es[0]);
      WithoutDisjoint(es[1..], ks);
    }
  }

  /** `$a + $b` on arrays with no key in common: the entries of `a`, then those of `b`, in order. */
  lemma UnionDisjoint(a: seq<Entry>, b: seq<Entry>)
    requires KeySet(a) !! KeySet(b)
    ensures Union(a, b) == a + b
  {
    WithoutDisjoint(b, KeySet(a));
  }

  /** `$v['k']` for a string key: absent when `v` is not an array. */
  function Get(v: Value, k: string): (r: Option<Value>)
    ensures r.Some? <==> v.Arr? && StrKey(k) in KeySet(v.entries)
  {
    if v.Arr? then Find(v.entries, StrKey(k)) else None
  }

  /** `isset($v['k'])`: the key is there and its value is not null. */
  predicate IsSet(v: Value, k: string): (b: bool)
    ensures b <==> v.Arr? && StrKey(k) in KeySet(v.entries) && Find(v.entries, StrKey(k)) != Some(Null)
    ensures b ==> !Falsy(v)
  {
    Get(v, k).Some? && Get(v, k).value != Null
  }

  /** `$v['k'] ?? default`. */
  function Coalesce(v: Value, k: string, default: Value): (r: Value)
    ensures r != Null || default == Null
    ensures IsSet(v, k) ==> Get(v, k) == Some(r)
    ensures r == default || IsSet(v, k)
  {
    if IsSet(v, k) then Get(v, k).value else default
  }

  /** The PHP list `[v0, v1, ...]`: keys 0, 1, ... in order. */
  function List(vs: seq<Value>): seq<Entry>
  {
    seq(|vs|, i requires 0 <= i < |vs| => Entry(IntKey(i), vs[i]))
  }
}
