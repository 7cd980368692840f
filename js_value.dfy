/** The JavaScript values the job model passes around: query parameters, the rows the
    database driver returns (plain objects with their keys in insertion order), and the
    objects the model hands back to its callers. */
module JsValue {
  import opened Decimal

  datatype Option<T> = None | Some(value: T)

  /** A JavaScript value. Numbers are integer-valued here (ids, salaries, employee counts);
      an object is its list of own properties in insertion order. */
  datatype Value =
    | Undefined
    | Null
    | Bool(b: bool)
    | Num(n: int)
    | Str(s: string)
    | Obj(fields: seq<(string, Value)>)

  /** A plain object: (key, value) pairs in insertion order. `Object.entries` lists keys in
      this order when none of them is an array index (a canonical non-negative integer). */
  type Record = seq<(string, Value)>

  /** The text a template literal `${v}` (or `String(v)`) makes of a value. */
  function ToText(v: Value): string {
    match v
    case Undefined => "undefined"
    case Null => "null"
    case Bool(b) => if b then "true" else "false"
    case Num(n) => IntToString(n)
    case Str(s) => s
    case Obj(_) => "[object Object]"
  }

  function Keys(r: Record): seq<string> {
    seq(|r|, i requires 0 <= i < |r| => r[i].0)
  }

  /** The own property `k` of an object, if it has one. */
  function Lookup(r: Record, k: string): (v: Option<Value>)
    ensures v.None? <==> k !in Keys(r)
    ensures v.Some? ==> (k, v.value) in r
  {
    if r == [] then None
    else
      assert Keys(r) == [r[0].0] + Keys(r[1..]);
      if r[0].0 == k then Some(r[0].1) else Lookup(r[1..], k)
  }

  lemma KeysCons(p: (string, Value), r: Record)
    ensures Keys([p] + r) == [p.0] + Keys(r)
  {
  }

  /** The own properties of an object with one more property in front. */
  lemma LookupCons(p: (string, Value), r: Record)
    ensures Lookup([p] + r, p.0) == Some(p.1)
    ensures forall j :: j != p.0 ==> Lookup([p] + r, j) == Lookup(r, j)
  {
    assert ([p] + r)[1..] == r;
  }

  /** Property access `o.k`: `undefined` when the object has no such property. */
  function Prop(r: Record, k: string): Value {
    match Lookup(r, k)
    case Some(v) => v
    case None => Undefined
  }

  /** `delete o.k`: the property is gone and every other property keeps its value. */
  function Delete(r: Record, k: string): (d: Record)
    ensures Lookup(d, k) == None
    ensures forall j :: j != k ==> Lookup(d, j) == Lookup(r, j)
    ensures forall e :: e in d <==> e in r && e.0 != k
  {
    if r == [] then []
    else if r[0].0 == k then Delete(r[1..], k)
    else [r[0]] + Delete(r[1..], k)
  }

  /** `o.k = v`: an existing property keeps its place and takes the new value; a new
      property goes last. Every other property is unchanged. */
  function Assign(r: Record, k: string, v: Value): (a: Record)
    ensures Lookup(a, k) == Some(v)
    ensures forall j :: j != k ==> Lookup(a, j) == Lookup(r, j)
    ensures k !in Keys(r) ==> a == r + [(k, v)]
    ensures k in Keys(r) ==> Keys(a) == Keys(r)
  {
    if r == [] then [(k, v)]
    else
      assert [r[0]] + r[1..] == r;
      KeysCons(r[0], r[1..]);
      if r[0].0 == k then [(k, v)] + r[1..]
      else
        var rest := Assign(r[1..], k, v);
        KeysCons(r[0], rest);
        LookupCons(r[0], rest);
        assert k !in Keys(r) ==> [r[0]] + rest == r + [(k, v)];
        [r[0]] + rest
  }

  /** A property pushed last under a key no earlier property has: it is found under that
      key, the keys grow by that key, and deleting it gives back the object as it was. */
  lemma PushedLast(r: Record, k: string, v: Value)
    requires k !in Keys(r)
    ensures Prop(r + [(k, v)], k) == v
    ensures Keys(r + [(k, v)]) == Keys(r) + [k]
    ensures Delete(r + [(k, v)], k) == r
  {
    var s := r + [(k, v)];
    assert Keys(s) == Keys(r) + [k];
    var w := Lookup(s, k);
    assert Keys(s)[|r|] == k;
    assert w.Some? && (k, w.value) in s;
    DeleteLast(r, k, v);
  }

  /** Deleting the key of a property pushed last, which no earlier property has, gives back
      the object as it was before the push. */
  lemma {:induction false} DeleteLast(r: Record, k: string, v: Value)
    requires k !in Keys(r)
    ensures Delete(r + [(k, v)], k) == r
    decreases |r|
  {
    var s := r + [(k, v)];
    if r == [] {
      assert s[1..] == [];
    } else {
      assert Keys(r) == [r[0].0] + Keys(r[1..]);
      assert s[0] == r[0] && s[1..] == r[1..] + [(k, v)];
      DeleteLast(r[1..], k, v);
      assert [r[0]] + r[1..] == r;
    }
  }
}
