/**
 * The untyped JavaScript values the pages keep in React state and receive from
 * `res.json()`, with the handful of language operations the handlers apply to
 * them: truthiness, `||`, `??`, property access, optional chaining, indexing,
 * object spread and `Array.isArray`.
 *
 * Objects keep their fields in insertion order; a key is looked up at its first
 * occurrence, and assigning a key replaces it in place or appends it, so an
 * object literal `{...o, k: v}` is `Put(Spread(o), k, v)`.
 */
module JsValue {

  datatype Value =
    | Undefined
    | Null
    | Bool(b: bool)
    | Num(n: real)
    | Str(s: string)
    | Arr(items: seq<Value>)
    | Obj(fields: seq<Field>)

  datatype Field = Field(key: string, val: Value)

  /** `v === null || v === undefined`: the values `?.` and `??` step over. */
  predicate Nullish(v: Value) {
    v.Undefined? || v.Null?
  }

  /** JavaScript truthiness (a parsed reply never holds NaN). */
  predicate Truthy(v: Value) {
    match v
    case Undefined => false
    case Null => false
    case Bool(b) => b
    case Num(n) => n != 0.0
    case Str(s) => s != ""
    case Arr(_) => true
    case Obj(_) => true
  }

  /** `a || b` */
  function Or(a: Value, b: Value): Value {
    if Truthy(a) then a else b
  }

  /** `a ?? b` */
  function Coalesce(a: Value, b: Value): Value {
    if Nullish(a) then b else a
  }

  /** `typeof v === "object"`, which holds of null and of arrays too. */
  predicate TypeofObject(v: Value) {
    v.Null? || v.Arr? || v.Obj?
  }

  function Keys(fields: seq<Field>): seq<string> {
    seq(|fields|, i requires 0 <= i < |fields| => fields[i].key)
  }

  predicate HasKey(fields: seq<Field>, key: string) {
    key in Keys(fields)
  }

  /** The value of the first field named `key`, or undefined. */
  function Lookup(fields: seq<Field>, key: string): Value {
    if fields == [] then Undefined
    else if fields[0].key == key then fields[0].val
    else Lookup(fields[1..], key)
  }

  /**
   * `v.key` on a value that is neither null nor undefined (those throw a
   * TypeError), for the own keys of an object. On a string, array, number or
   * boolean it is undefined: their `length`, index keys and inherited
   * properties are not modelled, and no page reads them through `Get`.
   */
  function Get(v: Value, key: string): Value
    requires !Nullish(v)
  {
    if v.Obj? then Lookup(v.fields, key) else Undefined
  }

  /** `v?.key` */
  function OptGet(v: Value, key: string): Value {
    if Nullish(v) then Undefined else Get(v, key)
  }

  function Digit(d: nat): char
    requires d < 10
  {
    "0123456789"[d]
  }

  /** The property key JavaScript uses for index `n`: its decimal digits. */
  function IndexKey(n: nat): string
    decreases n
  {
    if n < 10 then [Digit(n)] else IndexKey(n / 10) + [Digit(n % 10)]
  }

  /** `v[i]` on a value that is neither null nor undefined. */
  function Index(v: Value, i: nat): Value
    requires !Nullish(v)
  {
    match v
    case Arr(items) => if i < |items| then items[i] else Undefined
    case Str(s) => if i < |s| then Str([s[i]]) else Undefined
    case Obj(fields) => Lookup(fields, IndexKey(i))
    case _ => Undefined
  }

  lemma IndexKeyNonEmpty(n: nat)
    ensures |IndexKey(n)| >= 1
  {
  }

  /** Distinct indices have distinct keys. */
  lemma {:induction false} IndexKeyInjective(n: nat, m: nat)
    requires IndexKey(n) == IndexKey(m)
    ensures n == m
    decreases n + m
  {
    var d := "0123456789";
    assert forall i, j | 0 <= i < j < 10 :: d[i] != d[j];
    if n < 10 || m < 10 {
      IndexKeyNonEmpty(n / 10);
      IndexKeyNonEmpty(m / 10);
    } else {
      var k, l := IndexKey(n), IndexKey(m);
      assert k[|k| - 1] == Digit(n % 10) && l[|l| - 1] == Digit(m % 10);
      assert IndexKey(n / 10) == k[..|k| - 1] == l[..|l| - 1] == IndexKey(m / 10);
      IndexKeyInjective(n / 10, m / 10);
    }
  }

  /** A string or an array spreads each index once, so its keys are distinct. */
  lemma SpreadIndicesDistinct(v: Value)
    requires !v.Obj?
    ensures DistinctKeys(Spread(v))
  {
    forall i, j | 0 <= i < j < |Spread(v)|
      ensures Spread(v)[i].key != Spread(v)[j].key
    {
      if Spread(v)[i].key == Spread(v)[j].key {
        IndexKeyInjective(i, j);
      }
    }
  }

  /** The own enumerable fields `{...v}` copies: none for null, undefined, booleans and numbers. */
  function Spread(v: Value): seq<Field> {
    match v
    case Obj(fields) => fields
    case Arr(items) => seq(|items|, i requires 0 <= i < |items| => Field(IndexKey(i), items[i]))
    case Str(s) => seq(|s|, i requires 0 <= i < |s| => Field(IndexKey(i), Str([s[i]])))
    case _ => []
  }

  /** Assigning `key: v` in an object literal: replace the field in place, or append it. */
  function Put(fields: seq<Field>, key: string, v: Value): seq<Field> {
    if fields == [] then [Field(key, v)]
    else if fields[0].key == key then [Field(key, v)] + fields[1..]
    else [fields[0]] + Put(fields[1..], key, v)
  }

  /** The fields of `more`, assigned one after another onto `fields` (a trailing spread). */
  function Assign(fields: seq<Field>, more: seq<Field>): seq<Field>
    decreases |more|
  {
    if more == [] then fields else Assign(Put(fields, more[0].key, more[0].val), more[1..])
  }

  /** No key occurs twice, as in every object `JSON.parse` builds. */
  predicate DistinctKeys(fields: seq<Field>) {
    forall i, j | 0 <= i < j < |fields| :: fields[i].key != fields[j].key
  }

  /**
   * `a === b` between two values read from one parsed reply: primitives compare
   * by value, and two objects or arrays are never the same object.
   */
  predicate StrictEquals(a: Value, b: Value) {
    match (a, b)
    case (Undefined, Undefined) => true
    case (Null, Null) => true
    case (Bool(x), Bool(y)) => x == y
    case (Num(x), Num(y)) => x == y
    case (Str(x), Str(y)) => x == y
    case _ => false
  }

  lemma KeysCons(f: Field, rest: seq<Field>)
    ensures Keys([f] + rest) == [f.key] + Keys(rest)
  {
  }

  lemma KeysTail(fields: seq<Field>)
    requires fields != []
    ensures HasKey(fields, fields[0].key)
    ensures forall k :: HasKey(fields, k) <==> k == fields[0].key || HasKey(fields[1..], k)
  {
    KeysCons(fields[0], fields[1..]);
    assert [fields[0]] + fields[1..] == fields;
  }

  /** A field reads back as its own value when no earlier field has its key. */
  lemma {:induction false} LookupAt(fields: seq<Field>, i: nat)
    requires i < |fields|
    requires forall j | 0 <= j < i :: fields[j].key != fields[i].key
    ensures Lookup(fields, fields[i].key) == fields[i].val
  {
    if i > 0 {
      var rest := fields[1..];
      forall j | 0 <= j < i - 1 ensures rest[j].key != rest[i - 1].key {
        assert rest[j] == fields[j + 1] && rest[i - 1] == fields[i];
      }
      LookupAt(rest, i - 1);
    }
  }

  /** The object literal whose keys are `keys` and whose values are `vals`, in that order. */
  function Zip(keys: seq<string>, vals: seq<Value>): (fields: seq<Field>)
    requires |keys| == |vals|
    ensures Keys(fields) == keys
  {
    seq(|keys|, i requires 0 <= i < |keys| => Field(keys[i], vals[i]))
  }

  predicate DistinctStrings(keys: seq<string>) {
    forall i, j | 0 <= i < j < |keys| :: keys[i] != keys[j]
  }

  /** In an object literal without repeated keys, each key reads back as its value. */
  lemma LookupZip(keys: seq<string>, vals: seq<Value>, i: nat)
    requires |keys| == |vals| && i < |keys| && DistinctStrings(keys)
    ensures Lookup(Zip(keys, vals), keys[i]) == vals[i]
  {
    LookupAt(Zip(keys, vals), i);
  }

  /** A key that is absent reads as undefined. */
  lemma {:induction false} LookupMissing(fields: seq<Field>, key: string)
    requires !HasKey(fields, key)
    ensures Lookup(fields, key) == Undefined
  {
    if fields != [] {
      KeysTail(fields);
      LookupMissing(fields[1..], key);
    }
  }

  /** Reading a key after assigning it yields the new value; every other key is untouched. */
  lemma {:induction false} LookupPut(fields: seq<Field>, key: string, v: Value, other: string)
    ensures Lookup(Put(fields, key, v), other) == if other == key then v else Lookup(fields, other)
  {
    if fields != [] && fields[0].key != key {
      LookupPut(fields[1..], key, v, other);
    }
  }

  /** Assigning keeps the key order: a present key stays where it was, a new one goes last. */
  lemma {:induction false} KeysPut(fields: seq<Field>, key: string, v: Value)
    ensures Keys(Put(fields, key, v)) == if HasKey(fields, key) then Keys(fields) else Keys(fields) + [key]
  {
    if fields != [] && fields[0].key != key {
      KeysPut(fields[1..], key, v);
      KeysCons(fields[0], Put(fields[1..], key, v));
      KeysCons(fields[0], fields[1..]);
      assert fields == [fields[0]] + fields[1..];
    } else if fields != [] {
      KeysCons(Field(key, v), fields[1..]);
      KeysCons(fields[0], fields[1..]);
      assert fields == [fields[0]] + fields[1..];
    }
  }

  /** Assigning a key the value it already holds changes nothing. */
  lemma {:induction false} PutSame(fields: seq<Field>, key: string)
    requires HasKey(fields, key)
    ensures Put(fields, key, Lookup(fields, key)) == fields
  {
    KeysTail(fields);
    if fields[0].key != key {
      PutSame(fields[1..], key);
    }
  }

  /** A second assignment to the same key overrides the first. */
  lemma {:induction false} PutPut(fields: seq<Field>, key: string, v: Value, w: Value)
    ensures Put(Put(fields, key, v), key, w) == Put(fields, key, w)
  {
    if fields != [] && fields[0].key != key {
      PutPut(fields[1..], key, v, w);
    }
  }

  /** After a trailing spread of `more`, its keys win and every other key keeps its value. */
  lemma {:induction false} LookupAssign(fields: seq<Field>, more: seq<Field>, key: string)
    requires DistinctKeys(more)
    ensures Lookup(Assign(fields, more), key) == if HasKey(more, key) then Lookup(more, key) else Lookup(fields, key)
    decreases |more|
  {
    if more != [] {
      var rest := more[1..];
      assert DistinctKeys(rest) by {
        forall i, j | 0 <= i < j < |rest| ensures rest[i].key != rest[j].key {
          assert rest[i] == more[i + 1] && rest[j] == more[j + 1];
        }
      }
      LookupAssign(Put(fields, more[0].key, more[0].val), rest, key);
      LookupPut(fields, more[0].key, more[0].val, key);
      KeysTail(more);
      if key == more[0].key {
        KeyAbsentAfterFirst(more);
      }
    }
  }

  lemma {:induction false} KeyAbsentAfterFirst(fields: seq<Field>)
    requires fields != [] && DistinctKeys(fields)
    ensures !HasKey(fields[1..], fields[0].key)
  {
    var rest := fields[1..];
    if HasKey(rest, fields[0].key) {
      var j := KeyPosition(rest, fields[0].key);
      assert false;
    }
  }

  lemma {:induction false} KeyPosition(fields: seq<Field>, key: string) returns (j: nat)
    requires HasKey(fields, key)
    ensures j < |fields| && fields[j].key == key
  {
    KeysTail(fields);
    if fields[0].key == key {
      j := 0;
    } else {
      var k := KeyPosition(fields[1..], key);
      j := k + 1;
    }
  }
}
