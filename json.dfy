/**
 * JavaScript values as the plugin manipulates them. An object is an ordered
 * list of entries (JavaScript objects keep insertion order): reading a key
 * gives the first entry with that key, assigning a key replaces that entry in
 * place or appends a new one, and `delete` drops every entry with the key.
 * Reading a missing key gives `Undefined`, exactly like reading a key that
 * holds `undefined`.
 */
module Json {
  import opened Seqs

  datatype Json =
    | Undefined
    | Null
    | Bool(b: bool)
    | Num(n: real)
    | Str(s: string)
    | Arr(items: seq<Json>)
    | Obj(entries: seq<Entry>)

  datatype Entry = Entry(key: string, value: Json)

  /** JavaScript truthiness (NaN is not represented). */
  predicate Truthy(v: Json) {
    match v
    case Undefined => false
    case Null => false
    case Bool(b) => b
    case Num(n) => n != 0.0
    case Str(s) => s != ""
    case Arr(_) => true
    case Obj(_) => true
  }

  /** Values a property read can be performed on without a TypeError. */
  predicate Dereferenceable(v: Json) {
    v != Undefined && v != Null
  }

  /** The keys of an object, in order. */
  function Keys(entries: seq<Entry>): (ks: seq<string>)
    ensures |ks| == |entries|
    ensures forall i :: 0 <= i < |entries| ==> ks[i] == entries[i].key
  {
    if |entries| == 0 then [] else [entries[0].key] + Keys(entries[1..])
  }

  /** `obj[key]`: the value of the first entry with that key, or `Undefined`. */
  function Lookup(entries: seq<Entry>, key: string): (v: Json)
    ensures key !in Keys(entries) ==> v == Undefined
    ensures v != Undefined ==> Entry(key, v) in entries
  {
    if |entries| == 0 then Undefined
    else if entries[0].key == key then entries[0].value
    else Lookup(entries[1..], key)
  }

  /** `obj[key] = value`: replaces the entry in place, or appends it when the key is new. */
  function Put(entries: seq<Entry>, key: string, value: Json): (r: seq<Entry>)
    ensures Lookup(r, key) == value
    ensures forall k :: k != key ==> Lookup(r, k) == Lookup(entries, k)
    ensures Keys(r) == if key in Keys(entries) then Keys(entries) else Keys(entries) + [key]
  {
    if |entries| == 0 then [Entry(key, value)]
    else if entries[0].key == key then [Entry(key, value)] + entries[1..]
    else [entries[0]] + Put(entries[1..], key, value)
  }

  /** `delete obj[key]`: the other entries stay, in their order. */
  function Remove(entries: seq<Entry>, key: string): (r: seq<Entry>)
    ensures Lookup(r, key) == Undefined
    ensures forall k :: k != key ==> Lookup(r, k) == Lookup(entries, k)
    ensures key !in Keys(r)
    ensures IsSubsequence(r, entries)
    ensures forall e :: e in r <==> e in entries && e.key != key
  {
    if |entries| == 0 then []
    else if entries[0].key == key then Remove(entries[1..], key)
    else [entries[0]] + Remove(entries[1..], key)
  }

  /** Property read on any value: only objects have properties here. */
  function Get(v: Json, key: string): (r: Json)
    ensures r != Undefined ==> v.Obj?
  {
    if v.Obj? then Lookup(v.entries, key) else Undefined
  }

  /** Property assignment on a value that is an object (other values are left as they are). */
  function Set(v: Json, key: string, value: Json): (r: Json)
    ensures v.Obj? ==> r.Obj? && Get(r, key) == value
    ensures forall k :: k != key ==> Get(r, k) == Get(v, k)
  {
    if v.Obj? then Obj(Put(v.entries, key, value)) else v
  }

  /** `delete v[key]` on a value that is an object. */
  function Delete(v: Json, key: string): (r: Json)
    ensures v.Obj? <==> r.Obj?
    ensures Get(r, key) == Undefined
    ensures forall k :: k != key ==> Get(r, k) == Get(v, k)
  {
    if v.Obj? then Obj(Remove(v.entries, key)) else v
  }

  /** The values of an object's entries, in order. */
  function Values(entries: seq<Entry>): (vs: seq<Json>)
    ensures |vs| == |entries|
    ensures forall i :: 0 <= i < |entries| ==> vs[i] == entries[i].value
  {
    if |entries| == 0 then [] else [entries[0].value] + Values(entries[1..])
  }

  /** What lodash `_.each` visits: the elements of an array, the values of an object, nothing otherwise. */
  function Items(v: Json): seq<Json> {
    match v
    case Arr(items) => items
    case Obj(entries) => Values(entries)
    case _ => []
  }

  /** A key absent from an object is absent from its first entry and from the rest. */
  lemma KeyAbsentFromTail(entries: seq<Entry>, key: string)
    requires |entries| > 0 && key !in Keys(entries)
    ensures entries[0].key != key && key !in Keys(entries[1..])
  {
    assert Keys(entries) == [entries[0].key] + Keys(entries[1..]);
  }

  /** One step of `Put` past a first entry with another key. */
  lemma PutSkips(entries: seq<Entry>, key: string, value: Json)
    requires |entries| > 0 && entries[0].key != key
    ensures Put(entries, key, value) == [entries[0]] + Put(entries[1..], key, value)
  {
  }

  lemma {:induction false} PutNewKeyAppends(entries: seq<Entry>, key: string, value: Json)
    requires key !in Keys(entries)
    ensures Put(entries, key, value) == entries + [Entry(key, value)]
  {
    if |entries| > 0 {
      hide *;
      KeyAbsentFromTail(entries, key);
      PutNewKeyAppends(entries[1..], key, value);
      PutSkips(entries, key, value);
      ConsAppend(entries, Entry(key, value));
    }
  }

  /** Assigning two distinct new keys appends their two entries, in assignment order. */
  lemma PutTwoNewKeys(entries: seq<Entry>, k1: string, v1: Json, k2: string, v2: Json)
    requires k1 !in Keys(entries) && k2 !in Keys(entries) && k1 != k2
    ensures Put(Put(entries, k1, v1), k2, v2) == entries + [Entry(k1, v1), Entry(k2, v2)]
  {
    hide *;
    var e1, e2 := Entry(k1, v1), Entry(k2, v2);
    var once := Put(entries, k1, v1);
    PutNewKeyAppends(entries, k1, v1);
    KeysAppendOne(entries, e1);
    PutNewKeyAppends(once, k2, v2);
    AppendAssoc(entries, [e1], [e2]);
  }

  /** The keys after appending one entry. */
  lemma KeysAppendOne(entries: seq<Entry>, e: Entry)
    ensures Keys(entries + [e]) == Keys(entries) + [e.key]
  {
  }

  /** Deleting distributes over concatenation: it acts entry by entry. */
  lemma {:induction false} RemoveAppend(a: seq<Entry>, b: seq<Entry>, key: string)
    ensures Remove(a + b, key) == Remove(a, key) + Remove(b, key)
  {
    if |a| > 0 {
      assert (a + b)[1..] == a[1..] + b;
      RemoveAppend(a[1..], b, key);
    } else {
      assert a + b == b;
    }
  }

  /** Deleting a key that is absent changes nothing. */
  lemma {:induction false} RemoveAbsent(entries: seq<Entry>, key: string)
    requires key !in Keys(entries)
    ensures Remove(entries, key) == entries
  {
    if |entries| > 0 {
      assert key !in Keys(entries[1..]);
      RemoveAbsent(entries[1..], key);
    }
  }

  /** Assigning a key twice keeps only the second value, in the first assignment's place. */
  lemma {:induction false} PutTwice(entries: seq<Entry>, key: string, v1: Json, v2: Json)
    ensures Put(Put(entries, key, v1), key, v2) == Put(entries, key, v2)
  {
    if |entries| > 0 && entries[0].key != key {
      PutTwice(entries[1..], key, v1, v2);
    }
  }
}
