/**
 * Decoded JSON values as the Python handlers see them (`None`, `bool`,
 * numbers, `str`, `list`, `dict`), with the few dict and language operations
 * the handlers rely on: `d.get(k, default)`, `d[k] = v`, truthiness and
 * iteration by a `for` loop.
 */
module JsonValue {
  import opened Wrappers

  datatype Json =
    | JNull
    | JBool(b: bool)
    | JNum(n: int)
    | JStr(s: string)
    | JArr(items: seq<Json>)
    | JObj(fields: Fields)

  /** A Python dict: its entries in insertion order. */
  type Fields = seq<(string, Json)>

  /** The exceptions Python raises when a value does not have the shape the handler expects. */
  datatype Fault =
    | NotIterable   // TypeError: a `for` loop over None, a bool or a number
    | NoGetMethod   // AttributeError: `.get` called on something that is not a dict
    | NotSliceable  // TypeError/KeyError: `[:n]` applied to something that is not a str or a list

  /** Python's truth value of a decoded JSON value. */
  predicate Truthy(v: Json) {
    match v
    case JNull => false
    case JBool(b) => b
    case JNum(n) => n != 0
    case JStr(s) => s != ""
    case JArr(xs) => xs != []
    case JObj(fs) => fs != []
  }

  /** The keys of a dict, in insertion order. */
  function Keys(fs: Fields): seq<string> {
    seq(|fs|, i requires 0 <= i < |fs| => fs[i].0)
  }

  /** `d[key]` when the key is present; a decoded dict never repeats a key, so the first entry is the only one. */
  function Lookup(fs: Fields, key: string): (r: Option<Json>)
    ensures r.Some? <==> key in Keys(fs)
  {
    if fs == [] then None
    else
      assert Keys(fs) == [fs[0].0] + Keys(fs[1..]);
      if fs[0].0 == key then Some(fs[0].1) else Lookup(fs[1..], key)
  }

  /** A lookup of the key at position `i` finds that entry when no earlier entry has the same key. */
  lemma {:induction false} LookupAt(fs: Fields, i: nat)
    requires i < |fs|
    requires Keys(fs)[i] !in Keys(fs)[..i]
    ensures Lookup(fs, fs[i].0) == Some(fs[i].1)
  {
    if i > 0 {
      assert Keys(fs)[0] in Keys(fs)[..i];
      assert Keys(fs[1..]) == Keys(fs)[1..];
      assert Keys(fs)[1..][..i - 1] == Keys(fs)[..i][1..];
      LookupAt(fs[1..], i - 1);
    }
  }

  /** A dict literal whose keys are `keys` and whose values are `vals`, paired in order. */
  function Zip(keys: seq<string>, vals: seq<Json>): (fs: Fields)
    requires |keys| == |vals|
    ensures Keys(fs) == keys
  {
    seq(|keys|, i requires 0 <= i < |keys| => (keys[i], vals[i]))
  }

  /** In such a literal, a key written once maps to the value paired with it. */
  lemma LookupZip(keys: seq<string>, vals: seq<Json>, i: nat)
    requires |keys| == |vals| && i < |keys|
    requires keys[i] !in keys[..i]
    ensures Lookup(Zip(keys, vals), keys[i]) == Some(vals[i])
  {
    LookupAt(Zip(keys, vals), i);
  }

  /** `d.get(key, default)` */
  function GetOr(fs: Fields, key: string, default: Json): (r: Json)
    ensures key !in Keys(fs) ==> r == default
    ensures key in Keys(fs) ==> Lookup(fs, key) == Some(r)
  {
    match Lookup(fs, key)
    case Some(v) => v
    case None => default
  }

  /** `d.get(key)`, which gives None for a missing key. */
  function Get(fs: Fields, key: string): Json {
    GetOr(fs, key, JNull)
  }

  /** Prepending an entry to a dict's entry list: what happens to its keys and lookups. */
  lemma Cons(e: (string, Json), fs: Fields)
    ensures Keys([e] + fs) == [e.0] + Keys(fs)
    ensures forall k :: Lookup([e] + fs, k) == if e.0 == k then Some(e.1) else Lookup(fs, k)
  {
    assert ([e] + fs)[1..] == fs;
  }

  /** `d[key] = value`: overwrites the entry in place when the key is present, appends it otherwise. */
  function Put(fs: Fields, key: string, value: Json): Fields {
    if fs == [] then [(key, value)]
    else if fs[0].0 == key then [(key, value)] + fs[1..]
    else [fs[0]] + Put(fs[1..], key, value)
  }

  /**
   * After `d[key] = value` the key maps to `value`, every other key maps to
   * what it did before, and the keys keep their order, the key joining at the
   * end when it is new.
   */
  lemma {:induction false} PutSpec(fs: Fields, key: string, value: Json)
    ensures Lookup(Put(fs, key, value), key) == Some(value)
    ensures forall k :: k != key ==> Lookup(Put(fs, key, value), k) == Lookup(fs, k)
    ensures Keys(Put(fs, key, value)) == if key in Keys(fs) then Keys(fs) else Keys(fs) + [key]
  {
    if fs != [] {
      Cons(fs[0], fs[1..]);
      assert fs == [fs[0]] + fs[1..];
      if fs[0].0 == key {
        Cons((key, value), fs[1..]);
      } else {
        PutSpec(fs[1..], key, value);
        Cons(fs[0], Put(fs[1..], key, value));
      }
    }
  }

  /** Setting a key the dict does not hold yet appends the entry. */
  lemma PutFresh(fs: Fields, key: string, value: Json)
    requires key !in Keys(fs)
    ensures Put(fs, key, value) == fs + [(key, value)]
  {
    if fs != [] {
      assert Keys(fs) == [fs[0].0] + Keys(fs[1..]);
      PutFresh(fs[1..], key, value);
      assert fs == [fs[0]] + fs[1..];
    }
  }

  /** The keys of two entry lists laid end to end. */
  lemma KeysConcat(front: Fields, back: Fields)
    ensures Keys(front + back) == Keys(front) + Keys(back)
  {
  }

  /** A lookup in two entry lists laid end to end finds the first list's entry when it has the key... */
  lemma {:induction false} LookupFront(front: Fields, back: Fields, key: string)
    requires key in Keys(front)
    ensures Lookup(front + back, key) == Lookup(front, key)
  {
    assert front != [];
    Cons(front[0], front[1..]);
    assert front == [front[0]] + front[1..];
    assert (front + back)[1..] == front[1..] + back;
    Cons(front[0], front[1..] + back);
    if front[0].0 != key {
      LookupFront(front[1..], back, key);
    }
  }

  /** ...and the second list's entry otherwise. */
  lemma {:induction false} LookupBack(front: Fields, back: Fields, key: string)
    requires key !in Keys(front)
    ensures Lookup(front + back, key) == Lookup(back, key)
  {
    if front != [] {
      Cons(front[0], front[1..]);
      assert front == [front[0]] + front[1..];
      assert (front + back)[1..] == front[1..] + back;
      Cons(front[0], front[1..] + back);
      LookupBack(front[1..], back, key);
    } else {
      assert front + back == back;
    }
  }

  /** A lookup in two entry lists that do not share the key. */
  lemma LookupSplit(front: Fields, back: Fields, key: string)
    requires key !in Keys(front) || key !in Keys(back)
    ensures Lookup(front + back, key) == if key in Keys(front) then Lookup(front, key) else Lookup(back, key)
  {
    if key in Keys(front) {
      LookupFront(front, back, key);
    } else {
      LookupBack(front, back, key);
    }
  }

  /** The keys of a dict as the strings a `for` loop over it yields. */
  function KeyStrings(fs: Fields): seq<Json> {
    seq(|fs|, i requires 0 <= i < |fs| => JStr(fs[i].0))
  }

  /** The one-character strings a `for` loop over a string yields. */
  function CharStrings(s: string): seq<Json> {
    seq(|s|, i requires 0 <= i < |s| => JStr([s[i]]))
  }

  /**
   * The values a Python `for` loop visits when it iterates over `v`: a list's
   * items, a dict's keys, a string's characters; None, bools and numbers are
   * not iterable.
   */
  function Elements(v: Json): (r: Result<seq<Json>, Fault>)
    ensures r.Err? <==> v.JNull? || v.JBool? || v.JNum?
    ensures r.Err? ==> r.error == NotIterable
    ensures r.Ok? ==> (r.value == [] <==> !Truthy(v))
  {
    match v
    case JArr(xs) => Ok(xs)
    case JObj(fs) => Ok(KeyStrings(fs))
    case JStr(s) => Ok(CharStrings(s))
    case _ => Err(NotIterable)
  }
}
