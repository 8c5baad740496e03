/** The application configuration as the Java code sees it through
    `Map<String, Object>`: a parsed YAML document (or a parsed JSON object)
    whose maps keep insertion order, as the `LinkedHashMap`s SnakeYAML and
    Jackson build do. */
module ConfigTree {
  import opened Wrappers

  /** `null`, a non-map value (a string, number, boolean or list, kept as the
      text `String.valueOf` gives it), or a map with its entries in order. */
  datatype Value = Null | Scalar(text: string) | Tree(entries: seq<Entry>)

  datatype Entry = Entry(key: string, value: Value)

  function KeysOf(es: seq<Entry>): (ks: seq<string>)
    ensures |ks| == |es|
    ensures forall i :: 0 <= i < |es| ==> ks[i] == es[i].key
  {
    if es == [] then [] else [es[0].key] + KeysOf(es[1..])
  }

  /** `map.get(k)` with absence kept apart from a stored `null`: the value
      of the first entry with that key. */
  function Get(es: seq<Entry>, k: string): Option<Value>
  {
    if es == [] then None
    else if es[0].key == k then Some(es[0].value)
    else Get(es[1..], k)
  }

  /** A key is found exactly when it is one of the map's keys. */
  lemma {:induction false} GetFindsKeys(es: seq<Entry>, k: string)
    ensures Get(es, k).Some? <==> k in KeysOf(es)
  {
    if es != [] {
      GetFindsKeys(es[1..], k);
      assert KeysOf(es) == [es[0].key] + KeysOf(es[1..]);
    }
  }

  /** `map.containsKey(k)`. */
  predicate Has(es: seq<Entry>, k: string)
  {
    Get(es, k).Some?
  }

  /** `map.get(k)` as Java returns it: `null` when the key is absent. */
  function GetOrNull(es: seq<Entry>, k: string): Value
  {
    match Get(es, k)
    case Some(v) => v
    case None => Null
  }

  /** `map.put(k, v)` on a `LinkedHashMap`: an existing key keeps its place
      and takes the new value; a new key goes last. */
  function Put(es: seq<Entry>, k: string, v: Value): seq<Entry>
  {
    if es == [] then [Entry(k, v)]
    else if es[0].key == k then [Entry(k, v)] + es[1..]
    else [es[0]] + Put(es[1..], k, v)
  }

  /** After `put`, the key maps to the new value. */
  lemma {:induction false} PutGetsValue(es: seq<Entry>, k: string, v: Value)
    ensures Get(Put(es, k, v), k) == Some(v)
  {
    if es != [] && es[0].key != k {
      PutGetsValue(es[1..], k, v);
      assert Put(es, k, v)[1..] == Put(es[1..], k, v);
    }
  }

  /** `put` leaves every other key's value as it was. */
  lemma {:induction false} PutKeepsOthers(es: seq<Entry>, k: string, v: Value, other: string)
    requires other != k
    ensures Get(Put(es, k, v), other) == Get(es, other)
  {
    if es != [] && es[0].key != k {
      PutKeepsOthers(es[1..], k, v, other);
      assert Put(es, k, v)[1..] == Put(es[1..], k, v);
    }
  }

  /** `put` keeps the key order, appending a key that was not there. */
  lemma {:induction false} PutKeyOrder(es: seq<Entry>, k: string, v: Value)
    ensures Has(es, k) ==> KeysOf(Put(es, k, v)) == KeysOf(es)
    ensures !Has(es, k) ==> KeysOf(Put(es, k, v)) == KeysOf(es) + [k]
  {
    if es != [] && es[0].key != k {
      PutKeyOrder(es[1..], k, v);
      assert Put(es, k, v)[1..] == Put(es[1..], k, v);
      assert KeysOf(Put(es, k, v)) == [es[0].key] + KeysOf(Put(es[1..], k, v));
      assert KeysOf(es) == [es[0].key] + KeysOf(es[1..]);
    }
  }

  /** `a` lists the same keys as `b`, in the same order, and agrees with
      it on every key but `k`. */
  ghost predicate SameExcept(a: seq<Entry>, b: seq<Entry>, k: string)
  {
    KeysOf(a) == KeysOf(b) && forall other :: other != k ==> Get(a, other) == Get(b, other)
  }

  /** `put` on a key that is already there replaces that key's value and
      changes nothing else, not even the key order. */
  lemma PutExisting(es: seq<Entry>, k: string, v: Value)
    requires Has(es, k)
    ensures Get(Put(es, k, v), k) == Some(v)
    ensures SameExcept(Put(es, k, v), es, k)
  {
    PutGetsValue(es, k, v);
    PutKeyOrder(es, k, v);
    forall other | other != k
      ensures Get(Put(es, k, v), other) == Get(es, other)
    {
      PutKeepsOthers(es, k, v, other);
    }
  }

  /** `String.valueOf(value)`: `null`, the scalar's text, or
      `AbstractMap.toString` (`{k1=v1, k2=v2}`). */
  function Show(v: Value): string
    decreases v
  {
    match v
    case Null => "null"
    case Scalar(t) => t
    case Tree(es) => "{" + ShowEntries(es) + "}"
  }

  function ShowEntries(es: seq<Entry>): string
    decreases es
  {
    if es == [] then ""
    else
      es[0].key + "=" + Show(es[0].value) +
      (if |es| > 1 then ", " + ShowEntries(es[1..]) else "")
  }
}
