/**
 * Request header maps. A Python dict keeps its keys in insertion order and
 * `d[k] = v` updates an existing key in place, so a header map is modelled
 * as its list of entries in that order.
 */
module Headers {

  /** The browser `User-Agent` every front-end sends. */
  const BrowserAgent: string := "Mozilla/5.0 (Windows NT 10.0; Win64; x64) AppleWebKit/537.36 (KHTML, like Gecko) Chrome/120.0.0.0 Safari/537.36"

  /** A header map: its `(name, value)` entries in insertion order. */
  type Entries = seq<(string, string)>

  /** The keys, in order. */
  function Keys(h: Entries): (ks: seq<string>)
    ensures |ks| == |h|
    ensures forall i :: 0 <= i < |h| ==> ks[i] == h[i].0
  {
    if h == [] then [] else [h[0].0] + Keys(h[1..])
  }

  /** No key occurs twice, as in any dict. */
  predicate UniqueKeys(h: Entries) {
    forall i, j :: 0 <= i < j < |h| ==> h[i].0 != h[j].0
  }

  /** `h.get(key, default)`. */
  function Get(h: Entries, key: string, default: string): (v: string)
    ensures (exists i :: 0 <= i < |h| && h[i].0 == key) || v == default
  {
    if h == [] then default
    else if h[0].0 == key then h[0].1
    else Get(h[1..], key, default)
  }

  /** `h[key] = value`: the existing entry is updated in place, a new key goes last. */
  function Assign(h: Entries, key: string, value: string): Entries {
    if h == [] then [(key, value)]
    else if h[0].0 == key then [(key, value)] + h[1..]
    else [h[0]] + Assign(h[1..], key, value)
  }

  /** After `h[key] = value`, looking `key` up gives `value`. */
  lemma {:induction false} AssignGet(h: Entries, key: string, value: string, default: string)
    ensures Get(Assign(h, key, value), key, default) == value
  {
    if h != [] && h[0].0 != key {
      AssignGet(h[1..], key, value, default);
    }
  }

  /** After `h[key] = value`, every other key looks up as before. */
  lemma {:induction false} AssignGetOther(h: Entries, key: string, value: string, other: string, default: string)
    requires other != key
    ensures Get(Assign(h, key, value), other, default) == Get(h, other, default)
  {
    if h != [] && h[0].0 != key {
      AssignGetOther(h[1..], key, value, other, default);
    }
  }

  /**
   * Assigning an existing key keeps the key order; assigning a new key
   * appends it.
   */
  lemma {:induction false} AssignKeys(h: Entries, key: string, value: string)
    ensures key in Keys(h) ==> Keys(Assign(h, key, value)) == Keys(h)
    ensures key !in Keys(h) ==> Keys(Assign(h, key, value)) == Keys(h) + [key]
  {
    if h != [] {
      assert Keys(h) == [h[0].0] + Keys(h[1..]);
      if h[0].0 != key {
        AssignKeys(h[1..], key, value);
        assert Keys(Assign(h, key, value)) == [h[0].0] + Keys(Assign(h[1..], key, value));
      }
    }
  }

  /** Assignment keeps the keys unique. */
  lemma AssignUnique(h: Entries, key: string, value: string)
    requires UniqueKeys(h)
    ensures UniqueKeys(Assign(h, key, value))
  {
    AssignKeys(h, key, value);
    var h' := Assign(h, key, value);
    assert forall i :: 0 <= i < |h'| ==> h'[i].0 == Keys(h')[i];
    assert forall i :: 0 <= i < |h| ==> h[i].0 == Keys(h)[i];
    if key !in Keys(h) {
      assert forall i :: 0 <= i < |h| ==> Keys(h)[i] != key;
    }
  }

  /**
   * A header map held by reference: the downloaders keep the dict they
   * were constructed with, so every assignment is seen by all holders.
   */
  class HeaderTable {
    var entries: Entries

    constructor (initial: Entries)
      ensures entries == initial
    {
      entries := initial;
    }

    /** `self.headers[key] = value`. */
    method Set(key: string, value: string)
      modifies this
      ensures entries == Assign(old(entries), key, value)
    {
      entries := Assign(entries, key, value);
    }

    /** `self.headers.get(key, default)`. */
    function Lookup(key: string, default: string): string
      reads this
    {
      Get(entries, key, default)
    }
  }
}
