/**
 * Python's insertion-ordered dict from strings to amounts: the keys in insertion order and
 * the value of each key.
 */
module Dicts {

  datatype Dict = Dict(keys: seq<string>, values: map<string, real>)

  /** No key is listed twice. */
  ghost predicate Distinct(keys: seq<string>)
    decreases |keys|
  {
    keys == [] || (Distinct(keys[..|keys| - 1]) && keys[|keys| - 1] !in keys[..|keys| - 1])
  }

  /** Each key is listed once, and the listed keys are exactly the keys with a value. */
  ghost predicate Valid(d: Dict) {
    Distinct(d.keys) && forall k :: k in d.values <==> k in d.keys
  }

  const Empty: Dict := Dict([], map[])

  /** `d.get(key, default)` */
  function Get(d: Dict, key: string, default: real): real {
    if key in d.values then d.values[key] else default
  }

  /** `d[key] = value`: an existing key keeps its place, a new key goes last. */
  function Put(d: Dict, key: string, value: real): (r: Dict)
    requires Valid(d)
    ensures Valid(r)
  {
    if key in d.values then Dict(d.keys, d.values[key := value])
    else Dict(d.keys + [key], d.values[key := value])
  }

  /** The sum of m's values over keys, in order. */
  function SumOver(keys: seq<string>, m: map<string, real>): real
    requires forall i :: 0 <= i < |keys| ==> keys[i] in m
    decreases |keys|
  {
    if keys == [] then 0.0 else SumOver(keys[..|keys| - 1], m) + m[keys[|keys| - 1]]
  }

  /** `sum(d.values())` */
  function Total(d: Dict): real
    requires Valid(d)
  {
    SumOver(d.keys, d.values)
  }

  /** Changing the value of a key listed exactly once changes the sum by the difference. */
  lemma {:induction false} SumOverUpdate(keys: seq<string>, m: map<string, real>, key: string, value: real)
    requires forall i :: 0 <= i < |keys| ==> keys[i] in m
    requires Distinct(keys)
    ensures key in keys ==> key in m && SumOver(keys, m[key := value]) == SumOver(keys, m) - m[key] + value
    ensures key !in keys ==> SumOver(keys, m[key := value]) == SumOver(keys, m)
    decreases |keys|
  {
    if keys != [] {
      var init := keys[..|keys| - 1];
      SumOverUpdate(init, m, key, value);
      if key == keys[|keys| - 1] {
        assert key !in init;
      }
    }
  }

  /** Putting a value replaces the key's old contribution to the total, or adds a new one. */
  lemma PutTotal(d: Dict, key: string, value: real)
    requires Valid(d)
    ensures Total(Put(d, key, value)) == Total(d) - Get(d, key, 0.0) + value
  {
    SumOverUpdate(d.keys, d.values, key, value);
    if key !in d.values {
      var keys := d.keys + [key];
      assert keys[..|keys| - 1] == d.keys;
    }
  }

  /**
   * The dict built by adding each (key, amount) pair in turn to the key's entry, starting from
   * nothing: `d[k] = d.get(k, 0) + v` for every pair.
   */
  function Accumulate(entries: seq<(string, real)>): (d: Dict)
    ensures Valid(d)
    decreases |entries|
  {
    if entries == [] then Empty
    else
      Add(Accumulate(entries[..|entries| - 1]), entries[|entries| - 1])
  }

  /** `d[k] = d.get(k, 0) + v` */
  function Add(d: Dict, entry: (string, real)): (r: Dict)
    requires Valid(d)
    ensures Valid(r)
  {
    Put(d, entry.0, Get(d, entry.0, 0.0) + entry.1)
  }

  /** Adding to a key gives it an entry and raises its value by the amount; no other key changes. */
  lemma AddGet(d: Dict, entry: (string, real), key: string)
    requires Valid(d)
    ensures key in Add(d, entry).values <==> key in d.values || key == entry.0
    ensures Get(Add(d, entry), key, 0.0) == Get(d, key, 0.0) + (if key == entry.0 then entry.1 else 0.0)
  {
  }

  /** Adding raises the total by the amount. */
  lemma AddTotal(d: Dict, entry: (string, real))
    requires Valid(d)
    ensures Total(Add(d, entry)) == Total(d) + entry.1
  {
    var v := Get(d, entry.0, 0.0) + entry.1;
    PutTotal(d, entry.0, v);
    assert Total(Add(d, entry)) == Total(d) - Get(d, entry.0, 0.0) + v;
  }

  lemma MentionsStep(entries: seq<(string, real)>, key: string)
    requires entries != []
    ensures Mentions(entries, key) <==>
      Mentions(entries[..|entries| - 1], key) || entries[|entries| - 1].0 == key
  {
    var init := entries[..|entries| - 1];
    if Mentions(init, key) {
      var i :| 0 <= i < |init| && init[i].0 == key;
      assert entries[i] == init[i];
    }
    if Mentions(entries, key) && entries[|entries| - 1].0 != key {
      var i :| 0 <= i < |entries| && entries[i].0 == key;
      assert init[i] == entries[i];
    }
  }

  lemma AccumulateStep(entries: seq<(string, real)>, i: nat)
    requires i < |entries|
    ensures Accumulate(entries[..i + 1]) == Add(Accumulate(entries[..i]), entries[i])
  {
    assert entries[..i + 1][..i] == entries[..i];
  }

  /** The sum of all the amounts. */
  function Amount(entries: seq<(string, real)>): real
    decreases |entries|
  {
    if entries == [] then 0.0 else Amount(entries[..|entries| - 1]) + entries[|entries| - 1].1
  }

  /** The sum of the amounts paired with key. */
  function AmountOf(entries: seq<(string, real)>, key: string): real
    decreases |entries|
  {
    if entries == [] then 0.0
    else AmountOf(entries[..|entries| - 1], key) + (if entries[|entries| - 1].0 == key then entries[|entries| - 1].1 else 0.0)
  }

  predicate Mentions(entries: seq<(string, real)>, key: string) {
    exists i :: 0 <= i < |entries| && entries[i].0 == key
  }

  /** The accumulated dict's values add up to the sum of all amounts. */
  lemma {:induction false} AccumulateTotal(entries: seq<(string, real)>)
    ensures Total(Accumulate(entries)) == Amount(entries)
    decreases |entries|
  {
    if entries != [] {
      var init := entries[..|entries| - 1];
      AccumulateTotal(init);
      AddTotal(Accumulate(init), entries[|entries| - 1]);
    }
  }

  /**
   * A key has an entry exactly when some pair names it, and the entry is the sum of the
   * amounts paired with it.
   */
  lemma {:induction false} AccumulateGet(entries: seq<(string, real)>, key: string)
    ensures key in Accumulate(entries).values <==> Mentions(entries, key)
    ensures Get(Accumulate(entries), key, 0.0) == AmountOf(entries, key)
    decreases |entries|
  {
    if entries != [] {
      var init := entries[..|entries| - 1];
      AccumulateGet(init, key);
      AddGet(Accumulate(init), entries[|entries| - 1], key);
      MentionsStep(entries, key);
    }
  }

  /** Two pairs with different keys give a two-entry dict in their order. */
  lemma AccumulateTwo(a: (string, real), b: (string, real))
    requires a.0 != b.0
    ensures Accumulate([a, b]) == Dict([a.0, b.0], map[a.0 := a.1, b.0 := b.1])
  {
    var e := [a, b];
    var one := Add(Empty, a);
    assert one == Dict([a.0], map[a.0 := a.1]) by {
      assert one == Put(Empty, a.0, a.1);
      assert Empty.keys + [a.0] == [a.0];
    }
    assert Accumulate(e[..1]) == one by {
      AccumulateStep(e, 0);
      assert e[..0] == [];
    }
    assert Accumulate(e) == Add(one, b) by {
      AccumulateStep(e, 1);
      assert e[..2] == e;
    }
    assert Add(one, b) == Put(one, b.0, b.1);
    assert one.keys + [b.0] == [a.0, b.0];
  }
}
