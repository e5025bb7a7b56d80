/**
 * The `reducer` given to `VuexPersistence`: it lists the state object's own
 * keys, keeps those in the whitelist `included`, and folds them into a fresh
 * object, each step spreading the accumulator after the new key.
 * A JavaScript object is modelled with its own-key order, because
 * `Object.keys`, `filter` and the spread in `reduce` all depend on it. The key
 * type is a parameter: the store instantiates it with an enumeration of its
 * property names, and the whitelist `included` is passed in.
 */
module Persistence {

  /** The values a state field can hold, as far as the reducer is concerned. */
  datatype JsValue =
    | JsString(s: string)
    | JsBool(b: bool)
    | JsNumber(n: int)
    | JsNull
    | JsStringMap(entries: map<string, string>)
    | JsModuleState(tag: string)  // the state of a store module whose code is not part of this model

  /** A plain object: its own keys in order, and the value under each key. */
  datatype JsObject<K, V> = JsObject(keys: seq<K>, props: map<K, V>)

  predicate KeysDistinct<K(==)>(keys: seq<K>) {
    forall i, j :: 0 <= i < j < |keys| ==> keys[i] != keys[j]
  }

  /** Each own key is listed once, and the listed keys are exactly the keys that hold a value. */
  ghost predicate WellFormed<K(!new), V>(o: JsObject<K, V>) {
    KeysDistinct(o.keys) && forall k :: k in o.props <==> k in o.keys
  }

  /** A list of distinct keys stays distinct when a key it lacks is put in front. */
  lemma ConsDistinct<K>(key: K, keys: seq<K>)
    ensures KeysDistinct(keys) && key !in keys ==> KeysDistinct([key] + keys)
  {
    if KeysDistinct(keys) && key !in keys {
      forall i, j | 0 <= i < j < |keys| + 1 ensures ([key] + keys)[i] != ([key] + keys)[j] {
        if i == 0 { assert ([key] + keys)[j] == keys[j - 1]; }
      }
    }
  }

  /** The first key of a distinct list does not occur in its tail. */
  lemma HeadNotInTail<K>(keys: seq<K>)
    requires keys != []
    ensures KeysDistinct(keys) ==> keys[0] !in keys[1..] && KeysDistinct(keys[1..])
  {
  }

  /** The keys that are whitelisted, in their original order. */
  function Filter<K(==, !new)>(keys: seq<K>, included: seq<K>): (r: seq<K>)
    ensures forall k :: k in r <==> k in keys && k in included
    ensures KeysDistinct(keys) ==> KeysDistinct(r)
  {
    if keys == [] then []
    else
      var rest := Filter(keys[1..], included);
      assert forall k :: k in keys <==> k == keys[0] || k in keys[1..];
      if keys[0] in included then [keys[0]] + rest else rest
  }

  /** `keys` with `key` taken out. */
  function Without<K(==, !new)>(keys: seq<K>, key: K): (r: seq<K>)
    ensures forall k :: k in r <==> k in keys && k != key
    ensures KeysDistinct(keys) ==> KeysDistinct(r)
  {
    if keys == [] then []
    else
      var rest := Without(keys[1..], key);
      assert forall k :: k in keys <==> k == keys[0] || k in keys[1..];
      HeadNotInTail(keys);
      ConsDistinct(keys[0], rest);
      if keys[0] == key then rest else [keys[0]] + rest
  }

  /**
   * `{[key]: value, ...acc}`: the new key is defined first, then every own
   * property of `acc` is copied over it, so a key already in `acc` keeps
   * `acc`'s value.
   */
  function Spread<K(==, !new), V>(key: K, value: V, acc: JsObject<K, V>): (r: JsObject<K, V>)
    ensures WellFormed(acc) ==> WellFormed(r)
  {
    var keys := [key] + Without(acc.keys, key);
    assert forall k :: k in keys <==> k == key || k in Without(acc.keys, key);
    ConsDistinct(key, Without(acc.keys, key));
    JsObject(keys, map[key := value] + acc.props)
  }

  /** The `reduce` over `keys` from the accumulator `acc`, with `Spread` as its step. */
  function Fold<K(==, !new), V>(state: JsObject<K, V>, keys: seq<K>, acc: JsObject<K, V>): JsObject<K, V>
    requires forall k :: k in keys ==> k in state.props
  {
    if keys == [] then acc
    else Fold(state, keys[1..], Spread(keys[0], state.props[keys[0]], acc))
  }

  /** The persistence reducer. */
  function Reducer<K(==, !new), V>(state: JsObject<K, V>, included: seq<K>): JsObject<K, V>
    requires forall k :: k in state.keys ==> k in state.props
  {
    Fold(state, Filter(state.keys, included), JsObject([], map[]))
  }

  /** Folding copies each listed key's value from `state` into an accumulator that already agrees with `state`. */
  lemma {:induction false} FoldCopies<K(!new), V>(state: JsObject<K, V>, keys: seq<K>, acc: JsObject<K, V>)
    requires forall k :: k in keys ==> k in state.props
    requires WellFormed(acc)
    requires forall k :: k in acc.props ==> k in state.props && acc.props[k] == state.props[k]
    ensures var r := Fold(state, keys, acc);
            && WellFormed(r)
            && (forall k :: k in r.props <==> k in acc.props || k in keys)
            && (forall k :: k in r.props ==> r.props[k] == state.props[k])
  {
    if keys != [] {
      var next := Spread(keys[0], state.props[keys[0]], acc);
      assert forall k :: k in keys <==> k == keys[0] || k in keys[1..];
      FoldCopies(state, keys[1..], next);
    }
  }

  /**
   * The reducer's result is a well-formed object (even when `state` lists a
   * key twice) whose keys are exactly the keys of `state` that are whitelisted, each holding the same value as in
   * `state`; no other key appears.
   */
  lemma ReducerProjects<K(!new), V>(state: JsObject<K, V>, included: seq<K>)
    requires forall k :: k in state.props <==> k in state.keys
    ensures var r := Reducer(state, included);
            && WellFormed(r)
            && (forall k :: k in r.props <==> k in state.props && k in included)
            && (forall k :: k in r.props ==> r.props[k] == state.props[k])
  {
    FoldCopies(state, Filter(state.keys, included), JsObject([], map[]));
  }
}
