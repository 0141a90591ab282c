/** Uniform registries: the `{ [key]: { value } }` maps the shaders keep,
    and the `for (let key in updates) uniforms[key].value = updates[key]`
    loops that write them. An update list is the list of its entries in
    JavaScript's iteration order. */
module Uniforms {
  import opened Gl

  type Entry = (string, Value)

  /** The keys an update list mentions. */
  function KeysOf(es: seq<Entry>): set<string> {
    set i | 0 <= i < |es| :: es[i].0
  }

  lemma KeysOfSnoc(es: seq<Entry>, e: Entry)
    ensures KeysOf(es + [e]) == KeysOf(es) + {e.0}
  {
    var xs := es + [e];
    forall k | k in KeysOf(xs) ensures k in KeysOf(es) + {e.0} {
      var i :| 0 <= i < |xs| && xs[i].0 == k;
      if i < |es| { assert es[i].0 == k; }
    }
    forall k | k in KeysOf(es) ensures k in KeysOf(xs) {
      var i :| 0 <= i < |es| && es[i].0 == k;
      assert xs[i].0 == k;
    }
    assert xs[|es|].0 == e.0;
  }

  /** The registry after `u[key].value = value` for every entry in order
      (unknown keys added, which is what `setUniform` does). */
  function Assign(u: map<string, Value>, es: seq<Entry>): (r: map<string, Value>)
    ensures r.Keys == u.Keys + KeysOf(es)
  {
    if es == [] then u
    else
      var n := |es| - 1;
      KeysOfSnoc(es[..n], es[n]);
      assert es[..n] + [es[n]] == es;
      Assign(u, es[..n])[es[n].0 := es[n].1]
  }

  /** The index of the last entry for `k`. */
  function LastIndex(es: seq<Entry>, k: string): (i: nat)
    requires k in KeysOf(es)
    ensures i < |es| && es[i].0 == k
    ensures forall j :: i < j < |es| ==> es[j].0 != k
  {
    var n := |es| - 1;
    if es[n].0 == k then n
    else
      KeysOfSnoc(es[..n], es[n]);
      assert es[..n] + [es[n]] == es;
      LastIndex(es[..n], k)
  }

  /** The last write for a key wins; keys the list does not mention keep
      their value. */
  lemma {:induction false} AssignLookup(u: map<string, Value>, es: seq<Entry>, k: string)
    ensures k in KeysOf(es) ==> Assign(u, es)[k] == es[LastIndex(es, k)].1
    ensures k !in KeysOf(es) && k in u ==> Assign(u, es)[k] == u[k]
  {
    if es != [] {
      var n := |es| - 1;
      KeysOfSnoc(es[..n], es[n]);
      assert es[..n] + [es[n]] == es;
      if es[n].0 != k {
        AssignLookup(u, es[..n], k);
        if k in KeysOf(es) {
          assert LastIndex(es, k) == LastIndex(es[..n], k);
        }
      }
    }
  }

  /** Extending an update list by one entry extends the assignment by one
      write. */
  lemma AssignSnoc(u: map<string, Value>, es: seq<Entry>, e: Entry)
    ensures Assign(u, es + [e]) == Assign(u, es)[e.0 := e.1]
  {
    assert (es + [e])[..|es|] == es;
  }

  /** The index of the first entry whose key is not in `keys`, or `|es|`
      when there is none. */
  function FirstUnregistered(es: seq<Entry>, keys: set<string>): (j: nat)
    ensures j <= |es|
    ensures forall i :: 0 <= i < j ==> es[i].0 in keys
    ensures j < |es| ==> es[j].0 !in keys
  {
    if es == [] then 0
    else if es[0].0 !in keys then 0
    else 1 + FirstUnregistered(es[1..], keys)
  }

  /** `FirstUnregistered` is the only index before which every key is
      registered and at which (if any) the key is not. */
  lemma {:induction false} FirstUnregisteredUnique(es: seq<Entry>, keys: set<string>, j: nat)
    requires j <= |es| && (forall i :: 0 <= i < j ==> es[i].0 in keys) && (j < |es| ==> es[j].0 !in keys)
    ensures FirstUnregistered(es, keys) == j
  {
    if es != [] && es[0].0 in keys {
      assert j != 0;
      FirstUnregisteredUnique(es[1..], keys, j - 1);
    }
  }

  /** No uniform outside `except` samples a texture of `ts`. */
  predicate SamplesNoneOf(u: map<string, Value>, ts: set<Texture>, except: set<string>) {
    forall k :: k in u && k !in except && u[k].Sampler? ==> u[k].texture !in ts
  }

  /** No entry of an update list samples a texture of `ts`. */
  predicate EntriesSampleNoneOf(es: seq<Entry>, ts: set<Texture>) {
    forall i :: 0 <= i < |es| && es[i].1.Sampler? ==> es[i].1.texture !in ts
  }

  /** Writing values that sample none of `ts` keeps a registry free of them. */
  lemma {:induction false} AssignSamplesNoneOf(u: map<string, Value>, es: seq<Entry>, ts: set<Texture>, except: set<string>)
    requires SamplesNoneOf(u, ts, except) && EntriesSampleNoneOf(es, ts)
    ensures SamplesNoneOf(Assign(u, es), ts, except)
  {
    if es != [] {
      var n := |es| - 1;
      AssignSamplesNoneOf(u, es[..n], ts, except);
    }
  }

  /** A `for (key in given)` or `Object.entries(given).forEach` copy into a
      map, one key at a time: every given entry is added, overriding an
      entry of the same name, and every other entry is kept. */
  method Merge(initial: map<string, Value>, given: map<string, Value>) returns (registry: map<string, Value>)
    ensures registry == initial + given
  {
    registry := initial;
    var keys := given.Keys;
    while keys != {}
      invariant keys <= given.Keys
      invariant registry == initial + map k | k in given.Keys - keys :: given[k]
      decreases keys
    {
      var key :| key in keys;
      registry := registry[key := given[key]];
      keys := keys - {key};
    }
    assert (map k | k in given.Keys - {} :: given[k]) == given;
  }

  /** The `for (key in updatedUniforms) uniforms[key].value = ...` loop:
      writes the entries in order and stops at the first key that was never
      registered, returning its index (or the length of the list) and the
      registry as far as it was written. */
  method ApplyEntries(u: map<string, Value>, updates: seq<Entry>) returns (r: map<string, Value>, j: nat)
    ensures j == FirstUnregistered(updates, u.Keys)
    ensures r == Assign(u, updates[..j])
    ensures r.Keys == u.Keys
  {
    r := u;
    j := 0;
    while j < |updates|
      invariant 0 <= j <= |updates|
      invariant forall i :: 0 <= i < j ==> updates[i].0 in u
      invariant r == Assign(u, updates[..j])
      invariant r.Keys == u.Keys
    {
      var (key, value) := updates[j];
      if key !in r {
        FirstUnregisteredUnique(updates, u.Keys, j);
        return;
      }
      AssignSnoc(u, updates[..j], updates[j]);
      assert updates[..j + 1] == updates[..j] + [updates[j]];
      r := r[key := value];
      j := j + 1;
    }
    FirstUnregisteredUnique(updates, u.Keys, j);
    assert updates[..j] == updates;
  }

  /** Binding one more value that samples none of `ts` keeps a registry free
      of them. */
  lemma SamplesNoneOfUpdate(u: map<string, Value>, key: string, v: Value, ts: set<Texture>, except: set<string>)
    requires SamplesNoneOf(u, ts, except) && (v.Sampler? ==> v.texture !in ts)
    ensures SamplesNoneOf(u[key := v], ts, except)
  {
  }

  /** A draw into `t` whose uniforms sample no `t` is free of hazards. */
  lemma {:induction false} SamplesNoneHazardFree(u: map<string, Value>, t: Texture)
    requires SamplesNoneOf(u, {t}, {})
    ensures HazardFree(Draw(t, u))
  {
    forall k | k in u ensures u[k] != Sampler(t) {
      if u[k].Sampler? {
        assert u[k].texture !in {t};
      }
    }
  }
}
