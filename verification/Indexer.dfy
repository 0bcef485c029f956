/**
 The store behind an informer, with one index
 (vendor/k8s.io/client-go/tools/cache/thread_safe_store.go).

 The lookups of the other modules (ByName, UsersListing, the token key index)
 rest on what ByIndex promises; here the bookkeeping that keeps the promise is
 proved to do so.
 */
module Indexers {
  import opened Options
  import opened KubeApi

  // MetaNamespaceKeyFunc
  function MetaNamespaceKey(ns: string, name: string): string { if ns == "" then name else ns + "/" + name }

  predicate HasSlash(s: string) { '/' in s }

  // Names and namespaces hold no slash, so no two objects have one key.
  lemma MetaNamespaceKeyInjective(ns: string, name: string, ns': string, name': string)
    requires !HasSlash(ns) && !HasSlash(name) && !HasSlash(ns') && !HasSlash(name')
    ensures MetaNamespaceKey(ns, name) == MetaNamespaceKey(ns', name') <==> ns == ns' && name == name'
  {
    FirstSlash(ns, name);
    FirstSlash(ns', name');
    var a, b := ns + "/" + name, ns' + "/" + name';
    if a == b {
      assert |ns| == |ns'|;
      assert ns == a[..|ns|] && ns' == b[..|ns'|];
      assert name == a[|ns| + 1..] && name' == b[|ns'| + 1..];
    }
  }

  lemma FirstSlash(p: string, q: string)
    requires !HasSlash(p)
    ensures var x := p + "/" + q; x[|p|] == '/' && HasSlash(x) && forall i | 0 <= i < |p| :: x[i] != '/'
  {
    var x := p + "/" + q;
    assert x[|p|] == '/';
    assert forall i | 0 <= i < |p| :: x[i] == p[i];
  }

  type Index = map<string, set<string>>

  // A missing bucket and an empty one are alike.
  function Bucket(index: Index, value: string): set<string> {
    if value in index then index[value] else {}
  }

  // A bucket without and with a key, for each of an object's index values.
  function Less(bucket: set<string>, value: string, values: seq<string>, key: string): set<string> {
    if value in values then bucket - {key} else bucket
  }

  function More(bucket: set<string>, value: string, values: seq<string>, key: string): set<string> {
    if value in values then bucket + {key} else bucket
  }

  // The objects filed under some of the keys.
  function At<O(==)>(items: map<string, O>, keys: set<string>): set<O>
    requires keys <= items.Keys
  {
    set k | k in keys :: items[k]
  }

  lemma AtOneMore<O>(items: map<string, O>, keyFunc: O -> string, keys: set<string>, k: string)
    requires keys <= items.Keys && k in items && k !in keys
    requires forall j | j in items :: keyFunc(items[j]) == j
    ensures At(items, keys + {k}) == At(items, keys) + {items[k]}
    ensures items[k] !in At(items, keys)
  {
    forall j | j in keys
      ensures items[j] != items[k]
    {
      assert keyFunc(items[j]) == j;
    }
  }

  class Indexer<O(==, !new)> {
    const keyFunc: O -> string
    const indexFunc: O -> seq<string>
    var items: map<string, O>
    var index: Index

    ghost predicate Valid()
      reads this
    {
      && (forall k | k in items :: keyFunc(items[k]) == k)
      && (forall value, k :: k in Bucket(index, value) <==> k in items && value in indexFunc(items[k]))
    }

    constructor (keyFunc: O -> string, indexFunc: O -> seq<string>)
      ensures Valid() && items == map[]
      ensures this.keyFunc == keyFunc && this.indexFunc == indexFunc
    {
      this.keyFunc, this.indexFunc := keyFunc, indexFunc;
      items, index := map[], map[];
    }

    method Add(obj: O)
      requires Valid()
      modifies this
      ensures Valid() && items == old(items)[keyFunc(obj) := obj]
    {
      var key := keyFunc(obj);
      var oldObj := if key in items then Some(items[key]) else None;
      items := items[key := obj];
      UpdateIndices(oldObj, obj, key);
    }

    // Update does what Add does.
    method Update(obj: O)
      requires Valid()
      modifies this
      ensures Valid() && items == old(items)[keyFunc(obj) := obj]
    {
      Add(obj);
    }

    method Delete(key: string)
      requires Valid()
      modifies this
      ensures Valid() && items == old(items) - {key}
    {
      if key in items {
        DeleteFromIndices(items[key], key);
        items := items - {key};
      }
    }

    // The index is rebuilt from nothing, the items taken in any order.
    method Replace(newItems: map<string, O>)
      requires forall k | k in newItems :: keyFunc(newItems[k]) == k
      modifies this
      ensures Valid() && items == newItems
    {
      items, index := newItems, map[];
      var todo := items.Keys;
      while todo != {}
        invariant items == newItems && todo <= items.Keys
        invariant forall value, k :: k in Bucket(index, value) <==>
                    k in items.Keys - todo && value in indexFunc(items[k])
      {
        var key :| key in todo;
        UpdateIndices(None, items[key], key);
        todo := todo - {key};
      }
      assert items.Keys - todo == items.Keys;
    }

    method UpdateIndices(oldObj: Option<O>, newObj: O, key: string)
      modifies `index
      ensures var gone := if oldObj.Some? then indexFunc(oldObj.value) else [];
              forall value :: Bucket(index, value) ==
                                More(Less(old(Bucket(index, value)), value, gone, key), value, indexFunc(newObj), key)
    {
      if oldObj.Some? {
        DeleteFromIndices(oldObj.value, key);
      }
      ghost var was := index;
      var values := indexFunc(newObj);
      for i := 0 to |values|
        invariant forall value :: Bucket(index, value) == More(Bucket(was, value), value, values[..i], key)
      {
        var bucket := Bucket(index, values[i]);
        index := index[values[i] := bucket + {key}];
      }
    }

    method DeleteFromIndices(obj: O, key: string)
      modifies `index
      ensures forall value :: Bucket(index, value) == Less(old(Bucket(index, value)), value, indexFunc(obj), key)
    {
      ghost var was := index;
      var values := indexFunc(obj);
      for i := 0 to |values|
        invariant forall value :: Bucket(index, value) == Less(Bucket(was, value), value, values[..i], key)
      {
        if values[i] in index {
          index := index[values[i] := index[values[i]] - {key}];
        }
      }
    }

    // Every object, once each.
    method List() returns (list: seq<O>)
      requires Valid()
      ensures multiset(list) == multiset(items.Values)
    {
      list := Collect(items.Keys);
      assert At(items, items.Keys) == items.Values;
    }

    // Every object whose index function yields the value, once each.
    method ByIndex(value: string) returns (list: seq<O>)
      requires Valid()
      ensures multiset(list) == multiset(set o | o in items.Values && value in indexFunc(o))
    {
      var keys := Bucket(index, value);
      list := Collect(keys);
      assert At(items, keys) == set o | o in items.Values && value in indexFunc(o);
    }

    // The loop of List and of ByIndex.
    method Collect(keys: set<string>) returns (list: seq<O>)
      requires Valid() && keys <= items.Keys
      ensures multiset(list) == multiset(At(items, keys))
    {
      list := [];
      var todo := keys;
      while todo != {}
        invariant todo <= keys
        invariant multiset(list) == multiset(At(items, keys - todo))
      {
        var k :| k in todo;
        AtOneMore(items, keyFunc, keys - todo, k);
        assert keys - (todo - {k}) == keys - todo + {k};
        list := list + [items[k]];
        todo := todo - {k};
      }
      assert keys - todo == keys;
    }
  }
}
