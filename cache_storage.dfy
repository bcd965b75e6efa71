/** The browser's `CacheStorage` (the global `caches`) as the worker uses it: named
    caches, each a map from request URL to stored response. The value-level view
    `Store` and its operations specify the class `CacheStorage` below. */
module CacheStore {
  import opened Wrappers
  import opened Web

  type Entries = map<Url, Response>

  /** Cache names in creation order (the order of `caches.keys()`, in which
      `caches.match` searches) and the entries of each cache. */
  datatype Store = Store(names: seq<string>, caches: map<string, Entries>)

  const Empty := Store([], map[])

  predicate Distinct(ns: seq<string>) {
    forall i, j :: 0 <= i < j < |ns| ==> ns[i] != ns[j]
  }

  /** Every name is listed once and each listed name has a cache. */
  predicate WellFormed(s: Store) {
    Distinct(s.names) && s.caches.Keys == set n | n in s.names
  }

  /** The entry for `key` in the cache called `name`, if both exist. */
  function Lookup(s: Store, name: string, key: Url): Option<Response> {
    if name in s.caches && key in s.caches[name] then Some(s.caches[name][key]) else None
  }

  /** `caches.open(name)`: creates an empty cache when there is none of that name. */
  function OpenCache(s: Store, name: string): (r: Store)
    requires WellFormed(s)
    ensures WellFormed(r) && name in r.caches
    ensures forall n, k :: Lookup(r, n, k) == Lookup(s, n, k)
    ensures r.names == if name in s.names then s.names else s.names + [name]
  {
    if name in s.caches then s else Store(s.names + [name], s.caches[name := map[]])
  }

  /** `caches.open(name)` followed by `cache.put(key, resp)`. */
  function PutEntry(s: Store, name: string, key: Url, resp: Response): (r: Store)
    requires WellFormed(s)
    ensures WellFormed(r)
  {
    var o := OpenCache(s, name);
    Store(o.names, o.caches[name := o.caches[name][key := resp]])
  }

  /** `ns` without `name`. */
  function Without(ns: seq<string>, name: string): (r: seq<string>)
    ensures forall n :: n in r <==> n in ns && n != name
    ensures Distinct(ns) ==> Distinct(r)
  {
    if ns == [] then []
    else if ns[0] == name then Without(ns[1..], name)
    else
      assert Distinct(ns) ==> ns[0] !in ns[1..];
      [ns[0]] + Without(ns[1..], name)
  }

  /** `caches.delete(name)`. */
  function DeleteCache(s: Store, name: string): (r: Store)
    requires WellFormed(s)
    ensures WellFormed(r) && name !in r.caches
  {
    Store(Without(s.names, name), s.caches - {name})
  }

  /** The first cache of `names` holding `key`, as `caches.match` searches. */
  function MatchIn(names: seq<string>, caches: map<string, Entries>, key: Url): (r: Option<Response>)
    ensures r.None? <==> forall n :: n in names && n in caches ==> key !in caches[n]
    ensures r.Some? ==> exists i :: FirstHolder(names, caches, key, i) && r.value == caches[names[i]][key]
  {
    if names == [] then None
    else if names[0] in caches && key in caches[names[0]] then Some(caches[names[0]][key])
    else
      var r := MatchIn(names[1..], caches, key);
      assert forall n :: n in names ==> n == names[0] || n in names[1..];
      if r.Some? then
        var i :| FirstHolder(names[1..], caches, key, i) && r.value == caches[names[1..][i]][key];
        assert FirstHolder(names, caches, key, i + 1) by {
          forall j | 0 < j < i + 1 ensures !(names[j] in caches && key in caches[names[j]]) {
            assert names[j] == names[1..][j - 1];
          }
        }
        r
      else r
  }

  /** `names[i]` is the first name of `names` whose cache holds `key`. */
  predicate FirstHolder(names: seq<string>, caches: map<string, Entries>, key: Url, i: int) {
    && 0 <= i < |names| && names[i] in caches && key in caches[names[i]]
    && forall j :: 0 <= j < i ==> !(names[j] in caches && key in caches[names[j]])
  }

  /** `caches.match(key)`. */
  function Match(s: Store, key: Url): (r: Option<Response>)
    ensures r.None? <==> forall n :: n in s.names && n in s.caches ==> key !in s.caches[n]
    ensures r.Some? ==> exists i :: FirstHolder(s.names, s.caches, key, i) && r.value == s.caches[s.names[i]][key]
  {
    MatchIn(s.names, s.caches, key)
  }

  /** Names of `ns` equal to `keep`, in order. */
  function Only(ns: seq<string>, keep: string): (r: seq<string>)
    ensures forall n :: n in r ==> n == keep
    ensures keep in r <==> keep in ns
  {
    if ns == [] then []
    else Only(ns[..|ns| - 1], keep) + (if ns[|ns| - 1] == keep then [keep] else [])
  }

  /** What is left after deleting every cache whose name differs from `keep`. */
  function Retained(s: Store, keep: string): Store {
    Store(Only(s.names, keep), map n | n in s.caches && n == keep :: s.caches[n])
  }

  /** The outcome of fetching every request of an `addAll` batch: the responses in
      order when every fetch succeeded with an ok status, `None` otherwise. */
  function FetchAll(reqs: seq<Request>, net: Network): (r: Option<seq<Response>>)
    ensures r.Some? ==> (|r.value| == |reqs|
      && forall i :: 0 <= i < |reqs| ==> net(reqs[i]) == Some(r.value[i]) && Ok(r.value[i]))
    ensures r.None? ==> exists i :: 0 <= i < |reqs| && (net(reqs[i]).None? || !Ok(net(reqs[i]).value))
  {
    if reqs == [] then Some([])
    else match net(reqs[0])
      case None => None
      case Some(resp) =>
        if !Ok(resp) then None
        else match FetchAll(reqs[1..], net)
          case None => None
          case Some(rest) => Some([resp] + rest)
  }

  /** The entries a batch writes: each request's URL to its response, a later
      request overriding an earlier one with the same URL. */
  function Batch(reqs: seq<Request>, rs: seq<Response>): (r: Entries)
    requires |reqs| == |rs|
    ensures forall u :: u in r <==> exists i :: 0 <= i < |reqs| && reqs[i].url == u
  {
    if reqs == [] then map[]
    else
      var m := Batch(reqs[..|reqs| - 1], rs[..|rs| - 1]);
      assert forall i :: 0 <= i < |reqs| - 1 ==> reqs[..|reqs| - 1][i] == reqs[i];
      m[reqs[|reqs| - 1].url := rs[|rs| - 1]]
  }

  /** `cache.addAll(reqs)` on the existing cache `name`: all entries or none. */
  function AddAllResult(s: Store, name: string, reqs: seq<Request>, net: Network): (r: Store)
    requires WellFormed(s) && name in s.caches
    ensures WellFormed(r) && r.names == s.names
  {
    match FetchAll(reqs, net)
    case None => s
    case Some(rs) => Store(s.names, s.caches[name := s.caches[name] + Batch(reqs, rs)])
  }

  /** The store after `caches.delete` of each name of `ks` other than `keep`, in order. */
  function DeleteEach(s: Store, ks: seq<string>, keep: string): (r: Store)
    requires WellFormed(s)
    ensures WellFormed(r)
  {
    if ks == [] then s
    else
      var t := DeleteEach(s, ks[..|ks| - 1], keep);
      if ks[|ks| - 1] == keep then t else DeleteCache(t, ks[|ks| - 1])
  }

  /** One more name of `ks`: the cleanup of `ks[..i + 1]` is that of `ks[..i]`,
      then the deletion of `ks[i]` unless it is kept. */
  lemma DeleteEachStep(s: Store, ks: seq<string>, i: nat, keep: string)
    requires WellFormed(s) && i < |ks|
    ensures DeleteEach(s, ks[..i + 1], keep)
      == if ks[i] == keep then DeleteEach(s, ks[..i], keep) else DeleteCache(DeleteEach(s, ks[..i], keep), ks[i])
  {
    assert ks[..i + 1][..i] == ks[..i];
  }

  /** The caches of `c` named `keep` or named in `rest`. */
  function KeptOrPending(c: map<string, Entries>, keep: string, rest: seq<string>): map<string, Entries> {
    map n | n in c && (n == keep || n in rest) :: c[n]
  }

  /** Deleting, one after the other, every listed name but `keep` leaves exactly
      what `Retained` describes. */
  lemma DeleteEachIsRetained(s: Store, keep: string)
    requires WellFormed(s)
    ensures DeleteEach(s, s.names, keep) == Retained(s, keep)
  {
    var ns := s.names;
    assert ns[..|ns|] == ns && ns[|ns|..] == [];
    assert DeleteEach(s, ns, keep).names == Only(ns, keep) by {
      DeleteEachListsNamesAfter(s, ns, keep);
      DeleteEachNames(ns, keep, |ns|);
    }
    assert DeleteEach(s, ns, keep).caches == KeptOrPending(s.caches, keep, []) by {
      DeleteEachCaches(s, keep, |ns|);
    }
  }

  /** The names listed after deleting each name of `ks` other than `keep` from `ns`. */
  function NamesAfter(ns: seq<string>, ks: seq<string>, keep: string): seq<string> {
    if ks == [] then ns
    else
      var t := NamesAfter(ns, ks[..|ks| - 1], keep);
      if ks[|ks| - 1] == keep then t else Without(t, ks[|ks| - 1])
  }

  lemma {:induction false} DeleteEachListsNamesAfter(s: Store, ks: seq<string>, keep: string)
    requires WellFormed(s)
    ensures DeleteEach(s, ks, keep).names == NamesAfter(s.names, ks, keep)
  {
    if ks != [] {
      DeleteEachListsNamesAfter(s, ks[..|ks| - 1], keep);
    }
  }

  /** After the first `i` names, the listed names are the kept one (if it came up)
      followed by the names still to do. */
  lemma {:induction false} DeleteEachNames(ns: seq<string>, keep: string, i: nat)
    requires Distinct(ns) && i <= |ns|
    ensures NamesAfter(ns, ns[..i], keep) == Only(ns[..i], keep) + ns[i..]
  {
    if i == 0 {
      assert ns[..0] == [] && ns[0..] == ns;
    } else {
      var t := NamesAfter(ns, ns[..i - 1], keep);
      var front, k, rest := Only(ns[..i - 1], keep), ns[i - 1], ns[i..];
      assert t == front + [k] + rest by {
        DeleteEachNames(ns, keep, i - 1);
        assert ns[i - 1..] == [k] + rest;
      }
      assert NamesAfter(ns, ns[..i], keep) == (if k == keep then t else Without(t, k))
          && Only(ns[..i], keep) == front + (if k == keep then [keep] else []) by {
        assert ns[..i][..i - 1] == ns[..i - 1];
      }
      assert k !in rest by {
        DistinctTail(ns, i - 1);
      }
      NamesStep(t, front, k, rest, keep);
    }
  }

  lemma NamesStep(t: seq<string>, front: seq<string>, k: string, rest: seq<string>, keep: string)
    requires t == front + [k] + rest && k !in rest && forall n :: n in front ==> n == keep
    ensures (if k == keep then t else Without(t, k)) == front + (if k == keep then [keep] else []) + rest
  {
    if k != keep {
      WithoutMiddle(front, k, rest);
      assert front + [] + rest == front + rest;
    }
  }

  /** After the first `i` names, the caches left are those named `keep` or named
      among the names still to do. */
  lemma {:induction false} DeleteEachCaches(s: Store, keep: string, i: nat)
    requires WellFormed(s) && i <= |s.names|
    ensures DeleteEach(s, s.names[..i], keep).caches == KeptOrPending(s.caches, keep, s.names[i..])
  {
    var ns := s.names;
    if i == 0 {
      assert ns[..0] == [] && ns[0..] == ns;
      assert KeptOrPending(s.caches, keep, ns) == s.caches;
    } else {
      var t := DeleteEach(s, ns[..i - 1], keep);
      var k, rest := ns[i - 1], ns[i..];
      assert t.caches == KeptOrPending(s.caches, keep, [k] + rest) by {
        DeleteEachCaches(s, keep, i - 1);
        assert ns[i - 1..] == [k] + rest;
      }
      assert DeleteEach(s, ns[..i], keep) == if k == keep then t else DeleteCache(t, k) by {
        DeleteEachStep(s, ns, i - 1, keep);
      }
      if k == keep {
        KeptSkipsCurrent(s.caches, keep, rest);
      } else {
        DistinctTail(ns, i - 1);
        KeptDropsDeleted(s.caches, keep, k, rest);
      }
    }
  }

  lemma DistinctTail(ns: seq<string>, i: nat)
    requires Distinct(ns) && i < |ns|
    ensures ns[i] !in ns[i + 1..]
  {
  }

  lemma KeptSkipsCurrent(c: map<string, Entries>, keep: string, rest: seq<string>)
    ensures KeptOrPending(c, keep, [keep] + rest) == KeptOrPending(c, keep, rest)
  {
    assert forall n :: n in [keep] + rest <==> n == keep || n in rest;
  }

  lemma KeptDropsDeleted(c: map<string, Entries>, keep: string, k: string, rest: seq<string>)
    requires k != keep && k !in rest
    ensures KeptOrPending(c, keep, [k] + rest) - {k} == KeptOrPending(c, keep, rest)
  {
    assert forall n :: n in [k] + rest <==> n == k || n in rest;
  }

  lemma {:induction false} WithoutMiddle(a: seq<string>, k: string, b: seq<string>)
    requires k !in a && k !in b
    ensures Without(a + [k] + b, k) == a + b
  {
    if a == [] {
      WithoutAbsent(b, k);
      assert ([k] + b)[1..] == b;
    } else {
      assert (a + [k] + b)[1..] == a[1..] + [k] + b;
      WithoutMiddle(a[1..], k, b);
      assert a + b == [a[0]] + (a[1..] + b);
    }
  }

  lemma {:induction false} WithoutAbsent(ns: seq<string>, k: string)
    requires k !in ns
    ensures Without(ns, k) == ns
  {
    if ns != [] {
      WithoutAbsent(ns[1..], k);
      assert ns == [ns[0]] + ns[1..];
    }
  }

  /** A `put` changes the one entry it writes and no other. */
  lemma PutChangesOneEntry(s: Store, name: string, key: Url, resp: Response, n: string, k: Url)
    requires WellFormed(s)
    ensures Lookup(PutEntry(s, name, key, resp), n, k)
      == if n == name && k == key then Some(resp) else Lookup(s, n, k)
  {
    assert Lookup(OpenCache(s, name), n, k) == Lookup(s, n, k);
  }

  /** After a lookup missed everywhere, a `put` of that key makes `caches.match`
      return the stored copy, whichever cache it went into. */
  lemma {:induction false} MissThenPutIsServed(s: Store, name: string, key: Url, resp: Response)
    requires WellFormed(s) && Match(s, key).None?
    ensures Match(PutEntry(s, name, key, resp), key) == Some(resp)
  {
    var r := PutEntry(s, name, key, resp);
    forall n | n in r.names && n in r.caches && n != name ensures key !in r.caches[n] {
      PutChangesOneEntry(s, name, key, resp, n, key);
    }
    var m := Match(r, key);
    if m.Some? {
      var i :| 0 <= i < |r.names| && r.names[i] in r.caches && key in r.caches[r.names[i]]
        && m.value == r.caches[r.names[i]][key];
      assert r.names[i] == name;
    } else {
      assert name in r.names && name in r.caches && key in r.caches[name];
    }
  }

  /** An entry that `caches.match` finds stays found after any `put`. */
  lemma {:induction false} HitSurvivesPut(s: Store, name: string, key: Url, resp: Response, k: Url)
    requires WellFormed(s) && Match(s, k).Some?
    ensures Match(PutEntry(s, name, key, resp), k).Some?
  {
    var i :| 0 <= i < |s.names| && s.names[i] in s.caches && k in s.caches[s.names[i]];
    var r := PutEntry(s, name, key, resp);
    PutChangesOneEntry(s, name, key, resp, s.names[i], k);
    assert r.names[i] == s.names[i];
  }

  /** After the cleanup, the current cache is the only one left when it existed,
      and none is left otherwise. */
  lemma {:induction false} RetainedLeavesOnlyCurrent(s: Store, keep: string)
    requires WellFormed(s)
    ensures WellFormed(Retained(s, keep))
    ensures Retained(s, keep).names == if keep in s.names then [keep] else []
    ensures forall k :: Lookup(Retained(s, keep), keep, k) == Lookup(s, keep, k)
    ensures forall n, k :: n != keep ==> Lookup(Retained(s, keep), n, k).None?
  {
    OnlyOfDistinct(s.names, keep);
  }

  lemma {:induction false} OnlyOfDistinct(ns: seq<string>, keep: string)
    requires Distinct(ns)
    ensures Only(ns, keep) == if keep in ns then [keep] else []
  {
    if ns != [] {
      var front := ns[..|ns| - 1];
      assert Distinct(front);
      OnlyOfDistinct(front, keep);
      assert forall n :: n in ns <==> n in front || n == ns[|ns| - 1];
      if ns[|ns| - 1] == keep {
        assert keep !in front;
      }
    }
  }

  /** A successful `addAll` stores an entry for every request; a failed one changes nothing. */
  lemma AddAllIsAllOrNothing(s: Store, name: string, reqs: seq<Request>, net: Network)
    requires WellFormed(s) && name in s.caches
    ensures FetchAll(reqs, net).Some? ==>
      forall i :: 0 <= i < |reqs| ==> Lookup(AddAllResult(s, name, reqs, net), name, reqs[i].url).Some?
    ensures FetchAll(reqs, net).None? ==> AddAllResult(s, name, reqs, net) == s
  {
  }

  /** The browser's `caches` object. */
  class CacheStorage {
    var names: seq<string>
    var caches: map<string, Entries>

    function View(): Store
      reads this
    {
      Store(names, caches)
    }

    ghost predicate Valid()
      reads this
    {
      WellFormed(View())
    }

    constructor ()
      ensures Valid() && View() == Empty
    {
      names, caches := [], map[];
    }

    /** `caches.keys()`. */
    method Keys() returns (ks: seq<string>)
      requires Valid()
      ensures Distinct(ks) && forall n :: n in ks <==> n in caches
      ensures ks == names
    {
      ks := names;
    }

    /** `caches.match(key)`. */
    function MatchKey(key: Url): (r: Option<Response>)
      reads this
      ensures r.None? <==> forall n :: n in View().names && n in View().caches ==> key !in View().caches[n]
      ensures r.Some? ==> exists i :: FirstHolder(View().names, View().caches, key, i) && r.value == View().caches[View().names[i]][key]
    {
      Match(View(), key)
    }

    method Open(name: string)
      requires Valid()
      modifies this
      ensures Valid() && View() == OpenCache(old(View()), name)
    {
      if name !in caches {
        names, caches := names + [name], caches[name := map[]];
      }
    }

    method Put(name: string, key: Url, resp: Response)
      requires Valid()
      modifies this
      ensures Valid() && View() == PutEntry(old(View()), name, key, resp)
    {
      Open(name);
      caches := caches[name := caches[name][key := resp]];
    }

    method Delete(name: string) returns (existed: bool)
      requires Valid()
      modifies this
      ensures Valid() && View() == DeleteCache(old(View()), name)
      ensures existed == (name in old(caches))
    {
      existed := name in caches;
      names, caches := Without(names, name), caches - {name};
    }

    /** `cache.addAll(reqs)` on the cache `name`: fetch every request, then store
        the whole batch only if every response was ok. */
    method AddAll(name: string, reqs: seq<Request>, net: Network) returns (ok: bool)
      requires Valid() && name in caches
      modifies this
      ensures Valid() && View() == AddAllResult(old(View()), name, reqs, net)
      ensures ok == FetchAll(reqs, net).Some?
    {
      var rs: seq<Response> := [];
      var i := 0;
      while i < |reqs|
        invariant 0 <= i <= |reqs| && |rs| == i
        invariant forall k :: 0 <= k < i ==> net(reqs[k]) == Some(rs[k]) && Ok(rs[k])
      {
        var r := net(reqs[i]);
        if r.None? || !Ok(r.value) {
          FetchAllFails(reqs, i, net);
          return false;
        }
        rs, i := rs + [r.value], i + 1;
      }
      FetchAllSucceeds(reqs, rs, net);
      caches := caches[name := caches[name] + Batch(reqs, rs)];
      ok := true;
    }
  }

  /** A batch whose every request was answered ok yields exactly those answers. */
  lemma {:induction false} FetchAllSucceeds(reqs: seq<Request>, rs: seq<Response>, net: Network)
    requires |rs| == |reqs|
    requires forall k :: 0 <= k < |reqs| ==> net(reqs[k]) == Some(rs[k]) && Ok(rs[k])
    ensures FetchAll(reqs, net) == Some(rs)
  {
    if reqs != [] {
      FetchAllSucceeds(reqs[1..], rs[1..], net);
      assert rs == [rs[0]] + rs[1..];
    }
  }

  /** A batch with one failed or non-ok fetch fails as a whole. */
  lemma {:induction false} FetchAllFails(reqs: seq<Request>, i: nat, net: Network)
    requires i < |reqs| && (net(reqs[i]).None? || !Ok(net(reqs[i]).value))
    ensures FetchAll(reqs, net) == None
  {
    if i > 0 && net(reqs[0]).Some? && Ok(net(reqs[0]).value) {
      FetchAllFails(reqs[1..], i - 1, net);
    }
  }
}
