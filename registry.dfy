/**
 * The identifier registry (`WixConfig.uuid`): a map from masked path to GUID
 * that returns the archived GUID of a known path and mints, stores and
 * returns a fresh one for an unknown path. `uuid.uuid4` is modelled as a
 * supply `uuid4: nat -> string` of which `minted` values have been drawn.
 */
module Registry {
  import opened Manifest

  /** Get or create the GUID of `path`; the registry is never altered at existing keys. */
  function GetOrCreate(uuid4: nat -> string, s: State, path: string): (r: (State, string))
    ensures path in r.0.uuids && r.0.uuids[path] == r.1
    ensures r.0.uuids.Keys == s.uuids.Keys + {path}
    ensures forall q :: q in s.uuids ==> r.0.uuids[q] == s.uuids[q]
    ensures path in s.uuids ==> r.0 == s
    ensures path !in s.uuids ==> r.1 == uuid4(s.minted) && r.0.minted == s.minted + 1
    ensures r.0.nodes == s.nodes && r.0.dirs == s.dirs
  {
    if path in s.uuids then (s, s.uuids[path])
    else
      var guid := uuid4(s.minted);
      (s.(uuids := s.uuids[path := guid], minted := s.minted + 1), guid)
  }

  /** `b` keeps every entry of `a`, with the same GUID. */
  ghost predicate Extends(a: map<string, string>, b: map<string, string>) {
    forall q :: q in a ==> q in b && b[q] == a[q]
  }

  lemma ExtendsTrans(a: map<string, string>, b: map<string, string>, c: map<string, string>)
    requires Extends(a, b) && Extends(b, c)
    ensures Extends(a, c)
  {
  }

  /** A second lookup of the same path returns the same GUID and changes nothing. */
  lemma GetOrCreateIdempotent(uuid4: nat -> string, s: State, path: string)
    ensures var (s1, g1) := GetOrCreate(uuid4, s, path);
            GetOrCreate(uuid4, s1, path) == (s1, g1)
  {
  }

  ghost predicate Injective(m: map<string, string>) {
    forall p, q :: p in m && q in m && p != q ==> m[p] != m[q]
  }

  /**
   * The freshness assumption on uuid4: the registry holds distinct GUIDs and
   * the draws still to come are distinct from each other and from every
   * archived GUID. The source does not check this; it is what makes the
   * registry collision-free.
   */
  ghost predicate FreshSupply(uuid4: nat -> string, s: State) {
    && Injective(s.uuids)
    && (forall i, j :: s.minted <= i < j ==> uuid4(i) != uuid4(j))
    && (forall i :: s.minted <= i ==> uuid4(i) !in s.uuids.Values)
  }

  /** Under the freshness assumption a minted GUID differs from every archived one, and the assumption persists. */
  lemma GetOrCreateKeepsFresh(uuid4: nat -> string, s: State, path: string)
    requires FreshSupply(uuid4, s)
    ensures FreshSupply(uuid4, GetOrCreate(uuid4, s, path).0)
    ensures path !in s.uuids ==> GetOrCreate(uuid4, s, path).1 !in s.uuids.Values
  {
    var (r, g) := GetOrCreate(uuid4, s, path);
    if path !in s.uuids {
      assert g == uuid4(s.minted);
      forall p, q | p in r.uuids && q in r.uuids && p != q
        ensures r.uuids[p] != r.uuids[q]
      {
        if p == path {
          assert r.uuids[q] == s.uuids[q];
          assert s.uuids[q] in s.uuids.Values;
        } else if q == path {
          assert r.uuids[p] == s.uuids[p];
          assert s.uuids[p] in s.uuids.Values;
        }
      }
    }
  }
}
