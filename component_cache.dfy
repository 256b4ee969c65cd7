/**
 * `ComponentCache` and `GlobalComponentCache`: memoised component lookups
 * on a game object. A lookup that finds nothing is never remembered, so a
 * later call looks again; one that finds a component is answered from the
 * cache until the entry is removed or the cache cleared.
 */
module ComponentCache {
  import opened Common

  /** A component type: its full identity and its short `Name`. */
  datatype ComponentType = ComponentType(fullName: string, name: string)

  /** A component instance and every type it is an instance of (its class and the classes it derives from). */
  datatype Component = Component(id: nat, types: set<ComponentType>)

  /** An engine query the cache had to make on a miss. */
  datatype Lookup =
    | OnSelf(t: ComponentType)                        // GetComponent<T>()
    | InChildren(t: ComponentType)                    // GetComponentInChildren<T>()
    | InNamedChild(childName: string, t: ComponentType) // transform.Find(childName)?.GetComponent<T>()

  /** C#'s `component as T`: the component when it is a `T`, otherwise null. */
  function AsType(c: Component, t: ComponentType): (r: Option<Component>)
    ensures r.Some? <==> t in c.types
    ensures r.Some? ==> r.value == c
  {
    if t in c.types then Some(c) else None
  }

  /** The key of the named cache: the child name when one is given (even ""), else the type's short name. */
  function ChildKey(t: ComponentType, childName: Option<string>): string
  {
    if childName.Some? then childName.value else t.name
  }

  /** The engine types `PreloadComponents` asks for, in its order. */
  const PreloadTypes: seq<ComponentType> := [
    ComponentType("UnityEngine.Transform", "Transform"),
    ComponentType("UnityEngine.Rigidbody", "Rigidbody"),
    ComponentType("UnityEngine.Collider", "Collider"),
    ComponentType("UnityEngine.Renderer", "Renderer"),
    ComponentType("UnityEngine.Animator", "Animator"),
    ComponentType("UnityEngine.AudioSource", "AudioSource")]

  /** Each lookup result, when there is one, is an instance of the type it was asked for. */
  predicate Fits(types: seq<ComponentType>, found: seq<Option<Component>>)
  {
    |types| == |found| && forall i :: 0 <= i < |found| && found[i].Some? ==> types[i] in found[i].value.types
  }

  /**
   * One `GetCachedComponent<T>()` on the type cache and the lookup trace:
   * a hit changes neither; a miss records the lookup and caches a non-null
   * result.
   */
  function Step(cache: map<ComponentType, Component>, lookups: seq<Lookup>, t: ComponentType, found: Option<Component>)
    : (r: (map<ComponentType, Component>, seq<Lookup>))
    ensures t in cache ==> r == (cache, lookups)
    ensures t !in cache ==> r.1 == lookups + [OnSelf(t)] && (t in r.0 <==> found.Some?)
    ensures cache.Keys <= r.0.Keys
  {
    if t in cache then (cache, lookups)
    else ((if found.Some? then cache[t := found.value] else cache), lookups + [OnSelf(t)])
  }

  /** `GetCachedComponent` for each type in turn, with the given lookup results. */
  function Steps(cache: map<ComponentType, Component>, lookups: seq<Lookup>, types: seq<ComponentType>, found: seq<Option<Component>>)
    : (map<ComponentType, Component>, seq<Lookup>)
    requires |types| == |found|
  {
    if |types| == 0 then (cache, lookups)
    else
      var before := Steps(cache, lookups, types[..|types| - 1], found[..|found| - 1]);
      Step(before.0, before.1, types[|types| - 1], found[|found| - 1])
  }

  /** A type whose lookup found a component is cached after the steps, and an earlier entry is kept. */
  lemma {:induction false} StepsCache(cache: map<ComponentType, Component>, lookups: seq<Lookup>,
                                      types: seq<ComponentType>, found: seq<Option<Component>>)
    requires |types| == |found|
    ensures forall u :: u in cache ==> u in Steps(cache, lookups, types, found).0
    ensures forall i :: 0 <= i < |types| && found[i].Some? ==> types[i] in Steps(cache, lookups, types, found).0
    decreases |types|
  {
    if |types| > 0 {
      var n := |types| - 1;
      StepsCache(cache, lookups, types[..n], found[..n]);
      forall i | 0 <= i < n && found[i].Some?
        ensures types[i] in Steps(cache, lookups, types, found).0
      {
        assert types[..n][i] == types[i] && found[..n][i] == found[i];
      }
    }
  }

  /**
   * After the preload of a new cache, a request for a preloaded type whose
   * component exists is a hit: it is answered without a further lookup.
   */
  lemma PreloadedRequestIsHit(preload: seq<Option<Component>>, i: int)
    requires |preload| == |PreloadTypes| && 0 <= i < |preload| && preload[i].Some?
    ensures PreloadTypes[i] in Steps(map[], [], PreloadTypes, preload).0
  {
    StepsCache(map[], [], PreloadTypes, preload);
  }

  class ComponentCache {
    var componentCache: map<ComponentType, Component>
    var namedComponentCache: map<string, Component>
    /** Every engine lookup made so far, in order. */
    ghost var lookups: seq<Lookup>

    /** Each component is cached under a type it is an instance of. */
    ghost predicate Valid()
      reads this
    {
      forall t :: t in componentCache ==> t in componentCache[t].types
    }

    constructor ()
      ensures componentCache == map[] && namedComponentCache == map[] && lookups == []
      ensures Valid()
    {
      componentCache := map[];
      namedComponentCache := map[];
      lookups := [];
    }

    /**
     * `GetCachedComponent<T>()`. `found` is what `GetComponent<T>()` returns
     * on this object. A hit answers from the cache without a lookup; a miss
     * makes the lookup and remembers the result only when it is not null.
     */
    method GetCachedComponent(t: ComponentType, found: Option<Component>) returns (r: Option<Component>)
      requires Valid()
      requires found.Some? ==> t in found.value.types
      modifies this
      ensures Valid()
      ensures t in old(componentCache) ==> r == Some(old(componentCache)[t]) && unchanged(this)
      ensures t !in old(componentCache) ==>
        && r == found
        && lookups == old(lookups) + [OnSelf(t)]
        && componentCache == (if found.Some? then old(componentCache)[t := found.value] else old(componentCache))
        && namedComponentCache == old(namedComponentCache)
      ensures r.Some? ==> t in componentCache && componentCache[t] == r.value
      ensures (componentCache, lookups) == Step(old(componentCache), old(lookups), t, found)
    {
      if t in componentCache {
        var cached := AsType(componentCache[t], t);
        return cached;
      }
      lookups := lookups + [OnSelf(t)];
      if found.Some? {
        componentCache := componentCache[t := found.value];
      }
      return found;
    }

    /**
     * `GetCachedComponentInChildren<T>(childName)`. `found` is what the
     * lookup returns: `GetComponentInChildren<T>()` when the name is null or
     * empty, otherwise the named child's `GetComponent<T>()`. A hit answers
     * with the entry cast to `T`, which is null when the name was last used
     * for a component of another type.
     */
    method GetCachedComponentInChildren(t: ComponentType, childName: Option<string>, found: Option<Component>)
      returns (r: Option<Component>)
      requires Valid()
      requires found.Some? ==> t in found.value.types
      modifies this
      ensures Valid()
      ensures var key := ChildKey(t, childName);
        key in old(namedComponentCache) ==> r == AsType(old(namedComponentCache)[key], t) && unchanged(this)
      ensures var key := ChildKey(t, childName);
        key !in old(namedComponentCache) ==>
          && r == found
          && lookups == old(lookups) + [if childName.None? || childName.value == "" then InChildren(t)
                                        else InNamedChild(childName.value, t)]
          && namedComponentCache == (if found.Some? then old(namedComponentCache)[key := found.value]
                                     else old(namedComponentCache))
          && componentCache == old(componentCache)
    {
      var key := ChildKey(t, childName);
      if key in namedComponentCache {
        var cached := AsType(namedComponentCache[key], t);
        return cached;
      }
      if childName.None? || childName.value == "" {
        lookups := lookups + [InChildren(t)];
      } else {
        lookups := lookups + [InNamedChild(childName.value, t)];
      }
      if found.Some? {
        namedComponentCache := namedComponentCache[key := found.value];
      }
      return found;
    }

    /** `PreloadComponents`: `GetCachedComponent` for each engine type in `PreloadTypes`; `found` holds what each lookup would return. */
    method PreloadComponents(found: seq<Option<Component>>)
      requires Valid() && Fits(PreloadTypes, found)
      modifies this
      ensures Valid()
      ensures (componentCache, lookups) == Steps(old(componentCache), old(lookups), PreloadTypes, found)
      ensures namedComponentCache == old(namedComponentCache)
    {
      ghost var c0, l0 := componentCache, lookups;
      var _ := GetCachedComponent(PreloadTypes[0], found[0]);
      ghost var s1 := (componentCache, lookups);
      var _ := GetCachedComponent(PreloadTypes[1], found[1]);
      ghost var s2 := (componentCache, lookups);
      var _ := GetCachedComponent(PreloadTypes[2], found[2]);
      ghost var s3 := (componentCache, lookups);
      var _ := GetCachedComponent(PreloadTypes[3], found[3]);
      ghost var s4 := (componentCache, lookups);
      var _ := GetCachedComponent(PreloadTypes[4], found[4]);
      ghost var s5 := (componentCache, lookups);
      var _ := GetCachedComponent(PreloadTypes[5], found[5]);
      StepsOfSix(c0, l0, PreloadTypes, found, s1, s2, s3, s4, s5);
    }

    /** `Awake`: the preload, on the components this object has. */
    method Awake(found: seq<Option<Component>>)
      requires Valid() && Fits(PreloadTypes, found)
      modifies this
      ensures Valid()
      ensures (componentCache, lookups) == Steps(old(componentCache), old(lookups), PreloadTypes, found)
      ensures namedComponentCache == old(namedComponentCache)
    {
      PreloadComponents(found);
    }

    /** `ClearCache`: both caches become empty. */
    method ClearCache()
      modifies this
      ensures Valid()
      ensures componentCache == map[] && namedComponentCache == map[] && lookups == old(lookups)
    {
      componentCache := map[];
      namedComponentCache := map[];
    }

    /** `OnDestroy`: the component empties its caches when it is destroyed. */
    method OnDestroy()
      modifies this
      ensures Valid()
      ensures componentCache == map[] && namedComponentCache == map[] && lookups == old(lookups)
    {
      ClearCache();
    }

    /** `RemoveFromCache<T>()`: forgets only the entry for `T`; the named cache is untouched. */
    method RemoveFromCache(t: ComponentType)
      requires Valid()
      modifies this
      ensures Valid()
      ensures componentCache == old(componentCache) - {t}
      ensures namedComponentCache == old(namedComponentCache) && lookups == old(lookups)
    {
      componentCache := componentCache - {t};
    }
  }

  /** The steps over one more type extend the steps over the ones before it. */
  lemma PrefixStep(c0: map<ComponentType, Component>, l0: seq<Lookup>, types: seq<ComponentType>, found: seq<Option<Component>>, k: nat)
    requires |found| == |types| && k < |types|
    ensures var before := Steps(c0, l0, types[..k], found[..k]);
      Steps(c0, l0, types[..k + 1], found[..k + 1]) == Step(before.0, before.1, types[k], found[k])
  {
    assert types[..k + 1][..k] == types[..k];
    assert found[..k + 1][..k] == found[..k];
  }

  /** Six single steps, one after the other, are the steps over all six types. */
  lemma StepsOfSix(c0: map<ComponentType, Component>, l0: seq<Lookup>, types: seq<ComponentType>, found: seq<Option<Component>>,
                   s1: (map<ComponentType, Component>, seq<Lookup>), s2: (map<ComponentType, Component>, seq<Lookup>),
                   s3: (map<ComponentType, Component>, seq<Lookup>), s4: (map<ComponentType, Component>, seq<Lookup>),
                   s5: (map<ComponentType, Component>, seq<Lookup>))
    requires |found| == |types| == 6
    requires s1 == Step(c0, l0, types[0], found[0])
    requires s2 == Step(s1.0, s1.1, types[1], found[1])
    requires s3 == Step(s2.0, s2.1, types[2], found[2])
    requires s4 == Step(s3.0, s3.1, types[3], found[3])
    requires s5 == Step(s4.0, s4.1, types[4], found[4])
    ensures Steps(c0, l0, types, found) == Step(s5.0, s5.1, types[5], found[5])
  {
    PrefixStep(c0, l0, types, found, 0);
    PrefixStep(c0, l0, types, found, 1);
    PrefixStep(c0, l0, types, found, 2);
    PrefixStep(c0, l0, types, found, 3);
    PrefixStep(c0, l0, types, found, 4);
    PrefixStep(c0, l0, types, found, 5);
    assert types[..6] == types && found[..6] == found;
  }

  /** Identity of a game object. */
  type GameObjectId = nat

  /**
   * What one `ComponentCache.GetCachedComponent<T>()` call leaves in `cache`,
   * from the given earlier state: a hit changes nothing, a miss records the
   * lookup and caches a non-null result; the named cache is untouched.
   */
  ghost predicate CacheStep(before: map<ComponentType, Component>, named: map<string, Component>, lookups: seq<Lookup>,
                            cache: ComponentCache, t: ComponentType, found: Option<Component>)
    reads cache
  {
    && cache.namedComponentCache == named
    && (t in before ==> cache.componentCache == before && cache.lookups == lookups)
    && (t !in before ==>
          && cache.componentCache == (if found.Some? then before[t := found.value] else before)
          && cache.lookups == lookups + [OnSelf(t)])
  }

  /** The static `GlobalComponentCache`: one `ComponentCache` per game object. */
  class GlobalComponentCache {
    var objectCaches: map<GameObjectId, ComponentCache>

    ghost predicate Valid()
      reads this, objectCaches.Values
    {
      forall g :: g in objectCaches ==> objectCaches[g].Valid()
    }

    constructor ()
      ensures objectCaches == map[] && Valid()
    {
      objectCaches := map[];
    }

    /**
     * The `GetCachedComponent<T>()` extension on a game object. `attached`
     * is the object's own `ComponentCache` component, if it has one. An
     * object seen before reuses its registered cache; otherwise the
     * attached cache, or a newly added one, is registered first. Adding the
     * component runs its `Awake`, whose preload looks up the engine types
     * first; `preload` holds what those lookups return on this object.
     */
    method GetCachedComponent(gameObject: GameObjectId, attached: ComponentCache?, t: ComponentType, found: Option<Component>,
                              preload: seq<Option<Component>>)
      returns (r: Option<Component>, cache: ComponentCache)
      requires Valid()
      requires attached != null ==> attached.Valid()
      requires found.Some? ==> t in found.value.types
      requires Fits(PreloadTypes, preload)
      modifies this, objectCaches.Values, attached
      ensures Valid()
      ensures gameObject in old(objectCaches) ==> cache == old(objectCaches)[gameObject] && objectCaches == old(objectCaches)
      ensures gameObject !in old(objectCaches) ==>
        && objectCaches == old(objectCaches)[gameObject := cache]
        && (attached != null ==> cache == attached)
        && (attached == null ==> fresh(cache))
      ensures gameObject in old(objectCaches) ==>
        var registered := old(objectCaches)[gameObject];
        r == (if t in old(registered.componentCache) then Some(old(registered.componentCache)[t]) else found)
      ensures gameObject !in old(objectCaches) && attached != null ==>
        r == (if t in old(attached.componentCache) then Some(old(attached.componentCache)[t]) else found)
      ensures gameObject !in old(objectCaches) && attached == null ==>
        var preloaded := Steps(map[], [], PreloadTypes, preload);
        r == (if t in preloaded.0 then Some(preloaded.0[t]) else found)
      ensures gameObject in old(objectCaches) ==>
        var registered := old(objectCaches)[gameObject];
        CacheStep(old(registered.componentCache), old(registered.namedComponentCache), old(registered.lookups), registered, t, found)
      ensures gameObject !in old(objectCaches) && attached != null ==>
        CacheStep(old(attached.componentCache), old(attached.namedComponentCache), old(attached.lookups), attached, t, found)
      ensures gameObject !in old(objectCaches) && attached == null ==>
        var preloaded := Steps(map[], [], PreloadTypes, preload);
        CacheStep(preloaded.0, map[], preloaded.1, cache, t, found)
      ensures forall c :: c in old(objectCaches).Values && c != cache ==> unchanged(c)
      ensures attached != null && attached != cache ==> unchanged(attached)
    {
      if gameObject in objectCaches {
        cache := objectCaches[gameObject];
      } else {
        if attached != null {
          cache := attached;
        } else {
          cache := new ComponentCache();
          cache.Awake(preload);
        }
        objectCaches := objectCaches[gameObject := cache];
      }
      r := cache.GetCachedComponent(t, found);
    }

    /** `ClearGlobalCache`: forgets every registration; the per-object caches themselves are kept as they are. */
    method ClearGlobalCache()
      modifies this
      ensures objectCaches == map[] && Valid()
    {
      objectCaches := map[];
    }

    /** `RemoveFromGlobalCache(gameObject)`: forgets only that object's registration. */
    method RemoveFromGlobalCache(gameObject: GameObjectId)
      requires Valid()
      modifies this
      ensures Valid()
      ensures objectCaches == old(objectCaches) - {gameObject}
    {
      objectCaches := objectCaches - {gameObject};
    }
  }
}
