/** The shared ownership registry and slug cache (app/services/tunnel_registry.py).
    Each operation's effect on the store is a function of the store, stated and
    proved here; the class applies it to the shared Redis server. */
module Registry {
  import opened Common
  import opened KvStore

  /** `register_tunnel` once connected: SET NX EX on `tunnel:{id}`, then SADD to the pod's set. */
  function RegisterEffect(s: Store, pod: string, id: string, ttl: nat, now: int): (Store, bool)
    requires ttl > 0
  {
    var (s1, wasSet) := SetNx(s, TunnelKey(id), pod, ttl, now);
    if wasSet then (SAdd(s1, pod, id), true) else (s, false)
  }

  /** Registration succeeds exactly when no live key exists; then this pod owns the
      id for the whole TTL and the pod's set gains it, nothing else changes; a
      refused registration writes nothing. */
  lemma RegisterClaimsFreeKey(s: Store, pod: string, id: string, ttl: nat, now: int)
    requires ttl > 0
    ensures var (r, claimed) := RegisterEffect(s, pod, id, ttl, now);
      && (claimed <==> Get(s, TunnelKey(id), now).None?)
      && (claimed ==> forall later | now <= later < now + ttl :: Get(r, TunnelKey(id), later) == Some(pod))
      && (claimed ==> Members(r, pod) == Members(s, pod) + {id})
      && (claimed ==> forall k, t | k != TunnelKey(id) :: Get(r, k, t) == Get(s, k, t))
      && (claimed ==> forall p | p != pod :: Members(r, p) == Members(s, p))
      && (!claimed ==> r == s)
  {
  }

  /** `remove_tunnel` once connected: DEL `tunnel:{id}` whoever owns it, SREM from this pod's set. */
  function RemoveEffect(s: Store, pod: string, id: string): Store {
    SRem(Del(s, TunnelKey(id)), pod, id)
  }

  /** Deregistration leaves no owner for the id at any time and drops the id from
      this pod's set; every other key and set is untouched. */
  lemma RemoveReleasesKey(s: Store, pod: string, id: string)
    ensures var r := RemoveEffect(s, pod, id);
      && (forall t :: Get(r, TunnelKey(id), t) == None)
      && Members(r, pod) == Members(s, pod) - {id}
      && (forall k, t | k != TunnelKey(id) :: Get(r, k, t) == Get(s, k, t))
      && (forall p | p != pod :: Members(r, p) == Members(s, p))
  {
  }

  /** The store with every `tunnel:{id}` key for `id` in `ids` deleted. */
  function DeleteTunnelKeys(s: Store, ids: set<string>): Store {
    s.(strings := map k | k in s.strings && !(k.TunnelKey? && k.tunnelId in ids) :: s.strings[k])
  }

  /** `disconnect` once connected: when the pod's set is not empty, delete the key
      of every tunnel in it and then the set itself, in one pipeline. */
  function DisconnectEffect(s: Store, pod: string): (r: Store)
    ensures forall id, t | id in Members(s, pod) :: Get(r, TunnelKey(id), t) == None
    ensures Members(r, pod) == {}
    ensures forall k: Key, t | !(k.TunnelKey? && k.tunnelId in Members(s, pod)) :: Get(r, k, t) == Get(s, k, t)
    ensures forall p | p != pod :: Members(r, p) == Members(s, p)
  {
    var ids := Members(s, pod);
    if ids == {} then s else DelSet(DeleteTunnelKeys(s, ids), pod)
  }

  /** Deleting one more tunnel key extends the set of deleted keys by one id. */
  lemma DeleteOneMore(s: Store, ids: set<string>, id: string)
    ensures Del(DeleteTunnelKeys(s, ids), TunnelKey(id)) == DeleteTunnelKeys(s, ids + {id})
  {
    var a := Del(DeleteTunnelKeys(s, ids), TunnelKey(id)).strings;
    var b := DeleteTunnelKeys(s, ids + {id}).strings;
    assert a.Keys == b.Keys;
  }

  /** Two registrations of one tunnel id, by any two pods (the same pod included),
      while the first key is alive: only the first succeeds, and the second writes nothing. */
  lemma OwnershipIsExclusive(s: Store, podA: string, podB: string, id: string, ttl: nat, t1: int, t2: int)
    requires ttl > 0 && t1 <= t2 < t1 + ttl
    requires RegisterEffect(s, podA, id, ttl, t1).1
    ensures var s1 := RegisterEffect(s, podA, id, ttl, t1).0;
      !RegisterEffect(s1, podB, id, ttl, t2).1 && RegisterEffect(s1, podB, id, ttl, t2).0 == s1
  {
    RegisterClaimsFreeKey(s, podA, id, ttl, t1);
    var s1 := RegisterEffect(s, podA, id, ttl, t1).0;
    assert Get(s1, TunnelKey(id), t2) == Some(podA);
    RegisterClaimsFreeKey(s1, podB, id, ttl, t2);
  }

  /** Nothing refreshes the ownership key while a tunnel is connected, so it lapses
      after the TTL and another pod's registration of the same id then succeeds. */
  lemma OwnershipLapsesAfterTtl(s: Store, podA: string, podB: string, id: string, ttl: nat, t1: int, t2: int)
    requires ttl > 0 && t1 + ttl <= t2
    requires RegisterEffect(s, podA, id, ttl, t1).1
    ensures var s1 := RegisterEffect(s, podA, id, ttl, t1).0;
      RegisterEffect(s1, podB, id, ttl, t2).1
  {
    var s1 := RegisterEffect(s, podA, id, ttl, t1).0;
    var s0 := SetEx(s, TunnelKey(id), podA, ttl, t1);
    assert s1 == SAdd(s0, podA, id);
    assert Get(s0, TunnelKey(id), t2) == None;
  }

  /** Deregistration is a blind DEL: when the key has since been taken over by
      another pod, this pod's `remove_tunnel` still deletes that pod's ownership. */
  lemma BlindRemoveDropsNewOwner(s: Store, podA: string, podB: string, id: string, ttl: nat, t: int)
    requires ttl > 0
    requires Get(s, TunnelKey(id), t) == Some(podB) && podA != podB
    ensures Get(RemoveEffect(s, podA, id), TunnelKey(id), t) == None
    ensures Members(RemoveEffect(s, podA, id), podB) == Members(s, podB)
  {
    RemoveReleasesKey(s, podA, id);
  }

  /** `refresh_tunnel_ttl` changes when the owner's key expires, never who the owner is. */
  lemma RefreshKeepsOwner(s: Store, id: string, ttl: nat, now: int, later: int)
    requires now <= later
    ensures var r := Expire(s, TunnelKey(id), ttl, now).0;
      Get(r, TunnelKey(id), later).Some? ==> Get(r, TunnelKey(id), later) == Get(s, TunnelKey(id), now)
  {
  }

  /** A slug cached at `t` reads back until the cache TTL has elapsed, and is absent after. */
  lemma SlugCacheRoundTrip(s: Store, slug: string, tunnelId: string, ttl: nat, t: int, later: int)
    requires ttl > 0 && t <= later
    ensures Get(SetEx(s, SlugKey(slug), tunnelId, ttl, t), SlugKey(slug), later)
         == (if later < t + ttl then Some(tunnelId) else None)
  {
  }

  /** Shutting a pod down releases every tunnel it registered. */
  lemma DisconnectReleasesRegistered(s: Store, pod: string, id: string, ttl: nat, now: int, t: int)
    requires ttl > 0
    requires RegisterEffect(s, pod, id, ttl, now).1
    ensures Get(DisconnectEffect(RegisterEffect(s, pod, id, ttl, now).0, pod), TunnelKey(id), t) == None
  {
    RegisterClaimsFreeKey(s, pod, id, ttl, now);
    var s1 := RegisterEffect(s, pod, id, ttl, now).0;
    assert id in Members(s1, pod);
  }

  class TunnelRegistry {
    /** `_redis`: null before `connect`. */
    var redis: RedisStore?
    /** `_pod_id`: None before `connect`. */
    var podId: Option<string>
    const registryTtl: nat
    const slugCacheTtl: nat

    constructor (settings: Settings)
      requires settings.tunnelRegistryTtl > 0 && settings.slugCacheTtl > 0
      ensures redis == null && podId == None
      ensures registryTtl == settings.tunnelRegistryTtl && slugCacheTtl == settings.slugCacheTtl
    {
      redis := null;
      podId := None;
      registryTtl := settings.tunnelRegistryTtl;
      slugCacheTtl := settings.slugCacheTtl;
    }

    predicate Ttls() reads this {
      registryTtl > 0 && slugCacheTtl > 0
    }

    /** Both handles set; an empty pod id is falsy in the source and counts as unset. */
    predicate Ready() reads this {
      redis != null && podId.Some? && podId.value != ""
    }

    /** `connect`: the ping that checks reachability is left out. */
    method Connect(pod: string, server: RedisStore)
      modifies this
      ensures redis == server && podId == Some(pod)
    {
      podId := Some(pod);
      redis := server;
    }

    /** `disconnect`: clears this pod's tunnels; the final client close is left out. */
    method Disconnect()
      modifies redis
      ensures Ready() ==> redis.data == DisconnectEffect(old(redis.data), podId.value)
      ensures !Ready() && redis != null ==> redis.data == old(redis.data)
      ensures redis != null ==> redis.clock == old(redis.clock)
    {
      if redis != null && podId.Some? && podId.value != "" {
        var pod := podId.value;
        var ids := Members(redis.data, pod);
        if ids != {} {
          // The pipeline queues one DEL per member, then DEL of the set, and runs them together.
          var s := redis.data;
          var remaining := ids;
          while remaining != {}
            invariant remaining <= ids
            invariant s == DeleteTunnelKeys(redis.data, ids - remaining)
            invariant redis.data == old(redis.data) && redis.clock == old(redis.clock)
            decreases remaining
          {
            var id :| id in remaining;
            DeleteOneMore(redis.data, ids - remaining, id);
            assert (ids - remaining) + {id} == ids - (remaining - {id});
            s := Del(s, TunnelKey(id));
            remaining := remaining - {id};
          }
          redis.data := DelSet(s, pod);
        }
      }
    }

    method RegisterTunnel(id: string) returns (r: Outcome<bool>)
      requires Ttls()
      modifies redis
      ensures !Ready() ==> r == RuntimeError("TunnelRegistry not connected")
      ensures !Ready() && redis != null ==> redis.data == old(redis.data)
      ensures Ready() ==> r.Returned?
      ensures Ready() ==>
        (redis.data, r.value) == RegisterEffect(old(redis.data), podId.value, id, registryTtl, redis.clock)
      ensures redis != null ==> redis.clock == old(redis.clock)
    {
      if redis == null || podId.None? || podId.value == "" {
        return RuntimeError("TunnelRegistry not connected");
      }
      var (s1, wasSet) := SetNx(redis.data, TunnelKey(id), podId.value, registryTtl, redis.clock);
      if wasSet {
        redis.data := SAdd(s1, podId.value, id);
        r := Returned(true);
      } else {
        // The existing owner is read only to be logged.
        r := Returned(false);
      }
    }

    /** `remove_tunnel`: a silent no-op when not connected. */
    method RemoveTunnel(id: string)
      modifies redis
      ensures Ready() ==> redis.data == RemoveEffect(old(redis.data), podId.value, id)
      ensures !Ready() && redis != null ==> redis.data == old(redis.data)
      ensures redis != null ==> redis.clock == old(redis.clock)
    {
      if redis == null || podId.None? || podId.value == "" {
        return;
      }
      redis.data := SRem(Del(redis.data, TunnelKey(id)), podId.value, id);
    }

    method GetTunnelPod(id: string) returns (r: Option<string>)
      ensures redis == null ==> r == None
      ensures redis != null ==> r == Get(redis.data, TunnelKey(id), redis.clock)
    {
      if redis == null {
        return None;
      }
      r := Get(redis.data, TunnelKey(id), redis.clock);
    }

    method RefreshTunnelTtl(id: string)
      modifies redis
      ensures redis != null ==> redis.data == Expire(old(redis.data), TunnelKey(id), registryTtl, redis.clock).0
      ensures redis != null ==> redis.clock == old(redis.clock)
    {
      if redis == null {
        return;
      }
      redis.data := Expire(redis.data, TunnelKey(id), registryTtl, redis.clock).0;
    }

    method CacheSlugResolution(slug: string, tunnelId: string)
      requires Ttls()
      modifies redis
      ensures redis != null ==> redis.data == SetEx(old(redis.data), SlugKey(slug), tunnelId, slugCacheTtl, redis.clock)
      ensures redis != null ==> redis.clock == old(redis.clock)
    {
      if redis == null {
        return;
      }
      redis.data := SetEx(redis.data, SlugKey(slug), tunnelId, slugCacheTtl, redis.clock);
    }

    method GetCachedSlug(slug: string) returns (r: Option<string>)
      ensures redis == null ==> r == None
      ensures redis != null ==> r == Get(redis.data, SlugKey(slug), redis.clock)
    {
      if redis == null {
        return None;
      }
      r := Get(redis.data, SlugKey(slug), redis.clock);
    }
  }
}
