/** The coordination store (Redis) as the gateway uses it: string keys with an
    optional absolute expiry, read against the store's own clock, and one set
    of tunnel ids per pod. Each command is a pure function of the store. */
module KvStore {
  import opened Common

  /** `tunnel:{tunnel_id}` and `slug:{slug}`. The pod sets `pod:{pod_id}:tunnels`
      live in `podSets`. The three key shapes start with different prefixes, so
      distinct constructors never denote the same Redis key. */
  datatype Key = TunnelKey(tunnelId: string) | SlugKey(slug: string)

  datatype Entry = Entry(value: string, expiresAt: Option<int>)

  datatype Store = Store(strings: map<Key, Entry>, podSets: map<string, set<string>>)

  const EmptyStore := Store(map[], map[])

  /** A key exists for Redis until its expiry time is reached. */
  predicate Live(s: Store, k: Key, now: int) {
    k in s.strings && (s.strings[k].expiresAt.None? || now < s.strings[k].expiresAt.value)
  }

  /** GET k */
  function Get(s: Store, k: Key, now: int): Option<string> {
    if Live(s, k, now) then Some(s.strings[k].value) else None
  }

  /** SET k v EX ttl */
  function SetEx(s: Store, k: Key, v: string, ttl: nat, now: int): (r: Store)
    requires ttl > 0
    ensures forall later | now <= later :: Get(r, k, later) == (if later < now + ttl then Some(v) else None)
    ensures forall k', t | k' != k :: Get(r, k', t) == Get(s, k', t)
    ensures k in r.strings && r.strings[k].value == v
    ensures forall k' | k' != k :: (k' in r.strings <==> k' in s.strings)
    ensures r.podSets == s.podSets
  {
    s.(strings := s.strings[k := Entry(v, Some(now + ttl))])
  }

  /** SET k v NX EX ttl: writes only when k does not exist, and says whether it wrote. */
  function SetNx(s: Store, k: Key, v: string, ttl: nat, now: int): (r: (Store, bool))
    requires ttl > 0
    ensures r.1 <==> Get(s, k, now).None?
    ensures r.1 ==> r.0 == SetEx(s, k, v, ttl, now)
    ensures !r.1 ==> r.0 == s
  {
    if Live(s, k, now) then (s, false) else (SetEx(s, k, v, ttl, now), true)
  }

  /** DEL k */
  function Del(s: Store, k: Key): (r: Store)
    ensures forall t :: Get(r, k, t) == None
    ensures k !in r.strings
    ensures forall k', t | k' != k :: Get(r, k', t) == Get(s, k', t)
    ensures r.podSets == s.podSets
  {
    s.(strings := s.strings - {k})
  }

  /** EXPIRE k ttl: resets the expiry of an existing key and never its value. */
  function Expire(s: Store, k: Key, ttl: nat, now: int): (r: (Store, bool))
    ensures r.1 <==> Live(s, k, now)
    ensures r.1 ==> forall later | now <= later ::
      Get(r.0, k, later) == (if later < now + ttl then Get(s, k, now) else None)
    ensures !r.1 ==> r.0 == s
    ensures forall k' :: (k' in r.0.strings <==> k' in s.strings)
    ensures forall k' | k' in s.strings :: r.0.strings[k'].value == s.strings[k'].value
    ensures forall k', t | k' != k :: Get(r.0, k', t) == Get(s, k', t)
    ensures r.0.podSets == s.podSets
  {
    if Live(s, k, now) then
      (s.(strings := s.strings[k := s.strings[k].(expiresAt := Some(now + ttl))]), true)
    else
      (s, false)
  }

  /** SMEMBERS pod:{pod}:tunnels (an absent set reads as empty). */
  function Members(s: Store, pod: string): set<string> {
    if pod in s.podSets then s.podSets[pod] else {}
  }

  /** SADD pod:{pod}:tunnels id */
  function SAdd(s: Store, pod: string, id: string): (r: Store)
    ensures Members(r, pod) == Members(s, pod) + {id}
    ensures forall p | p != pod :: Members(r, p) == Members(s, p)
    ensures r.strings == s.strings
  {
    s.(podSets := s.podSets[pod := Members(s, pod) + {id}])
  }

  /** SREM pod:{pod}:tunnels id */
  function SRem(s: Store, pod: string, id: string): (r: Store)
    ensures Members(r, pod) == Members(s, pod) - {id}
    ensures forall p | p != pod :: Members(r, p) == Members(s, p)
    ensures r.strings == s.strings
  {
    s.(podSets := s.podSets[pod := Members(s, pod) - {id}])
  }

  /** DEL pod:{pod}:tunnels */
  function DelSet(s: Store, pod: string): (r: Store)
    ensures Members(r, pod) == {}
    ensures forall p | p != pod :: Members(r, p) == Members(s, p)
    ensures r.strings == s.strings
  {
    s.(podSets := s.podSets - {pod})
  }

  /** The Redis server: its contents and its clock, shared by every pod. */
  class RedisStore {
    var data: Store
    var clock: int

    constructor (start: int)
      ensures data == EmptyStore && clock == start
    {
      data := EmptyStore;
      clock := start;
    }
  }
}
