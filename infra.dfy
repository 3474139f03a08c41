/**
 * The optional near-line infrastructure: a Kafka event producer and a
 * Redis-backed feature/recommendation store. Both degrade to a no-op when
 * their library is missing, they are not configured, or their connection
 * cannot be set up; neither ever raises to its caller.
 */
module Infra {
  import opened Wrappers
  import opened Json
  import opened Text
  import opened Redis

  // ---------------------------------------------------------------- environment

  /** `os.getenv(name)`. */
  function GetEnv(env: map<string, string>, name: string): (v: Option<string>)
    ensures v.Some? <==> name in env
    ensures v.Some? ==> v.value == env[name]
  {
    if name in env then Some(env[name]) else None
  }

  /** Python truthiness of an optional string. */
  predicate Given(s: Option<string>)
  {
    s.Some? && s.value != ""
  }

  // ---------------------------------------------------------------- Kafka

  /** A message as the broker received it: topic and event. */
  datatype Message = Message(topic: string, event: Payload)

  const DefaultTopic := "spotify_events"

  /** `{"type": event_type, **payload}`: payload keys come later, so they win. */
  function Event(eventType: JsonValue, payload: Payload): (e: Payload)
    ensures e.Keys == payload.Keys + {"type"}
    ensures forall k :: k in payload ==> e[k] == payload[k]
    ensures "type" !in payload ==> e["type"] == eventType
  {
    map["type" := eventType] + payload
  }

  /**
   * The `KafkaProducer` object: the records handed to it. `send` only queues
   * a record for a later batch; whether the broker ever receives it is not
   * part of this model.
   */
  class KafkaConnection {
    /** Whether `send` returns normally; when it does not, `send` raises. */
    var up: bool
    /** The records `send` has queued, in order. */
    var sent: seq<Message>

    constructor (up: bool)
      ensures this.up == up && sent == []
    {
      this.up := up;
      sent := [];
    }

    /** `producer.send(topic, event)`; false stands for the exception it raises. */
    method Send(topic: string, event: Payload) returns (queued: bool)
      modifies this`sent
      ensures queued == up
      ensures sent == if up then old(sent) + [Message(topic, event)] else old(sent)
    {
      queued := up;
      if up {
        sent := sent + [Message(topic, event)];
      }
    }
  }

  class EventProducer {
    const topic: string
    const enabled: bool
    /** The Kafka producer; null when the producer is disabled. */
    const producer: KafkaConnection?
    /** `brokers.split(",")` as handed to the producer; empty when disabled. */
    const servers: seq<string>

    /**
     * `kafkaInstalled` is whether `from kafka import KafkaProducer` succeeded;
     * `connectFails` is whether constructing the `KafkaProducer` raises;
     * `connection` is the connection it opens when it does not.
     */
    constructor (connection: KafkaConnection, env: map<string, string>, kafkaInstalled: bool,
                 connectFails: bool, topic: Option<string> := None,
                 bootstrapServers: Option<string> := None)
      ensures this.topic == if Given(topic) then topic.value
                            else if "KAFKA_TOPIC_EVENTS" in env then env["KAFKA_TOPIC_EVENTS"]
                            else DefaultTopic
      ensures var brokers := if Given(bootstrapServers) then bootstrapServers
                             else GetEnv(env, "KAFKA_BOOTSTRAP_SERVERS");
        && (enabled <==> kafkaInstalled && Given(brokers) && !connectFails)
        && (enabled ==> servers == Split(brokers.value, ','))
      ensures enabled <==> producer != null
      ensures enabled ==> producer == connection
      ensures !enabled ==> servers == []
    {
      this.topic := if Given(topic) then topic.value
                    else if "KAFKA_TOPIC_EVENTS" in env then env["KAFKA_TOPIC_EVENTS"]
                    else DefaultTopic;
      var brokers := if Given(bootstrapServers) then bootstrapServers
                     else GetEnv(env, "KAFKA_BOOTSTRAP_SERVERS");
      if !kafkaInstalled || !Given(brokers) || connectFails {
        enabled := false;
        producer := null;
        servers := [];
      } else {
        enabled := true;
        producer := connection;
        servers := Split(brokers.value, ',');
      }
    }

    /**
     * `send_event`: reports whether the event was queued and never raises. Disabled,
     * it sends nothing; a transport exception is absorbed into false.
     */
    method SendEvent(eventType: JsonValue, payload: Payload) returns (ok: bool)
      modifies producer
      ensures producer != null ==> producer.up == old(producer.up)
      ensures ok <==> enabled && producer != null && producer.up
      ensures ok ==> producer.sent == old(producer.sent) + [Message(topic, Event(eventType, payload))]
      ensures !ok && producer != null ==> producer.sent == old(producer.sent)
    {
      if !enabled || producer == null {
        return false;
      }
      ok := producer.Send(topic, Event(eventType, payload));
    }
  }

  // ---------------------------------------------------------------- Redis keys

  const DefaultNamespace := "rec"
  const RecommendationTtl := 900
  const FeatureTtl := 3600

  /** `_key(*parts)`: the namespace and the parts joined with ":". */
  function Key(namespace: string, parts: seq<string>): (k: string)
    ensures namespace <= k
  {
    if |parts| > 0 then
      JoinCons(namespace, parts, ":");
      Join([namespace] + parts, ":")
    else Join([namespace] + parts, ":")
  }

  /** A key whose namespace and parts hold no ":" splits back into them. */
  lemma KeySplits(namespace: string, parts: seq<string>)
    requires ':' !in namespace
    requires forall i :: 0 <= i < |parts| ==> ':' !in parts[i]
    ensures Split(Key(namespace, parts), ':') == [namespace] + parts
  {
    var all := [namespace] + parts;
    forall i | 0 <= i < |all| ensures ':' !in all[i] {
      if i > 0 { assert all[i] == parts[i - 1]; }
    }
    SplitJoin(all, ':');
  }

  /** The recommendation-cache key of a (user, playlist) pair. */
  function RecKey(namespace: string, userId: string, playlistId: string): (k: string)
    ensures k == namespace + ":rec:" + userId + ":" + playlistId
  {
    JoinCons(userId, [playlistId], ":");
    JoinCons("rec", [userId, playlistId], ":");
    JoinCons(namespace, ["rec", userId, playlistId], ":");
    assert ":" + "rec" + ":" == ":rec:";
    Key(namespace, ["rec", userId, playlistId])
  }

  /** The user-feature key of a user. */
  function FeatureKey(namespace: string, userId: string): (k: string)
    ensures k == namespace + ":uf:" + userId
  {
    JoinCons("uf", [userId], ":");
    JoinCons(namespace, ["uf", userId], ":");
    assert ":" + "uf" + ":" == ":uf:";
    Key(namespace, ["uf", userId])
  }

  /** The recent-interaction list key of a client. */
  function RecentKey(namespace: string, clientId: string): (k: string)
    ensures k == namespace + ":recent:" + clientId
  {
    JoinCons("recent", [clientId], ":");
    JoinCons(namespace, ["recent", clientId], ":");
    assert ":" + "recent" + ":" == ":recent:";
    Key(namespace, ["recent", clientId])
  }

  /** The three key families of one namespace never collide. */
  lemma KeyFamiliesDisjoint(ns: string, u: string, p: string, v: string, c: string)
    ensures RecKey(ns, u, p) != FeatureKey(ns, v)
    ensures RecKey(ns, u, p) != RecentKey(ns, c)
    ensures FeatureKey(ns, v) != RecentKey(ns, c)
  {
    var n := |ns|;
    assert RecKey(ns, u, p)[n + 1] == 'r' && RecKey(ns, u, p)[n + 4] == ':';
    assert FeatureKey(ns, v)[n + 1] == 'u';
    assert RecentKey(ns, c)[n + 1] == 'r' && RecentKey(ns, c)[n + 4] == 'e';
  }

  /** Without ":" in the namespace and the ids, distinct pairs get distinct cache keys. */
  lemma RecKeyInjective(ns: string, u: string, p: string, u': string, p': string)
    requires ':' !in ns && ':' !in u && ':' !in p && ':' !in u' && ':' !in p'
    requires RecKey(ns, u, p) == RecKey(ns, u', p')
    ensures u == u' && p == p'
  {
    var a := [ns, "rec", u, p];
    var b := [ns, "rec", u', p'];
    assert "rec"[0] != ':' && "rec"[1] != ':' && "rec"[2] != ':';
    JoinInjective(a, b, ':');
    assert a[2] == b[2] && a[3] == b[3];
  }

  /** With ":" inside the ids the join is ambiguous: two pairs share a key. */
  lemma RecKeyCollidesOnColons()
    ensures RecKey(DefaultNamespace, "a:b", "c") == RecKey(DefaultNamespace, "a", "b:c")
  {
  }

  // ---------------------------------------------------------------- Redis store

  /** The id list a GET of `key` decodes to; anything else reads as a miss. */
  function IdsAt(kv: map<string, Entry>, key: string, now: int): (ids: Option<seq<string>>)
    ensures ids.Some? <==> key in kv && Alive(kv[key], now) && kv[key].value.Str? && kv[key].value.doc.Ids?
    ensures ids.Some? ==> kv[key].value == Str(Ids(ids.value))
  {
    match Visible(kv, key, now)
    case Some(Str(Ids(ids))) => Some(ids)
    case _ => None
  }

  /** The feature vector a GET of `key` decodes to; anything else reads as a miss. */
  function FloatsAt(kv: map<string, Entry>, key: string, now: int): (xs: Option<seq<real>>)
    ensures xs.Some? <==> key in kv && Alive(kv[key], now) && kv[key].value.Str? && kv[key].value.doc.Floats?
    ensures xs.Some? ==> kv[key].value == Str(Floats(xs.value))
  {
    match Visible(kv, key, now)
    case Some(Str(Floats(xs))) => Some(xs)
    case _ => None
  }

  /**
   * A cached id list is read back unchanged until its TTL runs out and not
   * after, and writing it leaves every feature vector of the namespace as it was.
   */
  lemma RecommendationRoundTrip(kv: map<string, Entry>, ns: string, u: string, p: string,
                                ids: seq<string>, ttl: int, written: int, read: int, v: string)
    requires ttl > 0 && written <= read
    ensures var kv' := kv[RecKey(ns, u, p) := Entry(Str(Ids(ids)), Some(written + ttl))];
      && IdsAt(kv', RecKey(ns, u, p), read) == (if read < written + ttl then Some(ids) else None)
      && FloatsAt(kv', FeatureKey(ns, v), read) == FloatsAt(kv, FeatureKey(ns, v), read)
  {
    KeyFamiliesDisjoint(ns, u, p, v, "");
  }

  /**
   * A stored feature vector is read back unchanged until its TTL runs out and
   * not after, and storing it leaves every cached recommendation as it was.
   */
  lemma FeatureRoundTrip(kv: map<string, Entry>, ns: string, v: string, xs: seq<real>,
                         ttl: int, written: int, read: int, u: string, p: string)
    requires ttl > 0 && written <= read
    ensures var kv' := kv[FeatureKey(ns, v) := Entry(Str(Floats(xs)), Some(written + ttl))];
      && FloatsAt(kv', FeatureKey(ns, v), read) == (if read < written + ttl then Some(xs) else None)
      && IdsAt(kv', RecKey(ns, u, p), read) == IdsAt(kv, RecKey(ns, u, p), read)
  {
    KeyFamiliesDisjoint(ns, u, p, v, "");
  }

  class RedisFeatureStore {
    const namespace: string
    const enabled: bool
    /** The Redis client; null when the store is disabled. */
    const client: RedisClient?

    /**
     * `redisInstalled` is whether `import redis` succeeded; `fromUrlFails` is
     * whether `redis.from_url` raises; `server` is the client it returns.
     */
    constructor (server: RedisClient, env: map<string, string>, redisInstalled: bool,
                 fromUrlFails: bool, url: Option<string> := None,
                 namespace: string := DefaultNamespace)
      ensures this.namespace == namespace
      ensures var redisUrl := if Given(url) then url else GetEnv(env, "REDIS_URL");
        enabled <==> redisInstalled && Given(redisUrl) && !fromUrlFails
      ensures enabled <==> client != null
      ensures enabled ==> client == server
    {
      this.namespace := namespace;
      var redisUrl := if Given(url) then url else GetEnv(env, "REDIS_URL");
      if !redisInstalled || !Given(redisUrl) || fromUrlFails {
        enabled := false;
        client := null;
      } else {
        enabled := true;
        client := server;
      }
    }

    /** Whether calls reach a live server (otherwise writes are false, reads None). */
    predicate Serving()
      reads client
    {
      enabled && client != null && client.up
    }

    /** `cache_recommendation`: true exactly when the SET succeeded. */
    method CacheRecommendation(userId: string, playlistId: string, trackIds: seq<string>,
                               now: int, ttlSeconds: int := RecommendationTtl) returns (ok: bool)
      modifies client
      ensures client != null ==> client.up == old(client.up)
      ensures ok <==> Serving() && ttlSeconds > 0
      ensures ok ==> client.kv == old(client.kv)[RecKey(namespace, userId, playlistId) :=
                                    Entry(Str(Ids(trackIds)), Some(now + ttlSeconds))]
      ensures !ok && client != null ==> client.kv == old(client.kv)
    {
      if !enabled || client == null {
        return false;
      }
      var reply := client.Set(RecKey(namespace, userId, playlistId), Ids(trackIds), ttlSeconds, now);
      ok := reply.Ok?;
    }

    /** `get_cached_recommendation`: the live id list, or None on a miss, when disabled, or on an error. */
    method GetCachedRecommendation(userId: string, playlistId: string, now: int)
      returns (r: Option<seq<string>>)
      ensures r == if Serving() then IdsAt(client.kv, RecKey(namespace, userId, playlistId), now)
                   else None
    {
      if !enabled || client == null {
        return None;
      }
      var reply := client.Get(RecKey(namespace, userId, playlistId), now);
      match reply
      case Ok(Some(Ids(ids))) => r := Some(ids);
      case _ => r := None;
    }

    /** `store_user_features`: true exactly when the SET succeeded. */
    method StoreUserFeatures(userId: string, featureVector: seq<real>, now: int,
                             ttlSeconds: int := FeatureTtl) returns (ok: bool)
      modifies client
      ensures client != null ==> client.up == old(client.up)
      ensures ok <==> Serving() && ttlSeconds > 0
      ensures ok ==> client.kv == old(client.kv)[FeatureKey(namespace, userId) :=
                                    Entry(Str(Floats(featureVector)), Some(now + ttlSeconds))]
      ensures !ok && client != null ==> client.kv == old(client.kv)
    {
      if !enabled || client == null {
        return false;
      }
      var reply := client.Set(FeatureKey(namespace, userId), Floats(featureVector), ttlSeconds, now);
      ok := reply.Ok?;
    }

    /** `get_user_features`: the live vector, or None on a miss, when disabled, or on an error. */
    method GetUserFeatures(userId: string, now: int) returns (r: Option<seq<real>>)
      ensures r == if Serving() then FloatsAt(client.kv, FeatureKey(namespace, userId), now)
                   else None
    {
      if !enabled || client == null {
        return None;
      }
      var reply := client.Get(FeatureKey(namespace, userId), now);
      match reply
      case Ok(Some(Floats(xs))) => r := Some(xs);
      case _ => r := None;
    }
  }

  /** Caching and then reading before the default TTL runs out returns the cached ids. */
  method CacheThenRead(store: RedisFeatureStore, u: string, p: string, ids: seq<string>,
                       now: int, later: int) returns (r: Option<seq<string>>)
    requires store.Serving()
    requires now <= later < now + RecommendationTtl
    modifies store.client
    ensures r == Some(ids)
  {
    var ok := store.CacheRecommendation(u, p, ids, now);
    r := store.GetCachedRecommendation(u, p, later);
  }

  /** Storing features and then reading before the default TTL runs out returns them. */
  method StoreThenRead(store: RedisFeatureStore, u: string, xs: seq<real>,
                       now: int, later: int) returns (r: Option<seq<real>>)
    requires store.Serving()
    requires now <= later < now + FeatureTtl
    modifies store.client
    ensures r == Some(xs)
  {
    var ok := store.StoreUserFeatures(u, xs, now);
    r := store.GetUserFeatures(u, later);
  }

  /** A disabled store keeps nothing: after a write, a read still misses. */
  method DisabledStoreMisses(store: RedisFeatureStore, u: string, p: string, ids: seq<string>,
                             now: int) returns (ok: bool, r: Option<seq<string>>)
    requires !store.enabled
    modifies store.client
    ensures !ok && r == None
  {
    ok := store.CacheRecommendation(u, p, ids, now);
    r := store.GetCachedRecommendation(u, p, now);
  }
}
