# Near-line state of a content-based music recommender, in Dafny

This project models the state logic that surrounds the similarity engine of a
Flask-based Spotify recommender. The engine's ranking and the offline catalog
are not modelled: the engine is a function value handed over when its build
succeeds (`Readiness.Recommender`), and the catalog is an ordered snapshot of
records passed in as a value. What is modelled and proved is the logic around
them:

- **Event producer.** A Kafka event producer that disables itself when Kafka
  is missing, unconfigured or unreachable. It reports whether the event was queued
  for sending, as a bool, and never raises.
- **Feature store.** A Redis-backed store with namespaced keys and three key
  families that never collide:
  - `ns:rec:user:playlist` for cached recommendations;
  - `ns:uf:user` for user features;
  - `ns:recent:client` for recent interactions.

  Cached recommendations and user features read back until their TTL (900 s
  and 3600 s) runs out. A disabled or failing store always misses.
- **Redis server.** A map from key to value and an optional expiry time, with
  the clock passed explicitly. The model covers SET EX, GET, LPUSH, LTRIM and
  EXPIRE, including WRONGTYPE errors. JSON encoding is the identity on the
  stored documents.
- **Readiness.** The app's state machine has four phases: NotStarted,
  Building, Ready and Failed. The first status poll starts the build. When
  polls are served one after another, at most one build ever starts (a ghost
  counter, held by the object invariant); two polls racing in threads are not
  covered. The engine's progress callbacks are applied in order, so the last
  report wins.
  A failed build resets progress to 0 with the failure message, and the model
  stays not ready for good. The gate lets the public endpoints through and
  shows the loading page on every other endpoint exactly while the model is
  not ready.
- **Session list.** The per-session recent-track list:
  - recording a track moves it to the front;
  - the track appears there exactly once;
  - the list keeps at most 20 entries;
  - the rest of the list keeps its old order;
  - after 21 distinct recordings the oldest is gone.
- **Recent-interaction log.** A per-client list in Redis. Each record is
  pushed at the head, the list is cut to 100 entries, and the TTL is reset to
  an hour. Errors are swallowed.
- **Event endpoint.** The event type is the request's truthy `type` or
  `"interaction"`. The payload is the request data without `type`, plus a
  server timestamp. The published event carries that type and every other
  field.
- **Playlist seeds.** Seeds are taken from the playlist's items. Only real,
  non-local tracks with an id are kept, in playlist order, cut to the first
  100. A playlist with no usable track gives the error page.
- **The `/recommend` request.**
  - It passes the readiness gate, then extracts the seeds.
  - It consults the cache. An absent or empty cached list is a miss.
  - On a hit, it serves exactly the catalog records whose ids were cached, in
    catalog order. Unknown ids are dropped, and the order of the cached list
    does not matter (`Catalog.ResolveIgnoresCacheOrder`), so the engine's
    ranking order is not kept on a hit.
  - When the Spotify user id is known, it writes the served ids back with a
    fresh 900 s TTL, so an entry that is hit again within its TTL never
    expires, and it publishes a "recommendation served" event. With no user
    id it writes and publishes nothing.
  - It never changes whether Redis or Kafka is reachable.

Files: `wrappers.dfy` and `json.dfy` hold the basic values and Python truthiness.
`text.dfy` holds join and split. `redis.dfy` is the server, `infra.dfy` the
producer and the store, `readiness.dfy` the build state. `session.dfy`,
`events.dfy`, `seeds.dfy` and `catalog.dfy` model the route handlers' pure
parts, and `handlers.dfy` the route handlers' state updates.

## Model

| member | source | states |
|---|---|---|
| Infra.EventProducer.constructor | spotify_rec_system/infra.py:20-39 | topic is the given truthy topic, else `KAFKA_TOPIC_EVENTS`, else `spotify_events`; enabled exactly when Kafka is installed, a truthy broker list is given or in the environment, and the producer can be built; enabled iff a producer is held; servers are the comma-split broker list |
| Infra.EventProducer.SendEvent | spotify_rec_system/infra.py:41-50 | returns true exactly when enabled with a producer whose `send` does not raise; then exactly one message `(topic, event)` is appended; otherwise nothing is sent and false is returned; never raises |
| Infra.KafkaConnection.Send | spotify_rec_system/infra.py:46 | a `send` that returns normally queues the record at the end of the handed-over records; one that raises (false) queues nothing |
| Infra.Event | spotify_rec_system/infra.py:44 | the event holds every payload key with its payload value plus `type`; `type` is the event type whenever the payload has no `type` |
| Infra.Key | spotify_rec_system/infra.py:73-74 | every key starts with the namespace |
| Infra.KeySplits | spotify_rec_system/infra.py:73-74 | with no ":" in namespace or parts, splitting a key on ":" gives back the namespace and the parts |
| Infra.RecKey | spotify_rec_system/infra.py:79 | the recommendation key is `ns:rec:user:playlist` |
| Infra.FeatureKey | spotify_rec_system/infra.py:100 | the user-feature key is `ns:uf:user` |
| Infra.RecentKey | spotify_rec_system/app.py:255 | the recent-interaction key is `ns:recent:client` |
| Infra.KeyFamiliesDisjoint | spotify_rec_system/infra.py:73-79 | rec, uf and recent keys of one namespace never coincide |
| Infra.RecKeyInjective | spotify_rec_system/infra.py:79 | without ":" in namespace and ids, equal rec keys mean equal (user, playlist) pairs |
| Infra.RecKeyCollidesOnColons | spotify_rec_system/infra.py:79 | with ":" inside ids, (`a:b`, `c`) and (`a`, `b:c`) share a rec key |
| Infra.RedisFeatureStore.constructor | spotify_rec_system/infra.py:56-71 | enabled exactly when redis is installed, a truthy URL is given or in `REDIS_URL`, and `from_url` succeeds; enabled iff a client is held |
| Infra.RedisFeatureStore.CacheRecommendation | spotify_rec_system/infra.py:76-85 | true exactly when enabled, the server is reachable and the TTL (default 900) is positive; then the rec key holds the ids expiring at now+TTL; otherwise the keyspace is unchanged |
| Infra.RedisFeatureStore.GetCachedRecommendation | spotify_rec_system/infra.py:87-95 | None when disabled, unreachable, missing, expired or of the wrong kind; otherwise the live cached ids |
| Infra.RedisFeatureStore.StoreUserFeatures | spotify_rec_system/infra.py:97-105 | true exactly when enabled, reachable and the TTL (default 3600) is positive; then the uf key holds the vector expiring at now+TTL; otherwise unchanged |
| Infra.RedisFeatureStore.GetUserFeatures | spotify_rec_system/infra.py:107-115 | None when disabled, unreachable, missing, expired or of the wrong kind; otherwise the live vector |
| Infra.RecommendationRoundTrip | spotify_rec_system/infra.py:76-93 | a written id list reads back unchanged before now+TTL and as None from then on; the write leaves every uf key's reading unchanged |
| Infra.FeatureRoundTrip | spotify_rec_system/infra.py:97-115 | a written vector reads back unchanged before now+TTL and as None from then on; the write leaves every rec key's reading unchanged |
| Infra.CacheThenRead | spotify_rec_system/infra.py:76-95 | cache then read through the store's methods within the default 900 s returns the cached ids |
| Infra.StoreThenRead | spotify_rec_system/infra.py:97-115 | store then read through the store's methods within the default 3600 s returns the vector |
| Infra.DisabledStoreMisses | spotify_rec_system/infra.py:76-95 | on a disabled store a write returns false and a following read returns None |
| Infra.GetEnv | spotify_rec_system/infra.py:22 | an environment lookup is present exactly when the variable is set, and then it is the variable's value |
| Infra.IdsAt | spotify_rec_system/infra.py:92-93 | a GET decodes to an id list exactly when the key is live and holds an id list, and then to that list |
| Infra.FloatsAt | spotify_rec_system/infra.py:112-113 | a GET decodes to a vector exactly when the key is live and holds a vector, and then to that vector |
| Redis.Visible | spotify_rec_system/infra.py:81 | a key is visible exactly while it exists and has not expired, with its stored value |
| Redis.RedisClient.Set | spotify_rec_system/infra.py:81 | SET EX succeeds exactly on a reachable server with a positive TTL and replaces the key with the document expiring at now+TTL; otherwise raises and changes nothing |
| Redis.RedisClient.Get | spotify_rec_system/infra.py:92 | raises when unreachable or the key holds a list; nil for a missing or expired key; the document otherwise |
| Redis.RedisClient.LPush | spotify_rec_system/app.py:201 | on a reachable server and a key not holding a string, prepends the document (creating a list without TTL when absent) and returns the new length; otherwise raises and changes nothing |
| Redis.RedisClient.LTrim | spotify_rec_system/app.py:202 | keeps positions start..stop of a live list, deleting it when nothing remains; raises on a string or an unreachable server |
| Redis.RedisClient.Expire | spotify_rec_system/app.py:203 | on a live key sets its expiry to now+seconds (deletes it for a non-positive TTL) and replies true; a missing key replies false and changes nothing |
| Text.Join | spotify_rec_system/infra.py:74 | a join starts with its first part and is that part alone when there is one; `Text.SplitJoin` inverts it |
| Text.Split | spotify_rec_system/infra.py:31 | `brokers.split(",")` has at least one part and no part contains the separator |
| Text.JoinSplit | spotify_rec_system/infra.py:31 | joining the split parts with the separator restores the string |
| Text.SplitJoin | spotify_rec_system/infra.py:74 | splitting a join of separator-free parts returns the parts |
| Text.JoinInjective | spotify_rec_system/infra.py:74 | joins of separator-free parts are equal only for equal parts |
| Readiness.AfterReports | spotify_rec_system/app.py:36-39 | applying progress callbacks one after another, each overwriting both fields, leaves the last report, or the progress unchanged when there was none |
| Readiness.AppState.constructor | spotify_rec_system/app.py:27-30 | initially not started, not ready, no engine, progress (0, waiting message) |
| Readiness.AppState.UpdateProgress | spotify_rec_system/app.py:36-39 | progress becomes exactly (percent, message) |
| Readiness.AppState.InitModelBackground | spotify_rec_system/app.py:36-57 | the engine's callbacks run through `UpdateProgress` in order (a loop), leaving `AfterReports` of them; a built engine makes the state Ready with that engine; an exception leaves it not ready with no engine, progress (0, failure prefix + message), phase Failed; the started flag stays set |
| Readiness.AppState.GetStatus | spotify_rec_system/app.py:63-76 | a build is launched exactly when the phase was NotStarted, after the started flag is set; at most one launch for polls served one after another; the reply is the ready flag and progress |
| Readiness.AppState.CheckModelReady | spotify_rec_system/app.py:78-86 | public endpoints never get the loading page; any other endpoint gets it iff the model is not Ready |
| Readiness.PollAfterFailure | spotify_rec_system/app.py:69-71 | after a failed build a poll starts nothing and reports not ready |
| Readiness.TwoPolls | spotify_rec_system/app.py:69-71 | two first polls start exactly one build |
| Session.Without | spotify_rec_system/app.py:195 | the filtered list holds every other element of the old list and never the removed one, and is the list itself when the element is absent |
| Session.WithoutAppend | spotify_rec_system/app.py:195 | filtering a concatenation filters each part: the kept elements keep their order |
| Session.WithoutMultiset | spotify_rec_system/app.py:195 | filtering drops every copy of the element and keeps every other element with its multiplicity |
| Session.WithoutNoDup | spotify_rec_system/app.py:195 | filtering keeps a duplicate-free list duplicate-free |
| Session.Recorded | spotify_rec_system/app.py:194-197 | the recorded list has 1 to 20 entries, starts with t, and every later entry is an old entry other than t |
| Session.RecordedShape | spotify_rec_system/app.py:194-197 | after recording t the list starts with t, holds t exactly once, has 1 to 20 entries, and continues with the old list without t in its old order, cut to fit |
| Session.RecordedNoDup | spotify_rec_system/app.py:246-250 | recording keeps a duplicate-free list duplicate-free |
| Session.RecordDistinct | spotify_rec_system/app.py:194-197 | recording distinct tracks into an empty list leaves the 20 most recent, newest first |
| Session.OldestEvicted | spotify_rec_system/app.py:197 | after 21 distinct recordings the first is evicted and 20 remain |
| Session.RevisitMovesToFront | spotify_rec_system/app.py:246-250 | recording a, b, a gives a list starting [a, b] with a once |
| Session.SessionState.RecordTrack | spotify_rec_system/app.py:246-250 | the session list becomes the recorded list: t first, at most 20, duplicate-freedom kept |
| Events.RequestData | spotify_rec_system/app.py:231-232 | a request without a JSON body fails; a falsy JSON body reads as the empty object; a truthy non-object body fails; an object body is its fields |
| Events.EventType | spotify_rec_system/app.py:232 | the event type is truthy: the request's `type` when truthy, else `interaction` |
| Events.BuildPayload | spotify_rec_system/app.py:233-236 | the payload keys are the request keys without `type` plus `ts`; `ts` is the server time; every other field is unchanged |
| Events.PublishedEvent | spotify_rec_system/app.py:231-236 | the published event has the endpoint's event type, the server `ts`, and every other request field unchanged |
| Seeds.Eligible | spotify_rec_system/app.py:444-447 | the filter: a present track object of type `track`, with a non-empty id, not a local file; `Seeds.SeedsOfMembers` states what it keeps |
| Seeds.ToSeed | spotify_rec_system/app.py:448-452 | the seed's id is the track's non-empty id |
| Seeds.SeedsOf | spotify_rec_system/app.py:441-452 | the seeds are no more than the items and empty exactly when no item is eligible |
| Seeds.SeedsOfAppend | spotify_rec_system/app.py:442-452 | seeds of a concatenation are the seeds of each part in order (playlist order kept) |
| Seeds.SeedsOfMembers | spotify_rec_system/app.py:444-452 | a seed is present exactly when it is the seed of an eligible item |
| Seeds.ExtractSeeds | spotify_rec_system/app.py:441-458 | None (error page) exactly when no item is eligible; otherwise the first 100 seeds in playlist order |
| Catalog.Resolve | spotify_rec_system/app.py:487 | the hits are exactly the catalog records whose id was cached |
| Catalog.ResolveAppend | spotify_rec_system/app.py:487 | resolution follows the catalog's order |
| Catalog.ResolveIgnoresCacheOrder | spotify_rec_system/app.py:487 | the result depends only on which of the catalog's ids were cached, not on the order, repetition or unknown ids of the cached list |
| Catalog.UnknownIdsDropped | spotify_rec_system/app.py:487 | a cached id unknown to the catalog changes nothing in the result |
| Handlers.PushCapped | spotify_rec_system/app.py:257-258 | after LPUSH and LTRIM 0 99 the record is first, the rest is the old list's prefix, at most 100 entries |
| Handlers.AfterRecentLog | spotify_rec_system/app.py:255-259 | a key holding a string leaves the keyspace as it was; otherwise the key holds the capped list with the record first, expiring an hour later; every other key is untouched |
| Handlers.PushAllNewestFirst | spotify_rec_system/app.py:255-259 | after a series of pushes the log is the 100 most recent records, newest first |
| Handlers.LogRecentInteraction | spotify_rec_system/app.py:253-261 | on a serving store the client's recent key holds the capped list with the record first and expires an hour later; a key holding a string or any other failure leaves the keyspace unchanged |
| Handlers.ViewPayload | spotify_rec_system/app.py:187-191 | the view payload has exactly `track_id`, `ts` and `source`, so the published event's type is the view type and it carries the track id |
| Handlers.ViewRecord | spotify_rec_system/app.py:201 | the logged view record has exactly `track_id`, `type` and `ts`, with the view type and the track id |
| Handlers.SongDetail | spotify_rec_system/app.py:165-207 | the session invariant is kept; an unknown track changes nothing; a known one publishes the view event, records the track in the session, and logs the view when the session has a client id |
| Handlers.LogEvent | spotify_rec_system/app.py:228-266 | the session invariant is kept; an unreadable body fails with no change; otherwise a client id is assigned if absent, a truthy track id is recorded, the payload is logged, the event is published, and the reply says whether it was sent |
| Handlers.ToRecTrack | spotify_rec_system/app.py:501-509 | a results-page track keeps the record's id |
| Handlers.RepeatedHitServesSame | spotify_rec_system/app.py:487-527 | the ids written back after a cache hit resolve to the same records: a repeated hit serves what the first one served |
| Handlers.ServedRecords | spotify_rec_system/app.py:476-493 | on a non-empty cached list, exactly the catalog records whose ids were cached (none without a catalog); on an absent or empty list, the engine's records |
| Handlers.ServedPayload | spotify_rec_system/app.py:528-533 | the served payload has no `type`, so the published event keeps the served type |
| Handlers.ServedEvent | spotify_rec_system/app.py:528-533 | the served event holds exactly the served type, the user, the playlist, the served ids in order and the server time |
| Handlers.RecommendRequest | spotify_rec_system/app.py:420-545 | loading page iff not ready; the error page iff no seed; otherwise the served records from the cache or the engine, with the served ids written back for 900 s and a served event published when the user is known; nothing is written on error pages; whether Redis and Kafka are reachable never changes |

## Left out

- Ranking, normalisation and catalog loading are not part of this model. `recommender.py` and `dataset_service.py` are not part of it either. The engine is a function value, and the catalog a sequence of records with one id each.
- Threading: the build runs in a thread. Here it is a separate step, `InitModelBackground`, taken after `GetStatus` launches it. Interleavings with requests are not modelled.
- Spotify OAuth, token refresh, `sp.next` pagination, cover-art lookups, `.cache` file deletion, templates and Flask routing are I/O. They are left out: the playlist items, the user id and the catalog arrive as inputs.
- Cover-art lookups on `/recommend`: a successful lookup also fills in the album art and preview link, and replaces each track's `external_url` with Spotify's own link. In the model `Handlers.RecTrack.externalUrl` is always the fallback `https://open.spotify.com/track/<id>`. A failing lookup is swallowed in the source, which is what the model keeps.
- The `/songs` and `/api/songs` catalog browsing routes are left out. So is the `min(limit, 200)` clamp of `/api/songs`, whose handler fails on an undefined name. `fmt_feat` float formatting is left out too.
- `/api/songs_recommendations` is left out: it calls the engine with the session list and otherwise falls back to a popularity list from the catalog, which is not modelled.
- The logged-in Spotify routes `/playlist` and `/track/<id>` are left out. `/track/<id>` fetches the track from the Spotify API and publishes a `track_view` event. Both are I/O around the Spotify client.
- `/recommend_from_playlist` is left out. It constructs a fresh engine for each request, with no arguments, and passes the playlist's seeds to its `recommend`. It maps the results through Spotify track objects, falling back to the records. It writes the same `ns:rec:user:playlist` key, with those ids, and publishes the same "recommendation served" event. The key and event properties proved for `/recommend` (`Infra.RecommendationRoundTrip`, `Handlers.ServedEvent`) apply to those writes too. Its own engine and the Spotify lookups are not modelled.
- Kafka delivery: `send` only queues a record (batched after `linger_ms=10`), so a true reply means the record was queued, not delivered. A queued record can still be lost without an exception (at-most-once delivery), and `send` can block while it waits for metadata. Neither is modelled.
- Racing status polls: Flask serves requests in threads, and the check-then-set of the started flag in `get_status` is not atomic, so two concurrent first polls can both start a build. `Readiness.AppState.GetStatus` and `Readiness.TwoPolls` bound the builds to one only for polls served one after another.
- A request to the event endpoint without a JSON body is taken to fail in `request.get_json()`, inside the handler but before the handler's try, as Flask 2.1 and later do. Older Flask returned None there, which `or {}` turned into an empty payload that was logged and published.
- Time is the `now` argument; `uuid.uuid4()` is the `freshClientId` argument.
- JSON encoding is the identity, and key order inside JSON objects is not kept (payloads are maps).
- A server connection that fails between two commands of one request is not modelled. The server is either reachable or not.
- Redis.RedisClient.LTrim: only non-negative start and stop indices are modelled.
- Infra.RedisFeatureStore.GetCachedRecommendation: a rec key holding a document that is not an id list reads as a miss, where Python would return whatever JSON is stored. Only this store writes such keys, so it cannot arise.
- Infra.RedisFeatureStore.GetUserFeatures: likewise for a uf key holding a non-vector document.
- Session.SessionState.RecordTrack: ids are compared with structural JSON equality. Python's cross-type equality (`1 == 1.0 == True`) is not modelled.
- Handlers.RecommendRequest: exceptions raised by the engine or by a record without an `id` field are not modelled. Those paths render the internal-error page. A failing `current_user()` is caught in the source and leaves the user unknown, which the model covers as `userId == None`.
- Playlist fetch on `/recommend`: `playlist_tracks` and `next` run outside the handler's try, so a failure there is an uncaught error that Flask answers with its generic 500. It is not modelled: the items arrive as an input.
- The catalog's `id` column: `to_dict('records')` drops the dataframe index, so reading `item['id']` after a cache hit needs an `id` column equal to the index. The model assumes the frame has one: a record's `id` is both the id `Catalog.Resolve` matches and the id `Handlers.ToRecTrack` reads.
