/**
 * The state logic of the web routes, lifted out of the handlers: the capped
 * recent-interaction log in Redis, the song-detail and event endpoints'
 * updates, and the recommendation request (gate, seed extraction, cache
 * lookup or engine call, re-resolution of cache hits against the catalog,
 * write-back and the "recommendation served" event).
 */
module Handlers {
  import opened Wrappers
  import opened Json
  import opened Redis
  import opened Infra
  import opened Session
  import opened Events
  import opened Seeds
  import opened Catalog
  import opened Readiness

  const RecentCap := 100
  const RecentTtl := 3600
  const EngineLimit := 50

  // ---------------------------------------------------------------- recent-interaction log

  /** `LPUSH` then `LTRIM key 0 99`: newest first, at most 100 entries. */
  function PushCapped<T>(items: seq<T>, doc: T): (r: seq<T>)
    ensures |r| == Min(RecentCap, |items| + 1)
    ensures r[0] == doc
    ensures r[1..] == items[..|r| - 1]
  {
    var pushed := [doc] + items;
    assert pushed[1..] == items;
    pushed[..Min(RecentCap, |pushed|)]
  }

  /** Pushing `ds` one after the other onto `items`. */
  function PushAll<T>(items: seq<T>, ds: seq<T>): seq<T>
  {
    if |ds| == 0 then items else PushCapped(PushAll(items, ds[..|ds| - 1]), ds[|ds| - 1])
  }

  /** The log holds the 100 most recent records, newest first. */
  lemma {:induction false} PushAllNewestFirst<T>(ds: seq<T>)
    ensures PushAll([], ds) == Reverse(ds)[..Min(RecentCap, |ds|)]
  {
    if |ds| > 0 {
      var n := |ds| - 1;
      PushAllNewestFirst(ds[..n]);
      var prev := Reverse(ds[..n])[..Min(RecentCap, n)];
      var lhs := PushCapped(prev, ds[n]);
      var rhs := Reverse(ds)[..Min(RecentCap, |ds|)];
      assert |lhs| == |rhs|;
      forall k | 0 <= k < |lhs| ensures lhs[k] == rhs[k] {
        if k > 0 {
          assert lhs[k] == lhs[1..][k - 1] == prev[k - 1];
        }
      }
    }
  }

  /**
   * The keyspace after the log update: the record pushed at the head of the
   * list, the list cut to 100, the TTL reset to an hour; a key that holds a
   * string makes LPUSH raise, which is swallowed, so nothing changes.
   */
  function AfterRecentLog(kv: map<string, Entry>, key: string, doc: Doc, now: int): (kv': map<string, Entry>)
    ensures kv'.Keys - {key} == kv.Keys - {key}
    ensures forall k :: k in kv && k != key ==> k in kv' && kv'[k] == kv[k]
    ensures HoldsString(kv, key, now) ==> kv' == kv
    ensures !HoldsString(kv, key, now) ==>
      && Visible(kv', key, now) == Some(List(PushCapped(ListAt(kv, key, now), doc)))
      && kv'[key].expiresAt == Some(now + RecentTtl)
  {
    if HoldsString(kv, key, now) then kv
    else kv[key := Entry(List(PushCapped(ListAt(kv, key, now), doc)), Some(now + RecentTtl))]
  }

  /** `lpush`, `ltrim(key, 0, 99)`, `expire(key, 3600)`, any exception swallowed. */
  method LogRecentInteraction(store: RedisFeatureStore, clientId: string, doc: Doc, now: int)
    modifies store.client
    ensures store.client != null ==> store.client.up == old(store.client.up)
    ensures store.client != null ==> (store.client.kv ==
      if store.Serving() then AfterRecentLog(old(store.client.kv), RecentKey(store.namespace, clientId), doc, now)
      else old(store.client.kv))
  {
    if !store.enabled || store.client == null {
      return;
    }
    var client := store.client;
    var key := RecentKey(store.namespace, clientId);
    ghost var kv0 := client.kv;
    var pushed := client.LPush(key, doc, now);
    if pushed.Raised? {
      return;
    }
    ghost var items := [doc] + ListAt(kv0, key, now);
    if Visible(kv0, key, now).Some? {
      assert Alive(kv0[key], now) && kv0[key].value.List?;
      assert client.kv[key] == Entry(List(items), kv0[key].expiresAt);
    } else {
      assert ListAt(kv0, key, now) == [] && items == [doc];
    }
    assert Visible(client.kv, key, now) == Some(List(items));
    var trimmed := client.LTrim(key, 0, RecentCap - 1, now);
    assert trimmed.Ok?;
    assert Visible(client.kv, key, now) == Some(List(PushCapped(ListAt(kv0, key, now), doc)));
    var expired := client.Expire(key, RecentTtl, now);
    assert client.kv == AfterRecentLog(kv0, key, doc, now);
  }

  // ---------------------------------------------------------------- song detail

  const ViewOffline := "track_view_offline"

  /** The Kafka payload of an offline track view. */
  function ViewPayload(trackId: string, now: int): (p: Payload)
    ensures p.Keys == {"track_id", "ts", "source"}
    ensures Event(JStr(ViewOffline), p)["type"] == JStr(ViewOffline)
    ensures Event(JStr(ViewOffline), p)["track_id"] == JStr(trackId)
  {
    map["track_id" := JStr(trackId), "ts" := JInt(now), "source" := JStr("songs_list")]
  }

  /** The record pushed on the client's recent-interaction list for a view. */
  function ViewRecord(trackId: string, now: int): (d: Doc)
    ensures d.Object? && d.fields.Keys == {"track_id", "type", "ts"}
    ensures d.fields["type"] == JStr(ViewOffline) && d.fields["track_id"] == JStr(trackId)
  {
    Object(map["track_id" := JStr(trackId), "type" := JStr(ViewOffline), "ts" := JInt(now)])
  }

  /**
   * `song_detail` for a track id: an unknown track is the error page and
   * changes nothing; a known one publishes a view event, moves the track to
   * the front of the session list and, when the store is on and the session
   * has a client id, logs the view on the client's recent list.
   */
  method SongDetail(session: SessionState, store: RedisFeatureStore, producer: EventProducer,
                    trackId: string, record: Option<Record>, now: int) returns (found: bool)
    modifies session`recentTrackIds, store.client, producer.producer
    ensures found <==> record.Some?
    ensures old(session.Valid()) ==> session.Valid()
    ensures session.recentTrackIds ==
      if found then Recorded(old(session.recentTrackIds), JStr(trackId)) else old(session.recentTrackIds)
    ensures store.client != null ==> (store.client.up == old(store.client.up) && store.client.kv ==
      if found && store.Serving() && session.clientId.Some? && session.clientId.value != ""
      then AfterRecentLog(old(store.client.kv), RecentKey(store.namespace, session.clientId.value),
                          ViewRecord(trackId, now), now)
      else old(store.client.kv))
    ensures producer.producer != null ==> (producer.producer.up == old(producer.producer.up) && producer.producer.sent ==
      if found && producer.enabled && producer.producer.up
      then old(producer.producer.sent) + [Message(producer.topic, Event(JStr(ViewOffline), ViewPayload(trackId, now)))]
      else old(producer.producer.sent))
  {
    if record.None? {
      return false;
    }
    var sent := producer.SendEvent(JStr(ViewOffline), ViewPayload(trackId, now));
    session.RecordTrack(JStr(trackId));
    if store.enabled && session.clientId.Some? && session.clientId.value != "" {
      LogRecentInteraction(store, session.clientId.value, ViewRecord(trackId, now), now);
    }
    found := true;
  }

  // ---------------------------------------------------------------- event endpoint

  /**
   * `log_event`: None when the body cannot be read as an object (the request
   * fails before the handler's try); otherwise whether the event was sent.
   * The session gets a client id if it had none, a truthy `track_id` moves to
   * the front of the session list, the payload is logged on the client's
   * recent list, and the event is published.
   */
  method LogEvent(session: SessionState, store: RedisFeatureStore, producer: EventProducer,
                  body: Option<JsonValue>, now: int, freshClientId: string) returns (sent: Option<bool>)
    modifies session, store.client, producer.producer
    ensures old(session.Valid()) ==> session.Valid()
    ensures RequestData(body).None? ==> sent.None? && session.clientId == old(session.clientId)
    ensures var data := RequestData(body);
      && (data.Some? <==> sent.Some?)
      && session.clientId == (if data.Some? && old(session.clientId).None? then Some(freshClientId)
                              else old(session.clientId))
      && session.recentTrackIds ==
           (if data.Some? && "track_id" in data.value && Truthy(data.value["track_id"])
            then Recorded(old(session.recentTrackIds), data.value["track_id"])
            else old(session.recentTrackIds))
    ensures store.client != null ==> (store.client.up == old(store.client.up) && store.client.kv ==
      var data := RequestData(body);
      if data.Some? && store.Serving() && session.clientId.value != ""
      then AfterRecentLog(old(store.client.kv), RecentKey(store.namespace, session.clientId.value),
                          Object(BuildPayload(data.value, now)), now)
      else old(store.client.kv))
    ensures sent.Some? ==> (sent.value <==> producer.enabled && producer.producer != null && producer.producer.up)
    ensures producer.producer != null ==> (producer.producer.up == old(producer.producer.up) && producer.producer.sent ==
      var data := RequestData(body);
      if data.Some? && producer.enabled && producer.producer.up
      then old(producer.producer.sent) + [Message(producer.topic, Event(EventType(data.value), BuildPayload(data.value, now)))]
      else old(producer.producer.sent))
  {
    var data := RequestData(body);
    if data.None? {
      return None;
    }
    var eventType := EventType(data.value);
    var payload := BuildPayload(data.value, now);
    if session.clientId.None? {
      session.clientId := Some(freshClientId);
    }
    var clientId := session.clientId.value;
    if "track_id" in payload && Truthy(payload["track_id"]) {
      session.RecordTrack(payload["track_id"]);
    }
    if store.enabled && clientId != "" {
      LogRecentInteraction(store, clientId, Object(payload), now);
    }
    var ok := producer.SendEvent(eventType, payload);
    sent := Some(ok);
  }

  // ---------------------------------------------------------------- recommendation request

  /** One recommended track as the results page shows it. */
  datatype RecTrack = RecTrack(id: string, name: string, artist: string, externalUrl: string)

  datatype RecommendPage =
    | Loading                          // the gate: the engine is not ready
    | NoSeeds                          // the playlist has no usable track
    | NoResults                        // neither cache nor engine produced anything
    | Results(tracks: seq<RecTrack>)

  const TrackUrlPrefix := "https://open.spotify.com/track/"

  /** A catalog or engine record mapped to the fields the results page needs. */
  function ToRecTrack(r: Record): (t: RecTrack)
    ensures t.id == r.id
  {
    RecTrack(r.id, Column(r, "track_name", Column(r, "name", "Unknown")),
             Column(r, "artists", Column(r, "artist_name", "Unknown")), TrackUrlPrefix + r.id)
  }

  function ToRecTracks(rs: seq<Record>): (ts: seq<RecTrack>)
    ensures |ts| == |rs| && forall i :: 0 <= i < |rs| ==> ts[i] == ToRecTrack(rs[i])
  {
    seq(|rs|, i requires 0 <= i < |rs| => ToRecTrack(rs[i]))
  }

  function TrackIds(ts: seq<RecTrack>): (ids: seq<string>)
    ensures |ids| == |ts| && forall i :: 0 <= i < |ts| ==> ids[i] == ts[i].id
  {
    seq(|ts|, i requires 0 <= i < |ts| => ts[i].id)
  }

  /**
   * The ids written back after a cache hit resolve to the records that hit
   * served: a repeated hit serves the same records.
   */
  lemma RepeatedHitServesSame(catalog: seq<Record>, ids: seq<string>)
    ensures var served := Resolve(catalog, ids);
      Resolve(catalog, TrackIds(ToRecTracks(served))) == served
  {
    var served := Resolve(catalog, ids);
    var written := TrackIds(ToRecTracks(served));
    forall r | r in catalog ensures r.id in written <==> r.id in ids {
      if r.id in ids {
        assert r in served;
        var k :| 0 <= k < |served| && served[k] == r;
        assert written[k] == r.id;
      }
      if r.id in written {
        var k :| 0 <= k < |written| && written[k] == r.id;
        assert served[k] in served;
      }
    }
    ResolveIgnoresCacheOrder(catalog, written, ids);
  }

  /**
   * The records the request serves: on a hit (a non-empty cached list) the
   * catalog records whose id was cached, in catalog order, or none when the
   * catalog is unavailable; on a miss (absent or empty list) the engine's.
   */
  function ServedRecords(cached: Option<seq<string>>, catalog: Option<seq<Record>>,
                         computed: seq<Record>): (rs: seq<Record>)
    ensures cached.Some? && |cached.value| > 0 && catalog.Some? ==>
      forall r :: r in rs <==> r in catalog.value && r.id in cached.value
    ensures cached.Some? && |cached.value| > 0 && catalog.None? ==> rs == []
    ensures !(cached.Some? && |cached.value| > 0) ==> rs == computed
  {
    if cached.Some? && |cached.value| > 0 then
      if catalog.Some? then Resolve(catalog.value, cached.value) else []
    else computed
  }

  /** The "recommendation served" event payload. */
  function ServedPayload(userId: string, playlistId: string, ids: seq<string>, now: int): (p: Payload)
    ensures "type" !in p
  {
    map["user_id" := JStr(userId), "playlist_id" := JStr(playlistId),
        "track_ids" := StrList(ids), "ts" := JInt(now)]
  }

  /**
   * The published "recommendation served" event: that type, the user, the
   * playlist, the served ids in order and the server time, nothing else.
   */
  lemma ServedEvent(userId: string, playlistId: string, ids: seq<string>, now: int)
    ensures var e := Event(JStr("recommendation_served"), ServedPayload(userId, playlistId, ids, now));
      && e.Keys == {"type", "user_id", "playlist_id", "track_ids", "ts"}
      && e["type"] == JStr("recommendation_served")
      && e["user_id"] == JStr(userId) && e["playlist_id"] == JStr(playlistId) && e["ts"] == JInt(now)
      && e["track_ids"].JList? && |e["track_ids"].items| == |ids|
      && forall i :: 0 <= i < |ids| ==> e["track_ids"].items[i] == JStr(ids[i])
  {
  }

  /**
   * A POST to /recommend after login: the readiness gate, then the handler.
   * `userId` is the Spotify user's id when `current_user()` succeeded, `items`
   * every item of the playlist, `catalog` the dataframe when it is loaded.
   */
  method RecommendRequest(app: AppState, store: RedisFeatureStore, producer: EventProducer,
                          userId: Option<string>, playlistId: string, items: seq<PlaylistItem>,
                          catalog: Option<seq<Record>>, now: int) returns (page: RecommendPage)
    requires app.Valid()
    modifies store.client, producer.producer
    ensures store.client != null ==> store.client.up == old(store.client.up)
    ensures producer.producer != null ==> producer.producer.up == old(producer.producer.up)
    ensures page.Loading? <==> app.phase != Ready
    ensures app.phase == Ready ==>
      (page.NoSeeds? <==> forall i :: 0 <= i < |items| ==> !Eligible(items[i]))
    ensures page.Loading? || page.NoSeeds? ==>
      && (store.client != null ==> store.client.kv == old(store.client.kv))
      && (producer.producer != null ==> producer.producer.sent == old(producer.producer.sent))
    ensures page.Results? || page.NoResults? ==>
      var seeds := SeedsOf(items)[..Min(MaxSeeds, |SeedsOf(items)|)];
      var cached := if Given(userId) && old(store.Serving())
                    then IdsAt(old(store.client.kv), RecKey(store.namespace, userId.value, playlistId), now)
                    else None;
      var rs := ServedRecords(cached, catalog, app.recommender.value.recommend(seeds, EngineLimit));
      && app.recommender.Some?
      && page == (if |rs| == 0 then NoResults else Results(ToRecTracks(rs)))
    ensures page.NoResults? ==>
      && (store.client != null ==> store.client.kv == old(store.client.kv))
      && (producer.producer != null ==> producer.producer.sent == old(producer.producer.sent))
    ensures page.Results? && store.client != null ==> (store.client.up == old(store.client.up) && store.client.kv ==
      if Given(userId) && store.Serving()
      then old(store.client.kv)[RecKey(store.namespace, userId.value, playlistId) :=
             Entry(Str(Ids(TrackIds(page.tracks))), Some(now + RecommendationTtl))]
      else old(store.client.kv))
    ensures page.Results? && producer.producer != null ==> (producer.producer.sent ==
      if Given(userId) && producer.enabled && producer.producer.up
      then old(producer.producer.sent) + [Message(producer.topic, Event(JStr("recommendation_served"),
             ServedPayload(userId.value, playlistId, TrackIds(page.tracks), now)))]
      else old(producer.producer.sent))
  {
    var showLoading := app.CheckModelReady(Some("recommend"));
    if showLoading {
      return Loading;
    }
    var seedInfos := ExtractSeeds(items);
    if seedInfos.None? {
      return NoSeeds;
    }
    var cached: Option<seq<string>> := None;
    if store.enabled && Given(userId) {
      cached := store.GetCachedRecommendation(userId.value, playlistId, now);
    }
    var recResults: seq<Record>;
    if cached.Some? && |cached.value| > 0 {
      recResults := if catalog.Some? then Resolve(catalog.value, cached.value) else [];
    } else {
      recResults := app.recommender.value.recommend(seedInfos.value, EngineLimit);
    }
    if |recResults| == 0 {
      return NoResults;
    }
    var recTracks := ToRecTracks(recResults);
    if Given(userId) {
      var ids := TrackIds(recTracks);
      var cachedOk := store.CacheRecommendation(userId.value, playlistId, ids, now);
      var sent := producer.SendEvent(JStr("recommendation_served"), ServedPayload(userId.value, playlistId, ids, now));
    }
    page := Results(recTracks);
  }
}
