/**
 * The Redis server behind `redis.from_url(...)`, reduced to the commands the
 * system issues (SET with EX, GET, LPUSH, LTRIM, EXPIRE). The keyspace is a
 * map from key to a value and an optional absolute expiry time; the clock is
 * an explicit `now` argument. JSON encoding is the identity: a string value
 * holds a `Doc` directly.
 */
module Redis {
  import opened Wrappers
  import opened Json

  /** What `json.dumps` was applied to before a value was stored. */
  datatype Doc =
    | Ids(ids: seq<string>)
    | Floats(xs: seq<real>)
    | Object(fields: Payload)

  /** A Redis string (one encoded document) or a Redis list of them. */
  datatype Value = Str(doc: Doc) | List(items: seq<Doc>)

  /** `expiresAt == None` is a key without a TTL. */
  datatype Entry = Entry(value: Value, expiresAt: Option<int>)

  /** A command's outcome: a reply, or the exception redis-py raises. */
  datatype Reply<T> = Ok(value: T) | Raised(reason: string)

  const WrongType := "WRONGTYPE Operation against a key holding the wrong kind of value"
  const InvalidExpire := "invalid expire time in 'set' command"
  const ConnectionRefused := "Connection refused"

  /** Whether an entry is still alive at time `now`. */
  predicate Alive(e: Entry, now: int)
  {
    e.expiresAt.None? || now < e.expiresAt.value
  }

  /** The value a client sees under `key` at time `now`: expired keys are absent. */
  function Visible(kv: map<string, Entry>, key: string, now: int): (v: Option<Value>)
    ensures v.Some? <==> key in kv && Alive(kv[key], now)
    ensures v.Some? ==> v.value == kv[key].value
  {
    if key in kv && Alive(kv[key], now) then Some(kv[key].value) else None
  }

  /** The list under `key` for LPUSH: a missing or expired key is an empty list. */
  function ListAt(kv: map<string, Entry>, key: string, now: int): seq<Doc>
  {
    match Visible(kv, key, now)
    case Some(List(items)) => items
    case _ => []
  }

  /** Whether a list command on `key` raises WRONGTYPE. */
  predicate HoldsString(kv: map<string, Entry>, key: string, now: int)
  {
    Visible(kv, key, now).Some? && Visible(kv, key, now).value.Str?
  }

  class RedisClient {
    /** The keyspace of the server. */
    var kv: map<string, Entry>
    /** Whether the server is reachable; when it is not, every command raises. */
    var up: bool

    constructor (up: bool)
      ensures this.kv == map[] && this.up == up
    {
      this.kv := map[];
      this.up := up;
    }

    /** `SET key doc EX seconds`. */
    method Set(key: string, doc: Doc, seconds: int, now: int) returns (r: Reply<()>)
      modifies this`kv
      ensures r.Ok? <==> up && seconds > 0
      ensures r.Ok? ==> kv == old(kv)[key := Entry(Str(doc), Some(now + seconds))]
      ensures r.Raised? ==> kv == old(kv)
    {
      if !up {
        return Raised(ConnectionRefused);
      }
      if seconds <= 0 {
        return Raised(InvalidExpire);
      }
      kv := kv[key := Entry(Str(doc), Some(now + seconds))];
      r := Ok(());
    }

    /** `GET key`: nil for a missing or expired key, WRONGTYPE for a list. */
    method Get(key: string, now: int) returns (r: Reply<Option<Doc>>)
      ensures !up ==> r.Raised?
      ensures up && Visible(kv, key, now).None? ==> r == Ok(None)
      ensures up && HoldsString(kv, key, now) ==> r == Ok(Some(kv[key].value.doc))
      ensures up && Visible(kv, key, now).Some? && Visible(kv, key, now).value.List? ==> r.Raised?
    {
      if !up {
        return Raised(ConnectionRefused);
      }
      match Visible(kv, key, now)
      case None => r := Ok(None);
      case Some(Str(doc)) => r := Ok(Some(doc));
      case Some(List(_)) => r := Raised(WrongType);
    }

    /** `LPUSH key doc`: a missing key becomes a new list without a TTL. */
    method LPush(key: string, doc: Doc, now: int) returns (r: Reply<nat>)
      modifies this`kv
      ensures r.Ok? <==> up && !HoldsString(old(kv), key, now)
      ensures r.Ok? ==> r.value == |ListAt(old(kv), key, now)| + 1
      ensures r.Ok? && Visible(old(kv), key, now).Some? ==>
        kv == old(kv)[key := Entry(List([doc] + ListAt(old(kv), key, now)), old(kv)[key].expiresAt)]
      ensures r.Ok? && Visible(old(kv), key, now).None? ==> kv == old(kv)[key := Entry(List([doc]), None)]
      ensures r.Raised? ==> kv == old(kv)
    {
      if !up {
        return Raised(ConnectionRefused);
      }
      match Visible(kv, key, now)
      case Some(Str(_)) =>
        r := Raised(WrongType);
      case Some(List(items)) =>
        kv := kv[key := Entry(List([doc] + items), kv[key].expiresAt)];
        r := Ok(|items| + 1);
      case None =>
        kv := kv[key := Entry(List([doc]), None)];
        r := Ok(1);
    }

    /**
     * `LTRIM key start stop` with non-negative indices: keeps the elements
     * at positions start..stop inclusive; a list left empty is deleted.
     */
    method LTrim(key: string, start: nat, stop: nat, now: int) returns (r: Reply<()>)
      modifies this`kv
      ensures r.Ok? <==> up && !HoldsString(old(kv), key, now)
      ensures r.Ok? && Visible(old(kv), key, now).None? ==> kv == old(kv)
      ensures r.Ok? && Visible(old(kv), key, now).Some? ==>
        var items := old(kv)[key].value.items;
        var kept := if start <= stop && start < |items| then items[start..Min(stop + 1, |items|)] else [];
        kv == if kept == [] then old(kv) - {key}
              else old(kv)[key := Entry(List(kept), old(kv)[key].expiresAt)]
      ensures r.Raised? ==> kv == old(kv)
    {
      if !up {
        return Raised(ConnectionRefused);
      }
      match Visible(kv, key, now)
      case Some(Str(_)) =>
        r := Raised(WrongType);
      case Some(List(items)) =>
        var kept := if start <= stop && start < |items| then items[start..Min(stop + 1, |items|)] else [];
        if kept == [] {
          kv := kv - {key};
        } else {
          kv := kv[key := Entry(List(kept), kv[key].expiresAt)];
        }
        r := Ok(());
      case None =>
        r := Ok(());
    }

    /**
     * `EXPIRE key seconds`: replies whether the key existed; a non-positive
     * TTL deletes the key at once.
     */
    method Expire(key: string, seconds: int, now: int) returns (r: Reply<bool>)
      modifies this`kv
      ensures !up ==> r.Raised? && kv == old(kv)
      ensures up ==> r == Ok(Visible(old(kv), key, now).Some?)
      ensures up && Visible(old(kv), key, now).None? ==> kv == old(kv)
      ensures up && Visible(old(kv), key, now).Some? && seconds <= 0 ==> kv == old(kv) - {key}
      ensures up && Visible(old(kv), key, now).Some? && seconds > 0 ==>
        kv == old(kv)[key := Entry(old(kv)[key].value, Some(now + seconds))]
    {
      if !up {
        return Raised(ConnectionRefused);
      }
      if Visible(kv, key, now).None? {
        return Ok(false);
      }
      if seconds <= 0 {
        kv := kv - {key};
      } else {
        kv := kv[key := Entry(kv[key].value, Some(now + seconds))];
      }
      r := Ok(true);
    }
  }
}
