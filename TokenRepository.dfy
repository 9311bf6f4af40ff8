/**
 * The refresh-token store (internal/repository/token_repository.go): Redis
 * holding one JSON record per token under "refresh_token:" + token, with a
 * time-to-live.  Redis is the map `redis`; a command that fails is modelled
 * by a `fault` argument carrying the client's error text.  Time is the `now`
 * of each call, in whole seconds: an entry whose time-to-live has run out is
 * kept in the map but is invisible, as Redis no longer returns it.
 */
module TokenRepository {
  import opened Wrappers
  import opened Models

  const KeyPrefix: string := "refresh_token:"

  /** The Redis key of a refresh token. */
  function Key(token: string): (k: string)
    ensures KeyPrefix <= k && |k| == |KeyPrefix| + |token|
  {
    KeyPrefix + token
  }

  /** Distinct tokens have distinct keys, so operations on one token never reach another. */
  lemma KeyInjective(a: string, b: string)
    ensures Key(a) == Key(b) <==> a == b
  {
    if Key(a) == Key(b) {
      assert a == Key(a)[|KeyPrefix|..] == Key(b)[|KeyPrefix|..] == b;
    }
  }

  /**
   * What a key holds: a record encoding/json wrote, or bytes that do not
   * decode as one, together with the error text `json.Unmarshal` gives for
   * them (that text depends on the bytes, so it is carried with them).
   */
  datatype Blob = Json(data: RefreshTokenData) | Unreadable(raw: string, decodeError: string)

  /** A Redis entry: the value and the instant it expires at, if it was SET with a time-to-live. */
  datatype Entry = Entry(blob: Blob, expiresAt: Option<int>)

  /**
   * The expiry `SET key value EX expiry` gives at `now`: go-redis sends EX only
   * for a positive duration, and a key SET without one never expires.
   */
  function Deadline(now: int, expiry: int): (d: Option<int>)
    ensures d.Some? <==> expiry > 0
    ensures d.Some? ==> d.value - now == expiry
  {
    if expiry > 0 then Some(now + expiry) else None
  }

  /** Redis still holds the entry at `now`: it has no expiry, or its expiry lies ahead. */
  predicate Live(e: Entry, now: int)
  {
    e.expiresAt.None? || now < e.expiresAt.value
  }

  datatype GetError = NotFound | DecodeFailed(message: string) | ReadFailed(message: string)

  /** The message of a GetError as returned to the caller. */
  function GetErrorMessage(e: GetError): string
  {
    match e
    case NotFound => "refresh token not found"
    case DecodeFailed(m) => m
    case ReadFailed(m) => m
  }

  /** The result GetRefreshToken gives at `now` for `token` against the store `redis`. */
  function Lookup(redis: map<string, Entry>, token: string, now: int): (r: Result<RefreshTokenData, GetError>)
    ensures r.Success? <==> Key(token) in redis && Live(redis[Key(token)], now) && redis[Key(token)].blob.Json?
    ensures r.Success? ==> r.value == redis[Key(token)].blob.data
    ensures r == Failure(NotFound) <==> Key(token) !in redis || !Live(redis[Key(token)], now)
  {
    if Key(token) !in redis || !Live(redis[Key(token)], now) then Failure(NotFound)
    else match redis[Key(token)].blob
      case Json(d) => Success(d)
      case Unreadable(_, m) => Failure(DecodeFailed(m))
  }

  predicate IsRefreshKey(k: string)
  {
    KeyPrefix <= k
  }

  /** A key that DeleteUserTokens removes for `userId` at `now`: a live, readable refresh-token record of that user. */
  predicate OwnedBy(redis: map<string, Entry>, k: string, userId: string, unreadable: set<string>, now: int)
  {
    && k in redis && IsRefreshKey(k) && k !in unreadable && Live(redis[k], now)
    && redis[k].blob.Json? && redis[k].blob.data.userId == userId
  }

  /**
   * A record stored at `setAt` for `expiry` seconds reads back unchanged until
   * its time-to-live runs out, and is "not found" from then on.
   */
  lemma StoreThenLookup(redis: map<string, Entry>, token: string, data: RefreshTokenData, setAt: int, expiry: int, now: int)
    ensures Lookup(redis[Key(token) := Entry(Json(data), Deadline(setAt, expiry))], token, now)
      == if expiry <= 0 || now < setAt + expiry then Success(data) else Failure(NotFound)
  {
  }

  /** Storing or deleting one token leaves every other token's lookup as it was. */
  lemma OtherTokensUnaffected(redis: map<string, Entry>, token: string, other: string, e: Entry, now: int)
    requires other != token
    ensures Lookup(redis[Key(token) := e], other, now) == Lookup(redis, other, now)
    ensures Lookup(redis - {Key(token)}, other, now) == Lookup(redis, other, now)
  {
    KeyInjective(token, other);
  }

  class TokenStore {
    var redis: map<string, Entry>

    constructor ()
      ensures redis == map[]
    {
      redis := map[];
    }

    /** SET key json EX expiry at `now`; a failing SET leaves the store as it was. */
    method StoreRefreshToken(token: string, data: RefreshTokenData, expiry: int, now: int, fault: Option<string>)
      returns (err: Option<string>)
      modifies this
      ensures err == fault
      ensures fault.None? ==> redis == old(redis)[Key(token) := Entry(Json(data), Deadline(now, expiry))]
      ensures fault.Some? ==> redis == old(redis)
    {
      var key := Key(token);
      if fault.Some? {
        return fault;
      }
      redis := redis[key := Entry(Json(data), Deadline(now, expiry))];
      err := None;
    }

    /** GET key at `now`, then decode; a missing or expired key is reported as "refresh token not found". */
    method GetRefreshToken(token: string, now: int, fault: Option<string>) returns (r: Result<RefreshTokenData, GetError>)
      ensures fault.Some? ==> r == Failure(ReadFailed(fault.value))
      ensures fault.None? ==> r == Lookup(redis, token, now)
      ensures r.Success? <==> fault.None? && Key(token) in redis && Live(redis[Key(token)], now) && redis[Key(token)].blob.Json?
    {
      var key := Key(token);
      if fault.Some? {
        return Failure(ReadFailed(fault.value));
      }
      if key !in redis || !Live(redis[key], now) {
        return Failure(NotFound);
      }
      match redis[key].blob {
        case Json(d) => r := Success(d);
        case Unreadable(_, m) => r := Failure(DecodeFailed(m));
      }
    }

    /** DEL key: that one key goes, all others stay. */
    method DeleteRefreshToken(token: string, fault: Option<string>) returns (err: Option<string>)
      modifies this
      ensures err == fault
      ensures fault.None? ==> redis == old(redis) - {Key(token)}
      ensures fault.Some? ==> redis == old(redis)
      ensures forall k :: k != Key(token) && k in old(redis) ==> k in redis && redis[k] == old(redis)[k]
    {
      var key := Key(token);
      if fault.Some? {
        return fault;
      }
      redis := redis - {key};
      err := None;
    }

    /**
     * SCAN "refresh_token:*", then for each key GET, decode, and DEL it when
     * its record names `userId`.  Keys whose GET fails (`unreadable`), that
     * have expired by `now`, or whose value does not decode are skipped.  The
     * DEL's own error is ignored: a key in `undeletable` (whose DEL fails)
     * stays, and the scan goes on.
     */
    method DeleteUserTokens(userId: string, unreadable: set<string>, undeletable: set<string>, now: int)
      modifies this
      ensures redis == map k | k in old(redis) && !(OwnedBy(old(redis), k, userId, unreadable, now) && k !in undeletable) :: old(redis)[k]
    {
      ghost var before := redis;
      var pending := set k | k in redis && IsRefreshKey(k);
      while pending != {}
        invariant pending <= before.Keys
        invariant forall k :: k in pending ==> IsRefreshKey(k)
        invariant forall k :: k in redis <==> k in before && (k in pending || !(OwnedBy(before, k, userId, unreadable, now) && k !in undeletable))
        invariant forall k :: k in redis ==> redis[k] == before[k]
        decreases pending
      {
        var key :| key in pending;
        pending := pending - {key};
        if key in unreadable {
          continue;
        }
        var entry := redis[key];
        if !Live(entry, now) {
          continue;
        }
        match entry.blob {
          case Unreadable(_, _) =>
          case Json(d) =>
            if d.userId == userId && key !in undeletable {
              redis := redis - {key};
            }
        }
      }
    }
  }
}
