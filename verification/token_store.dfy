/** The per-user credential store: the Redis entries under the `trakt:` prefix
    (src/redis.js), seen as a map from key to the parsed record. */
module TokenStore {
  import opened Wrappers

  /** A stored credential record as `src/trakt.js` reads it. Every field is
      optional because the stored JSON may lack it: a record written by the
      OAuth callback in src/app.js has none of these three names. */
  datatype TokenRecord = TokenRecord(
    accessToken: Option<string>,
    refreshToken: Option<string>,
    expiresAtUnix: Option<int>)

  const KEY_PREFIX: string := "trakt:"

  /** The Redis key of a user's record. */
  function StoreKey(userId: string): (key: string)
    ensures |key| == |KEY_PREFIX| + |userId|
    ensures key[..|KEY_PREFIX|] == KEY_PREFIX && key[|KEY_PREFIX|..] == userId
  {
    KEY_PREFIX + userId
  }

  /** Distinct users never share a key, so a map keyed by `StoreKey` is a map keyed by user. */
  lemma StoreKeyInjective(u: string, v: string)
    ensures StoreKey(u) == StoreKey(v) ==> u == v
  {
  }

  /** The remote key-value store. `entries` holds every `trakt:` entry that
      parses; `saves` is the history of attempted writes, in order. */
  class Store {
    var entries: map<string, TokenRecord>
    ghost var saves: seq<(string, TokenRecord)>

    constructor (initial: map<string, TokenRecord>)
      ensures entries == initial && saves == []
    {
      entries := initial;
      saves := [];
    }

    /** `getToken`: the record stored for `userId`, or absent when there is none.
        A failed read is not an input here: a present record always reads as
        present, and a call whose read fails behaves like a call on a store
        without that key. */
    function Get(userId: string): (r: Option<TokenRecord>)
      reads this
      ensures r.Some? <==> StoreKey(userId) in entries
      ensures r.Some? ==> r.value == entries[StoreKey(userId)]
    {
      var key := StoreKey(userId);
      if key in entries then Some(entries[key]) else None
    }

    /** `storeToken`: overwrites the user's record wholesale when the Redis write
        lands (`lands`); a failed write is logged and swallowed, so the call still
        returns normally and the old record stays. No other user's record changes. */
    method Save(userId: string, record: TokenRecord, lands: bool)
      modifies this
      ensures entries == if lands then old(entries)[StoreKey(userId) := record] else old(entries)
      ensures saves == old(saves) + [(userId, record)]
      ensures Get(userId) == if lands then Some(record) else old(Get(userId))
      ensures forall other :: other != userId ==> Get(other) == old(Get(other))
    {
      if lands {
        entries := entries[StoreKey(userId) := record];
      }
      saves := saves + [(userId, record)];
      forall other | other != userId
        ensures Get(other) == old(Get(other))
      {
        StoreKeyInjective(userId, other);
      }
    }
  }

  /** The store after an operation that saves `saved` for `userId` (a write that
      lands only when `lands`), or saves nothing. */
  function EntriesAfter(entries: map<string, TokenRecord>, userId: string, saved: Option<TokenRecord>, lands: bool): (after: map<string, TokenRecord>)
  {
    if saved.Some? && lands then entries[StoreKey(userId) := saved.value] else entries
  }

  /** The write history after an operation that saves `saved` for `userId`, or saves nothing. */
  ghost function SavesAfter(saves: seq<(string, TokenRecord)>, userId: string, saved: Option<TokenRecord>): (after: seq<(string, TokenRecord)>)
  {
    if saved.Some? then saves + [(userId, saved.value)] else saves
  }
}
