/** Key verification with a short cache (apps/data-api/src/auth.ts), and the reads behind it. A
    database read is named by its position among the reads that were begun. */
module KeyVerifier {
  import opened Basics
  import opened InsertionOrder
  import Json

  const POSITIVE_TTL_MS: int := 30_000
  const NEGATIVE_TTL_MS: int := 5_000
  const CACHE_MAX_ENTRIES: nat := 1000

  const BEARER: string := "Bearer "
  const KEY_PREFIX: string := "clubld_"
  const KEY_BODY: nat := 43

  type ReadId = nat

  /** The digest of a key, taken to be injective. */
  datatype Hash = HashOf(key: string)

  datatype VerifiedKey = VerifiedKey(consumerId: string, keyId: string, scopes: seq<string>)

  /** `read` is history: the database read this answer came from. */
  datatype Entry = Entry(value: Option<VerifiedKey>, expires: int, read: ReadId)

  datatype BearerResult =
    | Malformed
    | Cached(hash: Hash, value: Option<VerifiedKey>, read: ReadId)
    | Uncached(hash: Hash)

  /** A database read: when it was begun, and when and how it answered. */
  datatype Read = Read(hash: Hash, began: int, answer: Answer)

  datatype Answer =
    | Pending
    | Answered(at: int, value: Option<VerifiedKey>)
    | Failed

  datatype State = State(cache: Table<Hash, Entry>, lookups: seq<Read>)

  datatype Event =
    | Request(header: Option<string>, at: int)
    | Settle(read: ReadId, rows: seq<Json.Value>, at: int)
    | Fail(read: ReadId)

  // ----- the header -----

  predicate IsSpace(c: char) {
    c in {' ', '\t', '\n', '\r', '\U{B}', '\U{C}', '\U{A0}', '\U{FEFF}', '\U{2028}', '\U{2029}', '\U{1680}',
          '\U{202F}', '\U{205F}', '\U{3000}'}
    || '\U{2000}' <= c <= '\U{200A}'
  }

  predicate KeyChar(c: char) {
    'A' <= c <= 'Z' || 'a' <= c <= 'z' || '0' <= c <= '9' || c == '_' || c == '-'
  }

  predicate IsKey(s: string) {
    && |s| == |KEY_PREFIX| + KEY_BODY
    && KEY_PREFIX <= s
    && forall i :: |KEY_PREFIX| <= i < |s| ==> KeyChar(s[i])
  }

  /** The token of a bearer header, if it can be a key. */
  function Token(header: Option<string>): Option<string> {
    var h := header.GetOr([]);
    if BEARER <= h then
      var token := h[|BEARER|..];
      if token != [] && (forall i :: 0 <= i < |token| ==> !IsSpace(token[i])) && IsKey(token) then Some(token) else None
    else None
  }

  // ----- the row -----

  function Texts(items: seq<Json.Value>): seq<string> {
    if items == [] then [] else (if items[0].Text? then [items[0].text] else []) + Texts(items[1..])
  }

  /** A first row of the wrong shape verifies nothing. */
  function Verified(rows: seq<Json.Value>): Option<VerifiedKey> {
    if rows == [] || !rows[0].Object? then None
    else
      var f := rows[0].fields;
      match (Json.Get(f, "consumer_id"), Json.Get(f, "key_id"), Json.Get(f, "scopes"))
      case (Some(Text(consumer)), Some(Text(key)), Some(Array(scopes))) =>
        Some(VerifiedKey(consumer, key, Texts(scopes)))
      case _ => None
  }

  // ----- the cache -----

  function Consulted(cache: Table<Hash, Entry>, header: Option<string>, t: int): BearerResult {
    match Token(header)
    case None => Malformed
    case Some(token) =>
      var hash := HashOf(token);
      if hash in cache.at && cache.at[hash].expires > t
      then Cached(hash, cache.at[hash].value, cache.at[hash].read)
      else Uncached(hash)
  }

  /** An expired entry is dropped when it is looked at. */
  function Inspected(cache: Table<Hash, Entry>, header: Option<string>, t: int): Table<Hash, Entry> {
    var r := Consulted(cache, header, t);
    if r.Uncached? then Delete(cache, r.hash) else cache
  }

  function EntryFor(value: Option<VerifiedKey>, t: int, read: ReadId): Entry {
    Entry(value, t + if value.Some? then POSITIVE_TTL_MS else NEGATIVE_TTL_MS, read)
  }

  function Remembered(cache: Table<Hash, Entry>, hash: Hash, e: Entry): Table<Hash, Entry> {
    Trim(Set(cache, hash, e), CACHE_MAX_ENTRIES)
  }

  // ----- requests -----

  predicate Waits(s: State, read: ReadId) {
    read < |s.lookups| && s.lookups[read].answer.Pending?
  }

  function Step(s: State, e: Event): State {
    match e
    case Request(header, at) =>
      var r := Consulted(s.cache, header, at);
      State(Inspected(s.cache, header, at), s.lookups + if r.Uncached? then [Read(r.hash, at, Pending)] else [])
    case Settle(read, rows, at) =>
      if !Waits(s, read) then s
      else
        var r := s.lookups[read];
        State(Remembered(s.cache, r.hash, EntryFor(Verified(rows), at, read)),
              s.lookups[read := r.(answer := Answered(at, Verified(rows)))])
    case Fail(read) =>
      if !Waits(s, read) then s else s.(lookups := s.lookups[read := s.lookups[read].(answer := Failed)])
  }

  class Verifier {
    var cache: Table<Hash, Entry>

    constructor ()
      ensures cache == Empty()
    {
      cache := Empty();
    }

    method Inspect(header: Option<string>, t: int) returns (r: BearerResult)
      requires InsertionOrder.Valid(cache)
      modifies this
      ensures InsertionOrder.Valid(cache)
      ensures r == Consulted(old(cache), header, t)
      ensures cache == Inspected(old(cache), header, t)
    {
      var token := Token(header);
      if token.None? {
        return Malformed;
      }
      var hash := HashOf(token.value);
      if hash in cache.at && cache.at[hash].expires > t {
        return Cached(hash, cache.at[hash].value, cache.at[hash].read);
      }
      DeleteIsValid(cache, hash);
      if hash in cache.at {
        cache := Delete(cache, hash);
      }
      r := Uncached(hash);
    }

    /** The part of `verify` after the database answered. */
    method Remember(hash: Hash, rows: seq<Json.Value>, t: int, read: ReadId) returns (value: Option<VerifiedKey>)
      requires InsertionOrder.Valid(cache)
      modifies this
      ensures InsertionOrder.Valid(cache)
      ensures value == Verified(rows)
      ensures cache == Remembered(old(cache), hash, EntryFor(value, t, read))
    {
      value := Verified(rows);
      var e := Entry(value, t + (if value.Some? then POSITIVE_TTL_MS else NEGATIVE_TTL_MS), read);
      SetIsValid(cache, hash, e);
      cache := Set(cache, hash, e);
      ghost var all := cache;
      while |cache.order| > CACHE_MAX_ENTRIES
        invariant InsertionOrder.Valid(cache)
        invariant Trim(cache, CACHE_MAX_ENTRIES) == Trim(all, CACHE_MAX_ENTRIES)
        decreases |cache.order|
      {
        var oldest := cache.order[0];
        DeleteFirst(cache);
        cache := Delete(cache, oldest);
      }
    }
  }
}
