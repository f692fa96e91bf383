/**
 * The storage adapter: the fallback over the browser's `localStorage`
 * (texts under string keys, values written as JSON text and parsed back
 * on read) and the service that wraps it and swallows every failure.
 */
module Storage {
  import opened Wrappers
  import opened Js

  /** The `keys` argument of `get`: a single key or an array of keys. */
  datatype Keys = One(key: string) | Many(keys: seq<string>)

  /** The keys `get` visits: a single key is read as a one-element list. */
  function KeyList(keys: Keys): (list: seq<string>)
    ensures |list| == if keys.One? then 1 else |keys.keys|
    ensures forall k :: k in list <==> if keys.One? then k == keys.key else k in keys.keys
    ensures keys.Many? ==> list == keys.keys
  {
    match keys
    case One(k) => [k]
    case Many(ks) => ks
  }

  /** What `localStorage.getItem(key)` returns: the stored text, or `null` (None). */
  function GetItem(items: map<string, string>, key: string): (o: Option<string>)
    ensures o.Some? <==> key in items
    ensures o.Some? ==> o.value == items[key]
  {
    if key in items then Some(items[key]) else None
  }

  /**
   * The value the fallback `get` reports for `key`: `JSON.parse` of what
   * `getItem` returned (a missing key gives `null`, which `JSON.parse`
   * reads as the text "null"), or the stored text itself when it does not
   * parse.
   */
  function Read(json: Codec, items: map<string, string>, key: string): (v: Json)
    ensures key in items && json.parse(items[key]).Some? ==> v == json.parse(items[key]).value
    ensures key in items && json.parse(items[key]).None? ==> v == JStr(items[key])
    ensures key !in items && Lawful(json) ==> v == JNull
  {
    var text := GetItem(items, key).GetOr("null");
    match json.parse(text)
    case Some(parsed) => parsed
    case None => JStr(text)
  }

  /** The store after `setItem(key, JSON.stringify(value))` for each entry, in order. */
  function Written(json: Codec, items: map<string, string>, entries: seq<(string, Json)>): (m: map<string, string>)
    ensures m.Keys == items.Keys + set i | 0 <= i < |entries| :: entries[i].0
    ensures forall k :: k in items && (forall i :: 0 <= i < |entries| ==> entries[i].0 != k) ==> m[k] == items[k]
    decreases |entries|
  {
    if entries == [] then items
    else
      var last := entries[|entries| - 1];
      Written(json, items, entries[..|entries| - 1])[last.0 := json.stringify(last.1)]
  }

  /** The keys of `Object.entries(items)` are those of one object, so they are distinct. */
  ghost predicate DistinctKeys(entries: seq<(string, Json)>) {
    forall i, j :: 0 <= i < j < |entries| ==> entries[i].0 != entries[j].0
  }

  /** Writing makes `key` hold the JSON text of the entry's value; other keys keep their text. */
  lemma {:induction false} WrittenAt(json: Codec, items: map<string, string>, entries: seq<(string, Json)>, key: string)
    requires DistinctKeys(entries)
    ensures forall i :: 0 <= i < |entries| && entries[i].0 == key ==>
              key in Written(json, items, entries) && Written(json, items, entries)[key] == json.stringify(entries[i].1)
    ensures (forall i :: 0 <= i < |entries| ==> entries[i].0 != key) ==>
              GetItem(Written(json, items, entries), key) == GetItem(items, key)
    decreases |entries|
  {
    if entries != [] {
      var init := entries[..|entries| - 1];
      assert DistinctKeys(init) by {
        forall i, j | 0 <= i < j < |init| ensures init[i].0 != init[j].0 {
          assert init[i] == entries[i] && init[j] == entries[j];
        }
      }
      WrittenAt(json, items, init, key);
      forall i | 0 <= i < |init| ensures init[i] == entries[i] { }
    }
  }

  /** `set` followed by `get` of one of its keys returns the value that was set. */
  lemma ReadAfterWrite(json: Codec, items: map<string, string>, entries: seq<(string, Json)>, i: nat)
    requires Lawful(json) && DistinctKeys(entries) && i < |entries|
    ensures Read(json, Written(json, items, entries), entries[i].0) == entries[i].1
  {
    WrittenAt(json, items, entries, entries[i].0);
  }

  /** `set` leaves every key that is not among its entries reading as before. */
  lemma ReadUntouched(json: Codec, items: map<string, string>, entries: seq<(string, Json)>, key: string)
    requires DistinctKeys(entries)
    requires forall i :: 0 <= i < |entries| ==> entries[i].0 != key
    ensures Read(json, Written(json, items, entries), key) == Read(json, items, key)
  {
    WrittenAt(json, items, entries, key);
  }

  /** After `clear`, every key reads back as `null`. */
  lemma ReadAfterClear(json: Codec, key: string)
    requires Lawful(json)
    ensures Read(json, map[], key) == JNull
  {
  }

  /** The `localStorage` refuses access (for instance, site data is disabled). */
  const AccessDenied := Exception("SecurityError", "The operation is insecure.")

  /** `setItem` ran out of room. */
  const QuotaExceeded := Exception("QuotaExceededError", "The quota has been exceeded.")

  /**
   * The object built by `createLocalStorageFallback`: its three operations
   * over the browser's `localStorage`, whose contents are `items`. Failures
   * of `localStorage` are given as arguments: `blocked` says that it
   * refuses access, `failAt` is the index of the entry whose `setItem`
   * throws (none when it is at least the number of entries).
   */
  class LocalStorageFallback {
    var items: map<string, string>
    const json: Codec

    /** `persisted` is what the browser kept from earlier sessions. */
    constructor (json: Codec, persisted: map<string, string>)
      ensures this.json == json && items == persisted
    {
      this.json := json;
      items := persisted;
    }

    method Get(keys: Keys, blocked: bool) returns (r: Result<map<string, Json>, Exception>)
      ensures r.Err? <==> blocked && KeyList(keys) != []
      ensures r.Ok? ==> forall k :: k in r.value <==> k in KeyList(keys)
      ensures r.Ok? ==> forall k :: k in r.value ==> r.value[k] == Read(json, items, k)
    {
      var list := KeyList(keys);
      var result: map<string, Json> := map[];
      for i := 0 to |list|
        invariant !blocked || i == 0
        invariant forall k :: k in result <==> k in list[..i]
        invariant forall k :: k in result ==> result[k] == Read(json, items, k)
      {
        if blocked {
          return Err(AccessDenied);
        }
        result := result[list[i] := Read(json, items, list[i])];
      }
      return Ok(result);
    }

    method Set(entries: seq<(string, Json)>, failAt: nat) returns (r: Outcome<Exception>)
      modifies this
      ensures r.Fail? <==> failAt < |entries|
      ensures items == Written(json, old(items), entries[..if failAt < |entries| then failAt else |entries|])
    {
      for i := 0 to |entries|
        invariant i <= failAt
        invariant items == Written(json, old(items), entries[..i])
      {
        if i == failAt {
          return Fail(QuotaExceeded);
        }
        assert entries[..i + 1][..i] == entries[..i];
        items := items[entries[i].0 := json.stringify(entries[i].1)];
      }
      assert entries[..|entries|] == entries;
      return Pass;
    }

    method Clear(blocked: bool) returns (r: Outcome<Exception>)
      modifies this
      ensures r.Fail? <==> blocked
      ensures items == if blocked then old(items) else map[]
    {
      if blocked {
        return Fail(AccessDenied);
      }
      items := map[];
      return Pass;
    }
  }

  /**
   * The storage service: it keeps the store it chose at construction and
   * turns every failure of that store into an empty result (`get`) or
   * into nothing at all (`set`, `clear`).
   */
  class StorageService {
    const storage: LocalStorageFallback

    constructor (json: Codec, persisted: map<string, string>)
      ensures fresh(storage) && storage.json == json && storage.items == persisted
    {
      storage := new LocalStorageFallback(json, persisted);
    }

    method Get(keys: Keys, blocked: bool) returns (r: map<string, Json>)
      ensures blocked ==> r == map[]
      ensures !blocked ==> forall k :: k in r <==> k in KeyList(keys)
      ensures !blocked ==> forall k :: k in r ==> r[k] == Read(storage.json, storage.items, k)
    {
      var got := storage.Get(keys, blocked);
      match got
      case Ok(data) => r := data;
      case Err(_) => r := map[];
    }

    method Set(entries: seq<(string, Json)>, failAt: nat)
      modifies storage
      ensures storage.items == Written(storage.json, old(storage.items), entries[..if failAt < |entries| then failAt else |entries|])
    {
      var _ := storage.Set(entries, failAt);
    }

    method Clear(blocked: bool)
      modifies storage
      ensures storage.items == if blocked then old(storage.items) else map[]
    {
      var _ := storage.Clear(blocked);
    }
  }
}
