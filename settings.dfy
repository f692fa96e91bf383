/**
 * The settings store: the record `{mailcowUrl, apiKey}` loaded from and
 * persisted through the storage service, the derived "is configured"
 * flag, and the credentials gate every API call goes through.
 */
module Settings {
  import opened Wrappers
  import opened Js
  import opened Storage

  /**
   * The settings record. Its fields hold whatever `init` read back (a
   * string in practice, but `x || ''` keeps any truthy JSON value).
   */
  datatype Record = Record(mailcowUrl: Json, apiKey: Json)

  const Defaults := Record(JStr(""), JStr(""))

  /** The storage keys the two fields are persisted under. */
  const MailcowUrlKey := "mailcowUrl"
  const ApiKeyKey := "apiKey"

  const MissingConfiguration := Exception("Error", "Configuration manquante")

  /** The derived store `isConfigured`: both fields are truthy. */
  function IsConfigured(s: Record): (b: bool)
    ensures s.mailcowUrl.JStr? && s.apiKey.JStr? ==> (b <==> s.mailcowUrl.s != "" && s.apiKey.s != "")
  {
    Truthy(s.mailcowUrl) && Truthy(s.apiKey)
  }

  /** The credentials gate: the current settings, or the error "Configuration manquante". */
  function GetCredentials(s: Record): (r: Result<Record, Exception>)
    ensures r.Ok? <==> IsConfigured(s)
    ensures r.Ok? ==> r.value == s
    ensures r.Err? ==> r.error == MissingConfiguration
  {
    if !Truthy(s.mailcowUrl) || !Truthy(s.apiKey) then Err(MissingConfiguration) else Ok(s)
  }

  /** What `init` sets from the result of `get(['mailcowUrl', 'apiKey'])`: each field, or `''`. */
  function FromStored(data: map<string, Json>): (s: Record)
    ensures MailcowUrlKey in data && Truthy(data[MailcowUrlKey]) ==> s.mailcowUrl == data[MailcowUrlKey]
    ensures !(MailcowUrlKey in data && Truthy(data[MailcowUrlKey])) ==> s.mailcowUrl == JStr("")
    ensures ApiKeyKey in data && Truthy(data[ApiKeyKey]) ==> s.apiKey == data[ApiKeyKey]
    ensures !(ApiKeyKey in data && Truthy(data[ApiKeyKey])) ==> s.apiKey == JStr("")
  {
    var url := if MailcowUrlKey in data then Some(data[MailcowUrlKey]) else None;
    var key := if ApiKeyKey in data then Some(data[ApiKeyKey]) else None;
    Record(Or(url, JStr("")), Or(key, JStr("")))
  }

  /** The settings `init` restores from a readable store holding `items`. */
  function Restored(json: Codec, items: map<string, string>): (s: Record)
    ensures s.mailcowUrl == Or(Some(Read(json, items, MailcowUrlKey)), JStr(""))
    ensures s.apiKey == Or(Some(Read(json, items, ApiKeyKey)), JStr(""))
    ensures IsConfigured(s) <==> Truthy(Read(json, items, MailcowUrlKey)) && Truthy(Read(json, items, ApiKeyKey))
  {
    FromStored(map[MailcowUrlKey := Read(json, items, MailcowUrlKey), ApiKeyKey := Read(json, items, ApiKeyKey)])
  }

  /** A URL that was persisted is restored by the next `init` (as `''` when it is falsy); the key is untouched. */
  lemma RestoredAfterSetMailcowUrl(json: Codec, items: map<string, string>, url: Json)
    requires Lawful(json)
    ensures Restored(json, Written(json, items, [(MailcowUrlKey, url)]))
         == Restored(json, items).(mailcowUrl := Or(Some(url), JStr("")))
  {
    var entries := [(MailcowUrlKey, url)];
    ReadAfterWrite(json, items, entries, 0);
    ReadUntouched(json, items, entries, ApiKeyKey);
  }

  /** An API key that was persisted is restored by the next `init`; the URL is untouched. */
  lemma RestoredAfterSetApiKey(json: Codec, items: map<string, string>, key: Json)
    requires Lawful(json)
    ensures Restored(json, Written(json, items, [(ApiKeyKey, key)]))
         == Restored(json, items).(apiKey := Or(Some(key), JStr("")))
  {
    var entries := [(ApiKeyKey, key)];
    ReadAfterWrite(json, items, entries, 0);
    ReadUntouched(json, items, entries, MailcowUrlKey);
  }

  /** After a successful `clear`, the next `init` restores the defaults, which are not configured. */
  lemma RestoredAfterClear(json: Codec)
    requires Lawful(json)
    ensures Restored(json, map[]) == Defaults && !IsConfigured(Defaults)
  {
    ReadAfterClear(json, MailcowUrlKey);
    ReadAfterClear(json, ApiKeyKey);
  }

  /**
   * The writable settings store. `value` is its current record; every
   * change goes through `storage` first and then replaces `value`.
   */
  class SettingsStore {
    var value: Record
    const storage: StorageService

    constructor (storage: StorageService)
      ensures this.storage == storage && value == Defaults
    {
      this.storage := storage;
      value := Defaults;
    }

    /** Loads both fields; `blocked` says the store refuses access, so `get` yields `{}`. */
    method Init(blocked: bool)
      modifies this
      ensures value == if blocked then Defaults else Restored(storage.storage.json, storage.storage.items)
    {
      var data := storage.Get(Many([MailcowUrlKey, ApiKeyKey]), blocked);
      if !blocked {
        assert data == map[MailcowUrlKey := data[MailcowUrlKey], ApiKeyKey := data[ApiKeyKey]];
      }
      value := FromStored(data);
    }

    /** Persists `{mailcowUrl: url}` (`failAt == 0`: the write throws and is swallowed), then sets the field. */
    method SetMailcowUrl(url: Json, failAt: nat)
      modifies this, storage.storage
      ensures value == old(value).(mailcowUrl := url)
      ensures storage.storage.items == if failAt == 0 then old(storage.storage.items)
                                       else Written(storage.storage.json, old(storage.storage.items), [(MailcowUrlKey, url)])
    {
      storage.Set([(MailcowUrlKey, url)], failAt);
      value := value.(mailcowUrl := url);
    }

    /** Persists `{apiKey: key}`, then sets the field. */
    method SetApiKey(key: Json, failAt: nat)
      modifies this, storage.storage
      ensures value == old(value).(apiKey := key)
      ensures storage.storage.items == if failAt == 0 then old(storage.storage.items)
                                       else Written(storage.storage.json, old(storage.storage.items), [(ApiKeyKey, key)])
    {
      storage.Set([(ApiKeyKey, key)], failAt);
      value := value.(apiKey := key);
    }

    /** Clears the whole store (unless it refuses access), then resets both fields. */
    method Clear(blocked: bool)
      modifies this, storage.storage
      ensures value == Defaults && !IsConfigured(value)
      ensures storage.storage.items == if blocked then old(storage.storage.items) else map[]
    {
      storage.Clear(blocked);
      value := Defaults;
    }
  }
}
