/**
 * The extension's singletons wired together: the storage service, the
 * settings store, the notification store and the API client that
 * subscribes to the settings. A svelte store calls its subscribers
 * synchronously on every `set` and `update`, so each settings change
 * below is followed at once by the client's reaction.
 */
module Extension {
  import opened Js
  import opened Storage
  import opened Settings
  import N = Notifications
  import M = Mailcow

  class Singletons {
    const storage: StorageService
    const settings: SettingsStore
    const notifications: N.NotificationStore
    const mailcow: M.MailcowService

    ghost predicate Valid()
      reads this, settings, mailcow
    {
      && settings.storage == storage
      && mailcow.settings == settings
      && mailcow.notifications == notifications
      && mailcow.Valid()
    }

    /** Module loading: each singleton is created once; `persisted` is the browser's stored data. */
    constructor (json: Codec, persisted: map<string, string>)
      ensures Valid()
      ensures fresh(storage) && fresh(storage.storage) && fresh(settings) && fresh(notifications) && fresh(mailcow)
      ensures storage.storage.json == json && storage.storage.items == persisted
      ensures settings.value == Defaults
      ensures notifications.items == [] && notifications.timers == []
      ensures mailcow.domains == [] && mailcow.mailboxes == []
    {
      var storage := new StorageService(json, persisted);
      var settings := new SettingsStore(storage);
      var notifications := new N.NotificationStore();
      this.storage := storage;
      this.settings := settings;
      this.notifications := notifications;
      mailcow := new M.MailcowService(settings, notifications);
    }

    /** `settings.init()`; the client reacts to the loaded value. */
    method Init(blocked: bool)
      requires Valid()
      modifies settings, mailcow
      ensures Valid()
      ensures settings.value == if blocked then Defaults else Restored(storage.storage.json, storage.storage.items)
      ensures !IsConfigured(settings.value) ==> mailcow.domains == [] && mailcow.mailboxes == []
      ensures IsConfigured(settings.value) ==> mailcow.domains == old(mailcow.domains) && mailcow.mailboxes == old(mailcow.mailboxes)
    {
      settings.Init(blocked);
      mailcow.SettingsChanged();
    }

    /** `settings.setMailcowUrl(url)`; the client reacts to the new value. */
    method SetMailcowUrl(url: Json, failAt: nat)
      requires Valid()
      modifies settings, storage.storage, mailcow
      ensures Valid()
      ensures settings.value == old(settings.value).(mailcowUrl := url)
      ensures storage.storage.items == if failAt == 0 then old(storage.storage.items)
                                       else Written(storage.storage.json, old(storage.storage.items), [(MailcowUrlKey, url)])
      ensures !IsConfigured(settings.value) ==> mailcow.domains == [] && mailcow.mailboxes == []
      ensures IsConfigured(settings.value) ==> mailcow.domains == old(mailcow.domains) && mailcow.mailboxes == old(mailcow.mailboxes)
    {
      settings.SetMailcowUrl(url, failAt);
      mailcow.SettingsChanged();
    }

    /** `settings.setApiKey(key)`; the client reacts to the new value. */
    method SetApiKey(key: Json, failAt: nat)
      requires Valid()
      modifies settings, storage.storage, mailcow
      ensures Valid()
      ensures settings.value == old(settings.value).(apiKey := key)
      ensures storage.storage.items == if failAt == 0 then old(storage.storage.items)
                                       else Written(storage.storage.json, old(storage.storage.items), [(ApiKeyKey, key)])
      ensures !IsConfigured(settings.value) ==> mailcow.domains == [] && mailcow.mailboxes == []
      ensures IsConfigured(settings.value) ==> mailcow.domains == old(mailcow.domains) && mailcow.mailboxes == old(mailcow.mailboxes)
    {
      settings.SetApiKey(key, failAt);
      mailcow.SettingsChanged();
    }

    /** `settings.clear()`; the client empties both lists. */
    method ClearSettings(blocked: bool)
      requires Valid()
      modifies settings, storage.storage, mailcow
      ensures Valid()
      ensures settings.value == Defaults
      ensures storage.storage.items == if blocked then old(storage.storage.items) else map[]
      ensures mailcow.domains == [] && mailcow.mailboxes == []
    {
      settings.Clear(blocked);
      mailcow.SettingsChanged();
    }
  }
}
