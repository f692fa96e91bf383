# Mailcow alias extension: a Dafny model of its services

This project models the four services behind a browser extension that
creates mail aliases on a Mailcow server through its REST API:

- **Storage** (`storage.service.js`): the `localStorage` fallback with
  `get`/`set`/`clear`, and the storage service that wraps it and turns every
  failure into `{}` (for `get`) or into nothing (for `set` and `clear`).
- **Settings** (`settings.service.js`): the `{mailcowUrl, apiKey}` store,
  loaded with `''` defaults and persisted before each change. It also
  covers the derived `isConfigured` flag and the `getCredentials` gate.
- **Notifications** (`notification.service.js`): the ordered list of
  `{id, message, type}` entries. `add` appends an entry and schedules its
  expiry, and `remove` filters an id out.
- **Mailcow client** (`mailcow.service.js`): how the authenticated request
  is formed and how each server reply becomes a result or an error. It
  also covers how `loadDomains`, `loadMailboxes` and `createAlias` change
  the `domains`/`mailboxes` lists and the notifications. Its constructor
  subscribes to the settings, emptying both lists while they are
  unconfigured.

How the outside world is modelled:

- JavaScript values are `Js.Json`. `undefined` is `Option.None`.
- `JSON.stringify`/`JSON.parse` are an abstract `Js.Codec`. The ghost
  predicate `Js.Lawful` states what the model relies on: parsing what was
  stringified gives the value back, and `null` is written `"null"`.
- The browser's `localStorage` is the `items` map of
  `Storage.LocalStorageFallback`. Its failures are explicit arguments:
  `blocked` (access refused) and `failAt` (the index of the entry whose
  `setItem` throws).
- `fetch` is replaced by an abstract `Mailcow.Reply`. It is either a
  success with its parsed body, a non-ok status with its status text, or a
  thrown error. `Mailcow.Exchange` records the request that was sent.
- `Date.now()` is the `now` argument. A `setTimeout` is a `Timer` that
  `NotificationStore.Expire` fires.
- Svelte's synchronous call of subscribers is written out in
  `Extension.Singletons`: each settings change is followed at once by the
  client's reaction.

Notes on what the code does:

- The settings are persisted under the keys `mailcowUrl` and `apiKey`.
- `remove(id)` drops every entry with that id.
- A `null` element in a domain or mailbox answer makes `d.domain_name`
  throw. The loader then takes the error path: the list becomes `[]` and
  one error notification is added.
- The settings fields keep any truthy stored value (`x || ''`), not only
  strings. So the URL and the headers are built with `String(x)`
  (`Js.ToText`).

## Model

| member | source | states |
|---|---|---|
| `Js.Truthy` | src/services/settings.service.js:16-17 | JavaScript truthiness as `x \|\| ''` (settings.service.js:16-17), `!!url && !!key` and `!url \|\| !key` (settings.service.js:38 and 43) and the list guard (mailcow.service.js:11) use it: a value is falsy exactly when it is `null`, `false`, `0` or `''` |
| `Js.Or` | src/services/settings.service.js:16-17 | `x \|\| ''`: the value when it is present and truthy, otherwise the fallback; what this means for the settings is stated by `Settings.FromStored` and the `Settings.RestoredAfter*` lemmas |
| `Js.NaturalText` | src/services/mailcow.service.js:22 | `String(n)` of a natural number: non-empty decimal digits, no leading zero, whose value read back (`DigitsValue`) is `n` |
| `Js.DecimalText` | src/services/mailcow.service.js:22 | `String(n)` of an integer: a leading '-' exactly when it is negative, then decimal digits with no leading zero whose value is the magnitude of `n` |
| `Js.ToText` | src/services/mailcow.service.js:22-25 | `String(x)` as the URL template and the header value use it: a string is itself, a number its decimal text, an empty array "", any object "[object Object]" |
| `Js.Pieces` | src/services/mailcow.service.js:22-25 | what each array element contributes to `String()` of the array: one piece per element, `''` for `null` and the element's own `String()` otherwise |
| `Js.Joined` | src/services/mailcow.service.js:22-25 | `join(',')`: no parts give "", one part gives itself |
| `Js.JoinedAppend` | src/services/mailcow.service.js:22-25 | joining two non-empty lists of parts is joining each, with one comma between |
| `Js.ArrayText` | src/services/mailcow.service.js:22-25 | `String()` of two non-empty arrays put together is the text of the first, a comma, then the text of the second |
| `Js.Property` | src/services/mailcow.service.js:46 | reading a property of `null` throws a TypeError; any other value gives its own field or `undefined` |
| `Storage.KeyList` | src/services/storage.service.js:11 | a single key is visited as a one-element list, and an array of keys as itself |
| `Storage.GetItem` | src/services/storage.service.js:12 | `getItem` gives the stored text exactly for a key present, and `null` otherwise |
| `Storage.Read` | src/services/storage.service.js:12-17 | a stored text that parses gives the parsed value, one that does not gives the raw text, and a missing key reads as `null` |
| `Storage.Written` | src/services/storage.service.js:22-24 | after the `set` loop the store has the old keys plus every entry's key, and each key that no entry names keeps its old text |
| `Storage.WrittenAt` | src/services/storage.service.js:22-24 | after `set`, each key of the entries holds the JSON text of its value, and every other key keeps its stored text or stays absent |
| `Storage.ReadAfterWrite` | src/services/storage.service.js:9-24 | `get` after `set` returns, for every key set, the value that was set |
| `Storage.ReadUntouched` | src/services/storage.service.js:21-24 | `set` leaves every key outside its entries reading exactly as before |
| `Storage.ReadAfterClear` | src/services/storage.service.js:26-28 | after `clear` every key reads back as `null` |
| `Storage.LocalStorageFallback.constructor` | src/services/storage.service.js:7-8 | the fallback starts over the store the browser kept |
| `Storage.LocalStorageFallback.Get` | src/services/storage.service.js:9-20 | the result's keys are exactly the requested keys, and a single key counts as a one-element list; each value is what `Read` gives; it throws only when access is refused and there is at least one key |
| `Storage.LocalStorageFallback.Set` | src/services/storage.service.js:21-25 | the entries before the failing one are written in order and the rest are not; it throws exactly when some `setItem` fails |
| `Storage.LocalStorageFallback.Clear` | src/services/storage.service.js:26-28 | empties the store, or throws and changes nothing when access is refused |
| `Storage.StorageService.constructor` | src/services/storage.service.js:3-5 | the service keeps a freshly made fallback over the browser's store |
| `Storage.StorageService.Get` | src/services/storage.service.js:32-39 | when the store fails the result is `{}`; otherwise it is the fallback's record |
| `Storage.StorageService.Set` | src/services/storage.service.js:41-47 | never throws; the store holds whatever the fallback wrote before any failure |
| `Storage.StorageService.Clear` | src/services/storage.service.js:49-55 | never throws; the store is empty, or unchanged when access is refused |
| `Settings.IsConfigured` | src/services/settings.service.js:37-40 | for string fields, true exactly when both `mailcowUrl` and `apiKey` are non-empty |
| `Settings.GetCredentials` | src/services/settings.service.js:42-48 | succeeds exactly when `isConfigured` holds and then returns the settings unchanged; otherwise it throws 'Configuration manquante' |
| `Settings.FromStored` | src/services/settings.service.js:14-18 | each field is the value read under its key when that value is truthy, and `''` when it is missing or falsy |
| `Settings.Restored` | src/services/settings.service.js:14-18 | `init` from a readable store gives each field its `Read` value when truthy and `''` otherwise, and is configured exactly when both values read are truthy |
| `Settings.RestoredAfterSetMailcowUrl` | src/services/settings.service.js:13-23 | a persisted URL comes back on the next `init` (as `''` when falsy), and the API key comes back as before |
| `Settings.RestoredAfterSetApiKey` | src/services/settings.service.js:13-27 | a persisted API key comes back on the next `init`, and the URL comes back as before |
| `Settings.RestoredAfterClear` | src/services/settings.service.js:13-31 | after a successful `clear` the next `init` gives the `''` defaults, which are not configured |
| `Settings.SettingsStore.constructor` | src/services/settings.service.js:6-9 | the store starts at `{mailcowUrl: '', apiKey: ''}` |
| `Settings.SettingsStore.Init` | src/services/settings.service.js:13-19 | the record is what the store holds under both keys, each with the `''` default; it is the defaults when the store refuses access |
| `Settings.SettingsStore.SetMailcowUrl` | src/services/settings.service.js:20-23 | `{mailcowUrl: url}` is written to storage (unless the write fails), then `mailcowUrl` becomes `url` and `apiKey` is unchanged |
| `Settings.SettingsStore.SetApiKey` | src/services/settings.service.js:24-27 | `{apiKey: key}` is written to storage, then `apiKey` becomes `key` and `mailcowUrl` is unchanged |
| `Settings.SettingsStore.Clear` | src/services/settings.service.js:28-31 | the whole storage is cleared (unless access is refused) and both fields become `''`, so `isConfigured` is false |
| `Notifications.Without` | src/services/notification.service.js:24-28 | the result holds exactly the entries whose id differs from the removed one |
| `Notifications.WithoutAppend` | src/services/notification.service.js:25-27 | filtering distributes over concatenation, so the remaining entries keep their order |
| `Notifications.WithoutAbsent` | src/services/notification.service.js:25-27 | removing an id that no entry carries is a no-op |
| `Notifications.WithoutTwice` | src/services/notification.service.js:17-28 | a timer expiring after a manual `remove` of its id leaves the list unchanged |
| `Notifications.SameTickShareFate` | src/services/notification.service.js:9-20 | two entries added in the same clock tick share an id, so removing or expiring that id drops both |
| `Notifications.RemoveBeforeExpiry` | src/services/notification.service.js:8-28 | `add(m, 'info', 100)`, then `remove`, then the timer firing after 150 units, leaves the list empty |
| `Notifications.NotificationStore.constructor` | src/services/notification.service.js:4 | the list starts empty with no pending timer |
| `Notifications.Delay` | src/services/notification.service.js:17-21 | the delay `setTimeout` waits is the timeout modulo 2^32 when that lies below 2^31, and 0 otherwise (the signed 32-bit value, with negatives waiting 0); a timeout from 0 to 2^31-1 waits exactly its value |
| `Notifications.WrappedTimeoutFiresAtOnce` | src/services/notification.service.js:16-21 | a timeout of 2^32 or 2^31 is truthy, so a timer is scheduled, but it waits 0 |
| `Notifications.NotificationStore.Add` | src/services/notification.service.js:8-23 | appends `{id: now, message, type}` (type 'info' by default) after the existing entries; schedules an expiry exactly when the timeout (30000 by default) is non-zero, due after the delay `setTimeout` makes of it |
| `Notifications.NotificationStore.Remove` | src/services/notification.service.js:24-28 | the list loses every entry with that id; pending timers stay |
| `Notifications.NotificationStore.Expire` | src/services/notification.service.js:16-22 | a due timer fires once: the list loses every entry with its id and the timer is gone |
| `Mailcow.ApiError` | src/services/mailcow.service.js:31-33 | the thrown `Error` is "Erreur API: " followed by the status text, which the message gives back unchanged |
| `Mailcow.Authorized` | src/services/mailcow.service.js:22-29 | the URL is `mailcowUrl + "/api/v1/" + endpoint`; the headers are `X-API-Key` and `Content-Type: application/json` merged with the caller's, and the caller's headers win |
| `Mailcow.FetchWithAuth` | src/services/mailcow.service.js:18-40 | a request leaves exactly when the settings are configured; otherwise the 'Configuration manquante' error comes back unchanged; a non-ok reply throws 'Erreur API: ' plus the status text; a thrown failure is rethrown as is; an ok reply yields its body |
| `Mailcow.PropertyOfEach` | src/services/mailcow.service.js:46 | mapping a property over an array keeps its length and order, and fails exactly when some element is `null` |
| `Mailcow.Loaded` | src/services/mailcow.service.js:42-56 | an array answer gives the field of each element, in order and with the same length, and no notification; a non-array answer gives `[]` and no notification; any thrown error gives `[]` and one error notification |
| `Mailcow.DomainsInOrder` | src/services/mailcow.service.js:44-46 | two domain records answered in order give the two names in that order, with no notification |
| `Mailcow.AliasBody` | src/services/mailcow.service.js:78-82 | the body has exactly `address = alias + "@" + domain`, `goto = target` and `active = 1` |
| `Mailcow.AliasOptions` | src/services/mailcow.service.js:76-83 | the options of `createAlias`: method POST, no headers of its own, the alias object as body; `Mailcow.AliasRequest` states the request they produce |
| `Mailcow.ListRequest` | src/services/mailcow.service.js:44 | with credentials, a loader's request is a GET of `<url>/api/v1/<endpoint>` with only the two default headers and no body |
| `Mailcow.AliasRequest` | src/services/mailcow.service.js:76-83 | with credentials, `createAlias` POSTs that body to `<url>/api/v1/add/alias` with just the two default headers |
| `Mailcow.MailcowService.constructor` | src/services/mailcow.service.js:9-16 | both lists start empty, so unconfigured settings find them empty |
| `Mailcow.MailcowService.SettingsChanged` | src/services/mailcow.service.js:10-15 | when the new settings lack a URL or a key, both lists become `[]`; otherwise both lists stay as they were |
| `Mailcow.MailcowService.FetchList` | src/services/mailcow.service.js:42-72 | the loader body both loaders share: it sends the GET of `<url>/api/v1/<endpoint>` with the default headers exactly when configured, returns the `Loaded` list, and adds one 'error' notification with its 30000 expiry exactly when `Loaded` reports failure |
| `Mailcow.MailcowService.LoadDomains` | src/services/mailcow.service.js:42-56 | sends the GET of `<url>/api/v1/get/domain/all` exactly when configured; `domains` becomes the `Loaded` list for `domain_name` and `mailboxes` is unchanged; one 'error' notification with its 30000 expiry is added exactly on failure; lists stay empty while unconfigured |
| `Mailcow.MailcowService.LoadMailboxes` | src/services/mailcow.service.js:58-72 | sends the GET of `<url>/api/v1/get/mailbox/all` exactly when configured; `mailboxes` becomes the `Loaded` list for `username` and `domains` is unchanged; one 'error' notification is added exactly on failure |
| `Mailcow.MailcowService.CreateAlias` | src/services/mailcow.service.js:74-91 | sends a POST of the alias object to `<url>/api/v1/add/alias` with the default headers exactly when configured; returns the server's answer exactly when configured and the reply is ok, and otherwise rethrows the error; a missing configuration gives 'Configuration manquante'; exactly one notification is added: 'success' on success, 'error' on any failure |
| `Extension.Singletons.constructor` | src/services/mailcow.service.js:94 | the singletons start with the defaults, no notification and both lists empty |
| `Extension.Singletons.Init` | src/services/settings.service.js:13-19 | loads the settings, and the client empties both lists if they are unconfigured |
| `Extension.Singletons.SetMailcowUrl` | src/services/settings.service.js:20-23 | changes the URL only, and the client empties both lists when the result is unconfigured |
| `Extension.Singletons.SetApiKey` | src/services/settings.service.js:24-27 | changes the key only, and the client empties both lists when the result is unconfigured |
| `Extension.Singletons.ClearSettings` | src/services/settings.service.js:28-31 | resets the settings, and both lists become `[]` |

## Left out

- `chrome.storage.local` (storage.service.js line 4): it is a foreign
  browser API. The service always uses the fallback here.
- JSON encoding and decoding are abstract (`Js.Codec`, `Js.Lawful`).
  Numbers are integers, so floating point and its text forms are not
  modelled. `undefined` values are not modelled either: at top level
  `JSON.stringify(undefined)` returns `undefined`, so `setItem` stores the
  text "undefined"; inside an array the value is written as `null`, and
  an object property holding it is dropped.
- The `__proto__` key in a result object, and property lookup through
  prototypes, are not modelled.
- The real `fetch`, HTTP transport and `response.json()`. A body that
  fails to parse is one more `NetworkError` reply. The code returns
  `response.json()` without awaiting it, so such a failure skips the
  logging `catch` but still propagates, which the model keeps.
- Option fields other than `method`, `headers` and `body` are not modelled.
  Neither is `fetch`'s case-insensitive merging of header names.
- `console.error` logging, real `setTimeout` timing and `Date.now()`. They
  are replaced by the `now` argument and explicit `Expire` events.
- Overlapping asynchronous calls, for example settings changing while a
  load is in flight, are not modelled. Under such interleaving the invariant
  of `Mailcow.MailcowService.Valid` need not hold.
- Svelte store mechanics beyond "current value plus a synchronous reaction".
  Other subscribers (the UI) are not modelled.
- Notifications.NotificationStore.Add: the timeout is an integer or
  omitted. A non-number timeout such as `null` is not modelled (the
  default applies only to an omitted argument, and `null` is falsy, so no
  timer would be set). Neither is a fractional or NaN timeout. The `type`
  argument accepts any value in the source; the model's `Kind` has only
  'info', 'success' and 'error', which are the default and the only
  values the callers pass.
- Settings.SettingsStore.SetMailcowUrl: the contract gives the final
  storage and settings but not the order. Writing storage before updating
  the value is visible only in the method body.
- Settings.SettingsStore.SetApiKey: the same holds for the write of `apiKey`.
- `vite.config.js`, the UI and the extension manifest.
