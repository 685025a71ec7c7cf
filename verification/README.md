# Extension cookie and window handlers, modelled in Dafny

This project models the two browser-side handlers of an Electron library that
emulates the Chrome extension APIs `chrome.cookies` and `chrome.windows`.

- `cookies.dfy` (module `CookiesHandler`) covers the cookie adapter. It
  translates a host cookie into the extension's cookie shape. That shape always
  has `sameSite` "no restriction" and store id `"0"`. The adapter remaps the
  host's change causes through a fixed table. It computes what each call
  (`get`, `getAll`, `set`, `remove`) settles with from the single reply the
  host's cookie store gives it. The host reply is an input. The host's
  `changed` listener is a method of class `Cookies`: each call appends exactly
  one `OnChanged` event to the adapter's event log.
- `windows.dfy` (module `WindowsHandler`) covers the window registry adapter.
  Class `Windows` holds three things:
  - the set of window ids it created itself (`tracked`);
  - the host's windows as a sequence of `(id, focused, size, position)`
    records, in the host's enumeration order, with distinct ids and at most one
    focused;
  - the log of emitted events.

  The queries `get`, `getCurrent`, `getLastFocused` and `getAll` are functions
  over that state. They look at every host window, tracked or not. `create`,
  `update` and `remove` are methods that change the state. Only `create` adds
  to `tracked`, and only `remove` takes from it. `update` and `remove` act only
  on tracked ids.
- `wrappers.dfy` holds `Option`, which stands for an optional JavaScript value
  (`undefined`/`null`).

JavaScript truthiness of an optional number is modelled explicitly. `Truthy`
means "present and not zero". So `width || 800` gives 800 both when the width
is absent and when it is 0. The same truthy test decides the fallbacks in
`update`.

Two behaviours of the code matter to callers:
- `set` and `remove` report `storeId: null`, while translation uses `"0"`.
- `get` resolves a second time with `null` after resolving with a found cookie.
  A promise settles only once, so that later `resolve(null)` has no effect. The
  model gives `get` a single result: the first one. `null` is the Chrome
  extension platform's "no such cookie" value, which the code quotes at
  `src/browser/handlers/cookies.ts:54-55`.

## Model

| member | source | states |
|---|---|---|
| CookiesHandler.RemapCause | src/browser/handlers/cookies.ts:10-16 | the cause table is the identity on explicit, overwrite, expired and evicted, maps expired-overwrite to expired_overwrite, and yields a value exactly for those five host causes |
| CookiesHandler.RemapCauseInjective | src/browser/handlers/cookies.ts:10-16 | distinct host causes get distinct extension causes, and no extension cause contains a hyphen |
| CookiesHandler.Translate | src/browser/handlers/cookies.ts:123-149 | name, value, domain, hostOnly, path, secure, httpOnly, session and expirationDate are copied; sameSite is always NoRestriction and storeId always "0" |
| CookiesHandler.TranslateForgetsOnlySameSite | src/browser/handlers/cookies.ts:123-149 | two host cookies translate alike exactly when they differ at most in their host sameSite value |
| CookiesHandler.TranslateAll | src/browser/handlers/cookies.ts:71 | the translated list has the host list's length and translates each element at the same position |
| CookiesHandler.GetFilter | src/browser/handlers/cookies.ts:43-47 | get queries the host with the url and name only |
| CookiesHandler.GetAllFilter | src/browser/handlers/cookies.ts:63-68 | getAll queries the host with url, name, domain, path, secure and session from its arguments |
| CookiesHandler.SetRequest | src/browser/handlers/cookies.ts:81-85 | set writes url, name, value, domain, path, secure, httpOnly and expirationDate, and drops sameSite and storeId |
| CookiesHandler.HandleGet | src/browser/handlers/cookies.ts:42-59 | get yields a cookie exactly when the host reply has at least one cookie, and that cookie is the first one translated; otherwise null |
| CookiesHandler.HandleGetAll | src/browser/handlers/cookies.ts:62-77 | getAll yields [] when the host reply is absent, otherwise a list of the reply's length in the same order, each element translated |
| CookiesHandler.GetIsFirstOfGetAll | src/browser/handlers/cookies.ts:45-76 | for one host reply, get yields the first element of what getAll yields, or null when getAll yields [] |
| CookiesHandler.HandleSet | src/browser/handlers/cookies.ts:80-104 | set yields undefined exactly when the host reports an error; otherwise it echoes name, value, domain, path, secure, httpOnly and expirationDate from its input with storeId null |
| CookiesHandler.SetEchoesWrite | src/browser/handlers/cookies.ts:81-100 | a successful set reports back exactly the fields it wrote to the host |
| CookiesHandler.HandleRemove | src/browser/handlers/cookies.ts:107-118 | remove always yields its input's url and name with storeId null; the host's outcome is never consulted |
| CookiesHandler.Cookies.constructor | src/browser/handlers/cookies.ts:21-24 | a new cookie adapter has emitted no event |
| CookiesHandler.Cookies.OnHostChanged | src/browser/handlers/cookies.ts:25-38 | each host change notification appends exactly one OnChanged event carrying the translated cookie, the remapped cause and the unchanged removed flag |
| WindowsHandler.FindWindow | src/browser/handlers/windows.ts:159-163 | finds the first host window with the id, and finds none exactly when no host window has it |
| WindowsHandler.FindFocused | src/browser/handlers/windows.ts:40 | finds a focused host window, and finds none exactly when no host window is focused |
| WindowsHandler.Visible | src/browser/handlers/windows.ts:77-86 | the filtered list is no longer than the host's list |
| WindowsHandler.VisibleMembers | src/browser/handlers/windows.ts:77-86 | the filtered list holds exactly the snapshots of host windows whose id is a candidate |
| WindowsHandler.KeptPositionsAlign | src/browser/handlers/windows.ts:77-86 | the filtered list has one entry per kept host position, and its k-th entry is the snapshot of the host window at the k-th kept position |
| WindowsHandler.KeptPositionsMatch | src/browser/handlers/windows.ts:78 | every kept host position holds a window whose id is a candidate |
| WindowsHandler.KeptPositionsIncrease | src/browser/handlers/windows.ts:77-86 | the kept host positions strictly increase, so the filter keeps the host's enumeration order |
| WindowsHandler.KeptPositionsCover | src/browser/handlers/windows.ts:77-86 | every host window whose id is a candidate is at a kept position, so the filter drops none |
| WindowsHandler.VisibleIsOrderedSelection | src/browser/handlers/windows.ts:77-86 | the filtered list is the snapshots at strictly increasing host positions covering every candidate window: the host's order is kept and nothing is invented |
| WindowsHandler.CreateSize | src/browser/handlers/windows.ts:92-94 | a new window is 800 wide and 600 high unless a truthy width or height is given, so an absent value or 0 gets the default |
| WindowsHandler.CreatePosition | src/browser/handlers/windows.ts:95-96 | left and top are passed on as given, zero included; without both the host chooses |
| WindowsHandler.Updated | src/browser/handlers/windows.ts:123-133 | each truthy width, height, left or top is applied and each other one falls back to the current value; id and focus are kept; with no update info nothing changes |
| WindowsHandler.Windows.constructor | src/browser/handlers/windows.ts:19-22 | a new adapter tracks no window and has emitted nothing |
| WindowsHandler.Windows.HandleGet | src/browser/handlers/windows.ts:24-37 | get yields a snapshot exactly when some host window, tracked or not, has the id; the snapshot has that id and the window's focus, with incognito and alwaysOnTop false; otherwise {} |
| WindowsHandler.Windows.HandleGetCurrent | src/browser/handlers/windows.ts:39-52 | getCurrent yields the focused host window's snapshot with focused true, or {} exactly when no window is focused |
| WindowsHandler.Windows.HandleGetLastFocused | src/browser/handlers/windows.ts:54-67 | getLastFocused always yields the same as getCurrent |
| WindowsHandler.Windows.Candidates | src/browser/handlers/windows.ts:73-75 | a host window's id is a candidate exactly when the window is tracked or focused |
| WindowsHandler.Windows.GetAllIsOrderedSelection | src/browser/handlers/windows.ts:69-87 | getAll is the snapshot of each tracked or focused host window, at strictly increasing host positions that cover every such window |
| WindowsHandler.Windows.HandleGetAll | src/browser/handlers/windows.ts:69-87 | getAll lists exactly the snapshots of host windows that are tracked or focused |
| WindowsHandler.Windows.HandleCreate | src/browser/handlers/windows.ts:89-113 | without create data the call throws before anything changes; otherwise it appends the new host window with the defaulted size, adds its id to the tracked set, and emits exactly one OnCreated whose payload is the returned snapshot |
| WindowsHandler.Windows.HandleUpdate | src/browser/handlers/windows.ts:115-145 | update on a missing or untracked id yields {} and changes nothing; on a tracked window it replaces only that window by its updated form and yields its snapshot; tracked set and events never change |
| WindowsHandler.Windows.HandleRemove | src/browser/handlers/windows.ts:147-157 | remove on a tracked window the host has closes it, drops its id and emits exactly one OnRemoved; otherwise nothing changes |
| WindowsHandler.RemoveTwice | src/browser/handlers/windows.ts:147-157 | two removes of the same id leave the host windows, the tracked set and the event log as one remove does: the second is a no-op, and at most one OnRemoved is emitted |
| WindowsHandler.CreateThenRemove | src/browser/handlers/windows.ts:89-157 | a created window is listed by getAll; after its removal no listed window has its id, and the two calls emitted exactly OnCreated and then OnRemoved |

## Left out

- Electron itself is not part of this model. The host's windows are the sequence field `host`. Its window operations (`getAllWindows`, `getFocusedWindow`, `isFocused`, `getSize`/`setSize`, `getPosition`/`setPosition`) are reads and updates of that sequence. Its cookie store is represented only by its replies.
- `Windows.HandleCreate`: `loadURL` is not modelled, because window content is owned by the host. The host decides three things, which are parameters: the new window's id, whether it reports focused, and its position when `left` and `top` are not both given. The model appends the new window at the end of the host's list.
- `Windows.HandleRemove`: `close()` is modelled as the window leaving the host's list at once. A page that cancels its own unload is not modelled.
- `Windows.HandleUpdate`: size and position are set exactly as requested. Host limits such as a minimum window size are not modelled.
- `Truthy`: `NaN` is not modelled, because numbers are integers here. Cookie expiration dates are only copied, so they are exact `real` values.
- Windows closed by the host on its own, and listener teardown: the code handles neither. A stale tracked id is allowed by the model's state, and every operation treats it as the code does.
- The `extensionId` that the unseen `Handler` base attaches to emitted events, and the transport that delivers them, are not part of this model. Emitting means appending to the `events` log.
- Promise and callback plumbing: each handler is one value computed from one host reply.
- `handleGetAllCookieStores` is an empty stub. The permission-check comment has no behaviour.
- How the host matches a cookie by url, name, domain and path is not modelled. So "`set` then `get` returns the written value" cannot be stated here.
