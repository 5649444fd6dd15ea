# Projects and notes API: cache and handlers in Dafny

This project models the in-memory core of a small projects-and-notes HTTP
service. The service keeps projects, each holding a list of notes, and reads
through a time-to-live cache. The model covers three parts:

- **The cache wrapper** (`src/utils/cache.ts`). It namespaces keys as
  `prefix:key` and picks the ttl: the given one, or 900 s when none or 0 is
  given. It reads, writes and deletes single keys or lists of keys. Underneath
  it, the NodeCache library is an abstract store: a map from full key to a
  value and an absolute expiry instant, with at most 10000 entries. The clock
  is an explicit parameter `now`, in milliseconds.
- **The project handlers** (`src/controllers/projectController.ts`). The state
  is the `projects` table plus the shared cache. The table is a JavaScript
  `Map`, so it lists projects in insertion order. The handlers are:
  - `index`: read-through on `projects:all`.
  - `store`: insert a project, cache it, drop the listing.
  - `notesList`: parse and check the limit, then read through on
    `notes:<id>:limit:<n>`. The project comes from the cache or else from the
    table. The page is sorted newest first and cut with `slice`.
  - `storeNote`: append a note, re-cache the project, drop the listing.
- **The note handler** (`src/controllers/noteController.ts`). `update` finds a
  note only through the cached `projects:all` listing: the first project in
  list order holding the id, and the first position of the id in it. It
  rewrites that note's text in place.

Notes and projects are classes. Their objects are shared by reference among:

- the table;
- cached project entries;
- cached listings;
- cached note pages.

The cache does not clone (`useClones: false`). Because of this sharing, an edit
made through the cache is seen by the table.

Each handler is one atomic step. Four things the service generates or reads
from outside are parameters of the step:

- the clock;
- the fresh uuid;
- the creation instant;
- the result of `parseInt` on the limit query, with `None` standing for NaN.

Modules, one per file:

| module | file | models |
|---|---|---|
| `Types` | `types.dfy` | `ProjectType`, `NoteType`, `CacheOptions`, response bodies |
| `NodeStore` | `node_store.dfy` | the abstract bounded store with expiry |
| `CacheUtil` | `cache.dfy` | the wrapper: `getKey`, ttl choice, `get`, `set`, `del` |
| `Text` | `text.dfy` | `String.prototype.trim` and the decimal rendering of the limit |
| `ProjectControllers` | `project_controller.dfy` | the project handlers and the notes page |
| `NoteControllers` | `note_controller.dfy` | the note search and in-place update |
| `Scenarios` | `scenarios.dfy` | request sequences over one shared cache |

The cache stores JSON-like values (`Json`). A store invariant, `WellTyped`,
holds at every step:

- `projects:all` always holds a project list;
- every `project:` key holds a project.

This invariant is what makes the handlers' type casts on cache reads sound.

Behaviour of the code that the model makes explicit:

- Key namespaces are not isolated. `FullKeysCanCollide` gives three cases:
  - `("b:c", "a")` names the same entry as `("c", "a:b")`;
  - an unprefixed `project:x` names the same entry as `x` under `project`;
  - an empty prefix is no prefix.

  Only for one fixed prefix is key composition injective.
- `update` finds nothing when `projects:all` is missing or expired, even if
  the note exists (404).
- `storeNote` does not drop cached note pages. Within their 300 s ttl, a
  page may report fewer notes than the project holds
  (`NotesPageOutlivesNewNote`).

Two further points of the code's behaviour at the edges of the cache:

- An entry is still served at its exact expiry instant. The library expires
  an entry only once its expiry instant is strictly in the past, so the model
  serves it while `now <= expiresAt`.
- A ttl of 0 does not mean "never expires": the wrapper's `ttl || 900` turns
  it into the 900 s default.

## Model

| member | source | states |
|---|---|---|
| NodeStore.WriteKeepsBound | src/utils/cache.ts:14 | a write keeps the store within 10000 entries and adds at most one |
| NodeStore.RejectedWriteChangesNothing | src/utils/cache.ts:59-66 | a write is refused exactly when the store holds 10000 entries, and a refused write leaves the store unchanged, so `set` reports `false` |
| NodeStore.PruneIsUnobservable | src/utils/cache.ts:39 | dropping an expired entry on read changes no read at the same instant and only shrinks the store |
| NodeStore.RemoveKeysEffect | src/utils/cache.ts:78 | deletion removes exactly the named keys; remaining plus removed entries equal the old size; removed count is at most the number of keys |
| CacheUtil.FullKey | src/utils/cache.ts:32-34 | with a non-empty prefix the key is prefix, ':' and key; with none or "" it is the key itself |
| CacheUtil.FullKeyInjective | src/utils/cache.ts:33 | under one prefix, full keys are equal exactly when the keys are |
| CacheUtil.FullKeysCanCollide | src/utils/cache.ts:33 | distinct prefix/key pairs can name the same entry |
| CacheUtil.EffectiveTtl | src/utils/cache.ts:57 | a nonzero given ttl is used; a missing or zero ttl gives the default 900 |
| CacheUtil.FullKeys | src/utils/cache.ts:76 | every key of a list gets the same prefix, position by position |
| CacheUtil.FullKeysUnprefixed | src/utils/cache.ts:76 | without a prefix the full keys are the keys themselves |
| CacheUtil.KeyList | src/utils/cache.ts:75 | a single key becomes the one-element list; a list is used as it is |
| CacheUtil.DelOneIsDelList | src/utils/cache.ts:75-76 | `del(k)` and `del([k])` delete the same single full key |
| CacheUtil.DelCount | src/utils/cache.ts:78-83 | the count is at most the distinct full keys and the keys given; it is zero iff none is stored; afterwards every listed key reads as absent |
| CacheUtil.DelCountExample | src/utils/cache.ts:78-83 | deleting a, b, c with only a and c stored counts 2 |
| CacheUtil.SetThenGet | src/utils/cache.ts:54-59 | an admitted write is read back under the same key and prefix until its ttl elapses |
| CacheUtil.ExpiredIsAbsent | src/utils/cache.ts:36-47 | after the ttl of an admitted write the value reads as absent and the read drops it |
| CacheUtil.LastWriteWins | src/utils/cache.ts:59 | of two writes to one full key, the second decides value and expiry; if the store is full by then, the second is refused and the first stays |
| CacheUtil.Cache.Get | src/utils/cache.ts:36-52 | returns the live value under the full key, drops an expired one, keeps the bound |
| CacheUtil.Cache.Set | src/utils/cache.ts:54-71 | writes value and expiry now + ttl under the full key; returns whether the store admitted the write |
| CacheUtil.Cache.Del | src/utils/cache.ts:73-88 | removes every full key of the list and returns the number of entries removed |
| Text.Trim | src/controllers/noteController.ts:44 | the result is empty iff the text is all whitespace; otherwise it is the middle of the text, starting and ending with non-whitespace, with only whitespace cut away |
| Text.TrimIdempotent | src/controllers/noteController.ts:44 | trimming a trimmed text changes nothing |
| Text.TrimFixedPoint | src/controllers/noteController.ts:44 | trim leaves a text alone exactly when it is empty or neither end is whitespace |
| Text.NatToDecimal | src/controllers/projectController.ts:74 | at least one digit, only digits, no leading zero |
| Text.NatToDecimalRoundTrip | src/controllers/projectController.ts:74 | reading the digits back gives the number |
| Text.IntToDecimal | src/controllers/projectController.ts:74 | a leading '-' exactly for negative limits |
| Text.IntToDecimalRoundTrip | src/controllers/projectController.ts:74 | reading the signed notation back gives the integer, so distinct limits render differently |
| ProjectControllers.NotesCacheKey | src/controllers/projectController.ts:74 | the page key is `notes:<id>:limit:` followed by the limit in decimal |
| ProjectControllers.NotesCacheKeyInjective | src/controllers/projectController.ts:74 | for one project, two page keys are equal exactly when the limits are, so a page is never served for another limit |
| ProjectControllers.KeyFamiliesDisjoint | src/controllers/projectController.ts:74 | `project:<id>`, `projects:all` and `notes:<id>:limit:<n>` keys never coincide |
| ProjectControllers.ShrinkKeepsTyped | src/controllers/projectController.ts:90-92 | removing entries keeps the cached values' types |
| ProjectControllers.WriteKeepsTyped | src/controllers/projectController.ts:100-103 | a write of a project under a `project:` key or of a list under `projects:all` keeps the cached values' types |
| ProjectControllers.PageLimit | src/controllers/projectController.ts:62 | a parsed nonzero limit is used; NaN or 0 gives 10 |
| ProjectControllers.SliceEnd | src/controllers/projectController.ts:115 | `slice(0, limit)` ends at the limit capped by the length; a negative limit counts back from the end, stopping at 0 |
| ProjectControllers.MissingText | src/controllers/projectController.ts:141 | text is missing exactly when absent or all whitespace |
| ProjectControllers.InsertByDate | src/controllers/projectController.ts:108-110 | inserting into a newest-first list keeps it newest first and adds exactly that note |
| ProjectControllers.SortNewestFirst | src/controllers/projectController.ts:107-111 | the result is newest first and a permutation of the notes |
| ProjectControllers.NotesPageOf | src/controllers/projectController.ts:107-118 | the page is a newest-first prefix of the sorted notes, of `slice` length; `total` is the note count and `limit` is echoed |
| ProjectControllers.ValuesInOrder | src/controllers/projectController.ts:23 | the listing has one project per key, in key order |
| ProjectControllers.OrderAfterSet | src/controllers/projectController.ts:43 | `Map.set` leaves the key order alone for an existing key and appends a new key |
| ProjectControllers.SetKeepsOrder | src/controllers/projectController.ts:43 | `Map.set` keeps each key once: a new key goes last, an existing one keeps its place |
| ProjectControllers.ListingAfterSet | src/controllers/projectController.ts:43 | after inserting a new id the listing is the old one plus the new project at the end |
| ProjectControllers.CacheProjectDropListing | src/controllers/projectController.ts:45-50 | caches the project under `project:<id>` for 300 s, then deletes `projects:all` |
| ProjectControllers.ProjectController.Index | src/controllers/projectController.ts:13-32 | a live cached listing is returned and the cache is unchanged; otherwise the table's projects in insertion order are returned and cached for 300 s |
| ProjectControllers.ProjectController.Store | src/controllers/projectController.ts:34-57 | adds a fresh project with the id and name and no notes, listed last if new; answers 201 with it; caches it and drops `projects:all` |
| ProjectControllers.ProjectController.NotesList | src/controllers/projectController.ts:59-129 | 422 for no id, 400 for a limit above 50, both before any cache access; a live page is returned as is; 404 caches no page; otherwise the page of the cached or table project is returned and cached; stored note order is unchanged |
| ProjectControllers.ProjectController.StoreNote | src/controllers/projectController.ts:131-178 | 422, 400 or 404 change nothing; on success exactly one fresh note with the id, project id, trimmed text and instant is appended to that project only; the project is re-cached and `projects:all` deleted |
| NoteControllers.FindIndex | src/controllers/noteController.ts:29 | -1 iff no note has the id, otherwise the first position holding it |
| NoteControllers.FirstHolder | src/controllers/noteController.ts:27-35 | -1 iff no project holds the id, otherwise the first project in list order that does |
| NoteControllers.LiveProjects | src/controllers/noteController.ts:22-26 | a live `projects:all` entry yields the cached list; a miss yields the empty list |
| NoteControllers.FindNote | src/controllers/noteController.ts:18-36 | the loop finds the first holder and the first matching position, or null and -1 |
| NoteControllers.Target | src/controllers/noteController.ts:42 | the note the update edits carries the requested id |
| NoteControllers.EditNote | src/controllers/noteController.ts:27-45 | found iff some project holds the id; the target gets the new text; no other reachable note changes |
| NoteControllers.NoteController.ReadListing | src/controllers/noteController.ts:21-26 | reads `projects:all` without prefix; a miss is the empty list |
| NoteControllers.NoteController.Update | src/controllers/noteController.ts:9-53 | 400 for blank text with nothing read; otherwise 404 when the live cached listing holds no such note, 200 with the target's text trimmed; only that note changes; nothing is written to the cache; its own map is untouched |
| Scenarios.ListingIsReadThrough | src/controllers/projectController.ts:15-28 | the first listing returns the table's project and caches exactly that body; a second listing within the ttl returns it and writes nothing |
| Scenarios.NewProjectInvalidatesListing | src/controllers/projectController.ts:50 | a listing after a new project is the earlier listing with the new project appended |
| Scenarios.EditIsSharedThroughTheCache | src/controllers/noteController.ts:42-45 | the table sees the text an update wrote through the cached listing |
| Scenarios.NotesPageOutlivesNewNote | src/controllers/projectController.ts:164-169 | after a new note, the cached page is still served, reporting one note while the project holds two |

## Left out

- NodeCache internals are not modelled, because the library is not part of this model. This covers:
  - the 120 s background sweep, and the `deleteOnExpire` timer as such;
  - cloning;
  - the library's own ttl arithmetic.

  The store is abstract with these rules:
  - an entry is served while `now` is at most its expiry `now + ttl * 1000`;
  - a read drops an expired entry;
  - at 10000 entries every write is refused, an overwrite of a stored key included, and expired-but-unswept entries count. This follows node-cache's `set`, which checks the key count before it looks at the key and throws `ECACHEFULL`; the wrapper turns that into `false`. The library's source is not part of this model, so this rule is the model's reading of it.
- Negative ttls are not modelled separately. They are stored as `now + ttl * 1000` like any other, whatever the library does with them.
- Fractional ttls and limits are not modelled, because JavaScript numbers are floating point. The model uses integers.
- The `try`/`catch` fallbacks of `get`, `set` and `del` are not modelled as such. The only failure the model has is a rejected write (`set` returns `false`). Other library faults, and the handlers' `next(error)`, are not modelled.
- Event listeners and `console` logging are left out, because they are observability only.
- Express plumbing, routes, server start-up, configuration and the zod schemas are left out, because they are HTTP wiring and input validation. Handler inputs are taken as given.
- `parseInt`, `uuidv4` and `new Date` are parameters, not generators. They are the parsed limit (`None` for NaN), the fresh id and the creation instant in milliseconds.
- Concurrent or interleaved requests are left out. Each handler is one atomic step.
- `CacheStats` is left out, because no code uses it.
- A project whose `notes` was never created is represented by the empty list. Every handler treats the two alike.
- ProjectControllers.SortNewestFirst: the contract states order and permutation only. The insertion sort keeps equal instants in their original order, as JavaScript's stable sort does, but no lemma states this stability.
- ProjectControllers.ProjectController.NotesList: the error responses' message texts are not stated in the contract, only their status codes.
- ProjectControllers.ProjectController.StoreNote: the contract states the success status, not the success message text.
- NoteControllers.NoteController.Update: the contract states the status codes, not the message texts.
