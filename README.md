# Portfolio backend: a Dafny model of its request handling

The backend serves a personal portfolio. It has six tables: users, websites,
music works, contributions, skills and education. Each of the five content
kinds carries a `user_id` owner column, and every piece of content is meant
to belong to one account, `ANDREW_USER_ID = 1`. The backend offers:

- list routes per kind, filtered to that owner;
- create routes that force the owner;
- one item route per kind, `/<kind>/<id>`, where GET reads and PUT loads the
  row, lays the JSON body over it and saves it;
- a skill delete route;
- a password login that issues a token.

Every create, delete and item route sits behind a bearer-token gate. The
website list is read through a five-minute cache. A successful update, and a
website create, fire a revalidation request at the site generator.

The model is in six files:

- `wrappers.dfy` (`Wrappers`): `Option` and `Result`.
- `gotext.dfy` (`GoText`): Go's `strings.Split` with a one-character
  separator, and `strconv.Atoi`.
  - `Join` inverts `Split`, and both round trips are proved: `JoinOfSplit`,
    and `SplitOfJoin` for separator-free pieces.
  - `Itoa` is a right inverse of `Atoi`: `AtoiOfItoa` proves that every
    integer in decimal reads back as itself. The other direction does not
    hold, because `Atoi` also accepts "007", "+5" and "-0".
- `models.dfy` (`Models`): the six record types, the closed set of content
  kinds and their path names, the `Record` union the item routes work on, and
  JSON decoding of a body onto a record (`Overlay`). A body is a map from
  keys to string or number values. A body that fails to decode is the empty
  map.
- `storage.dfy` (`Storage`): the database behind `gorm`.
  - Each content table is a map from primary key to row, plus an
    auto-increment counter.
  - `Condition` says how an id string from a URL becomes a condition. An
    `Atoi` number selects by key. The empty string adds no condition, so
    every row matches and `First` returns the lowest key. Any other text is
    raw SQL.
  - `First`, insert, save and the owner filter are defined here.
- `handlers.dfy` (`Handlers`): the handlers.
  - Their decisions are pure functions returning a `Response`: status, body
    and a `notify` flag for the revalidation request. These are `Resolve`,
    `GetResourceById`, `PlanUpdate`, `DeleteSkillStep` and `Login`.
  - The writes are methods of the `Store` class. Its fields are the user
    table and the five content tables. Its methods take the new state from
    those functions.
- `server.dfy` (`Server`): `main.go`.
  - The `Cache` class has a map of items with expiry times and an explicit
    nanosecond clock.
  - `AuthGate` is the header check. Token verification is an opaque
    parameter.
  - `RouteOf` is the route table. `HandleResource` is the GET/PUT switch.
  - `Serve` ties the route, the gate and the handler together.

Outside effects are parameters. The storage engine's failures are the
`fault`/`saveFault` flags. Password checking (bcrypt) is `passwordMatches`.
Token issue is `issue`, and token parsing is `check`. The cache's clock is
`Cache.now`. The cache's fetch function is an argument.

Some behaviour of the code is not what its own comments or its sibling
functions suggest. The model follows the code:

- **Create errors are ignored.** The comment at handlers.go:119 says the
  revalidation fires "after successful creation". But `go
  triggerRevalidation()` on line 120 runs unconditionally, and the result of
  `db.Create` on line 116 is never read. So `Store.Create` still answers 200
  when the insert fails, and a website create still notifies.
- **MusicWork keeps the caller's owner.** The other four creates set
  `UserID` before `db.Create` (handlers.go:66, 115, 132, 175).
  `CreateMusicWork` sets it after the insert (handlers.go:80-81). The stored
  row keeps the body's `user_id`, or 0 when the body has none, and only the
  response shows 1. The music list shows only owner 1, so a music work
  created from a body without `user_id`, or with one other than 1, is not
  listed after the create (`MusicWithoutOwnerIsUnlisted`). A later update
  whose body sets `user_id` to 1 makes it listed.
- **Route handlers ignore the method.** These handlers do not look at the
  HTTP method: the list routes, the login for anything but OPTIONS, the
  create handlers (handlers.go:50-178) and `DeleteSkill`
  (handlers.go:137-164). `RouteOf` does not take a method, and `Serve` runs
  a create or a delete for any method.
- **"Bad path" is wider than 400.** The item handlers reject only paths that
  do not split into exactly three parts. `/websites/` is three parts with an
  empty id. The storage library then adds no condition and returns the
  lowest-keyed row (`ResolveEmptyId`).

## Model

| member | source | states |
|---|---|---|
| GoText.Split | handlers.go:225 | there is one more piece than separators, and no piece holds the separator |
| GoText.JoinOfSplit | handlers.go:225 | joining the pieces of a split with the separator gives back the input |
| GoText.SplitOfJoin | main.go:42 | splitting a join of separator-free pieces gives back exactly those pieces |
| GoText.Atoi | handlers.go:239 | a string parses exactly when it is digits with an optional sign, and its value is the digits' value, negated after a minus |
| GoText.AtoiOfItoa | handlers.go:239 | every integer written in decimal is read back as itself, so `/kind/<n>` names key n |
| Models.ParseKind | handlers.go:236-259 | a resource-type segment resolves only to the kind whose path name it is |
| Models.ParseKindExact | handlers.go:236-259 | a segment is accepted as kind k if and only if it is k's path name; any other segment, `users` included, is refused |
| Models.FieldDomain | models.go:13-56 | a row has a text column for a JSON key exactly when the key is one of its kind's JSON tags |
| Models.Overlay | handlers.go:292 | decoding a body onto a row keeps the row's kind and primary key |
| Models.OverlayFields | handlers.go:289-295 | after decoding, a column whose key carries a string takes it, and every other column keeps its stored value |
| Models.OverlayOwner | handlers.go:289-295 | an in-range `user_id` number in the body replaces the owner; an absent key, a string, a negative number or one of 2^64 or more keeps it |
| Models.OverlayEmpty | handlers.go:292 | a body that does not decode (the empty object) changes nothing |
| Models.Zero | handlers.go:64-65 | a fresh record has key 0, owner 0 and empty text in every column |
| Models.DecodeUser | models.go:6-11 | a user decoded from a body takes its `Email` string, is empty without one, and has no key yet |
| Models.InsertKeepsUniqueEmails | models.go:9 | adding a user keeps the emails unique if and only if no row under another key holds its email |
| Storage.Condition | handlers.go:239 | an id string is a key condition exactly when Atoi reads it, no condition exactly when empty, raw SQL otherwise |
| Storage.LowestFrom | handlers.go:239 | the result is the least member of the set in the range, or the range holds no member |
| Storage.First | handlers.go:262-269 | a lookup fails exactly on an engine fault or raw SQL; otherwise it finds the lowest-keyed matching row, or reports not found when no row matches |
| Storage.Inserted | handlers.go:67 | an insert adds exactly the next key, under which a row of the given kind, owner and columns is stored; every other row is kept and the counter advances |
| Storage.InsertedOk | handlers.go:67 | an insert keeps the table well keyed and moves no existing row |
| Storage.Saved | handlers.go:293 | a save puts the row under its own key, keeps every other row and the counter, and adds no other key |
| Storage.SavedOk | handlers.go:293 | saving a loaded row keeps the table well keyed and its key set unchanged |
| Storage.KeyOf | handlers.go:148 | the key a delete names is the Atoi value when that is non-negative |
| Storage.Owned | handlers.go:59 | the list holds exactly the rows whose owner is the distinguished account, unchanged |
| Handlers.Resolve | handlers.go:224-269 | a path that is not three parts gives 400 "Invalid URL"; a rejection is 400/404/500 and never notifies; a success is the stored row under its key, for a three-part path whose middle part names its kind |
| Handlers.ResolveRejectsBeforeLookup | handlers.go:225-259 | a path that is not three parts, or names no kind, gets the same 400 whatever the store holds or whether it fails |
| Handlers.NoSlashInItoa | handlers.go:231 | a decimal id never holds a slash, so it stays one path segment |
| Handlers.ItemPathSplits | handlers.go:225-231 | `/<kind>/<id>` splits into the empty root, the kind name and the id |
| Handlers.ResolveById | handlers.go:236-269 | loading `/<kind>/<n>` gives 500 on an engine fault, else the row under key n, else 404 |
| Handlers.ResolveEmptyId | handlers.go:239 | loading `/<kind>/` is 404 exactly for an empty table, and otherwise gets the lowest-keyed row |
| Handlers.GetResourceById | handlers.go:224-273 | GET never notifies; a 200 carries exactly the stored row under its key, of the kind the path names; a path that is not three parts is 400 "Invalid URL"; any other answer is 400, 404 or 500 |
| Handlers.GetById | handlers.go:262-272 | GET `/<kind>/<n>` on a healthy store returns the stored row, or 404 when key n is missing |
| Handlers.PlanUpdate | handlers.go:275-331 | an update either answers 400/404/500 without notifying and without saving, or saves a row of the kind the path names under an existing key; a path that is not three parts is 400 "Invalid URL" before any lookup |
| Handlers.UpdateById | handlers.go:287-340 | PUT `/<kind>/<n>` with no row n answers 404 and saves nothing; otherwise it saves the stored row with the body laid over it |
| Handlers.UpdateMerges | handlers.go:289-295 | the saved row keeps its key; columns the body carries are overwritten and the others keep their stored values; the owner changes only to an in-range `user_id` number |
| Handlers.NewRow | handlers.go:63-69 | a created row is of the requested kind and has no key before the insert |
| Handlers.NewRowOwner | handlers.go:112-116 | website, contribution, skill and education rows are stored under owner 1 whatever `user_id` the body carries |
| Handlers.MusicKeepsBodyOwner | handlers.go:77-83 | a music row is stored with the body's `user_id` (0 without one), while the response shows owner 1 |
| Handlers.MusicWithoutOwnerIsUnlisted | handlers.go:71-83 | a music work created from a body whose `user_id` is absent or not 1 is not in the music list after the create |
| Handlers.NewRowFields | handlers.go:172-177 | each text column of a created row is the body's string or empty; dates get no format or ordering check |
| Handlers.CreateReply | handlers.go:63-121 | a create answers 200 with the row as inserted, whether or not the insert succeeded; a music work is shown with owner 1; exactly a website create notifies |
| Handlers.CreatedIsListed | handlers.go:57-69 | content of a forced-owner kind created from any body appears in its list under its new key, and the rest of the list is unchanged |
| Handlers.DeleteSkillStep | handlers.go:137-164 | an empty id gives 400 and no change; a 200 removes exactly the named row; 404 exactly for a well-formed id naming no row; every failure leaves the table unchanged |
| Handlers.DeleteSkillById | handlers.go:147-163 | deleting skill n removes row n and nothing else, or answers 404 although the delete reported no error |
| Handlers.FindByEmail | handlers.go:198-202 | the user found is the lowest-keyed row holding the email; no user found means an engine fault or no such email |
| Handlers.Login | handlers.go:180-222 | OPTIONS answers 200 without reading the store; every 401 is the same "Invalid credentials"; a token is returned only for a user with that email whose password matches |
| Handlers.LoginSucceeds | handlers.go:198-221 | the right email and password, with unique emails and a signer that succeeds, get 200 and the token issued for that user |
| Handlers.LoginFailuresAlike | handlers.go:198-207 | an unknown email and a wrong password get the same 401 answer |
| Handlers.Store.constructor | handlers.go:25-33 | on a new database file, the migrated tables start empty and well formed |
| Handlers.Store.GetUsers | handlers.go:44-48 | the user list holds every stored user of any owner, each as stored, and no two listed users share an email |
| Handlers.Store.List | handlers.go:57-61 | a content list holds exactly the rows owned by the distinguished account, each exactly as stored |
| Handlers.Store.Create | handlers.go:63-69 | a create inserts the decoded row under the next key (no change on an insert error) and answers with that row; users are left alone |
| Handlers.Store.CreateUser | handlers.go:50-55 | a user with a new email is inserted under the next key; a taken email leaves the table unchanged, keeping emails unique |
| Handlers.Store.UpdateResource | handlers.go:275-347 | state and answer follow PlanUpdate; a failing save answers 500 and changes nothing; a save notifies |
| Handlers.Store.DeleteSkill | handlers.go:137-164 | only the skills table changes, exactly as DeleteSkillStep decides |
| Server.LiveValue | main.go:21 | a cached entry answers, with its stored value, exactly while the clock has not passed its expiration, or always when that expiration is 0 or less |
| Server.Cache.constructor | main.go:18 | a new cache holds no items, and its clock starts at the given time |
| Server.LiveValueAfterSet | main.go:30-31 | after a set at time t the key answers its value until t + 5 minutes and not after, and other keys are untouched |
| Server.Cache.GetCachedData | main.go:20-32 | a hit returns the cached value without fetching; a failed fetch changes nothing; a successful fetch is stored under the key alone for the TTL |
| Server.ListWebsitesTwice | main.go:18 | after a fetched website list, a second list within the TTL is served from the cache with the same rows, and one after the TTL fetches again |
| Server.GetWebsites | handlers.go:85-110 | the website list goes through the cache under "websites"; a failing query answers 500 and is not cached |
| Server.AuthGate | main.go:34-67 | an empty header gives 401 "Authorization header is required"; every rejection is a 401 |
| Server.GatePassesIff | main.go:42-66 | the wrapped handler runs if and only if the header is "Bearer", one space and a space-free token that verifies |
| Server.GateRejectsMalformed | main.go:42-46 | a lower-case "bearer" and a double space are both refused |
| Server.RouteOf | main.go:81-105 | a route is wrapped exactly when it is not the login or a list route |
| Server.ListRoute | main.go:83-87 | each kind's list path routes to its list, unwrapped |
| Server.CreateRoute | main.go:91-95 | each kind's create path routes to its create, wrapped |
| Server.ItemRoute | main.go:101-105 | each item path `/<kind>/<id>` routes to the item handler, wrapped |
| Server.ItemActionOf | main.go:129-138 | GET goes to get-by-id, PUT to update, and any other method to 405 |
| Server.HandleResource | main.go:129-138 | GET answers the get-by-id result and changes nothing; PUT does the update; any other method is 405 with no change |
| Server.Serve | main.go:76-105 | an unknown path is 404; a wrapped route with a bad header is answered by the gate; the store changes only behind a gate that let the request through |

## Left out

- SQLite and gorm internals. Storage is an in-memory table per kind. Schema
  migration and the admin-row warning at start-up are not modelled.
- Key allocation. A per-table counter stands for SQLite's rowid allocation.
- Timestamps. `CreatedAt` and `UpdatedAt` are not modelled.
- Soft delete. A soft-deleted skill simply leaves its table.
- Raw SQL ids. In the storage library, an id that `Atoi` refuses becomes
  raw SQL. The model treats it as a storage error (500), and does not
  evaluate an id that happens to be a valid SQL condition, such as `1=1`.
  This covers the id segment of the item routes and the `id` query
  parameter of `DeleteSkill` (handlers.go:148).
- Handlers.DeleteSkillStep: "a 200 removes exactly the named row" holds
  only under the raw-SQL simplification above. In the source, an `id` such
  as `1.0`, `5 ` or `1=1` is a condition SQLite accepts. It soft-deletes
  every skill it matches, and the handler still answers 200.
- Atoi range. Go's Atoi refuses numbers outside 64 bits, and such an id then
  becomes raw SQL. The model's Atoi accepts any length.
- Unsigned column widths. Ids and owners are unbounded naturals. Only the
  JSON decoder's `uint` range check on `user_id` is modelled.
- JSON key matching. Go matches keys case-insensitively; the model matches
  the exact tag (or the Go field name for User).
- Other JSON details. These are not modelled: `null` values, fractional
  numbers, and a body that sets the embedded `ID` or timestamp fields. A
  body with a syntax error assigns nothing, so it is the empty object. A
  value of the wrong type skips its field, as Go's decoder does.
- JWT and bcrypt. Signing, parsing, the HMAC algorithm check and the 24-hour
  expiry are opaque parameters (`check`, `issue`, `passwordMatches`).
- `triggerRevalidation`. Its outbound POST, environment lookups and logging
  are I/O in a goroutine. Only the `notify` flag is kept.
- go-cache internals. The background sweep and thread safety are not
  modelled, and neither is the type assertion on the cached value, which
  always holds because only `[]Website` is stored.
- Other I/O. CORS headers, environment variables, `init`, `ListenAndServe`,
  logging and the unreachable lines after `log.Fatal` (main.go:122-126) are
  not modelled.
- ServeMux. Path cleaning, redirects and general longest-prefix matching are
  left out. `RouteOf` reads the registered patterns segment by segment.
- List order. A list is a map keyed by id, so its JSON order is not
  modelled.
- List errors. Storage errors on the lists other than websites are ignored
  by the source, and the modelled lists cannot fail.
- Server.Serve: its contract states routing, gating and which state may
  change, not each handler's answer; those are stated by the handler
  members it calls.
- Handlers.Login: a failing email lookup is one `fault` flag, and the token
  issuer is one function of the user id that stands for signing at the
  current time.
