# Eczema resource store, modelled in Dafny

The backend canister of the eczema awareness app keeps short informational entries
("resources") in memory. Its state is three thread-local cells: a hash map from `u64` id to
`EczemaResource`, a counter `NEXT_ID` that starts at 1, and an optional `ADMIN` principal.
Callers can create, read, update and delete resources. They can also list resources, filter
them by category, search title and description case-insensitively, and set the admin. Only
the admin may mark a resource as verified.

This project models that store and proves its contracts:

- `types.dfy` (module `Types`): the records and enums. `Resource` stands for `EczemaResource`,
  `Category` for `ResourceCategory`, `Payload` for `CreateResourcePayload` and `Error` for
  `EczemaError`, which includes `InvalidInput(message)`. `Result` is the failure-compatible
  result type, so `:-` plays the part of Rust's `?`.
- `text.dfy` (module `Text`): `Utf8Len` is the UTF-8 byte length that `str::len` returns.
  `Lower` is ASCII lowercasing. `Contains` is substring search, proved equal to "the needle
  occurs at some position".
- `guards.dfy` (module `Guards`): `ValidateInput` and `IsAdmin`.
- `queries.dfy` (module `Queries`): the read-only operations, as functions over the map.
  `GetResource` and `Filter` are compiled functions. `ListResources`, `ListResourcesByCategory`
  and `SearchResources` are ghost functions, because their key choice uses `:|`, which
  compiled code may use only when the choice is unique. `ListResources` returns the map's values in an order left unspecified: it is built from an
  arbitrary key choice, like hash-map iteration. For that reason the contracts of the listing,
  the category filter and the search talk about membership and multiplicity, not order.
- `store.dfy` (module `Store`): class `ResourceStore`. Its fields `resources`, `nextId` and
  `admin` are the three cells. A ghost field `issued` records every id handed out so far.
  The invariant `Valid()` says three things: every key equals its value's `id`; every key was
  issued; and the issued ids are exactly `1 .. nextId-1`. Every mutating method keeps
  `Valid()` and states the whole new state. Two client methods, `Scenario` and
  `DeleteThenCreate`, run on a fresh store and show what callers can derive from those
  contracts.

The system clock (`get_timestamp`) is replaced by a parameter `now`. The message caller
(`ic_cdk::caller()`) is replaced by a parameter `caller`.

The error messages speak of 1-100 and 1-500 *characters*, but the code compares `str::len`,
which counts UTF-8 bytes. The model follows the code. `Guards.TitleLimitCountsBytes` shows that
a title of 51 two-byte characters is rejected. `Guards.AsciiLimitsAreCharacters` shows that for
ASCII text the two readings agree.

A save/restore round trip across an upgrade is not something this code shows (see "Left out").

## Model

| member | source | states |
|---|---|---|
| `Text.Utf8Len` | app/src/app_backend/src/lib.rs:60-63 | the byte length lies between the number of characters and four times that number; it is zero exactly for the empty string, so `is_empty` and "length 0" agree |
| `Text.Utf8LenAscii` | app/src/app_backend/src/lib.rs:60-63 | for ASCII text the byte length equals the character count |
| `Text.Utf8LenTwoByte` | app/src/app_backend/src/lib.rs:60-63 | text made only of two-byte characters has twice as many bytes as characters |
| `Text.Contains` | app/src/app_backend/src/lib.rs:195-196 | the substring test is true exactly when the needle occurs at some position of the haystack, so the empty needle is found everywhere |
| `Text.Lower` | app/src/app_backend/src/lib.rs:189 | the result has the same length as the input, and each character is lowered by `LowerChar` (ASCII-only `to_lowercase`) |
| `Text.OccursLower` | app/src/app_backend/src/lib.rs:195-196 | a piece of a text is still a piece, at the same position, once both are lowercased |
| `Text.LowerChar` | app/src/app_backend/src/lib.rs:189 | the result is never an ASCII upper-case letter; A-Z become a-z and every other character is kept |
| `Guards.ValidateInput` | app/src/app_backend/src/lib.rs:59-67 | succeeds exactly when the title has 1-100 bytes and the description has 1-500 bytes; a bad title gives the title message even when the description is also bad; a good title with a bad description gives the description message |
| `Guards.AsciiLimitsAreCharacters` | app/src/app_backend/src/lib.rs:59-67 | for ASCII input, validation accepts exactly 1-100 characters of title and 1-500 characters of description |
| `Guards.TitleLimitCountsBytes` | app/src/app_backend/src/lib.rs:60-61 | 51 two-byte characters (102 bytes) are rejected with the title message, although they are fewer than 100 characters |
| `Guards.IsAdmin` | app/src/app_backend/src/lib.rs:69-71 | false for every caller while no admin is set; otherwise true exactly for the stored principal |
| `Queries.GetResource` | app/src/app_backend/src/lib.rs:106-115 | succeeds exactly when the id is a key, returns the stored value, and fails only with `NotFound` |
| `Queries.ListResources` | app/src/app_backend/src/lib.rs:117-126 | has one element per entry of the map, and a resource is listed exactly when it is a stored value |
| `Queries.ListResourcesDistinct` | app/src/app_backend/src/lib.rs:117-126 | when every key equals its value's id, no resource is listed twice |
| `Queries.Filter` | app/src/app_backend/src/lib.rs:131-136 | keeps every occurrence of each element that passes the test and drops every element that fails it (stated on multisets) |
| `Queries.ListResourcesByCategory` | app/src/app_backend/src/lib.rs:128-138 | a resource is returned exactly when it is stored and has the given category, never more often than in the full listing |
| `Queries.SearchResources` | app/src/app_backend/src/lib.rs:187-201 | a resource is returned exactly when it is stored and the lowercased query occurs in its lowercased title or in its lowercased description |
| `Queries.FilterKeepsAll` | app/src/app_backend/src/lib.rs:194-199 | a filter whose test passes every element returns its input unchanged |
| `Queries.SearchEmptyQuery` | app/src/app_backend/src/lib.rs:187-201 | the empty query returns the full listing |
| `Queries.SearchFindsTitleCaseVariant` | app/src/app_backend/src/lib.rs:187-201 | a query differing only in ASCII letter case from a piece of a stored title finds that resource |
| `Store.ResourceStore.constructor` | app/src/app_backend/src/lib.rs:46-50 | the initial store: no resources, counter 1, no admin, invariant established |
| `Store.ResourceStore.SetAdmin` | app/src/app_backend/src/lib.rs:73-79 | the admin becomes the given principal unconditionally, the result is `Ok`, and the resources and the counter are unchanged |
| `Store.ResourceStore.CreateResource` | app/src/app_backend/src/lib.rs:81-104 | invalid input returns the validation error and changes nothing, so no id is consumed. Valid input returns a resource with id set to the old counter, the payload's fields, both timestamps `now` and `verified` false. That id was never issued and is not yet a key; the map gains exactly that entry; the counter goes up by one; a lookup of the id returns the created value; the invariant is kept |
| `Store.ResourceStore.UpdateResource` | app/src/app_backend/src/lib.rs:140-155 | invalid input returns the validation error even for an absent id; valid input with an absent id returns `NotFound`; both leave the store unchanged. On success only title, description, category and `updatedAt` change, while id, `createdAt`, `verified`, the other entries, the counter and the admin stay the same |
| `Store.ResourceStore.DeleteResource` | app/src/app_backend/src/lib.rs:157-166 | removes exactly the given key; returns `NotFound` exactly when it was absent; never changes the counter or the set of issued ids |
| `Store.ResourceStore.VerifyResource` | app/src/app_backend/src/lib.rs:168-185 | a caller other than the admin, including any caller while there is no admin, gets `Unauthorized` before any lookup; the admin gets `NotFound` for an absent id. On success `verified` becomes true and `updatedAt` becomes `now`, while title, description, category, `createdAt` and all other entries are unchanged |
| `Store.Scenario` | app/src/app_backend/src/lib.rs:73-185 | the walk-through: create gives id 1, unverified; update changes the category to Prevention and keeps id 1; verify before `set_admin` is `Unauthorized`; after `set_admin` the admin's verify sets `verified` |
| `Store.DeleteThenCreate` | app/src/app_backend/src/lib.rs:81-166 | after create, delete and create on a fresh store, the second resource gets id 2 and the deleted id 1 stays absent |

## Left out

- `pre_upgrade` / `post_upgrade` (lib.rs:206-219) are not modelled. They wrap `ic_cdk::storage::stable_save` and `stable_restore`, which are not part of this model. As written, they save twice in a row and never save `ADMIN`. So a save/restore round trip is not something this code shows, and no such claim is made.
- `get_timestamp` (lib.rs:52-57) reads the system clock. It is replaced by the parameter `now`, so no claim is made that `updated_at` increases. The `.unwrap()` at lib.rs:55 panics when the clock reads earlier than the Unix epoch; a `now: nat` parameter leaves that path out. `SystemTime::now()` is also not available on a wasm32-unknown-unknown build, so a deployed canister may well trap inside create, update and verify; this is not modelled either.
- `ic_cdk::caller()` (lib.rs:170) is a call into the host. It is replaced by the parameter `caller` of `VerifyResource`.
- The host plumbing is left out: the `ic_cdk_macros` attributes, `export_candid!`, the Candid and serde derives, `init` (empty), and the `thread_local!`/`RefCell` wrappers. The three cells are fields of one object.
- Text.LowerChar: only ASCII letters are lowercased. Rust's `to_lowercase` also maps non-ASCII letters, and can change a string's length. `Queries.SearchResources` is stated relative to this ASCII lowercasing.
- Text.Contains: works on characters, while Rust's `str::contains` matches UTF-8 bytes. On valid UTF-8 the two agree.
- Store.ResourceStore.CreateResource: ids, the counter and timestamps are unbounded `nat`s. The wrap or panic of `NEXT_ID += 1` (lib.rs:100) at `u64::MAX` is not modelled.
- Queries.ListResources, Queries.ListResourcesByCategory, Queries.SearchResources: the order of the results is left unspecified, like the hash map's iteration order. Only membership and multiplicity are stated.
- `AlreadyExists` is part of `Error`, but no operation returns it, as in the source.
- The object cloning of the source (`clone()` and `cloned()` on results) has no counterpart here, because resources are immutable values. The in-place field writes through `get_mut` become a map update with a modified record.
