# Session store model

This project models the session store of a sandbox server. Each session is identified by an opaque
id and holds a language tag, a time-to-live (`ttl`, in seconds), a last-used timestamp and a
mapping from file paths to file contents. Sessions expire after `ttl` seconds of idleness. Expiry
is lazy: it is checked only when a session is read.

- `SessionRecord` models `SessionData` as a class with four mutable fields. It covers construction,
  `touch`, the strict expiry predicate and the serialization pair. Serialization is modelled as a
  record-to-record conversion to a `Payload` datatype with the same four fields. The point of
  `Loads` is that the stored `last_used` replaces the timestamp the constructor sets.
- `MemoryStore` models the in-process backend as a class with a `map<string, SessionData>` field.
  The map holds references to the records, as the Python dictionary does. `Get` deletes an expired
  entry and reports it as absent, so it never returns an expired record. Because the store shares
  its records with callers, a `Touch` on a record that `Get` returned extends the session's life
  even without a `Save`. `TouchWithoutSave` shows this. The networked backend stores a serialized
  copy, so it would not behave this way.
- `RedisKey` models the namespacing of session ids into backend keys (`"sf:session:" + sid`).
- `StoreSelection` models how `get_store` chooses a backend from the two optional environment
  strings, using Python's truthiness rules for `or` and `if`.

The current time is an explicit parameter `now: real` wherever the code calls `time.time()`. The
`ttl` is an unbounded `int` and is compared as `ttl as real`.

## Model

| member | source | states |
|---|---|---|
| `SessionRecord.IsExpired` | sandbox/server/session_store.py:50-51 | a record is live while its idle time is at most `ttl`; with `ttl <= 0` any elapsed time expires it (there is no "never expires" value) |
| `SessionRecord.ExpiryBoundary` | sandbox/server/session_store.py:50-51 | the check is strict: live at exactly `ttl` seconds idle and just before that, expired any positive amount of time after |
| `SessionRecord.ExpiryIsMonotone` | sandbox/server/session_store.py:50-51 | once expired at some time, a record is expired at every later time |
| `SessionRecord.SessionData.constructor` | sandbox/server/session_store.py:21-25 | `language` and `ttl` are stored as given; `last_used` is the creation time; omitted files become an empty mapping; a new record is live at creation exactly when `ttl >= 0` |
| `SessionRecord.SessionData.Dumps` | sandbox/server/session_store.py:28-36 | the serialized form carries exactly the record's four fields: language, ttl, last-used time and files |
| `SessionRecord.SessionData.Expired` | sandbox/server/session_store.py:50-51 | a record is expired at `now` exactly when its own idle time `now - lastUsed` strictly exceeds its own `ttl`, i.e. `IsExpired` applied to its fields |
| `SessionRecord.SessionData.Loads` | sandbox/server/session_store.py:28-43 | loading a payload gives a new record whose serialized form (`Dumps`) is that payload, so all four fields round-trip; `last_used` is the stored one and does not depend on the time of loading |
| `SessionRecord.SessionData.Touch` | sandbox/server/session_store.py:47-48 | `last_used` becomes `now` and the other fields are unchanged; right after a touch the record is live exactly when `ttl >= 0` |
| `MemoryStore.MemorySessionStore.constructor` | sandbox/server/session_store.py:80-81 | a new store is empty |
| `MemoryStore.MemorySessionStore.Create` | sandbox/server/session_store.py:83-84 | `sid` maps to the given record afterwards, every other id keeps its entry, and the record is not touched |
| `MemoryStore.MemorySessionStore.Get` | sandbox/server/session_store.py:86-91 | absent id: result None, map unchanged; present and expired: result None and only `sid` removed; present and live: the stored record itself, map unchanged; a returned record is never expired |
| `MemoryStore.MemorySessionStore.Save` | sandbox/server/session_store.py:93-94 | an unconditional whole-record overwrite of `sid`, other ids unchanged, no implicit touch |
| `MemoryStore.MemorySessionStore.Delete` | sandbox/server/session_store.py:96-97 | `sid` is absent afterwards and every other entry is unchanged; deleting an absent id changes nothing, so a second delete is a no-op |
| `RedisKey.Key` | sandbox/server/session_store.py:111-112 | a backend key is the fixed prefix `sf:session:` followed by the id itself, so every session key lies in the namespace and the id can be read back from it |
| `RedisKey.KeyInjective` | sandbox/server/session_store.py:111-112 | distinct session ids give distinct backend keys |
| `RedisKey.KeyspaceSize` | sandbox/server/session_store.py:111-112 | `n` distinct sessions occupy exactly `n` backend keys |
| `StoreSelection.Or` | sandbox/server/session_store.py:140 | Python's `or` on optional strings returns one of its operands, and the result is truthy exactly when one of the operands is |
| `StoreSelection.SelectBackend` | sandbox/server/session_store.py:139-145 | the networked backend is chosen exactly when `REDIS_URL` or `REDIS_URI` is a non-empty string, with `REDIS_URL` taking precedence; its connection string is never empty; otherwise the in-process store is chosen |

## Left out

- `RedisSessionStore` network operations (`from_url`, `get`, `set` with `ex=ttl`, `delete`): they are thin calls into an external client library, and native key expiry is done by the server. Only the key namespacing (`Key`) is modelled.
- `BaseSessionStore`: it is an interface whose methods only raise `NotImplementedError` and have no behaviour.
- `async`/`await` and concurrency: every operation is an ordinary sequential method.
- `time.time()`: replaced by an explicit `now` parameter. Clock skew and floating-point rounding are not modelled (`real` is exact).
- JSON text: `dumps`/`loads` are modelled as a lossless conversion to and from the `Payload` record. The standard library's JSON encoding and the `KeyError` raised on a payload with a missing field are not modelled, since a `Payload` always has all four fields.
- Aliasing of the `files` dictionary: it is modelled as an immutable map value, so a caller that changes a dictionary it passed to the constructor is not modelled. Aliasing of whole records between the store and its callers is modelled.
- `os.getenv` and the `structlog` messages in `get_store`: I/O. The environment values are parameters of `SelectBackend`, which returns the choice and not a constructed store.
- Python's dynamic typing: `language` is a string, `ttl` an integer and `files` a string-to-string map, as the type hints say. Values of other types are not modelled.
