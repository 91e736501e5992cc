# python-alist-api: a verified model of the client core

`python-alist-api` is a Python wrapper for the HTTP API of an Alist file-list
server. This project models its core in Dafny:

- **Client.** An `AlistClient` holds a base URL. It builds the URL and the
  request headers of every call, and it decodes the server's JSON envelope
  `{code, message, data}`. The envelope decoder returns `data` only when
  `code` is 200. Otherwise it raises an HTTP error (`alist/__init__.py`).
- **Settings.** An `AlistSetting` record has eight declared fields. Only
  `value` may be written, and how a write is stored depends on the setting's
  `type` (`alist/setting.py`):
  - a `bool` setting stores the text `"true"` or `"false"`;
  - a `select` setting accepts only one of its comma-separated `values`;
  - any other type stores the value as given.

  The model also covers the settings list fetched from the server, the
  lookup by key, and the read-or-update helper behind every named setting
  accessor.
- **Metas.** An `AlistMeta` is the per-path meta record: six declared fields
  plus an optional `id`. The fields `hide` and `only_shows` are stored joined
  with `,`. The model covers the record, the guard of meta creation, the
  meta list and the lookup by id or path (`alist/meta.py`).
- **Drivers.** The storage-driver schema is read-only attribute records
  grouped into drivers. The model covers the filter that selects the required
  attribute names and the cached driver list with its lookup by name
  (`alist/driver.py`).
- **Accounts.** An `AlistAccount` is a record of the 42 declared fields plus
  an optional `id`. Account creation checks the driver's required fields and
  stamps `updated_at` before posting. The model also covers the account list
  and its lookup by id or name (`alist/account.py`).

Python values are the datatype `Values.Value`: None, bool, int, str, list or
dict. Exceptions are `Values.Error`, and every operation that can raise
returns a `Result`.

Python's `==` is modelled by `PyEq`: `True == 1` holds. Truthiness is
modelled by `Truthy`.

The network is replaced by parameters. A GET's decoded result enters as a
`Result<seq<...>>`. A POST's decoded reply enters as a `Result<Value>`, and
the body that would have been posted is returned so that contracts can
speak about it. The clock is a parameter too: `timestamp` is the value of
`utils.get_timestamp()`. So are the JSON parser (`parse: string ->
Option<Value>`) and the host and scheme that `urlparse` reports.

Objects whose state the source updates in place are classes:

- `Setting`, `Meta` and `Account` are dict records;
- `MetaList`, `AccountList` and `DriverList` are the cached lists;
- `HeaderDict` is the caller's headers dict;
- `Response` is the response whose status code the decoder overwrites.

Their construction, fetch and search loops are `while`/`for` loops. Most
are proved to compute a pure function of their inputs:

- the `Setting` constructor computes `InitialContent`;
- `NewMeta` computes `InitialMeta`;
- the `Account` constructor and `NewAccounts` compute `InitialAccount`;
- `NewDriver` computes `DriverOf`;
- `GetRequired` computes `RequiredNames`;
- `FindMeta` and `FindAccount` compute `FirstMatch`;
- `SearchDrivers` computes `FindDriver`.

The properties the library promises are then proved about those functions.
These loops are specified directly in their own contracts instead:
`GetAttr`, `FindByKey`, `FetchSettings`, and the `Get` of each collection. `GetByKey` is tied
to the function `Lookup`.

The model follows the code:

- The decoder returns the envelope's `data` verbatim, `None` included.
- Every request carries a `Content-Type` header.
- No `Authorization` header is ever added.
- A bool setting is coerced by truthiness, not by a check on the argument's
  type.
- `raise NotImplemented` raises something that is not an exception class, so
  in Python 3 it surfaces as a `TypeError`. The model reports `TypeError`
  for the delete operations of metas, accounts and driver attributes, and
  for writes to driver attributes.

Four behaviours of the code as written are captured and proved:

- Re-fetching a meta joins its stored `hide` text again, character by
  character, because the server's record goes back through `AlistMeta`. A
  stored `"README.md"` comes back as `"R,E,A,D,M,E,.,m,d"`
  (`RefetchedHideIsRejoined`).
- Two drivers whose names differ only in `.` against `_` get the same
  injected accessor name, so the later one replaces the earlier
  (`AccessorNamesCollide`).
- The decoder overwrites the response's status code before it reads
  `message`. A rejected envelope without a `message` is therefore a
  KeyError, and the status code still changes (`RejectedCode`, `Unwrap`).
- `_get_or_update` skips the write when the new value is `==` to the
  current one. Under `==`, True equals 1 and False equals 0, so asking an
  untyped setting that stores 1 to store True changes nothing, though the
  write would have stored `true` (`EqualButDifferentRewriteChanges`,
  `TrueForOneSkipsChange`).

## Model

| member | source | states |
|---|---|---|
| `Values.Split` | alist/setting.py:84 | `str.split` with a one-character separator yields at least one piece, and no piece contains the separator |
| `Values.JoinSplit` | alist/setting.py:84 | the pieces of `split(',')` lose nothing: joining them with the same separator, as `','.join` does, gives the original text back |
| `Values.SplitJoin` | alist/setting.py:84 | splitting the `,`-join of comma-free option names gives exactly those names back |
| `Values.FirstPiece` | alist/__init__.py:45 | the first piece of a split is the prefix before the first separator, or the whole text when there is none |
| `Values.Join` | alist/meta.py:33 | `sep.join(parts)`: empty for no parts; otherwise it starts with the first part, followed by the separator when there are more |
| `Values.TrimLeft` | alist/__init__.py:40 | removes exactly the leading whitespace: a suffix of the text, whose first character is not whitespace, with only whitespace before it |
| `Values.TrimRight` | alist/__init__.py:40 | removes exactly the trailing whitespace: a prefix of the text, whose last character is not whitespace, with only whitespace after it |
| `Values.Strip` | alist/__init__.py:40 | `bytes.strip()`: the slice of the body between two all-whitespace pads, which starts and ends with a non-whitespace character unless it is empty |
| `Values.StripEmptyIffBlank` | alist/__init__.py:40-44 | the stripped body is empty exactly when the body is all ASCII whitespace, which is when the decoder returns it untouched |
| `Values.StripPadded` | alist/__init__.py:40 | whitespace around a word is exactly what `strip` removes |
| `Values.RStrip` | alist/__init__.py:21 | `rstrip('/')` returns a prefix of the URL that does not end in `/`, and everything it removed was `/` |
| `Values.RStripIdempotent` | alist/__init__.py:21 | stripping trailing slashes twice gives the same base URL as stripping once |
| `Client.NewClient` | alist/__init__.py:17-27 | the stored base URL is the given URL with every trailing `/` removed, and the host and scheme are kept |
| `Client.ApiUrl` | alist/__init__.py:79-85 | the API path is `/api` followed by the endpoint, unchanged |
| `Client.EndpointUrl` | alist/__init__.py:87-94 | the full URL is the base URL followed by the API path |
| `Client.EndpointUrlSingleSlash` | alist/__init__.py:94 | for a client built by `NewClient`, the base URL and the API path meet at exactly one `/` |
| `Client.ComputedHeaders` | alist/__init__.py:63-71 | exactly the seven computed headers: `Method` is the verb, `Path` the API path, `Authority` the URL's host name, `Scheme` its scheme, `Origin` the base URL, and `Accept` and `Content-Type` their two constant values |
| `Client.MergeHeaders` | alist/__init__.py:73-74 | `dict.update`: a computed header overrides the caller's header of the same name, the caller's other headers survive, and nothing else is added |
| `Client.GetRequestDict` | alist/__init__.py:58-77 | the caller's headers dict is updated in place, or a fresh one holding exactly the computed headers is installed; other options are untouched |
| `Client.PrimaryType` | alist/__init__.py:45 | the media type is the content-type header's prefix before the first `;`, and it contains no `;` |
| `Client.Classify` | alist/__init__.py:38-51 | an empty stripped body, or a non-JSON content type, passes the stripped text through unparsed; a JSON body the parser rejects is invalid JSON; a missing header counts as `""` |
| `Client.Unwrap` | alist/__init__.py:52-56 | the envelope succeeds exactly when it is a dict whose `code` equals 200 and which has `data`, and then yields `data`. A code other than 200 raises HttpError(code, message), or KeyError('message') when there is no message. A missing `code`, or a missing `data` under code 200, is a KeyError naming it. A non-dict is a TypeError |
| `Client.RejectedCode` | alist/__init__.py:52-54 | the status code is overwritten with the envelope's code exactly when a dict's `code` is present and not 200: whenever the envelope fails with an HttpError, or with the KeyError for a missing `message`, which the overwrite precedes; never on success, a missing `code`, or a missing `data` |
| `Client.Decode` | alist/__init__.py:38-56 | an empty stripped body, or a non-JSON content type, gives the stripped text. Otherwise text the parser rejects is invalid JSON, and a parsed document goes through the envelope step |
| `Client.DecodeResponse` | alist/__init__.py:30-56 | the result is the decoding cascade; when the envelope's code is rejected, the response's status code becomes that code, and otherwise it is unchanged |
| `Client.ParserUnusedUnlessJson` | alist/__init__.py:43-46 | the JSON parser is never consulted for an empty body or a non-JSON content type, and the stripped text is returned |
| `Client.DecodeDataComesFromEnvelope` | alist/__init__.py:48-56 | once parsed, decoding succeeds exactly when the envelope has code 200 and a `data` member |
| `Client.JsonTypeIsPrimary` | alist/__init__.py:45 | `application/json` is recognised whether or not parameters follow a `;` |
| `DecodeExamples.UnwrapExamples` | alist/__init__.py:52-56 | worked envelopes: `data` returned as is (None included), code 500 raised with its message, a missing message a KeyError that still overwrites the status code, and code 200 without `data` leaving the status code alone |
| `DecodeExamples.JsonBodyExample` | alist/__init__.py:38-52 | a non-blank JSON body reaches the envelope step |
| `DecodeExamples.JsonWithParametersExample` | alist/__init__.py:45-52 | so does one whose content type carries `;charset=...` parameters |
| `DecodeExamples.PlainTextExample` | alist/__init__.py:40-46 | a `text/plain` body is returned stripped |
| `Settings.InitialContent` | alist/setting.py:14-32 | a new setting has exactly the eight declared fields; each takes its argument or None, and other arguments are dropped |
| `Settings.Assigned` | alist/setting.py:74-90 | `set_value`: bool stores `"true"` exactly when the argument is truthy (else `"false"`); select succeeds exactly when the argument is one of the `,`-separated options (otherwise a ValueError naming the options, or an AttributeError when `values` is not a str); other types store the argument; only `value` changes |
| `Settings.BoolRoundTrip` | alist/setting.py:68-82 | writing a bool setting and reading it back gives the truthiness of what was written |
| `Settings.StoredRoundTrip` | alist/setting.py:68-89 | writing a non-bool setting successfully and reading it back gives exactly what was written |
| `Settings.ValueOf` | alist/setting.py:63-72 | `get_value`: a bool setting reads as a bool that is true exactly when the stored text is `"true"`; any other setting reads as its stored value |
| `Settings.SelectAcceptsExactlyOptions` | alist/setting.py:83-87 | a select setting whose `values` joins comma-free options accepts exactly those options, and rejects anything else with the option list |
| `Settings.RewriteSameValue` | alist/setting.py:148-151 | writing back exactly the current value leaves a select or untyped setting unchanged |
| `Settings.EqualButDifferentRewriteChanges` | alist/setting.py:150 | for a setting that is not a bool, a new value that is `==` to the current one but not identical would, if written, change the stored value and read back as the new value; the early return skips that write |
| `Settings.TrueForOneSkipsChange` | alist/setting.py:150 | an untyped setting storing 1, asked to store True: the two compare equal, so nothing is written, though the write would replace `1` by `true` |
| `Settings.Setting.constructor` | alist/setting.py:25-32 | the copy loop over the arguments leaves the content `InitialContent(kwargs)` |
| `Settings.Setting.Get` | alist/setting.py:37-41 | `s[key]` succeeds exactly for the eight declared fields, returning the field; any other key is a KeyError |
| `Settings.Setting.GetValue` | alist/setting.py:63-72 | the setting object's `get_value`, as `ValueOf` states it for its content |
| `Settings.Setting.SetValue` | alist/setting.py:74-90 | the new content is `Assigned(old content, x)`, the stored value is returned, and a failed write changes nothing |
| `Settings.Setting.SetItem` | alist/setting.py:43-46 | only `value` may be written (any other key is a KeyError with no change), and writing it is `set_value` |
| `Settings.Setting.DelItem` | alist/setting.py:48-49 | deleting any item is NotImplementedError |
| `Settings.NewSetting` | alist/setting.py:25-32 | construction fails exactly when `key` is not supplied (a ValueError); otherwise the content is `InitialContent(kwargs)` |
| `Settings.Lookup` | alist/setting.py:125-130 | `get_by_key` finds the first fetched record whose `key` equals the query. It fails only if the fetch failed, a record lacks `key`, or no record matches (not-found naming the key) |
| `Settings.FetchSettings` | alist/setting.py:99-111 | one setting per fetched record, in order; any record without `key` fails the whole list with ValueError |
| `Settings.FindByKey` | alist/setting.py:127-130 | the loop returns the first setting whose key equals the query, or not-found when none does |
| `Settings.GetByKey` | alist/setting.py:293-298 | fetch-then-search returns exactly what `Lookup` describes |
| `Settings.LookupFinds` | alist/setting.py:127-129 | the first matching record is the one returned |
| `Settings.LookupMisses` | alist/setting.py:130 | with no match the lookup is not-found naming the key |
| `Settings.GetOrUpdate` | alist/setting.py:141-155 | `_get_or_update`: with no new value, or one equal to the current value, it returns the current value and posts nothing. Otherwise it returns the new value as given, after posting exactly the assigned setting; a rejected write or failed save is the error |
| `Records.IdOrMatches` | alist/meta.py:147 | `r['id'] == x or r[field] == x`: a record without `id` raises KeyError('id') before its other field is read |
| `Records.FirstMatch` | alist/meta.py:145-149 | the search returns the first record matching by id or secondary field, with every earlier record passed over. It is not-found exactly when every record is passed over. Otherwise it fails with KeyError('id') at a record without an id |
| `Records.FirstMatchStopsAt` | alist/account.py:239-242 | once the first `n` records are passed over, a decision at record `n` is the search's result |
| `Metas.JoinValue` | alist/meta.py:33 | `','.join(v)` succeeds exactly for a str or a list of str. A list is joined item by item (`[]` gives `""`), and a str character by character |
| `Metas.Stored` | alist/meta.py:32-35 | `hide` and `only_shows` store the joined form unless the value is None; every other key stores the value verbatim |
| `Metas.Assign` | alist/meta.py:30-37 | `meta[key] = v` writes an existing key or `id`; any other key is KeyError(key). A value that cannot be joined is a TypeError. No other key changes |
| `Metas.AssignKeepsWellFormed` | alist/meta.py:30-37 | an assignment never takes a meta outside the declared fields plus `id` |
| `Metas.JoinedRoundTrip` | alist/meta.py:32-33 | a list of comma-free names written to `hide`/`only_shows` is recovered by splitting the stored text on `,` |
| `Metas.JoinCharsLength` | alist/meta.py:33 | joining the characters of a non-empty str with `,` gives a text one character shorter than twice its length |
| `Metas.RefetchedHideIsRejoined` | alist/meta.py:132-136 | a meta rebuilt from a server record whose `hide` is a str of two or more characters stores that str joined again, character by character, so it differs from the server's |
| `Metas.InitialMeta` | alist/meta.py:22-28 | the constructed meta has the declared fields and perhaps `id`; construction can only fail with TypeError |
| `Metas.InitialMetaContent` | alist/meta.py:22-28 | construction fails exactly when an accepted list field cannot be joined. Otherwise each field holds its stored argument or None, `id` is present exactly when supplied, and no other key is |
| `Metas.Meta.Empty` | alist/meta.py:8-23 | a meta starts as a copy of the template, every declared field None |
| `Metas.Meta.SetItem` | alist/meta.py:30-37 | the new fields are `Assign(old fields, key, v)`; a failure changes nothing |
| `Metas.Meta.DelItem` | alist/meta.py:39-40 | deleting any item is a TypeError |
| `Metas.PartialStep` | alist/meta.py:24-28 | one iteration of the constructor loop: a KeyError is swallowed and changes nothing, a TypeError is the constructor's error, anything else extends the dict |
| `Metas.PartialAll` | alist/meta.py:22-28 | after every argument is assigned the dict is the one `InitialMeta` describes, whatever the iteration order |
| `Metas.InitialMetaFails` | alist/meta.py:24-28 | one accepted argument that cannot be joined fails the construction with TypeError |
| `Metas.NewMeta` | alist/meta.py:22-28 | the constructor loop succeeds exactly when `InitialMeta` does, and then builds exactly its dict; otherwise it fails with the same error |
| `Metas.Create` | alist/meta.py:54-59 | without `path` nothing is posted (ValueError). Otherwise the constructed meta, carrying the given `path`, is posted and the reply is the result |
| `Metas.FindMeta` | alist/meta.py:146-149 | the search loop over constructed metas is `FirstMatch` on `path` |
| `Metas.MetaList.constructor` | alist/meta.py:121-124 | a new collection starts with its own empty list of metas |
| `Metas.MetaList.Get` | alist/meta.py:126-136 | the list is cleared and refilled with one meta per record, up to the first record whose construction fails; a failed fetch leaves it empty |
| `Metas.MetaList.GetMeta` | alist/meta.py:138-149 | refresh then search: the first meta matching by id or path, KeyError('id') or not-found; a record that fails construction makes it a TypeError |
| `Drivers.Attribute.AsMap` | alist/driver.py:13-18 | an attribute is a dict with exactly the seven published keys |
| `Drivers.Attribute.SetItem` | alist/driver.py:32-33 | writing an attribute is always a TypeError |
| `Drivers.Attribute.DelItem` | alist/driver.py:35-36 | deleting from an attribute is always a TypeError |
| `Drivers.NewAttribute` | alist/driver.py:13-18 | construction succeeds exactly when all seven keys are present and copies them; otherwise it is a KeyError naming a missing published key |
| `Drivers.AttributeRoundTrip` | alist/driver.py:13-18 | an attribute rebuilt from its own dict, with or without extra keys, is the same attribute |
| `Drivers.DriverOf` | alist/driver.py:42-46 | construction succeeds exactly when every entry is a valid attribute, and then gives one attribute per entry, in order. Otherwise the first invalid entry's error is the constructor's error |
| `Drivers.NewDriver` | alist/driver.py:42-46 | the constructor loop computes `DriverOf` |
| `Drivers.GetAttr` | alist/driver.py:48-52 | the first attribute whose name equals the query, or not-found when none does |
| `Drivers.RequiredNames` | alist/driver.py:57-62 | a name is returned exactly when some attribute with that name has a truthy `required`, and there are at most as many names as attributes |
| `Drivers.RequiredNamesAppend` | alist/driver.py:57-62 | the filter distributes over concatenation, so it keeps attribute order |
| `Drivers.GetRequired` | alist/driver.py:57-62 | the loop computes `RequiredNames` |
| `Drivers.AccessorName` | alist/driver.py:93 | the injected accessor is `driver_` followed by the driver name with each `.` replaced by `_`, so it contains no `.` |
| `Drivers.AccessorNamesCollide` | alist/driver.py:93-94 | two distinct driver names get the same accessor name, so the later installed accessor replaces the earlier |
| `Drivers.DriverList.constructor` | alist/driver.py:79-82 | a new collection starts with its own empty driver cache |
| `Drivers.DriverList.Get` | alist/driver.py:84-95 | the catalogue is fetched only while the cache is empty. A filled cache is returned unchanged; otherwise it is filled with one driver per entry, up to the first entry that fails |
| `Drivers.DriverList.GetDriver` | alist/driver.py:100-105 | read the (possibly cached) list, then return the first driver with that name or not-found |
| `Drivers.FindDriver` | alist/driver.py:102-105 | the first driver whose name equals the query; not-found exactly when none does |
| `Drivers.SearchDrivers` | alist/driver.py:102-105 | the search loop computes `FindDriver` |
| `AccountRecord.IdNotDeclared` | alist/account.py:10-53 | `id` is not one of the declared account fields |
| `AccountRecord.DeclaredFields` | alist/account.py:10-53 | every account carries `name`, `index`, `type` and `updated_at` |
| `AccountRecord.Assign` | alist/account.py:68-72 | `account[key] = v` succeeds exactly for an existing key or `id`, writes `v` verbatim and nothing else; any other key is KeyError(key) |
| `AccountRecord.AssignKeepsWellFormed` | alist/account.py:68-72 | an assignment never takes an account outside the declared fields plus `id` |
| `AccountRecord.Seeded` | alist/account.py:60-66 | the constructed record has the declared fields plus `id` when supplied; each holds its argument or None |
| `AccountRecord.OverlayStep` | alist/account.py:62-66 | one iteration of the constructor loop, whether the assignment is taken or refused with a KeyError, extends the seeded arguments by one |
| `AccountRecord.InitialAccount` | alist/account.py:60-66 | a constructed account is well formed and has `id` exactly when `id` is supplied |
| `AccountRecord.Account.constructor` | alist/account.py:60-66 | construction never fails and leaves the fields `InitialAccount(kwargs)` |
| `AccountRecord.Account.Overlay` | alist/account.py:62-66 | the assignment loop over all arguments, swallowing KeyErrors, leaves exactly the seeded record |
| `AccountRecord.Account.SetItem` | alist/account.py:68-72 | the new fields are `Assign(old fields, key, v)`; a KeyError changes nothing |
| `AccountRecord.Account.DelItem` | alist/account.py:74-75 | deleting any item is a TypeError |
| `Accounts.MissingFields` | alist/account.py:98 | `set(required) - set(kwargs)`: a name is missing exactly when it is required and is not a str naming an argument |
| `Accounts.RequiredFor` | alist/account.py:96-97 | the required names are the driver's, followed by `name` |
| `Accounts.CheckRequired` | alist/account.py:96-103 | succeeds exactly when every required name is hashable and present, and then the body is the account built from the arguments with `updated_at` set to the timestamp. An unhashable required name is a TypeError. Otherwise, a non-empty missing set is the ValueError carrying the driver type and that set when all the missing names are str, and a TypeError when one is not |
| `Accounts.CreateBody` | alist/account.py:89-103 | without `type`, KeyError('type'); a failed driver lookup is "not supported" when it is a KeyError, and otherwise passes its error through; then the required check |
| `Accounts.StampedBody` | alist/account.py:102-103 | the posted body is well formed, carries the timestamp as `updated_at`, and keeps the given `type` and `name` |
| `Accounts.CreateNeedsRequired` | alist/account.py:96-100 | an account is posted only if `name` and every name of a truthy-required attribute were supplied |
| `Accounts.Create` | alist/account.py:89-104 | posts exactly the body `CreateBody` decides and returns the reply, or returns its error and posts nothing |
| `Accounts.CreateWithDrivers` | alist/account.py:89-104 | with the driver looked up in the cached list: without `type` the cache is untouched; a posted body carries `name` and the timestamp |
| `Accounts.FindAccount` | alist/account.py:239-243 | the search loop over constructed accounts is `FirstMatch` on `name` |
| `Accounts.NewAccounts` | alist/account.py:234-235 | one fresh account per record, in order, each built by `InitialAccount` |
| `Accounts.AccountList.constructor` | alist/account.py:223-226 | a new collection starts with its own empty list of accounts |
| `Accounts.AccountList.Get` | alist/account.py:228-236 | the list is cleared, then refilled with one account per fetched record; a failed fetch leaves it empty |
| `Accounts.AccountList.GetAccount` | alist/account.py:238-243 | refresh then search: the first account matching by id or name, KeyError('id') or not-found |

## Left out

- The HTTP session, `get` and `post` (alist/__init__.py:96-117), are left out because they are I/O. Their decoded outcomes enter the model as parameters, and `DecodeResponse` and `GetRequestDict` model the two steps around the transport.
- Byte decoding by `response.encoding` is left out; the body is modelled as text. JSON parsing is a parameter, and `urlparse` is represented only by the host and scheme it reports.
- `utils.get_timestamp()` is the clock. It is the `timestamp` parameter.
- Accessor injection is left out: `get` installs a `driver_<name>` method on the client with `setattr` (alist/driver.py:94), and the model computes only the accessor's name (`AccessorName`).
- The roughly sixty one-line setting accessors (`version`, `title`, `logo`, …) are left out. Each one calls `GetOrUpdate` or `GetByKey` with a fixed key. Note that the admin `title` accessor asks for the key `titile` (alist/setting.py:163), so unless the server has such a key it raises not-found.
- `save` for settings, metas and accounts is left out. It is a plain POST, and its outcome is the `save`/`post` parameter.
- The delete methods are left out because they call `alist.delete`, which the client does not define.
- The settings `delete`, `frontend`, `backend` and `other` are left out. They refer to undefined names and raise before doing anything.
- The `create_*` convenience wrappers of accounts and metas are left out. They only forward their keyword arguments to `_create`.
- alist/public.py and alist/admin.py, login and password hashing are not part of this model.
- `__len__`, `__iter__`, `__str__`, `__repr__`, `to_dict` and `__call__` are left out. They are views or aliases of the modelled state.
- `__getitem__` by index on the collections is left out: it is `get()` followed by list indexing.
- Python dict order is not modelled. Keyword arguments and records are maps, and every modelled result is shown not to depend on iteration order.
- `','.join` of a dict (it would join the dict's keys in insertion order) is modelled as a TypeError, because dicts are modelled as unordered maps.
- Aliasing of the returned list is not modelled: `get` returns the cached list object itself, and here it returns the list's value.
- Every fetched payload is taken to be a list of dicts, and the driver catalogue a sequence of named entries in the server's order.
- Compound values (lists, dicts) compare by structure. `PyEq` identifies booleans with 0 and 1 only at the top level.
- Floating-point numbers are not modelled. JSON numbers are modelled as `int` only, so an envelope `code` of `200.0` (which Python's `==` equates with 200) cannot be expressed.
- Passing `headers=None` explicitly is not distinguished from passing no headers. In the code, `None.update(...)` raises an AttributeError (alist/__init__.py:74); the model's `RequestOptions` has no way to express a `headers` key whose value is None.
- `Client.NewClient`: the model constructs only the client's own state. As written, `AlistClient.__init__` also builds `AlistPublic(self)` (alist/__init__.py:22), which passes three arguments to the two-parameter `AlistPublicSettings.__init__` (alist/public.py:13, alist/setting.py:277). Construction therefore raises a TypeError, and the model takes the construction to succeed.
- `Accounts.CreateWithDrivers`: the model takes the admin object to hold the driver collection. As written, `_create` reads `self.alist.admin.drivers` (alist/account.py:92), and `AlistAdmin` (alist/admin.py:5-17) has no `drivers` attribute, so `_create` raises an AttributeError before it looks at `type`.
- `Drivers.NewAttribute`: the contract states that some missing published key is named, not that it is the first missing one in declaration order (the body does report the first).
- `Accounts.CreateWithDrivers`: the contract states only the guard on `type` and the shape of a posted body. Its full outcome is `Accounts.Create` applied to the outcome of `Drivers.DriverList.GetDriver`.
