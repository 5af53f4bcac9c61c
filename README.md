# lava_core utilities: Result and client IP extraction

A Dafny model of two small pieces of the `lava_core` utility package:

- `utils.py`: the `imdict` base class, a dictionary whose seven overridden
  mutators (`__setitem__`, `__delitem__`, `clear`, `update`, `setdefault`,
  `pop`, `popitem`) raise `TypeError`, and `Result`, an immutable
  success/warning/error outcome with a message, an optional payload
  (`instance`), optional error details (`errors`) and an optional
  `error_code`. A Result is built by the general constructor or
  by `success`, `warning` and `error`, is read back from a transport mapping by
  `from_dict`, and is written to one by `to_dict`.
- `utils/geolocation.py`: `get_client_ip`, which takes the first
  comma-separated element of the `X-Forwarded-For` header or falls back to
  `REMOTE_ADDR`, and `get_city_from_ip`, which answers `"Localhost"` for
  loopback clients and otherwise asks a third-party service.

Neither file keeps state: a Result is built once and never changed,
`get_client_ip` only reads its request, and `get_city_from_ip` reads its
request and then sends one HTTP GET, whose answer the model takes as a
parameter. They are modelled with datatypes and functions in four modules:

- `PyValues` (`pyvalues.dfy`): the Python values that flow through a Result
  (`None`, booleans, integers, strings, lists, string-keyed dictionaries) with
  Python truthiness, and the `Returned`/`Raised(TypeError)` outcome of a call.
- `ImmutableDict` (`imdict.dfy`): the seven overridden mutators as a `Mutator` datatype,
  one call (`Apply`) and a sequence of caught calls (`Replay`).
- `Results` (`result.dfy`): the `Result` record, its constructors, its
  dictionary view, `ToDict` and `FromDict`, and the lemmas relating them.
- `Geolocation` (`geolocation.dfy`): Python's `str.split` for one separator
  (`Split`, with `Join` as its inverse), `GetClientIp` and `GetCityFromIp`.

Design choices:

- The tag, message, payload, error details and error code of a Result are
  `PyValue`s, not strings. `from_dict` passes `source["result"]` and the other
  values through unchecked, so a tag can be any value; the model keeps that
  rather than a three-valued enum. The named constructors always give one of
  the strings `"success"`, `"warning"`, `"error"`.
- Python's `str(message)` in `to_dict` is a parameter `str` of `ToDict`.
- The remote city lookup (HTTP request, JSON decoding, swallowed request
  errors) is a parameter `lookup` of `GetCityFromIp` from the request URL to
  an optional city. An absent client IP is formatted as `None` in that URL,
  as Python's f-string does.
- The request metadata is a `map<string, string>`; an absent key is an absent
  value, as `request.META.get` gives.

Behaviour of the code worth knowing:

- The tag is not restricted to three values (`utils.py:40-42`): any truthy tag
  is kept, so `Result(True, tag="error")` is flagged `is_error` and yet
  `to_dict` reports it as `"success"` (`SuccessWithErrorTagReportsSuccess`).
- `to_dict` writes `self.errors or []`, so any falsy `errors` (an empty dict
  as well as `None`) becomes `[]`; read back by `from_dict`, a warning's
  None `errors` is then `[]` (`WarningErrorsBecomeEmptyList`).
- A falsy `"result"` in a transport mapping (an empty string, say) is
  accepted by `from_dict` and resolves to the tag `"error"`.
- `to_dict` names the class `lava.utils.Result`, `from_dict` demands
  `lava_core.utils.Result` (`ToDictNeverAccepted`), and the payload is
  written under `"object"` but read from `"instance"` (`PatchedRoundTrip`).

## Model

| member | source | states |
|---|---|---|
| `ImmutableDict.Apply` | utils.py:10-19 | a call to any of the seven overridden mutators, with any arguments, raises `TypeError("This object is immutable")` and leaves the contents as they were |
| `ImmutableDict.ReplayLeavesContents` | utils.py:10-19 | after any sequence of caught calls to the overridden mutators the contents are unchanged, and every call raised the immutability `TypeError` |
| `Results.New` | utils.py:28-47 | the result is valid (truthy tag, `is_error` iff the tag is `"error"`, `is_warning` iff it is `"warning"`); a truthy tag is kept verbatim; a falsy one becomes `"success"` exactly when `success` and `"error"` exactly when not; the other fields are the arguments |
| `Results.Success` | utils.py:49-51 | `is_success` with tag `"success"`, neither error nor warning, `errors` and `error_code` both None |
| `Results.Warning` | utils.py:53-57 | not a success, tag `"warning"`, a warning and not an error, `errors` None, `error_code` as given (default `""`) |
| `Results.Error` | utils.py:59-63 | not a success, tag `"error"`, an error and not a warning, `errors` and `error_code` as given |
| `Results.Mapping` | utils.py:47 | the dictionary a Result is holds exactly the keys `is_success`, `message`, `errors` with the constructor's values |
| `Results.MappingOmitsAttributes` | utils.py:37-47 | the tag, payload and error code are not keys of that dictionary |
| `Results.MappingFrozen` | utils.py:10-19 | no sequence of calls to the overridden mutators on a Result changes its dictionary; each one raises `TypeError` |
| `Results.FlagsExclusive` | utils.py:43-44 | a constructed Result is never both an error and a warning |
| `Results.DefaultTagFlags` | utils.py:40-44 | with any falsy tag (None, `""`, ...), a Result is an error exactly when it is not a success and is never a warning |
| `Results.ToDict` | utils.py:86-103 | the keys are `class_name`, `result`, `message`, plus `errors` and `error_code` exactly when not a success, plus `object` exactly when the payload is truthy; `class_name` is `"lava.utils.Result"`; `errors` falls back to `[]` when falsy; `object` is the payload |
| `Results.ReportedResultCases` | utils.py:87-89 | the reported result is one of the three tags, `"warning"` exactly when the tag is `"warning"`, otherwise `"success"` exactly when `is_success` |
| `Results.ReportedResultIsTag` | utils.py:49-63 | for Results from the named constructors the reported result is the tag |
| `Results.SuccessWithErrorTagReportsSuccess` | utils.py:87-89 | a success built with tag `"error"` is flagged an error but reported as `"success"` |
| `Results.FromDict` | utils.py:65-84 | raises `TypeError("Invalid source dict.")` exactly when `result` or `message` is missing or `class_name` is missing or not `"lava_core.utils.Result"`; otherwise `is_success` iff the result is `"success"`, the tag is the result (or `"error"` when it is falsy), the payload comes from `instance` and `errors`/`error_code` from their keys, None when absent |
| `Results.ToDictNeverAccepted` | utils.py:67-92 | `from_dict(to_dict(r))` raises `TypeError` for every Result |
| `Results.PatchedRoundTrip` | utils.py:74-101 | with the class name corrected, a named-constructor Result comes back with its success flag, tag and error code and the coerced message (a string message unchanged when `str` gives strings back), its payload lost, and its error details unchanged for a success or when truthy, otherwise `[]` |
| `Results.WarningErrorsBecomeEmptyList` | utils.py:81-98 | for every warning, whatever its message, payload and error code, the None error details come back from the corrected round trip as `[]` |
| `Results.PayloadLost` | utils.py:80-101 | for every named-constructor Result with a truthy payload, `to_dict` writes the payload under `object` and the corrected round trip gives payload None |
| `Results.ErrorToDictExample` | utils.py:59-103 | `error("x", errors={"a": 1}, error_code="E1").to_dict()` is exactly the five-key mapping with no `object` |
| `Results.SuccessToDictExample` | utils.py:49-103 | `success("ok").to_dict()` is exactly `class_name`, `result: "success"`, `message: "ok"` |
| `Results.WarningToDictExample` | utils.py:53-99 | a default warning reports `"warning"`, `errors: []` and `error_code: ""` |
| `Results.FromDictClassNameExample` | utils.py:66-84 | a wrong or missing class name is refused; the correct one rebuilds `success("ok")` |
| `Geolocation.Split` | utils/geolocation.py:8 | `split(",")` gives at least one piece and no piece holds the separator |
| `Geolocation.JoinSplit` | utils/geolocation.py:8 | joining the pieces with the separator gives the text back |
| `Geolocation.FirstPiece` | utils/geolocation.py:8 | the first piece is a prefix of the text and, when shorter, is followed by the separator |
| `Geolocation.FirstPieceAt` | utils/geolocation.py:8 | the first piece ends exactly at the first separator |
| `Geolocation.GetClientIp` | utils/geolocation.py:4-11 | with a non-empty `X-Forwarded-For`, the IP is its longest comma-free prefix (the whole header when it has no comma), untrimmed; otherwise it is `REMOTE_ADDR`, or absent |
| `Geolocation.GetCityFromIp` | utils/geolocation.py:14-25 | `"Localhost"` for client IP `"127.0.0.1"` or `"localhost"`; otherwise whatever the lookup answers for `https://ipinfo.io/<ip>/json` |
| `Geolocation.LoopbackIgnoresLookup` | utils/geolocation.py:17-18 | for a loopback client the answer does not depend on the lookup |
| `Geolocation.ForwardedNotTrimmed` | utils/geolocation.py:6-8 | `" 127.0.0.1, 10.0.0.1"` gives `" 127.0.0.1"`, leading space kept |
| `Geolocation.ForwardedOverridesRemote` | utils/geolocation.py:6-11 | when the header is present and non-empty, changing `REMOTE_ADDR` does not change the IP |
| `Geolocation.EmptyForwardedFallsBack` | utils/geolocation.py:7-10 | a present but empty header counts as absent: the IP is `REMOTE_ADDR` |

## Left out

- `logging.py` is not part of this model: it only configures logger handlers, creates a log directory and runs import-time setup.
- The identity-based `__hash__` of `imdict` (`utils.py:7-8`): a Dafny value has no object identity.
- The HTTP request to ipinfo.io, its JSON decoding and the swallowed `RequestException` (`utils/geolocation.py:20-25`) are the `lookup` parameter; network I/O is not modelled.
- `Results.ToDict`: Python's `str()` of the message is a parameter, not defined; the model states only that the emitted message is that string, and `Results.KeepsStrings` says what `str` does on a string where a lemma needs it.
- The key order of the dictionaries `to_dict` builds: maps in the model are unordered.
- Python values beyond `None`, booleans, integers, strings, lists and string-keyed dictionaries (floats, tuples, arbitrary objects) as payloads, error details or mapping values.
- Reassigning a Result's attributes (`r.message = ...`), which Python does not block, and calling `__init__` again on an existing Result: the model's Results are values.
- Dictionary reads and equality inherited from `dict` beyond the key set and values of `Results.Mapping`.
- Mutations `imdict` does not block: only the seven overridden methods raise. The inherited in-place merge `r |= other` (Python 3.9 and later) and the unbound `dict` methods called on a Result (`dict.__setitem__(r, k, v)`) change its contents without raising; the model has no such calls, so its immutability lemmas speak of the seven overridden mutators only.
- `Geolocation.GetCityFromIp`: an `AttributeError` from `data.get` when the JSON body is not an object (`utils/geolocation.py:23`) is not swallowed by the source; the total `lookup` parameter cannot express that exception.
- `Results.New`: `success` is a `bool`. Python stores whatever value it is given, so a non-bool `success` (say `1`) would appear as such in `is_success` and the dictionary, and `to_dict` would branch on its truthiness; such values are not modelled.
