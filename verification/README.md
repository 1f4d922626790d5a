# pvr.ultimate core in Dafny

A Dafny model of the core of `CPVRUltimate`, a Kodi PVR client. It is a thin
adapter between the Kodi host and an "Ultimate" HTTP/JSON backend. The model
covers the following:

- **Provider catalog.** `LoadProviders` turns the backend's `providers`
  array into provider records. Each record's 32-bit unique ID is a djb2-style
  hash of its name (`GenerateProviderUniqueId`). The catalog also keeps a
  name-to-UID map.
- **Channel catalog.** `LoadChannels` and `LoadChannelsForProvider` fetch
  each enabled provider's channel listing. They fill in the field defaults
  and number the channels: a backend number plus a flat 1000 offset when
  there is more than one provider, else the next value of one running
  counter.
- **Connectivity gate.** `RetryBackendCall` makes up to 10 probes, with a
  linear back-off of 2000·k ms between them.
- **Stream resolution.** `GetChannelStreamProperties` resolves a host UID to
  a channel, re-runs the gate when the backend was last seen down, and reads
  the manifest URL through the backend's error ladder. It then appends the
  input-stream properties and at most one DRM property. That property takes
  the modern form (the whole `drm_configs` object, via `GetDRMConfigJson`)
  or the legacy form (`system|url[|headers]`, or the bare ClearKey system,
  via `GetDRMConfig`).
- **Host queries.** `GetProvidersAmount`, `GetProviders` and `GetChannels`
  filter the loaded catalogs.

The backend is a parameter. `Backend = string -> Response` gives the
response to a GET of each endpoint path: no body, a body that does not
parse, or a parsed JSON document. The gate's probe responses are a
sequence. Its pauses are recorded in the result instead of slept. The JSON
model keeps object members in document order, and a lookup finds the first
member with the key, as rapidjson's `HasMember`/`operator[]` do. A string
read through rapidjson's `GetString()` into a `std::string` stops at its
first NUL (`Common.CString`).

Modules follow the program's structure:

| module | file | role |
|---|---|---|
| `Common` | common.dfy | `Option`, the `Outcome` of code that may be undefined, `CString` |
| `Int32` | int32.dfy | two's-complement wrap-around and C `abs` |
| `Json` | json.dfy | documents, responses, typed member lookups |
| `Records` | records.dfy | provider, channel and DRM records, adapter state, endpoint paths, retry constants |
| `ProviderId` | provider_id.dfy | the provider hash |
| `Providers` | providers.dfy | provider loading and the provider queries |
| `Channels` | channels.dfy | channel loading, numbering and `GetChannels` |
| `Gate` | gate.dfy | `RetryBackendCall` |
| `Drm` | drm.dfy | `GetDRMConfig`, `GetDRMConfigJson`, the legacy property value |
| `Stream` | stream.dfy | `GetChannelStreamProperties` |

The channel offset is a flat 1000 for every provider, added whenever the
provider list holds more than one provider (src/PVRUltimate.cpp:286); it does
not depend on the provider's position in the list. Two providers that both
list backend channel 5 therefore both show it as 1005
(`Channels.SharedBackendNumberCollides`), and playing 1005 always resolves to
the first provider's channel (`Stream.SharedNumberPlaysFirstProvider`).

## Model

| member | source | states |
|---|---|---|
| Common.CString | src/PVRUltimate.cpp:192-197 | a `std::string` built from a rapidjson string keeps the characters before the first NUL: a prefix of the input, NUL-free, and followed by a NUL whenever it is shorter |
| Int32.Wrap | src/PVRUltimate.cpp:154-158 | 32-bit `int` arithmetic, taken as two's-complement wrap-around: the result is in range, congruent to the exact value modulo 2^32, and equal to it when it fits |
| Int32.WrapCongruent | src/PVRUltimate.cpp:154-158 | values congruent modulo 2^32 wrap to the same `int`, so wrapping after every step equals wrapping once at the end |
| Int32.WrapAffine | src/PVRUltimate.cpp:154-158 | a step `h * 33 + c` on operands congruent modulo 2^32 wraps to the same value |
| Int32.Abs | src/PVRUltimate.cpp:160 | `abs` gives a non-negative value equal to x or -x, except INT_MIN, which stays INT_MIN |
| Json.Lookup | src/PVRUltimate.cpp:177-185 | `HasMember` fails exactly when no member has the key; otherwise `operator[]` returns the value of the first member with the key |
| ProviderId.ByteValue | src/PVRUltimate.cpp:155-158 | each byte enters the hash as a signed `char`: in [-128, 128) and congruent to the byte modulo 256 |
| ProviderId.FoldIsWrappedWeighted | src/PVRUltimate.cpp:150-158 | the wrapped loop value equals the exact base-33 polynomial of the bytes, wrapped once to 32 bits |
| ProviderId.GenerateProviderUniqueId | src/PVRUltimate.cpp:150-161 | the UID is `abs` of the 32-bit-wrapped polynomial of the name's bytes up to its first NUL; it is non-negative except for INT_MIN |
| ProviderId.UniqueIdOfEmpty | src/PVRUltimate.cpp:150-161 | the empty name has UID 0 |
| ProviderId.UniqueIdOfAbc | src/PVRUltimate.cpp:150-161 | "abc" has UID (97·33+98)·33+99 = 108966 |
| ProviderId.UniqueIdOfUtf8Umlaut | src/PVRUltimate.cpp:150-161 | "ö", given as its UTF-8 bytes C3 B6, has UID abs(-61·33 - 74) = 2087 |
| ProviderId.UniqueIdStopsAtNul | src/PVRUltimate.cpp:153-157 | the loop stops at the first NUL: bytes after it do not change the UID |
| Providers.IsProviderEnabled | src/PVRUltimate.cpp:145-148 | every provider is enabled |
| Providers.ProviderFromEntry | src/PVRUltimate.cpp:187-232 | an entry is accepted iff it is an object with a string `name` or a bare string; the label falls back to the name when absent or empty; country and logo default to empty; enabled; UID is the name's hash |
| Providers.ProviderFromEntryAsWritten | src/PVRUltimate.cpp:188-192 | the code as written is undefined exactly when `name` is present but not a string; elsewhere it agrees with the corrected reading |
| Providers.NonStringNameIsUndefined | src/PVRUltimate.cpp:188-192 | `{"name": 7}` makes the code as written undefined, and the corrected reading skips it |
| Providers.ProvidersFromMembers | src/PVRUltimate.cpp:187-233 | the catalog holds exactly the records of the accepted entries: each record comes from an accepted entry, and every accepted entry's record is in it |
| Providers.ProvidersFromAppend | src/PVRUltimate.cpp:187-233 | entries are read in order: the catalog of a concatenation is the concatenation of the catalogs |
| Providers.IdMap | src/PVRUltimate.cpp:215-228 | the map's keys are exactly the loaded names, and each value is the UID of a provider with that name |
| Providers.IdMapIsHash | src/PVRUltimate.cpp:212-228 | when UIDs are name hashes, the map sends every name to its hash, so duplicate names share one UID |
| Providers.LoadProviders | src/PVRUltimate.cpp:163-243 | fails iff the response is empty, does not parse, or lacks a `providers` array, and then leaves the state unchanged; on success it replaces only the provider list and ID map, with the accepted entries, all enabled, keyed by name to their hash |
| Providers.GetProvidersAmount | src/PVRUltimate.cpp:554-562 | the count is at most the list length, and equals it iff every provider is enabled |
| Providers.ProvidersAmountCountsEnabled | src/PVRUltimate.cpp:554-562 | the amount is exactly the number of list positions that hold an enabled provider |
| Providers.DisplayName | src/PVRUltimate.cpp:569-573 | the host sees the label when it is non-empty, else the name |
| Providers.GetProviders | src/PVRUltimate.cpp:564-591 | exactly `GetProvidersAmount` host records: every enabled provider is reported, and nothing else |
| Providers.GetProvidersAppend | src/PVRUltimate.cpp:564-591 | records come in list order, one per enabled list element: a single provider yields its own record or none, and a concatenation yields the concatenated records |
| Providers.LoadedProvidersAllReported | src/PVRUltimate.cpp:145-148 | after a successful load the amount reported equals the catalog size |
| Channels.ChannelRecord | src/PVRUltimate.cpp:288-378 | a record keeps its provider and assigned number, is never radio, and has UID `provider:channelId` |
| Channels.ChannelRecordReadsEntry | src/PVRUltimate.cpp:292-375 | each string field of a record (Id, Name, LogoUrl, Mode, Manifest, ManifestScript, CdmMode, ContentType, Country, Language, StreamingFormat) is its member's C string when that member is a string, else its default (`live`, `external`, `LIVE`, `de`, or empty); CDM is used unless `UseCdm` is the boolean false; the session-manifest flag is set only by `SessionManifest` true |
| Channels.MinimalEntryDefaults | src/PVRUltimate.cpp:322-378 | an entry with only `Name` and `Id` gets mode "live", no session manifest, CDM on, CDM mode "external", content type "LIVE", language "de", and empty other fields |
| Channels.AssignNumbers | src/PVRUltimate.cpp:307-319 | one number per entry, and the counter never moves backwards |
| Channels.AssignNumbersSpec | src/PVRUltimate.cpp:307-319 | a backend number n becomes n + offset; the counter ends above every number assigned; an auto number is at least the starting counter and above every number assigned before it, and is the starting counter or one more than an earlier number, so it is exactly the smallest such value; the final counter is likewise the start or one above a number |
| Channels.AutoNumberIsCounter | src/PVRUltimate.cpp:311-318 | an auto number is the starting counter or one more than a number assigned before it: the counter is never pushed further than cpp:313-314 and cpp:318 push it |
| Channels.FinalCounterIsTight | src/PVRUltimate.cpp:311-318 | the counter after the fold is the starting counter or one more than a number assigned |
| Channels.AutoAroundBackendFive | src/PVRUltimate.cpp:307-319 | entries without a number around a backend 5, from counter 1 with no offset, are numbered 1, 5, 6 and leave the counter at 7 |
| Channels.AssignNumbersAppend | src/PVRUltimate.cpp:245-257 | numbering a concatenation carries the first part's counter into the second: one counter threads through all providers |
| Channels.LoadChannelsForProvider | src/PVRUltimate.cpp:264-394 | fails, adding nothing, iff the listing is empty, unparseable or has no `channels` array; otherwise it yields one record per entry, in order, each for this provider |
| Channels.PassSlotsFromProviders | src/PVRUltimate.cpp:249-257 | every channel read in a pass names an enabled provider of the list |
| Channels.ProviderPass | src/PVRUltimate.cpp:249-257 | the provider loop equals one numbering pass over all the entries it reads |
| Channels.LoadChannels | src/PVRUltimate.cpp:245-262 | changes only the channel list and counter; the list is the numbered entries of every enabled provider, counter starting at 1, offset 1000 iff more than one provider; succeeds iff some channel was loaded |
| Channels.CounterExceedsCatalog | src/PVRUltimate.cpp:312-318 | after a load the counter is at least 1 and exceeds every channel number |
| Channels.ReloadIgnoresOldCatalog | src/PVRUltimate.cpp:246-247 | the list is cleared and the counter reset: a load does not depend on the previous catalog |
| Channels.ReloadIdempotent | src/PVRUltimate.cpp:245-262 | reloading against the same backend gives the same state |
| Channels.FailedProviderContributesNothing | src/PVRUltimate.cpp:250-254 | a disabled provider, or one whose listing fails, adds nothing and leaves the numbering of the others as if it were absent |
| Channels.ProviderOffset | src/PVRUltimate.cpp:285-286 | the offset is 0 or 1000, and 0 exactly when the list holds at most one provider |
| Channels.BackendNumberOffset | src/PVRUltimate.cpp:286-310 | a backend number n is shown as n + 1000 with several providers and as n with one |
| Channels.AutoNumberIsFresh | src/PVRUltimate.cpp:312-318 | an auto-numbered channel is numbered above every channel loaded before it |
| Channels.SecondProviderChannelFive | src/PVRUltimate.cpp:286-318 | two providers, the second listing backend number 5: the catalog is that one channel, numbered 1005, and the counter is 1006 |
| Channels.SharedFiveNumbering | src/PVRUltimate.cpp:307-319 | two entries both numbered 5 get 1005 and 1005 under the 1000 offset |
| Channels.SharedBackendNumberCollides | src/PVRUltimate.cpp:286 | the offset is not positional: two providers that both list 5 both show it as 1005 |
| Channels.GetChannels | src/PVRUltimate.cpp:599-626 | every record has the requested radio flag and comes from a listed channel, keyed by its number, with the provider UID when the map has the provider; every matching channel is reported |
| Channels.GetChannelsCount | src/PVRUltimate.cpp:599-626 | the number of records is the number of list positions whose radio flag matches |
| Channels.GetChannelsAppend | src/PVRUltimate.cpp:599-626 | records come in list order, one per matching list element: a single channel yields its own record or none, and a concatenation yields the concatenated records |
| Channels.LoadedCatalogIsAllTv | src/PVRUltimate.cpp:378 | a loaded catalog holds no radio channels: the radio query is empty, the TV query reports every channel |
| Channels.LoadedChannelsNameEnabledProviders | src/PVRUltimate.cpp:249-257 | every loaded channel names an enabled provider of the list it was loaded from |
| Channels.LoadedChannelsHaveProviderUid | src/PVRUltimate.cpp:612-618 | every loaded channel's provider is in an ID map whose keys are the provider names, so the provider UID lookup never misses after a full load |
| Gate.Attempts | src/PVRUltimate.cpp:56-71 | the loop from attempt k stops at the first answered probe, or runs to attempt 10; it pauses 2000·j ms after each failed attempt j below 10 |
| Gate.RetryBackendCall | src/PVRUltimate.cpp:55-77 | succeeds iff one of the first 10 probes is answered; stops at the first answer; pauses 2000·k ms after failed attempt k; stores exactly the outcome and changes nothing else |
| Gate.GateDelaysAreBackoff | src/PVRUltimate.cpp:55-71 | for every probe sequence the recorded pauses are the reference schedule 2000, 4000, …, 2000·n for the n failed attempts before the last, 1000·n·(n+1) ms in all |
| Gate.TotalBackoff | src/PVRUltimate.cpp:66-70 | n failed attempts pause 1000·n·(n+1) ms in all |
| Gate.FullyFailedGate | src/PVRUltimate.cpp:55-77 | with no answer: 10 attempts, 9 pauses of 2000..18000 ms, 90 000 ms in all, backend marked unavailable |
| Gate.FirstProbeAnswered | src/PVRUltimate.cpp:56-64 | an answer to the first probe succeeds at once, without pausing |
| Drm.LicenseFrom | src/PVRUltimate.cpp:438-473 | each string field of the license is the member's C string when that member is a string, else empty; `useHttpGetRequest` is set, true exactly when the member is the boolean true |
| Drm.EmptyLicenseObject | src/PVRUltimate.cpp:438-473 | an empty license object gives the default license except that the GET flag is set to false |
| Drm.ConfigFrom | src/PVRUltimate.cpp:427-474 | the system is the member name; priority is the `priority` int, else 1; a non-object `license` leaves the license default; with a license object, the URL and headers are its string members (else empty) and `use_http_get_request` defaults to false |
| Drm.GetDrmConfig | src/PVRUltimate.cpp:403-487 | an empty config for an empty or unparseable response, a missing or non-object `drm_configs`, or an empty object; otherwise the config of the first member |
| Drm.OnlyFirstSystemRead | src/PVRUltimate.cpp:426-476 | members after the first key system, and document members after `drm_configs`, do not affect the config |
| Drm.ArrayShapedConfigsIgnored | src/PVRUltimate.cpp:422-481 | an array-shaped `drm_configs` yields the empty config |
| Drm.GetDrmConfigJson | src/PVRUltimate.cpp:489-518 | always an object: a copy of `drm_configs` when that is an object, else empty |
| Drm.ConfigAgreesWithJson | src/PVRUltimate.cpp:403-518 | the legacy config is empty exactly when the modern object is empty, and otherwise is read from its first member |
| Drm.LegacyValue | src/PVRUltimate.cpp:733-753 | a value exists iff system and URL are both set, or the system is ClearKey; ClearKey without URL gives the bare system; every value starts with the system |
| Drm.LegacyValueSplits | src/PVRUltimate.cpp:733-739 | when no part holds a pipe character, the value splits at its pipes back into system, URL and, when set, headers |
| Drm.WidevineLegacyValue | src/PVRUltimate.cpp:733-739 | Widevine with license URL `https://lic.example/w` and headers `X-A: 1` gives the three fields joined by pipes |
| Drm.WidevineLegacyValueNoHeaders | src/PVRUltimate.cpp:733-739 | the same without headers gives only system and URL joined by a pipe |
| Stream.FindChannel | src/PVRUltimate.cpp:633-645 | finds the first channel whose number is the UID, and finds none iff no channel has it |
| Stream.ManifestUrl | src/PVRUltimate.cpp:662-690 | a URL iff the response parsed, has no string `error`, and has a string `manifest_url`; the URL is that member |
| Stream.DrmProperties | src/PVRUltimate.cpp:704-755 | at most one property, none without CDM; modern: the serialized `drm_configs` iff it has members; legacy: the legacy value iff it exists |
| Stream.CheckBackend | src/PVRUltimate.cpp:650-654 | the state afterwards differs only in the availability flag, which is true iff it already was or one of the first 10 probes is answered |
| Stream.GetChannelStreamProperties | src/PVRUltimate.cpp:628-758 | an unknown UID, a failed gate or a missing manifest URL gives SERVER_ERROR with the properties untouched; only the availability flag may change, and for a known UID it ends as the gate check left it; success iff all three pass; on success appends inputstream, stream URL and the DRM property |
| Stream.SuccessAppendsTwoOrThree | src/PVRUltimate.cpp:700-702 | on success the caller's properties are kept, followed by the adaptive input stream, the stream URL and at most one more |
| Stream.ErrorResponseFails | src/PVRUltimate.cpp:676-680 | a manifest response whose first member is a string `error` fails the call |
| Stream.AvailableBackendSkipsGate | src/PVRUltimate.cpp:651 | with the backend available the probes are irrelevant and the state is unchanged |
| Stream.ClearKeyWithoutUrl | src/PVRUltimate.cpp:744-751 | ClearKey without a license URL gets the bare `org.w3.clearkey` legacy property |
| Stream.ReportedChannelIsFound | src/PVRUltimate.cpp:599-639 | a UID the host got from `GetChannels` resolves to a channel with that number |
| Stream.SharedNumberPlaysFirstProvider | src/PVRUltimate.cpp:633-639 | with two providers both listing 5, UID 1005 resolves to the first provider's channel, so the second cannot be played |

## Left out

- HTTP transport (`HttpGet`, `BuildApiUrl` with host and port) and JSON parsing and writing: the backend is a function from endpoint path to response, and the serializer of the modern DRM property is a parameter.
- `SleepMs`: the gate records its pauses instead of sleeping.
- Logging, and the operation name passed to the gate, which is only logged.
- The constructor's start-up sequence, `SetSetting`, `GetCapabilities`, `GetBackendName`, `GetBackendVersion`, `GetConnectionString`, channel groups and signal status: host plumbing, not the catalog logic.
- `DetectInputstreamVersion`: the modern-DRM flag is part of the state and is not derived from the host version.
- `GetChannelsAmount`, `m_channelLookup` and `m_retryCount`: not read by the modelled operations.
- EPG and catch-up (`GetEPGForChannel`, `IsEPGTagPlayable`, `GetEPGTagStreamProperties`, `IsEPGTagRecordable`): declared in the header but not defined in the implementation file.
- Concurrency: the host's calls are taken one at a time.
- Channels.LoadChannels: channel numbers and the counter are unbounded integers; 32-bit overflow of `n + 1000` and of `counter + 1` (undefined in C++) is not modelled.
- Stream.GetChannelStreamProperties: the host UID is compared as a plain integer; the unsigned conversion of the host's UID is not modelled.
- ProviderId.GenerateProviderUniqueId: `char` is taken as signed, as on x86; on an unsigned-`char` target, bytes 128..255 would enter the hash as positive values. The loop's `int` arithmetic overflows for names longer than about six bytes, and signed overflow (and, before C++20, a left shift of a negative value) is undefined in C++; the model takes two's-complement wrap-around at every step. Strings read from JSON are byte strings in the model: each `char` stands for one byte of the UTF-8 text, so a non-ASCII name must be given as its bytes ("ö" as the two chars U+00C3 U+00B6, see `ProviderId.UniqueIdOfUtf8Umlaut`), and chars above U+00FF do not occur; for such a char the model would take its code modulo 256, which has no counterpart in the program.
- Providers.LoadProviders: follows the corrected reading of src/PVRUltimate.cpp:188-192, which skips an object entry whose `name` is not a string; the code as written is undefined on such an entry (see Findings), so on that input the model's successful load is not what the program promises.
- Int32.Abs: `abs(INT_MIN)` is undefined in C++; the two's-complement result, INT_MIN, is taken.
- Json.Get: a member lookup on a value that is not an object finds nothing; in rapidjson, `HasMember` on a non-object fails an assertion (for example a channel entry that is not an object).
- Each endpoint answers the same way every time it is fetched within one operation; the DRM endpoint is fetched once per stream resolution.
- The PVR property names `inputstream` and `streamurl` are the host API's constants, written out as strings.

## Findings

| source | as written | input that shows it | evidently intended | confidence | as-written member | corrected member |
|---|---|---|---|---|---|---|
| src/PVRUltimate.cpp:188-192 | an object entry with a `name` member is read with `GetString()` without checking `IsString()`; on a non-string this fails a rapidjson assertion (undefined behaviour in a release build) | `{"providers":[{"name":7}]}` | skip entries whose `name` is not a string, as every other field of the entry is guarded | not executed | Providers.ProviderFromEntryAsWritten | Providers.ProviderFromEntry |
