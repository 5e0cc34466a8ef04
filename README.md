# GraylogLog, modelled in Dafny

`GraylogLog` is a CakePHP log engine that turns a log call into a GELF 1.1
record and hands it to a Graylog publisher over UDP or TCP. The repository
holds two generations of it:

- `src/Log/Engine/GraylogLog.php`, the PSR-3 engine for CakePHP 3 and later;
- `Lib/Log/Engine/GraylogLog.php`, the CakePHP 2 engine.

This project models both engines:

- the constructor's configuration normalisation:
  - the `ssl_options` guard;
  - the URL override of scheme, host and port;
  - lower-casing of the scheme;
  - the PSR-3 level filter (src);
  - registration of the legacy POST/Session append callbacks (Lib);
- the lazily built transport and publisher;
- the scheme dispatch, and the ignore-errors wrapper (Lib);
- the re-entrancy guard of `write` (Lib);
- `createMessage`: the order in which sections are appended, the `Trace:` guard, the `append` and `additional` callback registries, and the short/full split done with `strtok`;
- the recursive password masking of the PSR-3 engine.

Modules:

- `Php` (`php.dfy`): the PHP values the engine touches. It covers:
  - ordered arrays;
  - `empty()` and the `(string)` cast;
  - `strtolower`, `trim` and `strpos`;
  - assignment into an ordered array.
- `Gelf` (`gelf.dfy`): the record datatype and the ambient inputs. Ambient inputs are the request, `$_POST`, `$_SESSION`, the backtrace text and frame, `json_encode` and the obfuscator. The module also holds the section and split rules shared by both engines.
- `Levels` (`levels.dfy`): the level filter.
- `Transport` (`transport.dfy`): the SSL guard, the URL merge and the scheme dispatch.
- `Masking` (`masking.dfy`): `obscurePasswords`.
- `GraylogSrc` (`graylog_src.dfy`) and `GraylogLib` (`graylog_lib.dfy`): one class per engine. Each class holds the configuration, the cached transport and publisher, and the list of records that were published. The `GraylogLib` class also holds the `loop` flag. Ghost build counters record each cache fill. `Valid()` ties them to whether the cache is filled, so the real content of "built at most once" is in the getters' `old(..).Some? ==>` clauses: a filled cache is never replaced and its counter never grows.

Each `createMessage` method builds the message with successive appends and
loops. It is proved equal to a specification function: `MessageRecord` in
each engine module. The lemmas state what the source promises about those
functions.

The model follows the code in two places where descriptions of the engine say otherwise:

- A parsed `url` overrides scheme, host and port even when they were configured explicitly. The code merges the parsed URL over the merged configuration (`Transport.ApplyUrl`).
- `strtok` skips leading line breaks. A message that begins with a line break therefore gets a short message taken from its first non-empty line (`Gelf.StrtokShape`).

A write that raises leaves the CakePHP 2 guard set. Every later write on that engine is then skipped (`GraylogLib.GraylogLog.Write`; the client method `GraylogLib.FailedWriteMutesEngine` walks through it). A write that completes clears the guard, so writes in a row all publish (`GraylogLib.WritesInSequence`). The PSR-3 engine keeps one transport and publisher across calls (`GraylogSrc.CachedAcrossCalls`).

## Model

| member | source | states |
|---|---|---|
| Php.CastToString | Lib/Log/Engine/GraylogLog.php:292 | the `(string)` cast fails exactly on objects; a string casts to itself; null and false become the empty string |
| Php.ToLower | src/Log/Engine/GraylogLog.php:102 | `strtolower` keeps the length, leaves no upper-case ASCII letter, maps A-Z to a-z and keeps every other character |
| Php.Trim | src/Log/Engine/GraylogLog.php:297 | `trim($s) !== ''` fails exactly when every character is one of the six stripped characters |
| Php.AssignSpec | Lib/Log/Engine/GraylogLog.php:107 | `$a[$k] = $v` makes `$k` map to `$v`; every other key is unchanged; an existing key keeps its position and a new key goes last |
| Php.ContainsAppended | src/Log/Engine/GraylogLog.php:231-233 | `Contains`, the model of `strpos(..) !== false`, holds for any string with the needle appended, so a message with an appended `Trace:` section contains `Trace:` |
| Gelf.Section | src/Log/Engine/GraylogLog.php:238-239 | a section is two line feeds, then the heading, a colon, a line feed, and the body |
| Gelf.AppendSection | src/Log/Engine/GraylogLog.php:238-239 | the two `.=` of one section extend the message by exactly that section |
| Gelf.RequestFields | src/Log/Engine/GraylogLog.php:208-214 | on the command line or without a request there are no request fields; otherwise `request_uri` holds the request target, and `http_referer` is set, to the referer, exactly when the referer is not empty; the keys are exactly `http_referer` (when set) followed by `request_uri` |
| Gelf.StrtokShape | src/Log/Engine/GraylogLog.php:271 | `Strtok`, the first `strtok` call: it gives false exactly when the message is only line breaks; otherwise it gives a non-empty token without line breaks that follows only line breaks and ends at a line break or at the end |
| Gelf.StrtokWhole | src/Log/Engine/GraylogLog.php:276-277 | the token is the whole message exactly when the message is non-empty and has no CR or LF |
| Gelf.SplitSpec | src/Log/Engine/GraylogLog.php:271-281 | no full message exactly when the message is one non-empty line, and then the short message is the message; otherwise the full message is the whole message and differs from the short one |
| Gelf.SectionForcesFull | src/Log/Engine/GraylogLog.php:232-281 | any message containing an appended section is sent with a full message |
| Levels.KeepAllowed | src/Log/Engine/GraylogLog.php:112-116 | the kept entries are exactly the input entries whose value is one of the eight PSR-3 levels, and there are no more of them than input entries |
| Levels.KeepAllowedConcat | src/Log/Engine/GraylogLog.php:112-116 | filtering distributes over concatenation, so kept entries keep their relative order |
| Levels.KeepAllowedAllValid | src/Log/Engine/GraylogLog.php:112-116 | an input made only of PSR-3 levels is kept unchanged |
| Levels.AllLevels | src/Log/Engine/GraylogLog.php:57-66 | the fallback is the eight levels in canonical order under keys 0 to 7 |
| Levels.ResolveLevels | src/Log/Engine/GraylogLog.php:104-122 | the resolved levels are non-empty and hold only PSR-3 levels; they are the valid input entries in order when there are any, and otherwise all eight (also for a non-array setting) |
| Levels.FilterLevels | src/Log/Engine/GraylogLog.php:112-116 | the `foreach`/`unset` loop leaves exactly the filtered entries |
| Levels.ResolveLevelsDropsUnknown | src/Log/Engine/GraylogLog.php:104-122 | `[error, warning, 'i5A64FtlPt']` resolves to `[error, warning]` with keys 0 and 1 |
| Transport.NormaliseSsl | src/Log/Engine/GraylogLog.php:87-91 | the result is null or an `SslOptions` instance; the input is kept exactly when it is one of those, and anything that is not an `SslOptions` instance becomes null |
| Transport.ApplyUrl | src/Log/Engine/GraylogLog.php:96-98 | each URL component that is present replaces the configured one; absent components keep the configured value |
| Transport.ResolveEndpoint | src/Log/Engine/GraylogLog.php:96-102 | the resolved scheme is lower-case; each URL component that is present wins (the scheme lower-cased); each absent one keeps the configured value (the scheme lower-cased); without a URL only the scheme changes |
| Transport.Dispatch | src/Log/Engine/GraylogLog.php:175-192 | "udp" gives UDP(host, port, chunk size) and "tcp" gives TCP(host, port, ssl options), compared exactly and unwrapped; any other scheme gives the LogicException with the given message |
| Transport.UpperCaseUrlSchemeSelectsTcp | src/Log/Engine/GraylogLog.php:96-102 | a `TCP://1.2.3.4` URL selects TCP to 1.2.3.4 on the default port |
| Masking.ObscurePasswords | src/Log/Engine/GraylogLog.php:289-304 | masking keeps the number of entries, every key, and which entries are arrays |
| Masking.ObscureEntry | src/Log/Engine/GraylogLog.php:291-301 | an entry keeps its key, and it is an array exactly when it was one |
| Masking.ObscureKeepsShape | src/Log/Engine/GraylogLog.php:289-304 | the masked tree has the same keys and nesting as the input at every depth |
| Masking.ObscureEntryKeepsShape | src/Log/Engine/GraylogLog.php:291-301 | the same shape property for one entry |
| Masking.ObscureLeaves | src/Log/Engine/GraylogLog.php:289-304 | leaf i of the result, in walk order, is the mask exactly when leaf i of the input is a string under a password key (after `strtolower`) whose trimmed value is not empty; otherwise it is the input leaf |
| Masking.ObscureEntryLeaves | src/Log/Engine/GraylogLog.php:291-301 | the same leaf-by-leaf property for one entry |
| Masking.MaskLeafIdempotent | src/Log/Engine/GraylogLog.php:294-299 | masking a leaf twice is masking it once |
| Masking.ObscureIdempotent | src/Log/Engine/GraylogLog.php:289-304 | masking a tree twice is masking it once |
| Masking.ObscureEntryIdempotent | src/Log/Engine/GraylogLog.php:291-301 | the same idempotence for one entry |
| Masking.MasksMixedCaseKeyInNestedArray | src/Log/Engine/GraylogLog.php:296 | a nested `PassWord` key is masked and a sibling `name` is kept |
| Masking.KeepsBlankPassword | src/Log/Engine/GraylogLog.php:297 | a password of only white space is left as it is |
| GraylogSrc.ResolveConfig | src/Log/Engine/GraylogLog.php:81-124 | after construction: ssl options are the given `SslOptions` instance, and null when none is given or the given value is not one; the scheme is lower-case; present URL components win, and components the URL lacks (or all, without a URL) are the given or default values; levels are resolved; password keys are the defaults followed by the given ones; facility, chunk size and the three append flags are the given value or the default (flags default to true) |
| GraylogSrc.InitTransportSpec | src/Log/Engine/GraylogLog.php:175-192 | `InitTransport` on the resolved configuration selects UDP, TCP, or the `Unkown transport scheme for GreyLog!` LogicException; a TCP transport gets null or an `SslOptions` instance |
| GraylogSrc.OriginFields | src/Log/Engine/GraylogLog.php:224-227 | the intended fields: the frame's file name and its line, or neither when there is no frame |
| GraylogSrc.RecordForOrigin | src/Log/Engine/GraylogLog.php:224-227 | the engine's record, as written (`OriginFieldsAsWritten`), has the frame's line in its file field, so the file name is lost, and no line field; neither field without a frame |
| GraylogSrc.RecordForIntendedSpec | src/Log/Engine/GraylogLog.php:220-227 | the intended record has the frame's file and line, differs from the engine's record whenever there is a frame, and agrees with it in every other field |
| GraylogSrc.EnrichedExtendsMessage | src/Log/Engine/GraylogLog.php:232-265 | `Enriched`, the message after the Trace/POST/Session appends: the original message is a prefix of the enriched one, and it is unchanged when no section applies |
| GraylogSrc.TraceAppendedOnce | src/Log/Engine/GraylogLog.php:232-240 | an enriched message never qualifies for a second trace, and a message already containing `Trace:` gets none |
| GraylogSrc.RecordForSplit | src/Log/Engine/GraylogLog.php:271-281 | the record's short message is the `strtok` token of the enriched message; the full message is absent exactly when that message is one non-empty line, and otherwise it is the whole message |
| GraylogSrc.EnrichmentForcesFull | src/Log/Engine/GraylogLog.php:232-281 | when Trace, POST or Session is appended, the record carries the full enriched message |
| GraylogSrc.DefaultsSendFullMessage | src/Log/Engine/GraylogLog.php:36-38 | with the shipped defaults, a message without `Trace:` is sent with a full message |
| GraylogSrc.PlainMessage | src/Log/Engine/GraylogLog.php:271-281 | with every append flag off, a one-line message is sent as the short message only |
| GraylogSrc.GraylogLog.constructor | src/Log/Engine/GraylogLog.php:81-124 | the step-by-step normalisation, including the `foreach`/`unset` loop, yields the resolved configuration with empty caches |
| GraylogSrc.GraylogLog.GetTransport | src/Log/Engine/GraylogLog.php:162-168 | returns the dispatch result; a cached transport is kept and never rebuilt; the cache is filled only on success |
| GraylogSrc.GraylogLog.GetPublisher | src/Log/Engine/GraylogLog.php:150-156 | the publisher wraps the cached transport; it is built at most once, and an unknown scheme leaves both caches empty |
| GraylogSrc.GraylogLog.CreateMessage | src/Log/Engine/GraylogLog.php:202-282 | the successive appends, the two `setFile` calls and the split produce `MessageRecord`: Trace, POST and Session in that order, then the short/full split, with file and line as written |
| GraylogSrc.GraylogLog.Log | src/Log/Engine/GraylogLog.php:139-144 | an unknown scheme raises before a record is built and leaves both caches empty; otherwise the transport and the publisher around it are cached, and the record is published unless publishing raises |
| GraylogLib.Invoke | Lib/Log/Engine/GraylogLog.php:107-115 | user callables return or throw; the POST and Session closures give null for empty data and otherwise `json_encode` (the string, or false) of that data obfuscated with the password keys the closure captured |
| GraylogLib.ToText | Lib/Log/Engine/GraylogLog.php:271 | converting to a string fails exactly on objects; strings are kept |
| GraylogLib.AppendSectionsShift | Lib/Log/Engine/GraylogLog.php:266-274 | the `append` loop, `AppendSections`, adds text that does not depend on the message: the result is the message followed by that text, or the same failure |
| GraylogLib.AppendSectionsConcat | Lib/Log/Engine/GraylogLog.php:266-274 | looping over `a + b` is looping over `a`, then continuing over `b` unless `a` raised |
| GraylogLib.AppendedTextConcat | Lib/Log/Engine/GraylogLog.php:266-274 | sections appear in configuration order, and the first failure wins |
| GraylogLib.OneEntryAppendsSection | Lib/Log/Engine/GraylogLog.php:267-272 | a callable with a non-empty output appends one section under its key |
| GraylogLib.SilentEntryAppendsNothing | Lib/Log/Engine/GraylogLog.php:267-269 | a non-callable entry, or one whose output is empty in PHP's sense (`Php.IsEmpty`: null, false, 0, "", "0", the empty array), appends nothing |
| GraylogLib.EmptyPostAppendsNothing | Lib/Log/Engine/GraylogLog.php:107-115 | the POST closure appends nothing when `$_POST` is empty |
| GraylogLib.AdditionalFieldsSpec | Lib/Log/Engine/GraylogLog.php:290-294 | the `additional` loop, `AdditionalFields`: each callable's key holds its result as a string; keys no callable names keep their request fields |
| GraylogLib.RegisterAppendsSpec | Lib/Log/Engine/GraylogLog.php:105-131 | `POST`/`Session` hold the dump closures exactly when their flag is `true`, and the caller's entries otherwise; every other `append` entry is kept |
| GraylogLib.RegisterAppendsKeys | Lib/Log/Engine/GraylogLog.php:105-131 | the registry keeps the caller's keys in place and adds a new `POST` key, then a new `Session` key, at the end |
| GraylogLib.RegisteredKeys | Lib/Log/Engine/GraylogLog.php:107-122 | the caller's keys stay a prefix; a registered `POST` and `Session` are present; a new `POST` follows the caller's keys and a new `Session` comes last |
| GraylogLib.RegistrationOrder | Lib/Log/Engine/GraylogLog.php:105-131 | a registry with one caller entry becomes that entry, then `POST`, then `Session`, so the sections follow that order |
| GraylogLib.ResolveConfig | Lib/Log/Engine/GraylogLog.php:76-136 | ssl options are the given `SslOptions` instance, and null when none is given or the given value is not one; lower-case scheme, URL override with absent components kept from the given or default values, password keys, facility, chunk size, the three append flags (default false), `ignore_transport_errors` (default true), and the `append` registry: dump closures under `POST`/`Session` exactly when their flag is `true`, the caller's entries otherwise, and the key order of `RegisteredKeys` |
| GraylogLib.InitTransport | Lib/Log/Engine/GraylogLog.php:194-200 | the transport `BuildTransport` dispatches is returned unwrapped exactly when `ignore_transport_errors` is false, and wrapped otherwise; a build failure passes through |
| GraylogLib.InitTransportSpec | Lib/Log/Engine/GraylogLog.php:194-225 | udp and tcp give the matching transport, wrapped unless the flag was given as false; anything else raises `Unknown transport scheme for GreyLog!` |
| GraylogLib.DefaultsWrapUdp | Lib/Log/Engine/GraylogLog.php:36-40 | the defaults select a wrapped UDP transport to 127.0.0.1:12201 |
| GraylogLib.BodySpec | Lib/Log/Engine/GraylogLog.php:250-285 | the body is the message, then the append text, then the trace, and the trace is decided on the original message |
| GraylogLib.MessageRecordSpec | Lib/Log/Engine/GraylogLog.php:234-311 | the record exists exactly when both loops succeed; an append failure is what is raised; the record is built from the body and the additional fields |
| GraylogLib.RecordOfSpec | Lib/Log/Engine/GraylogLog.php:300-310 | the short message is the `strtok` token of the body; the full message is absent exactly when the body is one non-empty line, and otherwise it is the body |
| GraylogLib.TraceAfterAppendOutput | Lib/Log/Engine/GraylogLog.php:250-285 | an append output containing `Trace:` does not suppress the trace, which follows it |
| GraylogLib.WriteOutcome | Lib/Log/Engine/GraylogLog.php:148-158 | a write that is not skipped publishes `createMessage`'s record exactly when the transport builds, the record builds, and publishing does not raise; otherwise it raises the transport error first, then the callback failure, then the publish exception |
| GraylogLib.GraylogLog.constructor | Lib/Log/Engine/GraylogLog.php:76-136 | the step-by-step normalisation and registration yield the resolved configuration, with the guard clear and empty caches |
| GraylogLib.GraylogLog.GetTransport | Lib/Log/Engine/GraylogLog.php:178-184 | returns `initTransport`'s result; a cached transport is kept; the cache is filled only on success |
| GraylogLib.GraylogLog.GetPublisher | Lib/Log/Engine/GraylogLog.php:165-171 | the publisher wraps the cached transport and is built at most once |
| GraylogLib.GraylogLog.CreateMessage | Lib/Log/Engine/GraylogLog.php:234-311 | the two `foreach` loops, the trace and the split produce `MessageRecord`, or the failure it names |
| GraylogLib.GraylogLog.Write | Lib/Log/Engine/GraylogLog.php:148-158 | while the guard is set, nothing changes and nothing is published; otherwise the outcome is `WriteOutcome`, the transport and the publisher around it are cached when the transport builds (both stay empty when it does not), exactly one record is published on success, and the guard stays set exactly when the write raised |

## Left out

- Transports, `Publisher::publish` and `IgnoreErrorTransportWrapper` behaviour are foreign network code. Transports are constructor tags. Publishing is a `publishFails` parameter saying whether `publish` raised.
- `Router::getRequest()`, `PHP_SAPI`, `$_POST` and `$_SESSION` are framework and global state. They are fields of the `Ambient` input.
- `ClassicBacktrace`, `trace_level_offset` and `file_root_dir` are call-stack introspection. The trace text and the last frame are inputs.
- `json_encode` and the `Obfuscator` of the CakePHP 2 engine are library code that is not part of this model. They are uninterpreted functions of the input.
- GELF message internals are library code:
  - `setLevel` converting level names to numbers, and raising on a level name it does not know; the model publishes such a record anyway;
  - the RuntimeException for an empty additional-field key;
  - validation inside `publish`.
- `LogTypes` and the `types` key of the CakePHP 2 engine are library code that is not part of this model.
- `Hash::merge` is modelled only on the keys the engine reads. List keys (`password_keys`) are appended; everything else is replaced.
- `parse_url` is modelled only as its scheme, host and port components. A URL it cannot parse is not modelled.
- PHP's loose typing of configuration values is not modelled. Host, port and chunk size are a string and integers, and `append`/`additional` are always arrays.
- Floating-point values and objects with `__toString` are not in the value model. Casting any object raises.
- Side effects of user callbacks are not modelled. A callback that itself calls `write` is one example.
- The `$context` argument of `log` is unused by the source. The level filtering done by the framework is not part of the engine.
- `PHP_EOL` is a line feed.
- Concurrency is not modelled; the engine is single-threaded.
- The PSR-3 engine's records carry file and line exactly as the source sets them: the line in the file field, and no line field. The intended record, `GraylogSrc.RecordForIntended`, is stated and proved, but no engine operation uses it.
- `strtok` keeps state between calls. Only the first call on a fresh string is modelled, which is the only call the engine makes.
- `obscurePasswords` rewrites a copy of the data by reference. It is modelled as a pure function, so the caller's data is untouched by construction.

## Findings

| source | as written | input that shows it | evidently intended | confidence | as-written member | corrected member |
|---|---|---|---|---|---|---|
| src/Log/Engine/GraylogLog.php:224-227 | `setFile` is called twice, the second time with the line number, so the file field holds the line and no line field is set | a last frame at file `a.php`, line 7: the record has file `7` and no line | `setFile($file)` followed by `setLine($line)` | high, not executed | GraylogSrc.RecordForOrigin | GraylogSrc.RecordForIntendedSpec |
