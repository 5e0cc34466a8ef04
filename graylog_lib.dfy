/**
 * The CakePHP 2 generation of the engine (`Lib/Log/Engine/GraylogLog.php`):
 * the constructor's normalisation and registration of the legacy POST/Session
 * append callbacks, the re-entrancy guard of `write`, the lazily built and
 * optionally error-ignoring transport, and `createMessage` with its `append`
 * and `additional` callback registries.
 */
module GraylogLib {
  import opened Php
  import opened Gelf
  import opened Transport
  import opened Masking

  const UnknownSchemeMessage := "Unknown transport scheme for GreyLog!"

  /**
   * A value stored under `append` or `additional`. `NotCallable` is any value
   * `is_callable` rejects; `Returns` and `Raises` are user callables that
   * return a value or throw; `PostDump` and `SessionDump` are the closures the
   * constructor registers, each capturing the password keys.
   */
  datatype Callback =
    | NotCallable
    | Returns(v: Value)
    | Raises(message: string)
    | PostDump(passwordKeys: seq<string>)
    | SessionDump(passwordKeys: seq<string>)

  /** `json_encode(..)` as a PHP value: the string, or false. */
  function JsonValue(json: Option<string>): Value {
    if json.Some? then Str(json.value) else Bool(false)
  }

  /**
   * `$function()`: the registered closures return the pretty-printed,
   * obfuscated POST or session data when it is not empty and null otherwise.
   */
  function Invoke(cb: Callback, env: Ambient): (r: Result<Value>)
    requires !cb.NotCallable?
    ensures cb.Returns? ==> r == Ok(cb.v)
    ensures cb.Raises? ==> r == Err(CallbackException(cb.message))
    ensures cb.PostDump? && env.post == [] ==> r == Ok(Null)
    ensures cb.SessionDump? && (env.session.None? || env.session.value == []) ==> r == Ok(Null)
    ensures cb.PostDump? && env.post != [] ==>
      r == Ok(JsonValue(env.json(env.obfuscate(cb.passwordKeys, Arr(env.post)))))
    ensures cb.SessionDump? && env.session.Some? && env.session.value != [] ==>
      r == Ok(JsonValue(env.json(env.obfuscate(cb.passwordKeys, Arr(env.session.value)))))
    ensures cb.PostDump? || cb.SessionDump? ==> r.Ok? && (r.value == Null || r.value.Str? || r.value == Bool(false))
  {
    match cb
    case Returns(v) => Ok(v)
    case Raises(msg) => Err(CallbackException(msg))
    case PostDump(keys) =>
      if env.post == [] then Ok(Null)
      else Ok(JsonValue(env.json(env.obfuscate(keys, Arr(env.post)))))
    case SessionDump(keys) =>
      if env.session.None? || env.session.value == [] then Ok(Null)
      else Ok(JsonValue(env.json(env.obfuscate(keys, Arr(env.session.value)))))
  }

  /** The string conversion done by `.=` and by `(string)`: an object raises an Error. */
  function ToText(v: Value): (r: Result<string>)
    ensures r.Err? <==> v.Obj?
    ensures r.Err? ==> r.error == ConversionError
    ensures v.Str? ==> r == Ok(v.s)
  {
    var s := CastToString(v);
    if s.None? then Err(ConversionError) else Ok(s.value)
  }

  /**
   * The `append` loop from position 0 of `entries`, continuing `m`: every
   * callable whose output is not empty in PHP's sense appends a section under
   * its key; a callback that throws ends the loop with its exception.
   */
  function AppendSections(m: string, entries: OrderedMap<Callback>, env: Ambient): Result<string>
    decreases |entries|
  {
    if entries == [] then Ok(m)
    else
      var key := entries[0].0;
      var cb := entries[0].1;
      if cb.NotCallable? then AppendSections(m, entries[1..], env)
      else
        var out :- Invoke(cb, env);
        if IsEmpty(out) then AppendSections(m, entries[1..], env)
        else
          var text :- ToText(out);
          AppendSections(m + Section(KeyString(key), text), entries[1..], env)
  }

  /** The text the `append` loop adds to the message, independently of the message. */
  function AppendedText(entries: OrderedMap<Callback>, env: Ambient): Result<string> {
    AppendSections("", entries, env)
  }

  /**
   * The sections the loop appends do not depend on the message they are
   * appended to: the result is the message followed by the appended text, and
   * a failure is the same failure whatever the message.
   */
  lemma {:induction false} AppendSectionsShift(m: string, entries: OrderedMap<Callback>, env: Ambient)
    ensures AppendSections(m, entries, env).Ok? <==> AppendedText(entries, env).Ok?
    ensures AppendSections(m, entries, env).Ok? ==>
      AppendSections(m, entries, env).value == m + AppendedText(entries, env).value
    ensures AppendSections(m, entries, env).Err? ==>
      AppendSections(m, entries, env).error == AppendedText(entries, env).error
    decreases |entries|
  {
    if entries != [] {
      var key := entries[0].0;
      var cb := entries[0].1;
      if cb.NotCallable? {
        AppendSectionsShift(m, entries[1..], env);
        AppendSectionsShift("", entries[1..], env);
      } else if Invoke(cb, env).Ok? {
        var out := Invoke(cb, env).value;
        if IsEmpty(out) {
          AppendSectionsShift(m, entries[1..], env);
          AppendSectionsShift("", entries[1..], env);
        } else if ToText(out).Ok? {
          var sec := Section(KeyString(key), ToText(out).value);
          AppendSectionsShift(m + sec, entries[1..], env);
          AppendSectionsShift("" + sec, entries[1..], env);
          assert "" + sec == sec;
          if AppendedText(entries[1..], env).Ok? {
            assert m + sec + AppendedText(entries[1..], env).value ==
                   m + (sec + AppendedText(entries[1..], env).value);
          }
        }
      }
    }
  }

  /** The loop over `a + b` is the loop over `a`, continued by the loop over `b` unless `a` raised. */
  lemma {:induction false} AppendSectionsConcat(m: string, a: OrderedMap<Callback>, b: OrderedMap<Callback>, env: Ambient)
    ensures AppendSections(m, a, env).Err? ==> AppendSections(m, a + b, env) == AppendSections(m, a, env)
    ensures AppendSections(m, a, env).Ok? ==>
      AppendSections(m, a + b, env) == AppendSections(AppendSections(m, a, env).value, b, env)
    decreases |a|
  {
    if a == [] {
      assert a + b == b;
    } else {
      assert (a + b)[0] == a[0] && (a + b)[1..] == a[1..] + b;
      var cb := a[0].1;
      if cb.NotCallable? {
        AppendSectionsConcat(m, a[1..], b, env);
      } else if Invoke(cb, env).Ok? {
        var out := Invoke(cb, env).value;
        if IsEmpty(out) {
          AppendSectionsConcat(m, a[1..], b, env);
        } else if ToText(out).Ok? {
          AppendSectionsConcat(m + Section(KeyString(a[0].0), ToText(out).value), a[1..], b, env);
        }
      }
    }
  }

  /**
   * Sections appear in configuration order: the text appended for `a + b` is
   * the text for `a` followed by the text for `b`, and the first failure wins.
   */
  lemma AppendedTextConcat(a: OrderedMap<Callback>, b: OrderedMap<Callback>, env: Ambient)
    ensures AppendedText(a, env).Err? ==> AppendedText(a + b, env) == AppendedText(a, env)
    ensures AppendedText(a, env).Ok? && AppendedText(b, env).Err? ==> AppendedText(a + b, env) == AppendedText(b, env)
    ensures AppendedText(a, env).Ok? && AppendedText(b, env).Ok? ==>
      AppendedText(a + b, env) == Ok(AppendedText(a, env).value + AppendedText(b, env).value)
  {
    AppendSectionsConcat("", a, b, env);
    if AppendedText(a, env).Ok? {
      AppendSectionsShift(AppendedText(a, env).value, b, env);
    }
  }

  /** One callable with a non-empty, convertible output appends one section under its key. */
  lemma OneEntryAppendsSection(key: Key, cb: Callback, env: Ambient)
    requires !cb.NotCallable? && Invoke(cb, env).Ok? && !IsEmpty(Invoke(cb, env).value)
    requires ToText(Invoke(cb, env).value).Ok?
    ensures AppendedText([(key, cb)], env) == Ok(Section(KeyString(key), ToText(Invoke(cb, env).value).value))
  {
    var sec := Section(KeyString(key), ToText(Invoke(cb, env).value).value);
    assert [(key, cb)][1..] == [];
    assert AppendedText([(key, cb)], env) == AppendSections("" + sec, [], env);
    assert "" + sec == sec;
  }

  /** An entry whose callback is not callable, or whose output is empty, appends nothing. */
  lemma SilentEntryAppendsNothing(m: string, key: Key, cb: Callback, rest: OrderedMap<Callback>, env: Ambient)
    requires cb.NotCallable? || (Invoke(cb, env).Ok? && IsEmpty(Invoke(cb, env).value))
    ensures AppendSections(m, [(key, cb)] + rest, env) == AppendSections(m, rest, env)
  {
    assert ([(key, cb)] + rest)[1..] == rest;
  }

  /** The POST closure contributes nothing when `$_POST` is empty. */
  lemma EmptyPostAppendsNothing(m: string, keys: seq<string>, env: Ambient)
    requires env.post == []
    ensures AppendSections(m, [(StrKey("POST"), PostDump(keys))], env) == Ok(m)
  {
  }

  /**
   * The `additional` loop: every callable sets the field under its key to its
   * result cast to string; non-callables are skipped; a callback that throws,
   * or a result that cannot be cast, ends the loop with that failure.
   */
  function AdditionalFields(fields: OrderedMap<string>, entries: OrderedMap<Callback>, env: Ambient): Result<OrderedMap<string>>
    decreases |entries|
  {
    if entries == [] then Ok(fields)
    else
      var key := entries[0].0;
      var cb := entries[0].1;
      if cb.NotCallable? then AdditionalFields(fields, entries[1..], env)
      else
        var out :- Invoke(cb, env);
        var text :- ToText(out);
        AdditionalFields(Assign(fields, key, text), entries[1..], env)
  }

  /** No two entries of an ordered map share a key, as in every PHP array. */
  predicate UniqueKeys<V>(m: OrderedMap<V>) {
    forall i, j :: 0 <= i < j < |m| ==> m[i].0 != m[j].0
  }

  /**
   * After the `additional` loop, a key that no callable entry names keeps its
   * field, and the key of each callable entry holds that callable's result as
   * a string.
   */
  lemma {:induction false} AdditionalFieldsSpec(fields: OrderedMap<string>, entries: OrderedMap<Callback>, env: Ambient)
    requires UniqueKeys(entries)
    requires AdditionalFields(fields, entries, env).Ok?
    ensures forall k :: (forall i :: 0 <= i < |entries| && !entries[i].1.NotCallable? ==> entries[i].0 != k) ==>
      Lookup(AdditionalFields(fields, entries, env).value, k) == Lookup(fields, k)
    ensures forall i :: 0 <= i < |entries| && !entries[i].1.NotCallable? ==>
      Invoke(entries[i].1, env).Ok? && ToText(Invoke(entries[i].1, env).value).Ok? &&
      Lookup(AdditionalFields(fields, entries, env).value, entries[i].0) ==
        Some(ToText(Invoke(entries[i].1, env).value).value)
    decreases |entries|
  {
    if entries != [] {
      var key := entries[0].0;
      var cb := entries[0].1;
      var rest := entries[1..];
      assert UniqueKeys(rest) by {
        forall i, j | 0 <= i < j < |rest| ensures rest[i].0 != rest[j].0 {
          assert rest[i] == entries[i + 1] && rest[j] == entries[j + 1];
        }
      }
      var next := if cb.NotCallable? then fields else Assign(fields, key, ToText(Invoke(cb, env).value).value);
      assert AdditionalFields(fields, entries, env) == AdditionalFields(next, rest, env);
      AdditionalFieldsSpec(next, rest, env);
      var r := AdditionalFields(fields, entries, env).value;
      if !cb.NotCallable? {
        AssignSpec(fields, key, ToText(Invoke(cb, env).value).value);
      }
      forall k | forall i :: 0 <= i < |entries| && !entries[i].1.NotCallable? ==> entries[i].0 != k
        ensures Lookup(r, k) == Lookup(fields, k)
      {
        forall i | 0 <= i < |rest| && !rest[i].1.NotCallable? ensures rest[i].0 != k {
          assert rest[i] == entries[i + 1];
        }
      }
      forall i | 0 <= i < |entries| && !entries[i].1.NotCallable?
        ensures Invoke(entries[i].1, env).Ok? && ToText(Invoke(entries[i].1, env).value).Ok? &&
                Lookup(r, entries[i].0) == Some(ToText(Invoke(entries[i].1, env).value).value)
      {
        if i == 0 {
          forall j | 0 <= j < |rest| && !rest[j].1.NotCallable? ensures rest[j].0 != key {
            assert rest[j] == entries[j + 1];
          }
        } else {
          assert entries[i] == rest[i - 1];
        }
      }
    }
  }

  /** The configuration keys the engine reads. */
  datatype Config = Config(
    scheme: string,
    host: string,
    port: int,
    ignoreTransportErrors: Value,
    chunkSize: int,
    ssl: Value,
    facility: string,
    appendBacktrace: Value,
    appendSession: Value,
    appendPost: Value,
    append: OrderedMap<Callback>,
    additional: OrderedMap<Callback>,
    passwordKeys: seq<string>,
    url: Option<ParsedUrl>)

  /** `$_config`: the defaults of this generation (no legacy append flag set, errors ignored). */
  function Defaults(): Config {
    Config(DefaultScheme, DefaultHost, DefaultPort, Bool(true), ChunkSizeLan, Null, "CakePHP",
           Bool(false), Bool(false), Bool(false), [], [], DefaultPasswordKeys, None)
  }

  /** The caller's configuration: a key is either given (Some) or absent. */
  datatype Overrides = Overrides(
    scheme: Option<string>,
    host: Option<string>,
    port: Option<int>,
    ignoreTransportErrors: Option<Value>,
    chunkSize: Option<int>,
    ssl: Option<Value>,
    facility: Option<string>,
    appendBacktrace: Option<Value>,
    appendSession: Option<Value>,
    appendPost: Option<Value>,
    append: Option<OrderedMap<Callback>>,
    additional: Option<OrderedMap<Callback>>,
    passwordKeys: Option<seq<string>>,
    url: Option<ParsedUrl>)

  function NoOverrides(): Overrides {
    Overrides(None, None, None, None, None, None, None, None, None, None, None, None, None, None)
  }

  /**
   * `Hash::merge($this->_config, $config)`: a given scalar replaces the default,
   * a given password list is appended to the default one, and the given
   * registries replace the empty defaults.
   */
  function Merge(d: Config, o: Overrides): Config {
    Config(o.scheme.GetOr(d.scheme), o.host.GetOr(d.host), o.port.GetOr(d.port),
           o.ignoreTransportErrors.GetOr(d.ignoreTransportErrors), o.chunkSize.GetOr(d.chunkSize),
           o.ssl.GetOr(d.ssl), o.facility.GetOr(d.facility),
           o.appendBacktrace.GetOr(d.appendBacktrace), o.appendSession.GetOr(d.appendSession),
           o.appendPost.GetOr(d.appendPost), o.append.GetOr(d.append), o.additional.GetOr(d.additional),
           d.passwordKeys + o.passwordKeys.GetOr([]), if o.url.Some? then o.url else d.url)
  }

  function EndpointOf(c: Config): Endpoint {
    Endpoint(c.scheme, c.host, c.port)
  }

  /** The legacy flags turned into `append['POST']` and `append['Session']`, in that order. */
  function RegisterAppends(c: Config): OrderedMap<Callback> {
    var withPost := if c.appendPost == Bool(true) then Assign(c.append, StrKey("POST"), PostDump(c.passwordKeys)) else c.append;
    if c.appendSession == Bool(true) then Assign(withPost, StrKey("Session"), SessionDump(c.passwordKeys)) else withPost
  }

  /**
   * The registration keeps every other `append` entry, and `POST`/`Session`
   * hold the dump closures exactly when their flag is `true`.
   */
  lemma RegisterAppendsSpec(c: Config)
    ensures c.appendPost == Bool(true) ==>
      Lookup(RegisterAppends(c), StrKey("POST")) == Some(PostDump(c.passwordKeys))
    ensures c.appendPost != Bool(true) ==>
      Lookup(RegisterAppends(c), StrKey("POST")) == Lookup(c.append, StrKey("POST"))
    ensures c.appendSession == Bool(true) ==>
      Lookup(RegisterAppends(c), StrKey("Session")) == Some(SessionDump(c.passwordKeys))
    ensures c.appendSession != Bool(true) ==>
      Lookup(RegisterAppends(c), StrKey("Session")) == Lookup(c.append, StrKey("Session"))
    ensures forall k :: k != StrKey("POST") && k != StrKey("Session") ==>
      Lookup(RegisterAppends(c), k) == Lookup(c.append, k)
  {
    var withPost := if c.appendPost == Bool(true) then Assign(c.append, StrKey("POST"), PostDump(c.passwordKeys)) else c.append;
    if c.appendPost == Bool(true) {
      AssignSpec(c.append, StrKey("POST"), PostDump(c.passwordKeys));
    }
    if c.appendSession == Bool(true) {
      AssignSpec(withPost, StrKey("Session"), SessionDump(c.passwordKeys));
    }
  }

  /**
   * The order of the `append` registry after registration: the caller's keys
   * in place, then `POST` if it is registered and new, then `Session` likewise.
   */
  function RegisteredKeys(ks: seq<Key>, post: bool, session: bool): (r: seq<Key>)
    ensures ks <= r
    ensures post ==> StrKey("POST") in r
    ensures session ==> StrKey("Session") in r
    ensures session && StrKey("Session") !in ks ==> r[|r| - 1] == StrKey("Session")
    ensures post && StrKey("POST") !in ks ==> r[|ks|] == StrKey("POST")
  {
    var withPost := if post then AddKey(ks, StrKey("POST")) else ks;
    if session then AddKey(withPost, StrKey("Session")) else withPost
  }

  /** A registry holding one caller entry becomes that entry, then `POST`, then `Session`. */
  lemma RegistrationOrder(key: string, cb: Callback)
    requires key != "POST" && key != "Session"
    ensures Keys(ResolveConfig(NoOverrides().(appendPost := Some(Bool(true)), appendSession := Some(Bool(true)),
                                              append := Some([(StrKey(key), cb)]))).append)
         == [StrKey(key), StrKey("POST"), StrKey("Session")]
  {
    assert Keys([(StrKey(key), cb)]) == [StrKey(key)];
  }

  /** The registration keeps the caller's entries in place and adds new `POST` and `Session` keys last, in that order. */
  lemma RegisterAppendsKeys(c: Config)
    ensures Keys(RegisterAppends(c)) ==
      RegisteredKeys(Keys(c.append), c.appendPost == Bool(true), c.appendSession == Bool(true))
  {
    var withPost := if c.appendPost == Bool(true) then Assign(c.append, StrKey("POST"), PostDump(c.passwordKeys)) else c.append;
    if c.appendPost == Bool(true) {
      AssignSpec(c.append, StrKey("POST"), PostDump(c.passwordKeys));
    }
    if c.appendSession == Bool(true) {
      AssignSpec(withPost, StrKey("Session"), SessionDump(c.passwordKeys));
    }
  }

  /**
   * The configuration the constructor hands to the base class: `ssl_options`
   * guarded, URL components merged over scheme/host/port, the scheme
   * lower-cased, and the legacy append callbacks registered.
   */
  function ResolveConfig(o: Overrides): (c: Config)
    ensures c.ssl == Null || IsSslOptions(c.ssl)
    ensures o.ssl.Some? && IsSslOptions(o.ssl.value) ==> c.ssl == o.ssl.value
    ensures !(o.ssl.Some? && IsSslOptions(o.ssl.value)) ==> c.ssl == Null
    ensures IsLowerCase(c.scheme)
    ensures o.url.Some? && o.url.value.host.Some? ==> c.host == o.url.value.host.value
    ensures o.url.Some? && o.url.value.port.Some? ==> c.port == o.url.value.port.value
    ensures o.url.Some? && o.url.value.scheme.Some? ==> c.scheme == ToLower(o.url.value.scheme.value)
    ensures o.url.None? || o.url.value.scheme.None? ==> c.scheme == ToLower(o.scheme.GetOr(DefaultScheme))
    ensures o.url.None? || o.url.value.host.None? ==> c.host == o.host.GetOr(DefaultHost)
    ensures o.url.None? || o.url.value.port.None? ==> c.port == o.port.GetOr(DefaultPort)
    ensures c.passwordKeys == DefaultPasswordKeys + o.passwordKeys.GetOr([])
    ensures c.ignoreTransportErrors == o.ignoreTransportErrors.GetOr(Bool(true))
    ensures c.facility == o.facility.GetOr("CakePHP") && c.chunkSize == o.chunkSize.GetOr(ChunkSizeLan)
    ensures c.appendBacktrace == o.appendBacktrace.GetOr(Bool(false))
    ensures c.appendPost == o.appendPost.GetOr(Bool(false))
    ensures c.appendSession == o.appendSession.GetOr(Bool(false))
    ensures c.additional == o.additional.GetOr([]) && c.url == o.url
    ensures o.appendPost == Some(Bool(true)) ==>
      Lookup(c.append, StrKey("POST")) == Some(PostDump(c.passwordKeys))
    ensures o.appendPost != Some(Bool(true)) ==>
      Lookup(c.append, StrKey("POST")) == Lookup(o.append.GetOr([]), StrKey("POST"))
    ensures o.appendSession == Some(Bool(true)) ==>
      Lookup(c.append, StrKey("Session")) == Some(SessionDump(c.passwordKeys))
    ensures o.appendSession != Some(Bool(true)) ==>
      Lookup(c.append, StrKey("Session")) == Lookup(o.append.GetOr([]), StrKey("Session"))
    ensures forall k :: k != StrKey("POST") && k != StrKey("Session") ==>
      Lookup(c.append, k) == Lookup(o.append.GetOr([]), k)
    ensures Keys(c.append) == RegisteredKeys(Keys(o.append.GetOr([])),
                                             o.appendPost == Some(Bool(true)), o.appendSession == Some(Bool(true)))
  {
    var merged := Merge(Defaults(), o);
    var e := ResolveEndpoint(EndpointOf(merged), merged.url);
    var normalised := merged.(ssl := NormaliseSsl(merged.ssl), scheme := e.scheme, host := e.host, port := e.port);
    RegisterAppendsSpec(normalised);
    RegisterAppendsKeys(normalised);
    normalised.(append := RegisterAppends(normalised))
  }

  /** `buildTransport`: the scheme dispatch with this generation's error message. */
  function BuildTransport(c: Config): Result<Transport> {
    Dispatch(EndpointOf(c), c.chunkSize, c.ssl, UnknownSchemeMessage)
  }

  /** `initTransport`: the built transport, wrapped unless `ignore_transport_errors` is exactly false. */
  function InitTransport(c: Config): (r: Result<Transport>)
    ensures r.Ok? <==> BuildTransport(c).Ok?
    ensures r.Err? ==> r.error == LogicException(UnknownSchemeMessage)
    ensures r.Ok? && c.ignoreTransportErrors == Bool(false) ==> r.value == BuildTransport(c).value
    ensures r.Ok? && c.ignoreTransportErrors != Bool(false) ==> r.value == IgnoreErrors(BuildTransport(c).value)
  {
    var t :- BuildTransport(c);
    if c.ignoreTransportErrors == Bool(false) then Ok(t) else Ok(IgnoreErrors(t))
  }

  /**
   * The transport a resolved configuration selects: UDP or TCP from the
   * scheme, unwrapped exactly when `ignore_transport_errors` is false.
   */
  lemma InitTransportSpec(o: Overrides)
    ensures var c := ResolveConfig(o);
      var inner := if c.scheme == "udp" then Udp(c.host, c.port, c.chunkSize) else Tcp(c.host, c.port, c.ssl);
      (c.scheme != "udp" && c.scheme != "tcp" ==>
         InitTransport(c) == Err(LogicException("Unknown transport scheme for GreyLog!"))) &&
      (c.scheme == "udp" || c.scheme == "tcp" ==>
         InitTransport(c) == Ok(if c.ignoreTransportErrors == Bool(false) then inner else IgnoreErrors(inner)))
    ensures ResolveConfig(o).ignoreTransportErrors == Bool(false) <==> o.ignoreTransportErrors == Some(Bool(false))
  {
  }

  /** With the shipped defaults the UDP transport is built and wrapped. */
  lemma DefaultsWrapUdp()
    ensures InitTransport(ResolveConfig(NoOverrides())) == Ok(IgnoreErrors(Udp(DefaultHost, DefaultPort, ChunkSizeLan)))
  {
    assert ResolveConfig(NoOverrides()).scheme == "udp";
  }

  function RequestUrl(r: Request): string { r.url }

  /** The Trace guard of this generation: the flag is exactly true and the original message lacks the marker. */
  predicate AppendsTrace(c: Config, message: string) {
    c.appendBacktrace == Bool(true) && !Contains(message, TraceMarker)
  }

  /** The message after the `append` loop and the trace, which comes last. */
  function Body(c: Config, message: string, env: Ambient): Result<string> {
    var appended :- AppendSections(message, c.append, env);
    Ok(if AppendsTrace(c, message) then appended + Section("Trace", env.trace) else appended)
  }

  /** The record `createMessage` returns, or the failure it raises. */
  function MessageRecord(c: Config, kind: string, message: string, env: Ambient): Result<Record> {
    var body :- Body(c, message, env);
    var additional :- AdditionalFields(RequestFields(env, RequestUrl), c.additional, env);
    Ok(RecordOf(c, kind, body, additional))
  }

  /**
   * The message is the original one, then the append sections, then the trace;
   * the trace guard looks only at the original message.
   */
  lemma BodySpec(c: Config, message: string, env: Ambient)
    ensures Body(c, message, env).Ok? <==> AppendedText(c.append, env).Ok?
    ensures Body(c, message, env).Ok? ==>
      Body(c, message, env).value == message + AppendedText(c.append, env).value +
        (if AppendsTrace(c, message) then Section("Trace", env.trace) else "")
  {
    AppendSectionsShift(message, c.append, env);
  }

  /**
   * The record: level and facility as given, the short/full split of the
   * body, the additional fields of the registry over the request fields, and
   * no file or line.
   */
  lemma MessageRecordSpec(c: Config, kind: string, message: string, env: Ambient)
    ensures MessageRecord(c, kind, message, env).Ok? <==>
      Body(c, message, env).Ok? && AdditionalFields(RequestFields(env, RequestUrl), c.additional, env).Ok?
    ensures Body(c, message, env).Err? ==>
      MessageRecord(c, kind, message, env) == Err(Body(c, message, env).error)
    ensures MessageRecord(c, kind, message, env).Ok? ==>
      MessageRecord(c, kind, message, env).value == RecordOf(c, kind, Body(c, message, env).value,
        AdditionalFields(RequestFields(env, RequestUrl), c.additional, env).value)
  {
  }

  /** The record around a finished body and finished additional fields. */
  function RecordOf(c: Config, kind: string, body: string, additional: OrderedMap<string>): Record {
    var split := Split(body);
    Record(Version, kind, c.facility, split.0, split.1, None, None, additional)
  }

  /**
   * Level and facility as given, no file or line, and the short/full rule:
   * no full message exactly when the body is one non-empty line.
   */
  lemma RecordOfSpec(c: Config, kind: string, body: string, additional: OrderedMap<string>)
    ensures RecordOf(c, kind, body, additional).short == Strtok(body)
    ensures RecordOf(c, kind, body, additional).full.None? <==> body != [] && NoBreaks(body)
    ensures RecordOf(c, kind, body, additional).full.Some? ==> RecordOf(c, kind, body, additional).full.value == body
  {
    SplitSpec(body);
  }

  /**
   * An append output containing the marker does not suppress the trace: only
   * the original message is checked, so both the output and the trace follow.
   */
  lemma TraceAfterAppendOutput(message: string, env: Ambient)
    requires !Contains(message, TraceMarker)
    ensures var c := ResolveConfig(NoOverrides().(appendBacktrace := Some(Bool(true)),
                                                  append := Some([(StrKey("Note"), Returns(Str("Trace: none")))])));
      Body(c, message, env) == Ok(message + Section("Note", "Trace: none") + Section("Trace", env.trace))
  {
    var c := ResolveConfig(NoOverrides().(appendBacktrace := Some(Bool(true)),
                                          append := Some([(StrKey("Note"), Returns(Str("Trace: none")))])));
    assert c.append == [(StrKey("Note"), Returns(Str("Trace: none")))];
    assert !IsEmpty(Str("Trace: none"));
  }

  class GraylogLog {
    const config: Config
    /** Set while a write is in progress; a write that raises leaves it set. */
    var loop: bool
    var transport: Option<Transport>
    var publisher: Option<Publisher>
    /** The records handed to `Publisher::publish` that returned normally. */
    var published: seq<Record>
    ghost var transportBuilds: nat
    ghost var publisherBuilds: nat

    /** Each cache is built at most once, from the configuration, and the publisher wraps the cached transport. */
    ghost predicate Valid()
      reads this
    {
      && transportBuilds == (if transport.Some? then 1 else 0)
      && publisherBuilds == (if publisher.Some? then 1 else 0)
      && (transport.Some? ==> InitTransport(config) == Ok(transport.value))
      && (publisher.Some? ==> transport.Some? && publisher.value == Publisher(transport.value))
    }

    /** `__construct`: the normalisation and registration steps in the order the source takes them. */
    constructor (given: Overrides)
      ensures Valid() && config == ResolveConfig(given)
      ensures !loop && transport == None && publisher == None && published == []
    {
      var c := Merge(Defaults(), given);
      if !c.ssl.Obj? || !IsSslOptions(c.ssl) {
        c := c.(ssl := Null);
      }
      if c.url.Some? {
        var e := ApplyUrl(EndpointOf(c), c.url.value);
        c := c.(scheme := e.scheme, host := e.host, port := e.port);
      }
      c := c.(scheme := ToLower(c.scheme));
      if c.appendPost == Bool(true) {
        c := c.(append := Assign(c.append, StrKey("POST"), PostDump(c.passwordKeys)));
      }
      if c.appendSession == Bool(true) {
        c := c.(append := Assign(c.append, StrKey("Session"), SessionDump(c.passwordKeys)));
      }
      config := c;
      loop := false;
      transport := None;
      publisher := None;
      published := [];
      transportBuilds := 0;
      publisherBuilds := 0;
    }

    /** `getTransport`: build on first success, then always return the cached transport. */
    method GetTransport() returns (r: Result<Transport>)
      requires Valid()
      modifies this`transport, this`transportBuilds
      ensures Valid()
      ensures r == InitTransport(config)
      ensures old(transport).Some? ==> transport == old(transport) && transportBuilds == old(transportBuilds)
      ensures r.Ok? ==> transport == Some(r.value)
      ensures r.Err? ==> transport == None
    {
      if transport.None? {
        r := InitTransport(config);
        if r.Ok? {
          transport := Some(r.value);
          transportBuilds := transportBuilds + 1;
        }
      } else {
        r := Ok(transport.value);
      }
    }

    /** `getPublisher`: build on first success around the cached transport, then reuse it. */
    method GetPublisher() returns (r: Result<Publisher>)
      requires Valid()
      modifies this`transport, this`transportBuilds, this`publisher, this`publisherBuilds
      ensures Valid()
      ensures r.Ok? <==> InitTransport(config).Ok?
      ensures r.Ok? ==> r.value == Publisher(InitTransport(config).value) && publisher == Some(r.value)
      ensures r.Err? ==> r.error == InitTransport(config).error && publisher == None && transport == None
      ensures old(publisher).Some? ==> publisher == old(publisher) && transport == old(transport)
      ensures old(publisher).Some? ==> publisherBuilds == old(publisherBuilds) && transportBuilds == old(transportBuilds)
    {
      if publisher.None? {
        var t := GetTransport();
        if t.Err? {
          return Err(t.error);
        }
        publisher := Some(Publisher(t.value));
        publisherBuilds := publisherBuilds + 1;
      }
      r := Ok(publisher.value);
    }

    /** `createMessage`: the `append` loop, the trace, the `additional` loop, then the split. */
    method CreateMessage(kind: string, message: string, env: Ambient) returns (r: Result<Record>)
      ensures r == MessageRecord(config, kind, message, env)
    {
      var fields := RequestFields(env, RequestUrl);
      var appendBacktrace := AppendsTrace(config, message);
      var m := message;
      var i := 0;
      while i < |config.append|
        invariant 0 <= i <= |config.append|
        invariant AppendSections(m, config.append[i..], env) == AppendSections(message, config.append, env)
      {
        var key := config.append[i].0;
        var callback := config.append[i].1;
        assert config.append[i..][1..] == config.append[i + 1..];
        if !callback.NotCallable? {
          var appendString := Invoke(callback, env);
          if appendString.Err? {
            return Err(appendString.error);
          }
          if !IsEmpty(appendString.value) {
            var text := ToText(appendString.value);
            if text.Err? {
              return Err(text.error);
            }
            m := AppendSection(m, KeyString(key), text.value);
          }
        }
        i := i + 1;
      }
      if appendBacktrace {
        m := AppendSection(m, "Trace", env.trace);
      }
      assert Body(config, message, env) == Ok(m);
      i := 0;
      while i < |config.additional|
        invariant 0 <= i <= |config.additional|
        invariant AdditionalFields(fields, config.additional[i..], env) ==
                  AdditionalFields(RequestFields(env, RequestUrl), config.additional, env)
      {
        var key := config.additional[i].0;
        var callback := config.additional[i].1;
        assert config.additional[i..][1..] == config.additional[i + 1..];
        if !callback.NotCallable? {
          var out := Invoke(callback, env);
          if out.Err? {
            return Err(out.error);
          }
          var text := ToText(out.value);
          if text.Err? {
            return Err(text.error);
          }
          fields := Assign(fields, key, text.value);
        }
        i := i + 1;
      }
      var shortMessage := Strtok(m);
      if shortMessage == Some(m) {
        r := Ok(Record(Version, kind, config.facility, shortMessage, None, None, None, fields));
      } else {
        r := Ok(Record(Version, kind, config.facility, shortMessage, Some(m), None, None, fields));
      }
    }

    /**
     * `write`: a write that starts while another is in progress does nothing;
     * otherwise the guard is set, the publisher obtained, the record built and
     * published, and the guard cleared only when all of that returned normally.
     */
    method Write(kind: string, message: string, env: Ambient, publishFails: bool) returns (outcome: Outcome)
      requires Valid()
      modifies this
      ensures Valid()
      ensures old(loop) ==>
        (outcome == Skipped && loop && published == old(published) &&
         transport == old(transport) && publisher == old(publisher))
      ensures !old(loop) ==> outcome == WriteOutcome(config, kind, message, env, publishFails)
      ensures !old(loop) ==> (loop <==> !outcome.Published?)
      ensures !old(loop) && InitTransport(config).Ok? ==>
        transport == Some(InitTransport(config).value) &&
        publisher == Some(Publisher(InitTransport(config).value))
      ensures !old(loop) && InitTransport(config).Err? ==> transport == None && publisher == None
      ensures outcome.Published? ==> published == old(published) + [outcome.record]
      ensures !outcome.Published? ==> published == old(published)
      ensures old(publisher).Some? ==> publisher == old(publisher) && transport == old(transport)
    {
      if loop {
        return Skipped;
      }
      loop := true;
      var p := GetPublisher();
      if p.Err? {
        return Raised(p.error);
      }
      var record := CreateMessage(kind, message, env);
      if record.Err? {
        return Raised(record.error);
      }
      if publishFails {
        return Raised(PublishException);
      }
      published := published + [record.value];
      loop := false;
      outcome := Published(record.value);
    }
  }

  /**
   * What a write that is not skipped does: the publisher is obtained before
   * the record is built, so a transport error comes first, then a failure of
   * a callback, then one of publishing.
   */
  function WriteOutcome(c: Config, kind: string, message: string, env: Ambient, publishFails: bool): (r: Outcome)
    ensures r != Skipped
    ensures r.Published? <==> InitTransport(c).Ok? && MessageRecord(c, kind, message, env).Ok? && !publishFails
    ensures r.Published? ==> r.record == MessageRecord(c, kind, message, env).value
    ensures InitTransport(c).Err? ==> r == Raised(InitTransport(c).error)
    ensures InitTransport(c).Ok? && MessageRecord(c, kind, message, env).Err? ==>
      r == Raised(MessageRecord(c, kind, message, env).error)
    ensures InitTransport(c).Ok? && MessageRecord(c, kind, message, env).Ok? && publishFails ==>
      r == Raised(PublishException)
  {
    if InitTransport(c).Err? then Raised(InitTransport(c).error)
    else if MessageRecord(c, kind, message, env).Err? then Raised(MessageRecord(c, kind, message, env).error)
    else if publishFails then Raised(PublishException)
    else Published(MessageRecord(c, kind, message, env).value)
  }

  /** A write that raises leaves the guard set, so every later write on the same engine is skipped. */
  method FailedWriteMutesEngine(env: Ambient)
  {
    var log := new GraylogLog(NoOverrides().(scheme := Some("http")));
    var first := log.Write("error", "one", env, false);
    assert first == Raised(LogicException(UnknownSchemeMessage));
    var second := log.Write("error", "two", env, false);
    assert second == Skipped && log.published == [];
  }

  /** A write that completes clears the guard, and the next write publishes too. */
  method WritesInSequence(env: Ambient)
  {
    var log := new GraylogLog(NoOverrides());
    var first := log.Write("error", "one", env, false);
    assert log.config.append == [] && log.config.additional == [];
    assert first.Published? && !log.loop;
    var second := log.Write("error", "two", env, false);
    assert second.Published? && |log.published| == 2;
  }
}
