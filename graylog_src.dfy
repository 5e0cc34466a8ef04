/**
 * The PSR-3 generation of the engine (`src/Log/Engine/GraylogLog.php`): the
 * constructor's configuration normalisation, the lazily built transport and
 * publisher, `createMessage` and `log`.
 */
module GraylogSrc {
  import opened Php
  import opened Gelf
  import opened Levels
  import opened Transport
  import opened Masking

  const UnknownSchemeMessage := "Unkown transport scheme for GreyLog!"

  /** The configuration keys the engine reads. */
  datatype Config = Config(
    scheme: string,
    host: string,
    port: int,
    chunkSize: int,
    ssl: Value,
    facility: string,
    appendBacktrace: Value,
    appendSession: Value,
    appendPost: Value,
    passwordKeys: seq<string>,
    levels: Value,
    url: Option<ParsedUrl>)

  /** `$_config`: the defaults. */
  function Defaults(): Config {
    Config(DefaultScheme, DefaultHost, DefaultPort, ChunkSizeLan, Null, "CakePHP",
           Bool(true), Bool(true), Bool(true), DefaultPasswordKeys, Arr([]), None)
  }

  /** The caller's configuration: a key is either given (Some) or absent. */
  datatype Overrides = Overrides(
    scheme: Option<string>,
    host: Option<string>,
    port: Option<int>,
    chunkSize: Option<int>,
    ssl: Option<Value>,
    facility: Option<string>,
    appendBacktrace: Option<Value>,
    appendSession: Option<Value>,
    appendPost: Option<Value>,
    passwordKeys: Option<seq<string>>,
    levels: Option<Value>,
    url: Option<ParsedUrl>)

  function NoOverrides(): Overrides {
    Overrides(None, None, None, None, None, None, None, None, None, None, None, None)
  }

  /**
   * `Hash::merge($this->_config, $config)`: a given scalar replaces the default;
   * a given list of password keys is appended to the default list.
   */
  function Merge(d: Config, o: Overrides): Config {
    Config(o.scheme.GetOr(d.scheme), o.host.GetOr(d.host), o.port.GetOr(d.port),
           o.chunkSize.GetOr(d.chunkSize), o.ssl.GetOr(d.ssl), o.facility.GetOr(d.facility),
           o.appendBacktrace.GetOr(d.appendBacktrace), o.appendSession.GetOr(d.appendSession),
           o.appendPost.GetOr(d.appendPost), d.passwordKeys + o.passwordKeys.GetOr([]),
           o.levels.GetOr(d.levels), if o.url.Some? then o.url else d.url)
  }

  function EndpointOf(c: Config): Endpoint {
    Endpoint(c.scheme, c.host, c.port)
  }

  /**
   * The configuration the constructor hands to the base class: `ssl_options`
   * guarded, URL components merged over scheme/host/port, the scheme
   * lower-cased, and the levels filtered.
   */
  function ResolveConfig(o: Overrides): (c: Config)
    ensures c.ssl == Null || IsSslOptions(c.ssl)
    ensures o.ssl.Some? && IsSslOptions(o.ssl.value) ==> c.ssl == o.ssl.value
    ensures !(o.ssl.Some? && IsSslOptions(o.ssl.value)) ==> c.ssl == Null
    ensures IsLowerCase(c.scheme)
    ensures c.levels == Arr(ResolveLevels(o.levels.GetOr(Arr([]))))
    ensures o.url.Some? && o.url.value.host.Some? ==> c.host == o.url.value.host.value
    ensures o.url.Some? && o.url.value.port.Some? ==> c.port == o.url.value.port.value
    ensures o.url.Some? && o.url.value.scheme.Some? ==> c.scheme == ToLower(o.url.value.scheme.value)
    ensures o.url.None? || o.url.value.scheme.None? ==> c.scheme == ToLower(o.scheme.GetOr(DefaultScheme))
    ensures o.url.None? || o.url.value.host.None? ==> c.host == o.host.GetOr(DefaultHost)
    ensures o.url.None? || o.url.value.port.None? ==> c.port == o.port.GetOr(DefaultPort)
    ensures c.passwordKeys == DefaultPasswordKeys + o.passwordKeys.GetOr([])
    ensures c.facility == o.facility.GetOr("CakePHP") && c.chunkSize == o.chunkSize.GetOr(ChunkSizeLan)
    ensures c.appendBacktrace == o.appendBacktrace.GetOr(Bool(true))
    ensures c.appendPost == o.appendPost.GetOr(Bool(true))
    ensures c.appendSession == o.appendSession.GetOr(Bool(true))
    ensures c.url == o.url
  {
    var merged := Merge(Defaults(), o);
    var e := ResolveEndpoint(EndpointOf(merged), merged.url);
    merged.(ssl := NormaliseSsl(merged.ssl), scheme := e.scheme, host := e.host, port := e.port,
            levels := Arr(ResolveLevels(merged.levels)))
  }

  /** `initTransport`: the scheme dispatch with this generation's error message. */
  function InitTransport(c: Config): Result<Transport> {
    Dispatch(EndpointOf(c), c.chunkSize, c.ssl, UnknownSchemeMessage)
  }

  /** The transport a resolved configuration selects: UDP, TCP, or the LogicException. */
  lemma InitTransportSpec(o: Overrides)
    ensures var c := ResolveConfig(o);
      (c.scheme == "udp" ==> InitTransport(c) == Ok(Udp(c.host, c.port, c.chunkSize))) &&
      (c.scheme == "tcp" ==> InitTransport(c) == Ok(Tcp(c.host, c.port, c.ssl))) &&
      (c.scheme != "udp" && c.scheme != "tcp" ==>
         InitTransport(c) == Err(LogicException("Unkown transport scheme for GreyLog!")))
    ensures var c := ResolveConfig(o);
      InitTransport(c).Ok? && InitTransport(c).value.Tcp? ==>
        InitTransport(c).value.ssl == Null || IsSslOptions(InitTransport(c).value.ssl)
  {
  }

  function RequestTarget(r: Request): string { r.requestTarget }

  predicate AppendsTrace(c: Config, message: string) {
    c.appendBacktrace == Bool(true) && !Contains(message, TraceMarker)
  }

  predicate AppendsPost(c: Config, env: Ambient) {
    c.appendPost == Bool(true) && env.post != []
  }

  predicate AppendsSession(c: Config, env: Ambient) {
    c.appendSession == Bool(true) && env.session.Some? && env.session.value != []
  }

  /** `json_encode($this->obscurePasswords($data), JSON_PRETTY_PRINT)` as `.=` appends it. */
  function Dump(c: Config, data: seq<Entry>, env: Ambient): string {
    env.json(Arr(ObscurePasswords(c.passwordKeys, data))).GetOr("")
  }

  function TracePart(c: Config, message: string, env: Ambient): string {
    if AppendsTrace(c, message) then Section("Trace", env.trace) else ""
  }

  function PostPart(c: Config, env: Ambient): string {
    if AppendsPost(c, env) then Section("POST", Dump(c, env.post, env)) else ""
  }

  function SessionPart(c: Config, env: Ambient): string {
    if AppendsSession(c, env) then Section("Session", Dump(c, env.session.value, env)) else ""
  }

  /** The message after enrichment: Trace, then POST, then Session, each only when enabled and non-empty. */
  function Enriched(c: Config, message: string, env: Ambient): string {
    message + TracePart(c, message, env) + PostPart(c, env) + SessionPart(c, env)
  }

  /**
   * The file and line fields as the source sets them: `setFile` is called
   * twice, the second time with the line, so the file name is lost and no line
   * field is set.
   */
  function OriginFieldsAsWritten(frame: Option<Frame>): (Option<Value>, Option<Value>) {
    if frame.None? then (None, None)
    else (Some(Int(frame.value.line)), None)  // the second `setFile` overwrites the first
  }

  /** The intended `setFile($file)` and `setLine($line)`. */
  function OriginFields(frame: Option<Frame>): (r: (Option<Value>, Option<Value>))
    ensures frame.Some? ==> r == (Some(Str(frame.value.file)), Some(Int(frame.value.line)))
    ensures frame.None? ==> r == (None, None)
  {
    if frame.None? then (None, None) else (Some(Str(frame.value.file)), Some(Int(frame.value.line)))
  }

  /** The record `createMessage` builds around an already enriched message `body`, file and line as written. */
  function RecordFor(c: Config, level: string, body: string, env: Ambient): Record {
    var split := Split(body);
    var origin := OriginFieldsAsWritten(env.lastFrame);
    Record(Version, level, c.facility, split.0, split.1, origin.0, origin.1,
           RequestFields(env, RequestTarget))
  }

  /** The engine's record carries the frame's line in its file field and no line field. */
  lemma RecordForOrigin(c: Config, level: string, body: string, env: Ambient)
    ensures env.lastFrame.Some? ==>
      RecordFor(c, level, body, env).file == Some(Int(env.lastFrame.value.line)) &&
      RecordFor(c, level, body, env).line == None
    ensures env.lastFrame.None? ==>
      RecordFor(c, level, body, env).file == None && RecordFor(c, level, body, env).line == None
  {
    if env.lastFrame.Some? {
      var f := env.lastFrame.value;
      assert OriginFieldsAsWritten(Some(f)) == (Some(Int(f.line)), None);
      assert OriginFieldsAsWritten(Some(f)).0 != Some(Str(f.file));
    }
  }

  /** The record the file/line lines evidently intend: the same record with the frame's file and line. */
  function RecordForIntended(c: Config, level: string, body: string, env: Ambient): Record {
    var origin := OriginFields(env.lastFrame);
    RecordFor(c, level, body, env).(file := origin.0, line := origin.1)
  }

  /** The intended record names the frame's file and line and otherwise agrees with the engine's record. */
  lemma RecordForIntendedSpec(c: Config, level: string, body: string, env: Ambient)
    ensures env.lastFrame.Some? ==>
      RecordForIntended(c, level, body, env).file == Some(Str(env.lastFrame.value.file)) &&
      RecordForIntended(c, level, body, env).line == Some(Int(env.lastFrame.value.line)) &&
      RecordForIntended(c, level, body, env) != RecordFor(c, level, body, env)
    ensures env.lastFrame.None? ==> RecordForIntended(c, level, body, env) == RecordFor(c, level, body, env)
    ensures RecordForIntended(c, level, body, env).(file := None, line := None) ==
            RecordFor(c, level, body, env).(file := None, line := None)
  {
  }

  /** The record `createMessage` returns. */
  function MessageRecord(c: Config, level: string, message: string, env: Ambient): Record {
    RecordFor(c, level, Enriched(c, message, env), env)
  }

  /** The original message is always the start of the full message; sections only follow it. */
  lemma EnrichedExtendsMessage(c: Config, message: string, env: Ambient)
    ensures message <= Enriched(c, message, env)
    ensures !AppendsTrace(c, message) && !AppendsPost(c, env) && !AppendsSession(c, env) ==>
      Enriched(c, message, env) == message
  {
  }

  /**
   * The Trace guard looks at the original message, and an appended trace
   * contains the marker: enriching an already enriched message appends no
   * second trace.
   */
  lemma {:induction false} TraceAppendedOnce(c: Config, message: string, env: Ambient)
    ensures !AppendsTrace(c, Enriched(c, message, env))
    ensures Contains(message, TraceMarker) ==> TracePart(c, message, env) == ""
  {
    if AppendsTrace(c, message) {
      var tail := PostPart(c, env) + SessionPart(c, env);
      assert Enriched(c, message, env) == message + Section("Trace", env.trace) + tail;
      SectionContainsHeading(message, "Trace", env.trace, tail);
    } else if c.appendBacktrace == Bool(true) {
      ContainsPrefix(message, Enriched(c, message, env), TraceMarker);
    }
  }

  lemma {:induction false} ContainsPrefix(s: string, t: string, needle: string)
    requires s <= t && Contains(s, needle)
    ensures Contains(t, needle)
  {
    var i :| 0 <= i <= |s| && needle <= s[i..];
    assert s[i..] <= t[i..];
  }

  /**
   * The short/full rule on the enriched message: no full message exactly when
   * the enriched message is one non-empty line; then the short message is the
   * whole of it.
   */
  lemma RecordForSplit(c: Config, level: string, body: string, env: Ambient)
    ensures RecordFor(c, level, body, env).short == Strtok(body)
    ensures RecordFor(c, level, body, env).full.None? <==> body != [] && NoBreaks(body)
    ensures RecordFor(c, level, body, env).full.None? ==> Strtok(body) == Some(body)
    ensures RecordFor(c, level, body, env).full.Some? ==>
      RecordFor(c, level, body, env).full.value == body && Strtok(body) != Some(body)
    ensures RecordFor(c, level, body, env).level == level
    ensures RecordFor(c, level, body, env).facility == c.facility
  {
    SplitSpec(body);
  }

  /** Any appended section puts a line break into the message, so the full message is sent. */
  lemma EnrichmentForcesFull(c: Config, level: string, message: string, env: Ambient)
    requires AppendsTrace(c, message) || AppendsPost(c, env) || AppendsSession(c, env)
    ensures MessageRecord(c, level, message, env).full == Some(Enriched(c, message, env))
  {
    var body := Enriched(c, message, env);
    var t, p := TracePart(c, message, env), PostPart(c, env);
    var k := if t != "" then |message| else if p != "" then |message| + |t| else |message| + |t| + |p|;
    assert body[k] == '\n';
    SplitSpec(body);
  }

  /**
   * With the shipped defaults the backtrace is appended, so even a one-line
   * message without `Trace:` is sent with a full message.
   */
  lemma DefaultsSendFullMessage(message: string, env: Ambient)
    requires !Contains(message, TraceMarker)
    ensures MessageRecord(ResolveConfig(NoOverrides()), "alert", message, env).full.Some?
  {
    EnrichmentForcesFull(ResolveConfig(NoOverrides()), "alert", message, env);
  }

  /** With every append flag off, a one-line message is sent as a short message only. */
  lemma PlainMessage(c: Config, level: string, message: string, env: Ambient)
    requires c.appendBacktrace != Bool(true) && c.appendPost != Bool(true) && c.appendSession != Bool(true)
    requires message != [] && NoBreaks(message)
    ensures MessageRecord(c, level, message, env).short == Some(message)
    ensures MessageRecord(c, level, message, env).full == None
    ensures MessageRecord(c, level, message, env).level == level
  {
    EnrichedExtendsMessage(c, message, env);
    RecordForSplit(c, level, message, env);
  }

  class GraylogLog {
    const config: Config
    var transport: Option<Transport>
    var publisher: Option<Publisher>
    /** The records handed to `Publisher::publish` that returned normally. */
    var published: seq<Record>
    ghost var transportBuilds: nat
    ghost var publisherBuilds: nat

    /** Each cache is built at most once, from the configuration, and the publisher wraps the cached transport. */
    ghost predicate Valid()
      reads this
    {
      && transportBuilds == (if transport.Some? then 1 else 0)
      && publisherBuilds == (if publisher.Some? then 1 else 0)
      && (transport.Some? ==> InitTransport(config) == Ok(transport.value))
      && (publisher.Some? ==> transport.Some? && publisher.value == Publisher(transport.value))
    }

    /** `__construct`: the normalisation steps in the order the source takes them. */
    constructor (given: Overrides)
      ensures Valid() && config == ResolveConfig(given)
      ensures transport == None && publisher == None && published == []
    {
      var c := Merge(Defaults(), given);
      if !c.ssl.Obj? || !IsSslOptions(c.ssl) {
        c := c.(ssl := Null);
      }
      if c.url.Some? {
        var e := ApplyUrl(EndpointOf(c), c.url.value);
        c := c.(scheme := e.scheme, host := e.host, port := e.port);
      }
      c := c.(scheme := ToLower(c.scheme));
      if !c.levels.Arr? {
        c := c.(levels := Arr([]));
      }
      var kept := FilterLevels(c.levels.entries);
      c := c.(levels := Arr(kept));
      if c.levels == Arr([]) {
        c := c.(levels := Arr(AllLevels()));
      }
      config := c;
      transport := None;
      publisher := None;
      published := [];
      transportBuilds := 0;
      publisherBuilds := 0;
    }

    /** `getTransport`: build on first success, then always return the cached transport. */
    method GetTransport() returns (r: Result<Transport>)
      requires Valid()
      modifies this`transport, this`transportBuilds
      ensures Valid()
      ensures r == InitTransport(config)
      ensures old(transport).Some? ==> transport == old(transport) && transportBuilds == old(transportBuilds)
      ensures r.Ok? ==> transport == Some(r.value)
      ensures r.Err? ==> transport == None
    {
      if transport.None? {
        r := InitTransport(config);
        if r.Ok? {
          transport := Some(r.value);
          transportBuilds := transportBuilds + 1;
        }
      } else {
        r := Ok(transport.value);
      }
    }

    /** `getPublisher`: build on first success around the cached transport, then reuse it. */
    method GetPublisher() returns (r: Result<Publisher>)
      requires Valid()
      modifies this`transport, this`transportBuilds, this`publisher, this`publisherBuilds
      ensures Valid()
      ensures r.Ok? <==> InitTransport(config).Ok?
      ensures r.Ok? ==> r.value == Publisher(InitTransport(config).value) && publisher == Some(r.value)
      ensures r.Err? ==> r.error == InitTransport(config).error && publisher == None && transport == None
      ensures old(publisher).Some? ==> publisher == old(publisher) && transport == old(transport)
      ensures old(publisher).Some? ==> publisherBuilds == old(publisherBuilds) && transportBuilds == old(transportBuilds)
    {
      if publisher.None? {
        var t := GetTransport();
        if t.Err? {
          return Err(t.error);
        }
        publisher := Some(Publisher(t.value));
        publisherBuilds := publisherBuilds + 1;
      }
      r := Ok(publisher.value);
    }

    /** `createMessage`: the message grows by successive appends, then is split. */
    method CreateMessage(level: string, message: string, env: Ambient) returns (r: Record)
      ensures r == MessageRecord(config, level, message, env)
    {
      var fields := RequestFields(env, RequestTarget);
      var file: Option<Value> := None;
      var line: Option<Value> := None;
      if env.lastFrame.Some? {
        file := Some(Str(env.lastFrame.value.file));
        file := Some(Int(env.lastFrame.value.line));
      }
      var m := message;
      if AppendsTrace(config, message) {
        m := AppendSection(m, "Trace", env.trace);
      }
      assert m == message + TracePart(config, message, env);
      if AppendsPost(config, env) {
        m := AppendSection(m, "POST", Dump(config, env.post, env));
      }
      assert m == message + TracePart(config, message, env) + PostPart(config, env);
      if AppendsSession(config, env) {
        m := AppendSection(m, "Session", Dump(config, env.session.value, env));
      }
      assert m == Enriched(config, message, env);
      var short := Strtok(m);
      if short == Some(m) {
        r := Record(Version, level, config.facility, short, None, file, line, fields);
      } else {
        r := Record(Version, level, config.facility, short, Some(m), file, line, fields);
      }
    }

    /**
     * `log`: the publisher is obtained first (so an unknown scheme raises
     * before any message is built), then the record is built and published.
     */
    method Log(level: string, message: string, env: Ambient, publishFails: bool) returns (outcome: Outcome)
      requires Valid()
      modifies this
      ensures Valid()
      ensures InitTransport(config).Err? ==>
        outcome == Raised(InitTransport(config).error) && published == old(published) &&
        transport == None && publisher == None
      ensures InitTransport(config).Ok? ==>
        transport == Some(InitTransport(config).value) &&
        publisher == Some(Publisher(InitTransport(config).value)) &&
        (publishFails ==> outcome == Raised(PublishException) && published == old(published)) &&
        (!publishFails ==> outcome == Published(MessageRecord(config, level, message, env)) &&
                           published == old(published) + [outcome.record])
      ensures old(publisher).Some? ==> publisher == old(publisher) && transport == old(transport)
    {
      var p := GetPublisher();
      if p.Err? {
        return Raised(p.error);
      }
      var record := CreateMessage(level, message, env);
      if publishFails {
        return Raised(PublishException);
      }
      published := published + [record];
      outcome := Published(record);
    }
  }

  /** Two calls on one engine: the second reuses the transport and publisher built by the first. */
  method CachedAcrossCalls(env: Ambient)
  {
    var log := new GraylogLog(NoOverrides().(scheme := Some("TCP")));
    assert log.config.scheme == "tcp";
    var first := log.Log("error", "one", env, false);
    var p := log.publisher;
    assert p == Some(Publisher(Tcp(DefaultHost, DefaultPort, Null)));
    var second := log.Log("error", "two", env, false);
    assert log.publisher == p && log.transportBuilds == 1 && log.publisherBuilds == 1;
    assert |log.published| == 2;
  }
}
