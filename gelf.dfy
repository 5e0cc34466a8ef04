/**
 * The GELF 1.1 record the engine fills in, the ambient inputs it reads while
 * doing so, and the two string rules shared by both generations of the engine:
 * how a labelled section is appended and how the short message is split off.
 */
module Gelf {
  import opened Php

  const Version := "1.1"

  /** `PHP_EOL`, fixed to a line feed. */
  const Eol := "\n"

  /** The marker whose presence in the original message suppresses the trace. */
  const TraceMarker := "Trace:"

  /**
   * A GELF message as the engine leaves it. `short == None` stands for PHP's
   * `false`, which `strtok` returns when the message has no token at all.
   */
  datatype Record = Record(
    version: string,
    level: string,
    facility: string,
    short: Option<string>,
    full: Option<string>,
    file: Option<Value>,
    line: Option<Value>,
    additional: OrderedMap<string>)

  /** What one call to the engine's write/log entry point did. */
  datatype Outcome = Skipped | Published(record: Record) | Raised(error: Failure)

  /** The current HTTP request, as far as the engine reads it. */
  datatype Request = Request(referer: string, requestTarget: string, url: string)

  /** The innermost call-stack frame outside the logging machinery. */
  datatype Frame = Frame(file: string, line: int)

  /**
   * Everything the engine reads from outside its configuration: whether PHP runs
   * on the command line, the routed request, `$_POST`, `$_SESSION` (None when it
   * is not set), the formatted backtrace and its last frame, and the two library
   * functions whose internals are not modelled: `json_encode(.., JSON_PRETTY_PRINT)`
   * (None stands for its `false`) and the external password obfuscator.
   */
  datatype Ambient = Ambient(
    cli: bool,
    request: Option<Request>,
    post: seq<Entry>,
    session: Option<seq<Entry>>,
    trace: string,
    lastFrame: Option<Frame>,
    json: Value -> Option<string>,
    obfuscate: (seq<string>, Value) -> Value)

  /** `PHP_EOL . PHP_EOL . $label . ':' . PHP_EOL . $body`. */
  function Section(heading: string, body: string): (r: string)
    ensures |r| > 2 && r[0] == r[1] == '\n' && r[2..] == heading + ":" + Eol + body
  {
    Eol + Eol + heading + ":" + Eol + body
  }

  /** One labelled section as the engine appends it with two `.=`: the heading line, then the body. */
  method AppendSection(m: string, heading: string, body: string) returns (r: string)
    ensures r == m + Section(heading, body)
  {
    r := m + Eol + Eol + heading + ":" + Eol;
    r := r + body;
  }

  /**
   * The additional fields set from the request when PHP does not run on the
   * command line: `http_referer` when the referer is not empty, then
   * `request_uri` from the given accessor.
   */
  function RequestFields(env: Ambient, uri: Request -> string): (r: OrderedMap<string>)
    ensures env.cli || env.request.None? ==> r == []
    ensures !env.cli && env.request.Some? ==>
      Lookup(r, StrKey("request_uri")) == Some(uri(env.request.value))
    ensures Lookup(r, StrKey("http_referer")).Some? <==>
      !env.cli && env.request.Some? && !IsEmpty(Str(env.request.value.referer))
    ensures Lookup(r, StrKey("http_referer")).Some? ==>
      Lookup(r, StrKey("http_referer")) == Some(env.request.value.referer)
    ensures Lookup(r, StrKey("http_referer")).Some? ==> Keys(r) == [StrKey("http_referer"), StrKey("request_uri")]
    ensures Lookup(r, StrKey("http_referer")).None? && r != [] ==> Keys(r) == [StrKey("request_uri")]
  {
    if env.cli || env.request.None? then []
    else
      var req := env.request.value;
      if IsEmpty(Str(req.referer)) then [(StrKey("request_uri"), uri(req))]
      else [(StrKey("http_referer"), req.referer), (StrKey("request_uri"), uri(req))]
  }

  predicate IsBreak(c: char) { c == '\r' || c == '\n' }

  predicate NoBreaks(s: string) {
    forall i :: 0 <= i < |s| ==> !IsBreak(s[i])
  }

  predicate AllBreaks(s: string) {
    forall i :: 0 <= i < |s| ==> IsBreak(s[i])
  }

  function SkipBreaks(s: string): (r: string)
    ensures |r| <= |s| && r == s[|s| - |r|..] && AllBreaks(s[..|s| - |r|])
    ensures r == [] || !IsBreak(r[0])
  {
    if s != [] && IsBreak(s[0]) then SkipBreaks(s[1..]) else s
  }

  function TakeToken(s: string): (r: string)
    ensures r <= s && NoBreaks(r)
    ensures |r| == |s| || IsBreak(s[|r|])
  {
    if s == [] || IsBreak(s[0]) then [] else [s[0]] + TakeToken(s[1..])
  }

  /**
   * `strtok($s, "\r\n")` on a fresh string: skip the leading line breaks and
   * return the maximal run of other characters, or false (None) when nothing
   * but line breaks is left.
   */
  function Strtok(s: string): Option<string> {
    var rest := SkipBreaks(s);
    if rest == [] then None else Some(TakeToken(rest))
  }

  /** What `strtok` returns, stated by where the token sits in the input. */
  lemma {:induction false} StrtokShape(s: string)
    ensures Strtok(s).None? <==> AllBreaks(s)
    ensures Strtok(s).Some? ==>
      var t := Strtok(s).value;
      t != [] && NoBreaks(t) &&
      exists start :: 0 <= start && start + |t| <= |s| && AllBreaks(s[..start]) &&
        s[start..start + |t|] == t && (start + |t| == |s| || IsBreak(s[start + |t|]))
  {
    var rest := SkipBreaks(s);
    var start := |s| - |rest|;
    if rest == [] {
      assert s[..start] == s;
    } else {
      assert !AllBreaks(s) by { assert !IsBreak(s[start]); }
      TokenInPlace(s, start, rest);
    }
  }

  lemma TokenInPlace(s: string, start: nat, rest: string)
    requires start <= |s| && rest == s[start..] && rest != [] && !IsBreak(rest[0])
    ensures var t := TakeToken(rest);
      t != [] && start + |t| <= |s| && s[start..start + |t|] == t &&
      (start + |t| == |s| || IsBreak(s[start + |t|]))
  {
    var t := TakeToken(rest);
    assert t != [] by { assert [rest[0]] + TakeToken(rest[1..]) == t; }
    assert s[start..start + |t|] == rest[..|t|] == t;
    assert start + |t| == |s| || s[start + |t|] == rest[|t|];
  }

  /** The token is the whole message exactly when it is non-empty and has no line break. */
  lemma {:induction false} StrtokWhole(s: string)
    ensures Strtok(s) == Some(s) <==> s != [] && NoBreaks(s)
  {
    StrtokShape(s);
    if s != [] && NoBreaks(s) {
      assert SkipBreaks(s) == s;
      TakeAll(s);
    }
  }

  lemma {:induction false} TakeAll(s: string)
    requires NoBreaks(s)
    ensures TakeToken(s) == s
  {
    if s != [] {
      TakeAll(s[1..]);
      assert [s[0]] + s[1..] == s;
    }
  }

  /**
   * The short/full split: the short message is the first token; the full
   * message is sent only when it differs from the whole message.
   */
  function Split(message: string): (r: (Option<string>, Option<string>)) {
    var short := Strtok(message);
    if short == Some(message) then (short, None) else (short, Some(message))
  }

  /**
   * The full message is absent exactly when the message is one non-empty line;
   * otherwise it is the whole message, which then differs from the short one.
   */
  lemma SplitSpec(message: string)
    ensures Split(message).0 == Strtok(message)
    ensures Split(message).1.None? <==> message != [] && NoBreaks(message)
    ensures Split(message).1.None? ==> Split(message).0 == Some(message)
    ensures Split(message).1.Some? ==>
      Split(message).1.value == message && Split(message).0 != Some(message)
  {
    StrtokWhole(message);
  }

  /** A message with an appended section contains the section's heading followed by a colon. */
  lemma SectionContainsHeading(prefix: string, heading: string, body: string, suffix: string)
    ensures Contains(prefix + Section(heading, body) + suffix, heading + ":")
  {
    var w := prefix + Section(heading, body) + suffix;
    assert w == (prefix + "\n\n") + (heading + ":") + (Eol + body + suffix);
    ContainsAppended(prefix + "\n\n", heading + ":", Eol + body + suffix);
  }

  /** Any appended section puts a line break into the message, so the full message is sent. */
  lemma SectionForcesFull(prefix: string, heading: string, body: string, suffix: string)
    ensures Split(prefix + Section(heading, body) + suffix).1 ==
            Some(prefix + Section(heading, body) + suffix)
  {
    var m := prefix + Section(heading, body) + suffix;
    assert m[|prefix|] == '\n';
    SplitSpec(m);
  }
}
