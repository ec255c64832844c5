/** The two pieces of the Express application in index.js that every request
    passes through: the middleware that logs each `/api` response in one
    line of at most 80 characters, and the final error handler. */
module RequestLog {
  import opened Wrappers
  import opened Text

  /** A JavaScript value handed to `res.json`; `Composite` is an object or an
      array, which is always truthy. */
  datatype JsValue = Undefined | Null | Bool(b: bool) | Num(n: int) | Str(s: string) | Composite

  /** JavaScript truthiness (`if (value)`). */
  predicate Truthy(v: JsValue) {
    match v
    case Undefined => false
    case Null => false
    case Bool(b) => b
    case Num(n) => n != 0
    case Str(s) => s != ""
    case Composite => true
  }

  const MaxLine: nat := 80
  const Ellipsis: char := '…'

  /** A line longer than 80 characters is cut to its first 79 and an
      ellipsis. */
  function Truncate(line: string): (r: string)
    ensures |line| <= MaxLine ==> r == line
    ensures |line| > MaxLine ==> |r| == MaxLine && r == line[..MaxLine - 1] + [Ellipsis]
    ensures |r| <= MaxLine
  {
    if |line| > MaxLine then line[..MaxLine - 1] + [Ellipsis] else line
  }

  /** Truncating twice is truncating once. */
  lemma TruncateIdempotent(line: string)
    ensures Truncate(Truncate(line)) == Truncate(line)
  {
  }

  /** The line before truncation: `METHOD path status in Nms`, then
      ` :: ` and the JSON text of the captured body when that body is
      truthy. */
  function FullLine(verb: string, path: string, status: int, duration: int,
                    captured: JsValue, stringify: JsValue -> string): (r: string)
    ensures StartsWith(r, verb + " " + path + " ")
    ensures StartsWith(r, verb + " " + path + " " + IntToString(status) + " in "
                          + IntToString(duration) + "ms")
    ensures !Truthy(captured)
            ==> |r| == |verb + " " + path + " " + IntToString(status) + " in " + IntToString(duration) + "ms"|
    ensures Truthy(captured)
            ==> |r| == |verb + " " + path + " " + IntToString(status) + " in " + IntToString(duration) + "ms"|
                       + |" :: " + stringify(captured)|
                && r[|r| - |" :: " + stringify(captured)|..] == " :: " + stringify(captured)
  {
    var base := verb + " " + path + " " + IntToString(status) + " in " + IntToString(duration) + "ms";
    var tail := if Truthy(captured) then " :: " + stringify(captured) else "";
    assert (base + tail)[..|base|] == base;
    assert base[..|verb + " " + path + " "|] == verb + " " + path + " ";
    assert (base + tail)[|base|..] == tail;
    base + tail
  }

  /** The line logged when a response finishes, or nothing for a path
      outside `/api`. */
  function LogLine(verb: string, path: string, status: int, duration: int,
                   captured: JsValue, stringify: JsValue -> string): (r: Option<string>)
    ensures r.Some? <==> StartsWith(path, "/api")
    ensures r.Some? ==> |r.value| <= MaxLine
    ensures r.Some? && |FullLine(verb, path, status, duration, captured, stringify)| <= MaxLine
            ==> r.value == FullLine(verb, path, status, duration, captured, stringify)
    ensures r.Some? && |FullLine(verb, path, status, duration, captured, stringify)| > MaxLine
            ==> |r.value| == MaxLine
                && r.value[..MaxLine - 1] == FullLine(verb, path, status, duration, captured, stringify)[..MaxLine - 1]
                && r.value[MaxLine - 1] == Ellipsis
  {
    if StartsWith(path, "/api")
    then Some(Truncate(FullLine(verb, path, status, duration, captured, stringify)))
    else None
  }

  /** A logged line starts with the verb and path whenever they fit in the
      first 79 characters. */
  lemma HeadSurvivesTruncation(verb: string, path: string, status: int, duration: int,
                           captured: JsValue, stringify: JsValue -> string)
    requires StartsWith(path, "/api")
    requires |verb + " " + path + " "| < MaxLine
    ensures StartsWith(LogLine(verb, path, status, duration, captured, stringify).value, verb + " " + path + " ")
  {
    var full := FullLine(verb, path, status, duration, captured, stringify);
    var head := verb + " " + path + " ";
    var r := LogLine(verb, path, status, duration, captured, stringify).value;
    if |full| > MaxLine {
      assert r[..|head|] == r[..MaxLine - 1][..|head|] == full[..MaxLine - 1][..|head|];
      assert full[..MaxLine - 1][..|head|] == full[..|head|];
    }
  }

  /** One request as the logging middleware sees it: the start time, the
      last body passed to `res.json`, and the log written so far. */
  class ResponseLog {
    const verb: string
    const path: string
    const start: int
    var captured: JsValue
    var lines: seq<string>

    /** The middleware runs: nothing is captured yet. */
    constructor (verb: string, path: string, start: int, lines: seq<string>)
      ensures this.verb == verb && this.path == path && this.start == start
      ensures captured == Undefined && this.lines == lines
    {
      this.verb := verb;
      this.path := path;
      this.start := start;
      captured := Undefined;
      this.lines := lines;
    }

    /** The wrapped `res.json(body)`: remembers the body, replacing any
        earlier one. */
    method Json(body: JsValue)
      modifies this
      ensures captured == body && lines == old(lines)
    {
      captured := body;
    }

    /** The `finish` event at time `now`: appends the line for this request
        when its path is under `/api`. */
    method Finish(status: int, now: int, stringify: JsValue -> string)
      modifies this
      ensures captured == old(captured)
      ensures LogLine(verb, path, status, now - start, captured, stringify).None? ==> lines == old(lines)
      ensures LogLine(verb, path, status, now - start, captured, stringify).Some?
              ==> lines == old(lines) + [LogLine(verb, path, status, now - start, captured, stringify).value]
    {
      var line := LogLine(verb, path, status, now - start, captured, stringify);
      if line.Some? {
        lines := lines + [line.value];
      }
    }
  }

  // -------------------------------------------------------- error handler

  /** What the error handler reads from a thrown error: `status`,
      `statusCode` and `message`, each possibly missing. */
  datatype ThrownError = ThrownError(status: Option<int>, statusCode: Option<int>, message: Option<string>)

  /** `err.status || err.statusCode || 500`: a missing or zero value falls
      through to the next. */
  function ErrorStatus(err: ThrownError): (r: int)
    ensures err.status.Some? && err.status.value != 0 ==> r == err.status.value
    ensures (err.status.None? || err.status.value == 0) && err.statusCode.Some? && err.statusCode.value != 0
            ==> r == err.statusCode.value
    ensures (err.status.None? || err.status.value == 0) && (err.statusCode.None? || err.statusCode.value == 0)
            ==> r == 500
    ensures r != 0
  {
    if err.status.Some? && err.status.value != 0 then err.status.value
    else if err.statusCode.Some? && err.statusCode.value != 0 then err.statusCode.value
    else 500
  }

  /** `err.message || "Internal Server Error"`. */
  function ErrorMessage(err: ThrownError): (r: string)
    ensures err.message.Some? && err.message.value != "" ==> r == err.message.value
    ensures err.message.None? || err.message.value == "" ==> r == "Internal Server Error"
    ensures r != ""
  {
    if err.message.Some? && err.message.value != "" then err.message.value else "Internal Server Error"
  }
}
