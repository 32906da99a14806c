/** The `Usercycle` client class: where its log files live, whether an event is sent now
    or queued, how a failed send becomes an error-log line, and how a drain replays the
    queue.  The object is an immutable `State`: the configuration fixed by the
    constructor, the per-type log-name cache, the log directory's files and the trace of
    transport calls made so far.  The transport's answer and the clock are parameters. */
module Usercycle {
  import opened Wrappers
  import opened Php
  import opened Files

  const Protocol := "http"
  const ApiVersion := "1"
  const DefaultHost := "api.usercycle.com"
  const DefaultPort := 80
  const DefaultLogDir := "/tmp"
  const EventsUrl := "/events.json"

  /** The status descriptions used as the error message of a failed call (None: no entry). */
  function HttpHeaderMessage(status: int): Option<string> {
    match status
    case 200 => Some("200: Success (upon a successful GET, PUT, or DELETE request)")
    case 201 => Some("201: Created (upon a successful POST request)")
    case 400 => Some("400: Resource Invalid (improperly-formatted request)")
    case 401 => Some("401: Unauthorized (incorrect or missing authentication credentials)")
    case 404 => Some("404: Resource Not Found (requesting a non-existent person or other resource)")
    case 405 => Some("405: Method Not Allowed (e.g., trying to POST to a URL that responds only to GET)")
    case 406 => Some("406: Not Acceptable (server can't satisfy the Accept header specified by the client)")
    case 422 => Some("422: Unprocessable Entity (The request was well-formed but was unable to be followed due to semantic errors)")
    case 500 => Some("500: Server Error")
    case _ => None
  }

  /** The parameters `create` sends for one user action. */
  datatype Event = Event(uid: string, actionName: string, properties: map<string, string>, occurredAt: string)

  /** What `log_event` queues and `send_event` takes: HTTP method (verb), path below the API root, and data
      (null when a queued line does not decode). */
  datatype Request = Request(verb: string, url: string, data: Option<Event>)

  /** A line of a log file: the JSON encoding of a queued request, or plain text. */
  datatype Line = Record(request: Request) | Text(text: string)

  /** One transport call as it is configured: method, full URL, port, headers, whether it is a POST, body. */
  datatype Call = Call(verb: string, url: string, port: Value, headers: seq<string>, post: bool, data: Option<Event>)

  /** What the transport did: it returned a status and an error string, or it threw. */
  datatype Outcome = Returned(status: int, error: string) | Threw(message: string)

  datatype Config = Config(apiKey: string, host: Value, port: Value, logDir: Value, useCron: Value, baseApiUrl: string)

  datatype State = State(cfg: Config, cache: map<string, string>, fs: FileSystem<Line>, trace: seq<Call>)

  /* ---------------------------------------------------------------- naming */

  function BaseUrl(host: Value): string {
    Protocol + "://" + ToStr(host) + "/api/v" + ApiVersion
  }

  function LogDir(cfg: Config): string {
    ToStr(cfg.logDir)
  }

  /** The name `log_name` builds for a type it has not cached: the send file carries the clock as prefix. */
  function LogPath(dir: string, kind: string, now: nat): string {
    dir + "/" + (if kind == "send" then NatToString(now) + "." else "") + "usercycle_" + kind + ".log"
  }

  /** `p` is a name `log_name` can give to `kind` in `dir`, whatever the clock said. */
  ghost predicate IsLogPath(dir: string, kind: string, p: string) {
    if kind == "send" then exists t: nat :: p == LogPath(dir, "send", t) else p == LogPath(dir, kind, 0)
  }

  ghost predicate ValidCache(dir: string, cache: map<string, string>) {
    forall k :: k in cache ==> IsLogPath(dir, k, cache[k])
  }

  /** The class invariant: cached names are the names `log_name` builds, and the base URL is built from the host. */
  ghost predicate Valid(st: State) {
    && ValidCache(LogDir(st.cfg), st.cache)
    && st.cfg.baseApiUrl == BaseUrl(st.cfg.host)
  }

  /** The cache only gains entries, and only for the given types. */
  ghost predicate CacheGrows(c: map<string, string>, c': map<string, string>, kinds: set<string>) {
    && c'.Keys <= c.Keys + kinds
    && forall k :: k in c ==> k in c' && c'[k] == c[k]
  }

  function EventPath(cfg: Config): string {
    LogPath(LogDir(cfg), "event", 0)
  }

  function ErrorPath(cfg: Config): string {
    LogPath(LogDir(cfg), "error", 0)
  }

  lemma FreshLogPath(dir: string, kind: string, now: nat)
    ensures IsLogPath(dir, kind, LogPath(dir, kind, now))
    ensures StrTruthy(LogPath(dir, kind, now))
  {
    if kind == "send" {
      assert LogPath(dir, kind, now) == LogPath(dir, "send", now);
    }
  }

  /** Every name a valid cache holds is a non-empty string other than "0", so the cache test hits. */
  lemma CachedPathTruthy(dir: string, kind: string, p: string)
    requires IsLogPath(dir, kind, p)
    ensures StrTruthy(p)
  {
    if kind == "send" {
      var t: nat :| p == LogPath(dir, "send", t);
      FreshLogPath(dir, kind, t);
    } else {
      FreshLogPath(dir, kind, 0);
    }
  }

  lemma SendPathIsNotPlain(dir: string, t: nat, kind: string)
    requires kind != "send"
    ensures LogPath(dir, "send", t) != LogPath(dir, kind, 0)
  {
    var a := LogPath(dir, "send", t);
    var b := LogPath(dir, kind, 0);
    var digits := NatToString(t);
    assert a == dir + "/" + (digits + ".") + "usercycle_" + "send" + ".log";
    assert a[|dir| + 1] == digits[0];
    assert b[|dir| + 1] == 'u';
  }

  lemma PlainPathInjective(dir: string, k1: string, k2: string)
    requires k1 != "send" && k2 != "send" && k1 != k2
    ensures LogPath(dir, k1, 0) != LogPath(dir, k2, 0)
  {
    PlainPathKind(dir, k1);
    PlainPathKind(dir, k2);
  }

  /** The type can be read back from a plain log name. */
  lemma PlainPathKind(dir: string, kind: string)
    requires kind != "send"
    ensures var p := LogPath(dir, kind, 0); |p| == |dir| + 15 + |kind| && p[|dir| + 11..|p| - 4] == kind
  {
    var p := LogPath(dir, kind, 0);
    assert p == dir + "/usercycle_" + kind + ".log";
  }

  /** Two different log types never share a file. */
  lemma LogPathsDistinct(dir: string, k1: string, p1: string, k2: string, p2: string)
    requires IsLogPath(dir, k1, p1) && IsLogPath(dir, k2, p2) && k1 != k2
    ensures p1 != p2
  {
    if k1 == "send" {
      var t: nat :| p1 == LogPath(dir, "send", t);
      SendPathIsNotPlain(dir, t, k2);
    } else if k2 == "send" {
      var t: nat :| p2 == LogPath(dir, "send", t);
      SendPathIsNotPlain(dir, t, k1);
    } else {
      PlainPathInjective(dir, k1, k2);
    }
  }

  /** `log_name`: the cached name of a type if there is a (truthy) one, else a fresh name that is then cached. */
  function LogName(dir: string, cache: map<string, string>, kind: string, now: nat): (r: (string, map<string, string>))
    ensures r.1 == cache[kind := r.0]
    ensures kind in cache && StrTruthy(cache[kind]) ==> r.0 == cache[kind]
    ensures kind !in cache ==> r.0 == LogPath(dir, kind, now)
    ensures ValidCache(dir, cache) ==> ValidCache(dir, r.1) && IsLogPath(dir, kind, r.0)
    ensures ValidCache(dir, cache) && kind in cache ==> r.0 == cache[kind] && r.1 == cache
  {
    CachedNameTruthy(dir, cache, kind);
    FreshLogPath(dir, kind, now);
    if kind in cache && StrTruthy(cache[kind]) then (cache[kind], cache)
    else (LogPath(dir, kind, now), cache[kind := LogPath(dir, kind, now)])
  }

  lemma CachedNameTruthy(dir: string, cache: map<string, string>, kind: string)
    ensures ValidCache(dir, cache) && kind in cache ==> StrTruthy(cache[kind])
  {
    if ValidCache(dir, cache) && kind in cache {
      CachedPathTruthy(dir, kind, cache[kind]);
    }
  }

  /* ------------------------------------------------------------ construction */

  /** An option replaces its default only when it is set and truthy (host, port, log_dir). */
  function TruthyOption(options: map<string, Value>, key: string, default: Value): Value {
    if IsSet(options, key) && Truthy(options[key]) then options[key] else default
  }

  /** An option replaces its default whenever it is set (use_cron). */
  function SetOption(options: map<string, Value>, key: string, default: Value): Value {
    if IsSet(options, key) then options[key] else default
  }

  /** `new Usercycle($access_token, $options)`: fails exactly when the resolved log directory is
      not writable; `writable` stands for what `is_writable` answers. */
  function Construct(accessToken: string, options: map<string, Value>, writable: set<string>, fs: FileSystem<Line>)
    : (r: Result<State, string>)
    ensures var dir := if "log_dir" in options && Truthy(options["log_dir"]) then options["log_dir"] else Str(DefaultLogDir);
      && (r.Ok? <==> ToStr(dir) in writable)
      && (r.Err? ==> r.error == "Could not open " + ToStr(dir) + " for writing")
      && (r.Ok? ==> r.value.cfg.logDir == dir)
    ensures r.Ok? ==> Valid(r.value) && r.value.cache == map[] && r.value.fs == fs && r.value.trace == []
    ensures r.Ok? ==> r.value.cfg.apiKey == accessToken
    ensures r.Ok? ==> r.value.cfg.host == if "host" in options && Truthy(options["host"]) then options["host"] else Str(DefaultHost)
    ensures r.Ok? ==> r.value.cfg.port == if "port" in options && Truthy(options["port"]) then options["port"] else Int(DefaultPort)
    ensures r.Ok? ==> r.value.cfg.useCron == if "use_cron" in options && options["use_cron"] != Null then options["use_cron"] else Bool(false)
    ensures r.Ok? ==> r.value.cfg.baseApiUrl == "http://" + ToStr(r.value.cfg.host) + "/api/v1"
  {
    var logDir := TruthyOption(options, "log_dir", Str(DefaultLogDir));
    var useCron := SetOption(options, "use_cron", Bool(false));
    var host := TruthyOption(options, "host", Str(DefaultHost));
    var port := TruthyOption(options, "port", Int(DefaultPort));
    var cfg := Config(accessToken, host, port, logDir, useCron, BaseUrl(host));
    if ToStr(logDir) !in writable then Err("Could not open " + ToStr(logDir) + " for writing")
    else Ok(State(cfg, map[], fs, []))
  }

  /* ----------------------------------------------------------------- logging */

  /** `log($type, $msg)`: one line appended to the type's file, whose name is cached. */
  function Log(st: State, kind: string, line: Line, now: nat): (r: State)
    requires Valid(st)
    ensures Valid(r) && r.cfg == st.cfg && r.trace == st.trace
    ensures kind in r.cache && CacheGrows(st.cache, r.cache, {kind})
    ensures kind !in st.cache ==> r.cache[kind] == LogPath(LogDir(st.cfg), kind, now)
    ensures var p := r.cache[kind];
      p in r.fs && r.fs[p] == Contents(st.fs, p) + [line] && Unchanged(st.fs, r.fs, {p})
  {
    var named := LogName(LogDir(st.cfg), st.cache, kind, now);
    st.(cache := named.1, fs := Append(st.fs, named.0, line))
  }

  /** The line `log_error` writes: the clock in brackets, then the message. */
  function ErrorLine(msg: string, now: nat): Line {
    Text("[" + NatToString(now) + "] " + msg)
  }

  /** `log_error($msg)`: one timestamped line appended to the error log and no other file touched. */
  function LogError(st: State, msg: string, now: nat): (r: State)
    requires Valid(st)
    ensures Valid(r) && r.cfg == st.cfg && r.trace == st.trace
    ensures CacheGrows(st.cache, r.cache, {"error"})
    ensures ErrorPath(st.cfg) in r.fs
    ensures Contents(r.fs, ErrorPath(st.cfg)) == Contents(st.fs, ErrorPath(st.cfg)) + [Text("[" + NatToString(now) + "] " + msg)]
    ensures Unchanged(st.fs, r.fs, {ErrorPath(st.cfg)})
  {
    Log(st, "error", ErrorLine(msg, now), now)
  }

  /** `log_event`: the request, as one record line, appended to the event log and no other file touched. */
  function LogEvent(st: State, req: Request, now: nat): (r: State)
    requires Valid(st)
    ensures Valid(r) && r.cfg == st.cfg && r.trace == st.trace
    ensures CacheGrows(st.cache, r.cache, {"event"})
    ensures EventPath(st.cfg) in r.fs
    ensures Contents(r.fs, EventPath(st.cfg)) == Contents(st.fs, EventPath(st.cfg)) + [Record(req)]
    ensures Unchanged(st.fs, r.fs, {EventPath(st.cfg)})
  {
    Log(st, "event", Record(req), now)
  }

  /* ----------------------------------------------------------------- sending */

  /** The call `send_event` configures for a request. */
  function CallFor(cfg: Config, req: Request): Call {
    Call(req.verb, cfg.baseApiUrl + req.url, cfg.port,
         ["X-Usercycle-API-Key: " + cfg.apiKey, "Accept: application/json"],
         ToUpper(req.verb) == "POST", req.data)
  }

  /** A returned call that counts as delivered: a 2xx status and no (truthy) transport error. */
  predicate Delivered(o: Outcome) {
    o.Returned? && 200 <= o.status < 300 && !StrTruthy(o.error)
  }

  /** The message logged for a failed call: the status description if the table has one, else the transport error. */
  function FailureMessage(status: int, error: string): string {
    match HttpHeaderMessage(status)
    case Some(description) => description
    case None => error
  }

  /** The error-log lines a reply adds when `send_event` returns. */
  function FailureLines(o: Outcome, now: nat): seq<Line> {
    if o.Returned? && !Delivered(o) then [ErrorLine(FailureMessage(o.status, o.error), now)] else []
  }

  /** The exception `send_event` rethrows when the transport throws. */
  function Rethrown(cfg: Config, msg: string): string {
    msg + "for host " + ToStr(cfg.host)
  }

  datatype Sent = Sent(st: State, thrown: Option<string>)

  /** `send_event`: one transport call; a throw is rethrown with the host appended; a returned call
      fails when its error string is truthy or its status is outside [200, 300), and a failure is
      logged, never thrown. */
  function SendEvent(st: State, req: Request, outcome: Outcome, now: nat): (r: Sent)
    requires Valid(st)
    ensures Valid(r.st) && r.st.cfg == st.cfg && CacheGrows(st.cache, r.st.cache, {"error"})
    ensures r.st.trace == st.trace + [CallFor(st.cfg, req)]
    ensures var c := r.st.trace[|st.trace|];
      && c.verb == req.verb && c.data == req.data && c.port == st.cfg.port
      && c.url == "http://" + ToStr(st.cfg.host) + "/api/v1" + req.url
      && c.headers == ["X-Usercycle-API-Key: " + st.cfg.apiKey, "Accept: application/json"]
      && (c.post <==> ToUpper(req.verb) == "POST")
    ensures r.thrown.Some? <==> outcome.Threw?
    ensures outcome.Threw? ==> r.thrown.value == outcome.message + "for host " + ToStr(st.cfg.host) && r.st.fs == st.fs
    ensures Delivered(outcome) ==> r.st.fs == st.fs
    ensures outcome.Returned? && !Delivered(outcome) ==>
      && ErrorPath(st.cfg) in r.st.fs
      && Contents(r.st.fs, ErrorPath(st.cfg)) == Contents(st.fs, ErrorPath(st.cfg)) + [ErrorLine(FailureMessage(outcome.status, outcome.error), now)]
    ensures Unchanged(st.fs, r.st.fs, {ErrorPath(st.cfg)})
  {
    var st1 := st.(trace := st.trace + [CallFor(st.cfg, req)]);
    match outcome
    case Threw(msg) => Sent(st1, Some(Rethrown(st.cfg, msg)))
    case Returned(status, error) =>
      if StrTruthy(error) || status < 200 || status >= 300 then
        Sent(LogError(st1, FailureMessage(status, error), now), None)
      else
        Sent(st1, None)
  }

  /* ---------------------------------------------------------- delivery policy */

  /** `process_event`: in cron mode the request is queued and never sent; otherwise it is sent,
      and queued (with the exception logged) only when sending throws. */
  function ProcessEvent(st: State, req: Request, outcome: Outcome, now: nat): (r: State)
    requires Valid(st)
    ensures Valid(r) && r.cfg == st.cfg && CacheGrows(st.cache, r.cache, {"event", "error"})
    ensures var ev := EventPath(st.cfg); var err := ErrorPath(st.cfg);
      if Truthy(st.cfg.useCron) then
        && r.trace == st.trace
        && ev in r.fs && Contents(r.fs, ev) == Contents(st.fs, ev) + [Record(req)]
        && Unchanged(st.fs, r.fs, {ev})
      else
        && r.trace == st.trace + [CallFor(st.cfg, req)]
        && (Delivered(outcome) ==> r.fs == st.fs)
        && (outcome.Threw? ==>
              && ev in r.fs && Contents(r.fs, ev) == Contents(st.fs, ev) + [Record(req)]
              && Contents(r.fs, err) == Contents(st.fs, err) + [ErrorLine(outcome.message + "for host " + ToStr(st.cfg.host), now)]
              && Unchanged(st.fs, r.fs, {ev, err}))
        && (outcome.Returned? ==>
              && Contents(r.fs, err) == Contents(st.fs, err) + FailureLines(outcome, now)
              && Unchanged(st.fs, r.fs, {err}))
  {
    if Truthy(st.cfg.useCron) then
      LogEvent(st, req, now)
    else
      var sent := SendEvent(st, req, outcome, now);
      if sent.thrown.Some? then
        var queued := LogEvent(sent.st, req, now);
        EventAndErrorDiffer(st.cfg);
        LogError(queued, sent.thrown.value, now)
      else
        sent.st
  }

  lemma EventAndErrorDiffer(cfg: Config)
    ensures EventPath(cfg) != ErrorPath(cfg)
  {
    PlainPathInjective(LogDir(cfg), "event", "error");
  }

  /** The timestamp `create` formats: the caller's if it is truthy, else the clock. */
  function OccurredAt(occurredAt: Option<int>, now: nat): int {
    if occurredAt.Some? && occurredAt.value != 0 then occurredAt.value else now
  }

  /** `create`: builds the event parameters and processes a POST to /events.json;
      `strftime` stands for the fixed `%Y-%m-%d %H:%M:%S UTC` formatting. */
  function Create(st: State, identity: string, action: string, properties: map<string, string>,
                  occurredAt: Option<int>, strftime: int -> string, outcome: Outcome, now: nat): (r: State)
    requires Valid(st)
    ensures Valid(r) && r.cfg == st.cfg
    ensures var req := Request("POST", "/events.json", Some(Event(identity, action, properties, strftime(OccurredAt(occurredAt, now)))));
      Truthy(st.cfg.useCron) ==>
        && r.trace == st.trace
        && Contents(r.fs, EventPath(st.cfg)) == Contents(st.fs, EventPath(st.cfg)) + [Record(req)]
        && Unchanged(st.fs, r.fs, {EventPath(st.cfg)})
    ensures var req := Request("POST", "/events.json", Some(Event(identity, action, properties, strftime(OccurredAt(occurredAt, now)))));
      !Truthy(st.cfg.useCron) ==>
        && r.trace == st.trace + [CallFor(st.cfg, req)]
        && Contents(r.fs, EventPath(st.cfg)) == Contents(st.fs, EventPath(st.cfg)) + (if outcome.Threw? then [Record(req)] else [])
    ensures !Truthy(st.cfg.useCron) ==>
      && r.trace[|st.trace|].post
      && r.trace[|st.trace|].url == "http://" + ToStr(st.cfg.host) + "/api/v1" + "/events.json"
    ensures !Truthy(st.cfg.useCron) && Delivered(outcome) ==> r.fs == st.fs
    ensures !Truthy(st.cfg.useCron) && outcome.Returned? ==>
      && Contents(r.fs, ErrorPath(st.cfg)) == Contents(st.fs, ErrorPath(st.cfg)) + FailureLines(outcome, now)
      && Unchanged(st.fs, r.fs, {ErrorPath(st.cfg)})
    ensures !Truthy(st.cfg.useCron) && outcome.Threw? ==>
      && Contents(r.fs, ErrorPath(st.cfg)) == Contents(st.fs, ErrorPath(st.cfg))
           + [ErrorLine(outcome.message + "for host " + ToStr(st.cfg.host), now)]
      && Unchanged(st.fs, r.fs, {EventPath(st.cfg), ErrorPath(st.cfg)})
  {
    var params := Event(identity, action, properties, strftime(OccurredAt(occurredAt, now)));
    var req := Request("POST", EventsUrl, Some(params));
    EventAndErrorDiffer(st.cfg);
    CallUrl(st.cfg, req);
    PostIsUpperCase();
    ProcessEvent(st, req, outcome, now)
  }

  lemma PostIsUpperCase()
    ensures ToUpper("POST") == "POST"
  {
    var u := ToUpper("POST");
    assert u[0] == 'P' && u[1] == 'O' && u[2] == 'S' && u[3] == 'T';
  }

  /** Every call goes to `http://` + host + `/api/v1` + the request's path. */
  lemma CallUrl(cfg: Config, req: Request)
    requires cfg.baseApiUrl == BaseUrl(cfg.host)
    ensures CallFor(cfg, req).url == "http://" + ToStr(cfg.host) + "/api/v1" + req.url
  {
  }

  /* ------------------------------------------------------------------- drain */

  /** What replaying a queued line sends: the decoded record, or null fields when it does not decode. */
  function Decode(line: Line): Request {
    match line
    case Record(req) => req
    case Text(_) => Request("", "", None)
  }

  /** The calls a run of queued lines makes, one per line in file order. */
  function CallsOf(cfg: Config, lines: seq<Line>): (calls: seq<Call>)
    ensures |calls| == |lines|
  {
    seq(|lines|, i requires 0 <= i < |lines| => CallFor(cfg, Decode(lines[i])))
  }

  /** The index of the first reply in [from, to) that throws, or `to` when none does. */
  function FirstThrow(replies: nat -> Outcome, from: nat, to: nat): (r: nat)
    requires from <= to
    ensures from <= r <= to
    ensures forall j :: from <= j < r ==> replies(j).Returned?
    ensures r < to ==> replies(r).Threw?
    decreases (to as int) - (from as int)
  {
    if from == to then to
    else if replies(from).Threw? then from
    else FirstThrow(replies, from + 1, to)
  }

  /** The error-log lines the returned replies in [from, to) add, in order. */
  function FailuresBetween(replies: nat -> Outcome, from: nat, to: nat, now: nat): seq<Line>
    requires from <= to
    decreases (to as int) - (from as int)
  {
    if from == to then [] else FailureLines(replies(from), now) + FailuresBetween(replies, from + 1, to, now)
  }

  datatype Replayed = Replayed(st: State, thrown: Option<string>)

  /** What replaying `lines` from `k` on does, with `f` the first line whose send throws:
      lines k..f are sent in order (f included when it exists), the returned failures among them
      are logged, the throw is reported with its host, and no file but the error log changes. */
  ghost predicate ReplaysFrom(st: State, lines: seq<Line>, k: nat, replies: nat -> Outcome, now: nat, r: Replayed)
    requires k <= |lines|
  {
    var f := FirstThrow(replies, k, |lines|);
    && Valid(r.st) && r.st.cfg == st.cfg && CacheGrows(st.cache, r.st.cache, {"error"})
    && (r.thrown.Some? <==> f < |lines|)
    && (f < |lines| ==> r.thrown.value == replies(f).message + "for host " + ToStr(st.cfg.host))
    && r.st.trace == st.trace + CallsOf(st.cfg, lines[k..if f < |lines| then f + 1 else |lines|])
    && Contents(r.st.fs, ErrorPath(st.cfg)) == Contents(st.fs, ErrorPath(st.cfg)) + FailuresBetween(replies, k, f, now)
    && Unchanged(st.fs, r.st.fs, {ErrorPath(st.cfg)})
    && ((forall j :: k <= j < f ==> Delivered(replies(j))) ==> r.st.fs == st.fs)
  }

  /** The read loop of `send_logged_events` from line `k` on: each line is decoded and sent;
      returned failures are only logged, and the first throw ends the loop. */
  function Replay(st: State, lines: seq<Line>, k: nat, replies: nat -> Outcome, now: nat): (r: Replayed)
    requires Valid(st) && k <= |lines|
    ensures ReplaysFrom(st, lines, k, replies, now, r)
    decreases |lines| - k
  {
    if k == |lines| then
      ReplayEnd(st, lines, replies, now);
      Replayed(st, None)
    else
      var sent := SendEvent(st, Decode(lines[k]), replies(k), now);
      if sent.thrown.Some? then
        ReplayThrown(st, lines, k, replies, now, sent);
        Replayed(sent.st, sent.thrown)
      else
        var rest := Replay(sent.st, lines, k + 1, replies, now);
        ReplayReturned(st, lines, k, replies, now, sent, rest);
        rest
  }

  /** At the end of the file nothing more is sent. */
  lemma ReplayEnd(st: State, lines: seq<Line>, replies: nat -> Outcome, now: nat)
    requires Valid(st)
    ensures ReplaysFrom(st, lines, |lines|, replies, now, Replayed(st, None))
  {
    assert lines[|lines|..|lines|] == [];
  }

  /** A line whose send throws is sent and ends the replay. */
  lemma ReplayThrown(st: State, lines: seq<Line>, k: nat, replies: nat -> Outcome, now: nat, sent: Sent)
    requires Valid(st) && k < |lines|
    requires sent == SendEvent(st, Decode(lines[k]), replies(k), now) && sent.thrown.Some?
    ensures ReplaysFrom(st, lines, k, replies, now, Replayed(sent.st, sent.thrown))
  {
    assert lines[k..k + 1] == [lines[k]];
  }

  /** A line whose send returns is sent, and the replay goes on from the next line. */
  lemma ReplayReturned(st: State, lines: seq<Line>, k: nat, replies: nat -> Outcome, now: nat, sent: Sent, rest: Replayed)
    requires Valid(st) && k < |lines|
    requires sent == SendEvent(st, Decode(lines[k]), replies(k), now) && sent.thrown.None?
    requires ReplaysFrom(sent.st, lines, k + 1, replies, now, rest)
    ensures ReplaysFrom(st, lines, k, replies, now, rest)
  {
    var err := ErrorPath(st.cfg);
    ReplayStep(st.cfg, lines, k, replies, now, st.trace, sent.st.trace, rest.st.trace,
               Contents(st.fs, err), Contents(sent.st.fs, err), Contents(rest.st.fs, err));
  }

  /** One returned line followed by the rest of the replay is the replay from that line. */
  lemma ReplayStep(cfg: Config, lines: seq<Line>, k: nat, replies: nat -> Outcome, now: nat,
                   t0: seq<Call>, t1: seq<Call>, t2: seq<Call>, e0: seq<Line>, e1: seq<Line>, e2: seq<Line>)
    requires k < |lines| && replies(k).Returned?
    requires t1 == t0 + [CallFor(cfg, Decode(lines[k]))]
    requires e1 == e0 + FailureLines(replies(k), now)
    requires var f := FirstThrow(replies, k + 1, |lines|);
      && t2 == t1 + CallsOf(cfg, lines[k + 1..if f < |lines| then f + 1 else |lines|])
      && e2 == e1 + FailuresBetween(replies, k + 1, f, now)
    ensures var f := FirstThrow(replies, k, |lines|);
      && f == FirstThrow(replies, k + 1, |lines|)
      && t2 == t0 + CallsOf(cfg, lines[k..if f < |lines| then f + 1 else |lines|])
      && e2 == e0 + FailuresBetween(replies, k, f, now)
  {
    var f := FirstThrow(replies, k, |lines|);
    assert f == FirstThrow(replies, k + 1, |lines|);
    var e := if f < |lines| then f + 1 else |lines|;
    CallsOfStep(cfg, lines, k, e);
    SeqAssoc(t0, [CallFor(cfg, Decode(lines[k]))], CallsOf(cfg, lines[k + 1..e]));
    SeqAssoc(e0, FailureLines(replies(k), now), FailuresBetween(replies, k + 1, f, now));
  }

  lemma CallsOfStep(cfg: Config, lines: seq<Line>, k: nat, e: nat)
    requires k < e <= |lines|
    ensures CallsOf(cfg, lines[k..e]) == [CallFor(cfg, Decode(lines[k]))] + CallsOf(cfg, lines[k + 1..e])
  {
    assert lines[k..e] == [lines[k]] + lines[k + 1..e];
  }

  /** `send_logged_events`: with no event log it changes no file and makes no call; otherwise the
      event log is renamed to the send log, every line is replayed in order, and the send log is
      removed, unless a send throws, in which case the loop stops, the exception is logged and
      the send log stays. */
  function Drain(st: State, now: nat, replies: nat -> Outcome): (r: State)
    requires Valid(st)
    ensures Valid(r) && r.cfg == st.cfg
    ensures EventPath(st.cfg) !in st.fs ==> r.fs == st.fs && r.trace == st.trace
    ensures EventPath(st.cfg) in st.fs ==> Drained(st, r, now, replies)
  {
    var probe := LogName(LogDir(st.cfg), st.cache, "event", now);
    if probe.0 !in st.fs then
      st.(cache := probe.1)
    else
      var probed := st.(cache := probe.1);
      var r := DrainQueued(probed, now, replies);
      DrainedProbe(st, probed, r, now, replies);
      r
  }

  /** A drain's outcome depends on the cache only through the send name, so caching the event
      name first does not change it. */
  lemma DrainedProbe(st: State, probed: State, r: State, now: nat, replies: nat -> Outcome)
    requires EventPath(st.cfg) in st.fs
    requires probed.cfg == st.cfg && probed.fs == st.fs && probed.trace == st.trace
    requires "send" in probed.cache <==> "send" in st.cache
    requires "send" in st.cache ==> probed.cache["send"] == st.cache["send"]
    requires Drained(probed, r, now, replies)
    ensures Drained(st, r, now, replies)
  {
  }

  /** What a drain that found an event log leaves behind, given the replies to its calls: the event
      log is gone; the send log (named by the cache, or fresh from the clock) has been replayed line
      by line in file order up to the first throw; without a throw it is removed, after a throw it
      remains with the queued lines and the exception is logged; the error log gains one line per
      failed reply; no other file changes. */
  ghost predicate Drained(st: State, r: State, now: nat, replies: nat -> Outcome)
    requires EventPath(st.cfg) in st.fs
  {
    var ev := EventPath(st.cfg);
    var err := ErrorPath(st.cfg);
    var queued := st.fs[ev];
    var f := FirstThrow(replies, 0, |queued|);
    && "send" in r.cache
    && var send := r.cache["send"];
    && (send == if "send" in st.cache then st.cache["send"] else LogPath(LogDir(st.cfg), "send", now))
    && send != ev && send != err
    && ev !in r.fs
    && Unchanged(st.fs, r.fs, {ev, send, err})
    && (f == |queued| ==>
          && r.trace == st.trace + CallsOf(st.cfg, queued)
          && send !in r.fs
          && Contents(r.fs, err) == Contents(st.fs, err) + FailuresBetween(replies, 0, |queued|, now)
          && ((forall j :: 0 <= j < |queued| ==> Delivered(replies(j))) ==> r.fs == st.fs - {ev, send}))
    && (f < |queued| ==>
          && r.trace == st.trace + CallsOf(st.cfg, queued[..f + 1])
          && send in r.fs && r.fs[send] == queued
          && Contents(r.fs, err) == Contents(st.fs, err) + FailuresBetween(replies, 0, f, now)
                                    + [ErrorLine(replies(f).message + "for host " + ToStr(st.cfg.host), now)])
  }

  /** `send_logged_events` once the event log is known to exist: rotate, replay, then remove the
      send log, or log the exception that stopped the replay. */
  function DrainQueued(st: State, now: nat, replies: nat -> Outcome): (r: State)
    requires Valid(st) && EventPath(st.cfg) in st.fs
    ensures Valid(r) && r.cfg == st.cfg
    ensures Drained(st, r, now, replies)
  {
    var rotated := Rotate(st, now);
    var send := rotated.0;
    var queued := st.fs[EventPath(st.cfg)];
    var rep := Replay(rotated.1, queued, 0, replies, now);
    var ev := EventPath(st.cfg);
    var err := ErrorPath(st.cfg);
    UnchangedTrans(st.fs, rotated.1.fs, rep.st.fs, {ev, send}, {err}, {ev, send, err});
    EventAndErrorDiffer(st.cfg);
    if rep.thrown.Some? then
      var f := FirstThrow(replies, 0, |queued|);
      assert queued[0..f + 1] == queued[..f + 1];
      var r := LogError(rep.st, rep.thrown.value, now);
      UnchangedTrans(st.fs, rep.st.fs, r.fs, {ev, send, err}, {err}, {ev, send, err});
      assert r.cache["send"] == send;
      r
    else
      assert queued[0..|queued|] == queued;
      var r := rep.st.(fs := Unlink(rep.st.fs, send));
      UnchangedTrans(st.fs, rep.st.fs, r.fs, {ev, send, err}, {send}, {ev, send, err});
      DeliveredDrainFiles(st.fs, rotated.1.fs, rep.st.fs, r.fs, ev, send,
                          forall j :: 0 <= j < |queued| ==> Delivered(replies(j)));
      assert r.cache["send"] == send;
      r
  }

  /** When every replayed reply is delivered the replay writes nothing, so rotating and then
      removing the send log leaves the directory as it was minus the event and send logs. */
  lemma DeliveredDrainFiles(fs0: FileSystem<Line>, rotated: FileSystem<Line>, replayed: FileSystem<Line>,
                            fs: FileSystem<Line>, ev: string, send: string, delivered: bool)
    requires Unchanged(fs0, rotated, {ev, send}) && ev !in rotated
    requires delivered ==> replayed == rotated
    requires fs == Unlink(replayed, send)
    ensures delivered ==> fs == fs0 - {ev, send}
  {
  }

  /** The rotation step of `send_logged_events`: the event log is renamed to the send log,
      whose name is cached on first use with the clock as prefix. */
  function Rotate(st: State, now: nat): (r: (string, State))
    requires Valid(st) && EventPath(st.cfg) in st.fs
    ensures Valid(r.1) && r.1.cfg == st.cfg && r.1.trace == st.trace
    ensures CacheGrows(st.cache, r.1.cache, {"event", "send"}) && "send" in r.1.cache && r.1.cache["send"] == r.0
    ensures r.0 == if "send" in st.cache then st.cache["send"] else LogPath(LogDir(st.cfg), "send", now)
    ensures r.0 != EventPath(st.cfg) && r.0 != ErrorPath(st.cfg)
    ensures EventPath(st.cfg) !in r.1.fs
    ensures r.0 in r.1.fs && r.1.fs[r.0] == st.fs[EventPath(st.cfg)]
    ensures Unchanged(st.fs, r.1.fs, {EventPath(st.cfg), r.0})
  {
    var dir := LogDir(st.cfg);
    var eventLog := LogName(dir, st.cache, "event", now);
    var sendLog := LogName(dir, eventLog.1, "send", now);
    DrainPathsDiffer(dir, sendLog.0);
    (sendLog.0, st.(cache := sendLog.1, fs := Rename(st.fs, eventLog.0, sendLog.0)))
  }

  lemma DrainPathsDiffer(dir: string, send: string)
    requires IsLogPath(dir, "send", send)
    ensures send != LogPath(dir, "event", 0) && send != LogPath(dir, "error", 0)
  {
    FreshLogPath(dir, "event", 0);
    FreshLogPath(dir, "error", 0);
    LogPathsDistinct(dir, "send", send, "event", LogPath(dir, "event", 0));
    LogPathsDistinct(dir, "send", send, "error", LogPath(dir, "error", 0));
  }
}
