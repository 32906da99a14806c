/** Properties of the client that relate several calls: the name cache, the file
    separation between log types, delivery of a batch of events, and queue-then-drain. */
module UsercycleProperties {
  import opened Wrappers
  import opened Php
  import opened Files
  import opened Usercycle

  /* ------------------------------------------------------------------ naming */

  /** Once `log_name` has answered for a type, it answers the same path again, whatever the
      clock says, and leaves the cache alone: the send file's time prefix is fixed at first use. */
  lemma LogNameStable(dir: string, cache: map<string, string>, kind: string, t1: nat, t2: nat)
    ensures var first := LogName(dir, cache, kind, t1);
      LogName(dir, first.1, kind, t2) == first
  {
    var first := LogName(dir, cache, kind, t1);
    if !(kind in cache && StrTruthy(cache[kind])) {
      FreshLogPath(dir, kind, t1);
    }
  }

  /** The base URL is `http://`, then the host, then `/api/v1`: the host can be read back from it. */
  lemma BaseUrlHost(host: Value)
    ensures var u := BaseUrl(host);
      && |u| == |ToStr(host)| + 14
      && u[..7] == "http://" && u[|u| - 7..] == "/api/v1"
      && u[7..|u| - 7] == ToStr(host)
  {
    var u := BaseUrl(host);
    assert u == "http://" + ToStr(host) + "/api/v1";
  }

  /** Writing one type's log never changes the file of another type. */
  lemma LogKeepsOtherKinds(st: State, kind: string, line: Line, now: nat, other: string)
    requires Valid(st) && other != kind && other in st.cache
    ensures var r := Log(st, kind, line, now);
      && other in r.cache && r.cache[other] == st.cache[other]
      && Contents(r.fs, st.cache[other]) == Contents(st.fs, st.cache[other])
  {
    var r := Log(st, kind, line, now);
    var dir := LogDir(st.cfg);
    LogPathsDistinct(dir, kind, r.cache[kind], other, st.cache[other]);
  }

  /* ------------------------------------------------------------ construction */

  /** A falsy host, port or log_dir option ("", "0", 0, false or null) counts as not given. */
  lemma FalsyOptionIgnored(accessToken: string, options: map<string, Value>, writable: set<string>,
                           fs: FileSystem<Line>, key: string, v: Value)
    requires key == "host" || key == "port" || key == "log_dir"
    requires !Truthy(v)
    ensures Construct(accessToken, options[key := v], writable, fs) == Construct(accessToken, options - {key}, writable, fs)
  {
  }

  /* -------------------------------------------------------- delivery policy */

  /** `process_event` applied to a batch of requests in order; the i-th send is answered with `outcomes[i]`. */
  function ProcessAll(st: State, reqs: seq<Request>, outcomes: seq<Outcome>, now: nat): (r: State)
    requires Valid(st) && |outcomes| == |reqs|
    ensures Valid(r) && r.cfg == st.cfg
    decreases |reqs|
  {
    if reqs == [] then st
    else ProcessAll(ProcessEvent(st, reqs[0], outcomes[0], now), reqs[1..], outcomes[1..], now)
  }

  function Records(reqs: seq<Request>): (lines: seq<Line>)
    ensures |lines| == |reqs|
  {
    seq(|reqs|, i requires 0 <= i < |reqs| => Record(reqs[i]))
  }

  /** The calls a batch of requests makes when each is sent once, in order. */
  function Sends(cfg: Config, reqs: seq<Request>): (calls: seq<Call>)
    ensures |calls| == |reqs|
  {
    seq(|reqs|, i requires 0 <= i < |reqs| => CallFor(cfg, reqs[i]))
  }

  lemma SendsStep(cfg: Config, reqs: seq<Request>)
    requires reqs != []
    ensures Sends(cfg, reqs) == [CallFor(cfg, reqs[0])] + Sends(cfg, reqs[1..])
  {
    assert Sends(cfg, reqs)[1..] == Sends(cfg, reqs[1..]);
  }

  /** In cron mode a batch of requests is queued one record per request, in submission order,
      with no transport call and no other file touched. */
  lemma {:induction false} CronQueuesAll(st: State, reqs: seq<Request>, outcomes: seq<Outcome>, now: nat)
    requires Valid(st) && Truthy(st.cfg.useCron) && |outcomes| == |reqs|
    ensures var r := ProcessAll(st, reqs, outcomes, now);
      && r.trace == st.trace
      && Contents(r.fs, EventPath(st.cfg)) == Contents(st.fs, EventPath(st.cfg)) + Records(reqs)
      && Unchanged(st.fs, r.fs, {EventPath(st.cfg)})
    decreases |reqs|
  {
    if reqs != [] {
      var ev := EventPath(st.cfg);
      var st1 := ProcessEvent(st, reqs[0], outcomes[0], now);
      CronQueuesAll(st1, reqs[1..], outcomes[1..], now);
      var r := ProcessAll(st1, reqs[1..], outcomes[1..], now);
      assert Records(reqs) == [Record(reqs[0])] + Records(reqs[1..]);
      SeqAssoc(Contents(st.fs, ev), [Record(reqs[0])], Records(reqs[1..]));
      UnchangedTrans(st.fs, st1.fs, r.fs, {ev}, {ev}, {ev});
    }
  }

  /** Outside cron mode, a batch whose sends all return (each with its own status and error) makes
      one call per request in order and never writes the event log: only the error log can change. */
  lemma {:induction false} ReturnedSendsNeverQueue(st: State, reqs: seq<Request>, outcomes: seq<Outcome>, now: nat)
    requires Valid(st) && !Truthy(st.cfg.useCron) && |outcomes| == |reqs|
    requires forall i :: 0 <= i < |outcomes| ==> outcomes[i].Returned?
    ensures var r := ProcessAll(st, reqs, outcomes, now);
      && r.trace == st.trace + Sends(st.cfg, reqs)
      && Unchanged(st.fs, r.fs, {ErrorPath(st.cfg)})
      && Contents(r.fs, EventPath(st.cfg)) == Contents(st.fs, EventPath(st.cfg))
      && ((forall i :: 0 <= i < |outcomes| ==> Delivered(outcomes[i])) ==> r.fs == st.fs)
    decreases |reqs|
  {
    var err := ErrorPath(st.cfg);
    EventAndErrorDiffer(st.cfg);
    if reqs != [] {
      var st1 := ProcessEvent(st, reqs[0], outcomes[0], now);
      ReturnedSendsNeverQueue(st1, reqs[1..], outcomes[1..], now);
      var r := ProcessAll(st1, reqs[1..], outcomes[1..], now);
      SendsStep(st.cfg, reqs);
      SeqAssoc(st.trace, [CallFor(st.cfg, reqs[0])], Sends(st.cfg, reqs[1..]));
      UnchangedTrans(st.fs, st1.fs, r.fs, {err}, {err}, {err});
    }
  }

  /** The HTTP 500 scenario: the event is not queued (only a throw queues it) and the error log
      gains the status description. */
  lemma ServerErrorIsLoggedNotQueued(st: State, properties: map<string, string>, strftime: int -> string, now: nat)
    requires Valid(st) && !Truthy(st.cfg.useCron)
    ensures var r := Create(st, "u1", "signup", properties, None, strftime,
                            Returned(500, "The requested URL returned error: 500"), now);
      && |r.trace| == |st.trace| + 1
      && Contents(r.fs, EventPath(st.cfg)) == Contents(st.fs, EventPath(st.cfg))
      && Contents(r.fs, ErrorPath(st.cfg)) == Contents(st.fs, ErrorPath(st.cfg)) + [ErrorLine("500: Server Error", now)]
  {
  }

  /** The status table is consulted before the transport error: a 200 reply that carries a transport
      error is a failure and is logged with the description of success. */
  lemma SuccessDescriptionLoggedForTransportError(st: State, req: Request, now: nat)
    requires Valid(st)
    ensures var r := SendEvent(st, req, Returned(200, "Operation timed out"), now);
      && r.thrown.None?
      && Contents(r.st.fs, ErrorPath(st.cfg)) == Contents(st.fs, ErrorPath(st.cfg))
           + [ErrorLine("200: Success (upon a successful GET, PUT, or DELETE request)", now)]
  {
  }

  /* ------------------------------------------------------------------- drain */

  /** Queue a batch in cron mode on top of whatever the event log already holds, then drain with
      every reply returned: the lines queued earlier are replayed first and then each new request,
      exactly once, in submission order, with its own method, path and data; afterwards the event
      log is gone, and so is the send log whenever there was something to drain. */
  lemma QueueThenDrain(st: State, reqs: seq<Request>, outcomes: seq<Outcome>, now: nat, later: nat, replies: nat -> Outcome)
    requires Valid(st) && Truthy(st.cfg.useCron) && |outcomes| == |reqs|
    requires forall j :: 0 <= j < |Contents(st.fs, EventPath(st.cfg))| + |reqs| ==> replies(j).Returned?
    ensures var queued := ProcessAll(st, reqs, outcomes, now);
      var r := Drain(queued, later, replies);
      && r.trace == st.trace + CallsOf(st.cfg, Contents(st.fs, EventPath(st.cfg))) + Sends(st.cfg, reqs)
      && EventPath(st.cfg) !in r.fs
      && (EventPath(st.cfg) in queued.fs ==> "send" in r.cache && r.cache["send"] !in r.fs)
  {
    var queued := ProcessAll(st, reqs, outcomes, now);
    CronQueuesAll(st, reqs, outcomes, now);
    var ev := EventPath(st.cfg);
    var earlier := Contents(st.fs, ev);
    if ev !in queued.fs {
      assert earlier == [] && reqs == [];
    } else {
      var q := queued.fs[ev];
      assert q == earlier + Records(reqs);
      DrainAllReturned(queued, later, replies);
      CallsOfQueued(st.cfg, earlier, reqs);
      SeqAssoc(st.trace, CallsOf(st.cfg, earlier), Sends(st.cfg, reqs));
    }
  }

  /** A drain of an existing event log whose every reply returns sends each line once, in file
      order, and leaves neither the event log nor the send log behind. */
  lemma DrainAllReturned(st: State, now: nat, replies: nat -> Outcome)
    requires Valid(st) && EventPath(st.cfg) in st.fs
    requires forall j :: 0 <= j < |st.fs[EventPath(st.cfg)]| ==> replies(j).Returned?
    ensures var r := Drain(st, now, replies);
      && r.trace == st.trace + CallsOf(st.cfg, st.fs[EventPath(st.cfg)])
      && EventPath(st.cfg) !in r.fs
      && "send" in r.cache && r.cache["send"] !in r.fs
  {
    var queued := st.fs[EventPath(st.cfg)];
    assert FirstThrow(replies, 0, |queued|) == |queued|;
  }

  /** Replaying earlier lines followed by the records of a batch sends the earlier lines' calls
      and then each request of the batch. */
  lemma CallsOfQueued(cfg: Config, earlier: seq<Line>, reqs: seq<Request>)
    ensures CallsOf(cfg, earlier + Records(reqs)) == CallsOf(cfg, earlier) + Sends(cfg, reqs)
  {
    var lhs := CallsOf(cfg, earlier + Records(reqs));
    var rhs := CallsOf(cfg, earlier) + Sends(cfg, reqs);
    forall i | 0 <= i < |lhs|
      ensures lhs[i] == rhs[i]
    {
      if i >= |earlier| {
        assert (earlier + Records(reqs))[i] == Record(reqs[i - |earlier|]);
      }
    }
  }

  /** A send log stranded by an earlier drain of the same client is never replayed: the next drain
      reuses the cached send name, the rename replaces the stranded file, and only the event log's
      lines are sent. Afterwards the send log is gone, or, after a throw, holds exactly the event
      log's lines; the stranded lines are lost either way. */
  lemma StrandedSendLogIsReplaced(st: State, later: nat, replies: nat -> Outcome)
    requires Valid(st) && EventPath(st.cfg) in st.fs
    requires "send" in st.cache && st.cache["send"] in st.fs
    ensures var r := Drain(st, later, replies);
      var queued := st.fs[EventPath(st.cfg)];
      var f := FirstThrow(replies, 0, |queued|);
      && r.trace == st.trace + CallsOf(st.cfg, queued[..if f < |queued| then f + 1 else |queued|])
      && (st.cache["send"] !in r.fs || r.fs[st.cache["send"]] == queued)
  {
    var queued := st.fs[EventPath(st.cfg)];
    assert queued[..|queued|] == queued;
  }

  /** A drain always leaves no event log behind, whether or not a send threw, so draining again
      straight away changes no file and makes no call. */
  lemma DrainAgainIsNoOp(st: State, t1: nat, t2: nat, replies1: nat -> Outcome, replies2: nat -> Outcome)
    requires Valid(st)
    ensures var r := Drain(st, t1, replies1);
      var r2 := Drain(r, t2, replies2);
      && EventPath(st.cfg) !in r.fs
      && r2.fs == r.fs && r2.trace == r.trace
  {
  }
}
