# Usercycle event delivery and replay, in Dafny

This project models the core of the `Usercycle` PHP client: the class that records user
events for an analytics service and delivers them over HTTP. It covers the following:

- **Send or queue.** `create` and `process_event` decide whether to send an event now or
  queue it. In cron mode, or after a send throws, the request is appended as one record
  to the event log.
- **Sending.** `send_event` makes one transport call. It sorts a returned call into
  delivered or failed. A failure is logged with the description from the status table
  or, for an unlisted status, the transport error. A thrown call is rethrown with the
  host appended.
- **Replay.** `send_logged_events` renames the event log to a time-stamped send log. It
  replays the lines in file order. Then it removes the send log, or, after a throw, logs
  the exception and keeps the send log.
- **Log names.** `log_name` caches the file name of each log type. The send name is
  prefixed with the clock the first time it is asked for.
- **Logging.** `log`, `log_event` and `log_error` append one line to a log file.
- **Construction.** The constructor resolves the options with PHP truthiness and checks
  that the log directory is writable.

The client is immutable data: a `State` holds the configuration, the name cache, the log
directory and the trace of transport calls. The log directory is a map from path to
lines. Every operation is a pure function from one state to the next. The outside world
enters as parameters:

- The transport's answer is an `Outcome`: it either returns a status and an error
  string, or it throws.
- A drain takes `replies`, the answer to its i-th replayed line.
- The clock is one `now` value per operation.
- `strftime` is a function argument.
- `is_writable` is a set of writable directories.

`Usercycle.Valid` is the class invariant. Every cached name is a name `log_name` builds,
and the base URL is built from the host. The constructor establishes it and every
operation keeps it.

Modules:

- `Php`: the PHP semantics the client depends on. This is truthiness, `isset`, the
  conversion of ints to strings, and ASCII `strtoupper`.
- `Files`: append, rename and unlink on the log directory.
- `Usercycle`: the class.
- `UsercycleProperties`: properties that span several calls.

Three behaviours of the code are easy to misread; the model follows the code:

- **Non-2xx replies are not queued.** `process_event` queues an event only when
  `send_event` throws. A non-2xx reply, or a returned transport error, is only written to
  the error log and the event is dropped (usercycle.php:73-81, 131-135).
- **A throw stops the drain.** Returned failures are logged and the replay goes on. A
  send that throws ends the loop, so the send log is neither finished nor removed, and the
  exception is logged (usercycle.php:156-173).
- **The error string is tested by truthiness.** A transport error string of `"0"` does
  not count as a failure (usercycle.php:131).

## Model

| member | source | states |
|---|---|---|
| Php.NatToString | usercycle.php:206 | the clock as PHP prints it: a non-empty string of decimal digits with no leading zero |
| Php.NatToStringRoundTrip | usercycle.php:194 | reading the printed clock back as a decimal number gives the clock again |
| Php.NatToStringInjective | usercycle.php:194 | two different clock values give two different send-log prefixes |
| Php.ToUpper | usercycle.php:113 | `strtoupper` keeps the length, turns every lower-case ASCII letter into its upper-case counterpart, and changes no other character |
| Files.Append | usercycle.php:218-222 | opening in append mode and writing one line adds exactly that line at the end of the file, creating it if missing; no other file changes |
| Files.Rename | usercycle.php:153 | after a rename the target holds the source's lines and the source is gone; a missing source changes nothing; no other file changes |
| Files.Unlink | usercycle.php:166 | after an unlink the file is gone and no other file changes |
| Usercycle.FreshLogPath | usercycle.php:192-196 | a freshly built name is a valid log name of its type and is truthy, so the cache lookup will hit it later |
| Usercycle.CachedPathTruthy | usercycle.php:187-190 | every name a valid cache holds passes the truthiness test of the lookup |
| Usercycle.SendPathIsNotPlain | usercycle.php:192-196 | a time-stamped send name never equals the name of another log type |
| Usercycle.PlainPathKind | usercycle.php:192 | the type can be read back out of an event or error log name |
| Usercycle.PlainPathInjective | usercycle.php:192 | two different types other than send never share a log name |
| Usercycle.LogPathsDistinct | usercycle.php:185-198 | two different log types never share a file, whatever clock the send name took |
| Usercycle.LogName | usercycle.php:185-198 | a cached truthy name is returned unchanged; an uncached type gets the built name (clock prefix for send only), which is then cached; validity of the cache is kept |
| Usercycle.CachedNameTruthy | usercycle.php:187-190 | in a valid cache the lookup's truthiness test always succeeds for a cached type |
| Usercycle.EventAndErrorDiffer | usercycle.php:192 | the event log and the error log are different files |
| Usercycle.Construct | usercycle.php:26-43 | construction fails with "Could not open X for writing" exactly when the resolved log directory is not writable; host, port and log_dir replace their defaults only when set and truthy, use_cron whenever set; the base URL is `http://` + host + `/api/v1`; the cache and the trace start empty |
| Usercycle.Log | usercycle.php:213-229 | the type's name is cached (fresh from the clock if it was not) and its file gains exactly the given line; no other file and no transport call changes |
| Usercycle.LogError | usercycle.php:204-211 | the error log gains exactly `[clock] message`; no other file changes |
| Usercycle.LogEvent | usercycle.php:85-92 | the event log gains exactly one record holding the verb, path and data; no other file changes |
| Usercycle.SendEvent | usercycle.php:94-137 | one call to base URL + path with the request's verb and data, the configured port, the API-key and Accept headers, POST exactly when the upper-cased verb is POST; a throw is rethrown as message + "for host " + host with no file changed; a delivered reply changes no file; a failed reply adds one error line with the table description, or the transport error when the status is not listed; only the error log can change |
| Usercycle.ProcessEvent | usercycle.php:65-83 | cron mode queues one record and makes no call; otherwise one call is made, and a throw queues the record and logs the exception while a returned reply only logs its failure lines, and a delivered reply changes no file |
| Usercycle.Create | usercycle.php:45-63 | the event POSTed to `/events.json` carries uid, action name, properties and the time formatted from the caller's truthy timestamp or the clock; cron mode queues it and touches no other file; otherwise it is sent, and a throw queues it and logs `[clock] message for host H` (only the event and error logs change), while a returned reply logs only its failure lines (only the error log changes) and a delivered reply changes no file |
| Usercycle.PostIsUpperCase | usercycle.php:57 | `create`'s verb passes the POST test |
| Usercycle.CallUrl | usercycle.php:102 | every call goes to `http://` + host + `/api/v1` + the request's path |
| Usercycle.CallsOf | usercycle.php:156-162 | replaying a run of lines makes one call per line |
| Usercycle.FirstThrow | usercycle.php:156-163 | the position of the first throwing reply: every earlier reply returned, and the one there threw unless it is the end |
| Usercycle.Replay | usercycle.php:156-163 | the lines are sent in file order up to and including the first one that throws; the returned failures before it are logged in order; the throw is reported with its host; only the error log changes, and no file changes when every reply before the throw is delivered |
| Usercycle.ReplayEnd | usercycle.php:156 | at the end of the file the replay sends nothing and changes nothing |
| Usercycle.ReplayThrown | usercycle.php:161 | a line whose send throws is sent and ends the replay with that exception |
| Usercycle.ReplayReturned | usercycle.php:156-162 | a line whose send returns is sent, its failure logged, and the replay goes on with the next line |
| Usercycle.ReplayStep | usercycle.php:156-162 | one returned line followed by the replay from the next line is the replay from that line |
| Usercycle.Drain | usercycle.php:139-174 | with no event log, no file changes and no call is made; otherwise the drain behaves as `Drained` says |
| Usercycle.DrainQueued | usercycle.php:150-173 | the event log is gone; its lines are replayed from the send log up to the first throw; without a throw the send log is removed, and when every reply is delivered no other file changes; after a throw it keeps the queued lines and the exception is logged; the send log, event log and error log are the only files touched |
| Usercycle.Rotate | usercycle.php:150-153 | the event log is renamed to the send log, whose name is the cached one or is built from the clock; the send name differs from the event and error logs; no other file changes |
| Usercycle.DrainPathsDiffer | usercycle.php:150-153 | a send log name is neither the event log nor the error log |
| UsercycleProperties.LogNameStable | usercycle.php:185-198 | asking `log_name` again for a type returns the same name whatever the clock, and leaves the cache unchanged |
| UsercycleProperties.BaseUrlHost | usercycle.php:40-43 | the base URL is `http://`, the host and `/api/v1`, so the host can be read back from it |
| UsercycleProperties.LogKeepsOtherKinds | usercycle.php:213-229 | writing one type's log never changes the file or cached name of another type |
| UsercycleProperties.FalsyOptionIgnored | usercycle.php:29-32 | a falsy host, port or log_dir option ("", "0", 0, false or null) gives the same client as leaving it out |
| UsercycleProperties.ProcessAll | usercycle.php:65-83 | processing a batch of requests one after another, each send answered by its own outcome, keeps the class invariant and the configuration |
| UsercycleProperties.CronQueuesAll | usercycle.php:67-70 | in cron mode a batch of N requests appends N records to the event log in submission order, makes no call and touches no other file |
| UsercycleProperties.ReturnedSendsNeverQueue | usercycle.php:71-83 | outside cron mode, when every send returns (each with its own status and error, in any mix), a batch makes one call per request in order and leaves the event log unchanged; only the error log can change, and when every reply is delivered no file changes |
| UsercycleProperties.ServerErrorIsLoggedNotQueued | usercycle.php:45-83 | a `create` answered with HTTP 500 makes one call, leaves the event log as it was and appends `[clock] 500: Server Error` to the error log |
| UsercycleProperties.SuccessDescriptionLoggedForTransportError | usercycle.php:131-135 | a 200 reply that carries a transport error is a failure, and the table's description of 200 is logged instead of the transport error |
| UsercycleProperties.QueueThenDrain | usercycle.php:139-174 | queueing a batch in cron mode on top of whatever the event log already holds, then draining with every reply returned, replays the earlier lines first and then each new request, one call each, in submission order, with its own verb, path and data; afterwards the event log is gone, and so is the send log whenever there was anything to drain |
| UsercycleProperties.DrainAllReturned | usercycle.php:150-166 | a drain of an existing event log whose every reply returns makes one call per line in file order and leaves neither the event log nor the send log |
| UsercycleProperties.CallsOfQueued | usercycle.php:156-162 | replaying lines queued earlier followed by a batch's records sends the earlier lines' calls and then one call per request of the batch |
| UsercycleProperties.DrainAgainIsNoOp | usercycle.php:139-174 | every drain, whether or not a send threw, leaves no event log, so a second drain straight after it changes no file and makes no call |
| UsercycleProperties.StrandedSendLogIsReplaced | usercycle.php:150-173 | when a send log left by an earlier drain of the same client still exists, the next drain reuses its cached name, so the rename replaces it: whatever the replies, only the event log's lines are sent (up to and including the first throw), and afterwards the send log is gone or holds exactly the event log's lines, so the stranded lines are lost |

## Left out

- The curl transport (usercycle.php:96-120). It is the `Outcome` parameter. The options that only shape the HTTP exchange are not modelled: fresh connect, fail-on-error, the timeouts and return-transfer.
- The wire formats are abstract. `json_encode` of a queued record, `json_decode` of a read line and `http_build_query` of the POST body are not modelled. A queued line is a `Record` of the request. A line that cannot be decoded is a `Text` line, which replays with an empty verb, empty path and no data.
- `send_event` returns `json_decode($result)`, and every caller ignores it. It is not modelled.
- `time()` and `strftime` are parameters. One clock value `now` is used for a whole operation, so a drain's log lines and its send-log prefix share one time.
- `error_handler` is not modelled. That covers the installation and restoration of the handler, the nesting guard of depth 4, and the warnings PHP raises for unreadable lines. Also left out is the `error_log` mirror of each error line to the standard error stream.
- `fopen`, `fputs`, `rename` and `unlink` are assumed to succeed. The model has no failing file operation, so the catch in `create` (usercycle.php:59-62) can never be reached in it.
- `is_writable` is the `writable` set given to the constructor. `is_file` is membership in the file map.
- `log_query` and `log_send` (usercycle.php:200-202) are never called by the core. They are not modelled.
- The command-line entry point (usercycle.php:232-245) is not modelled.
- Concurrent processes appending to or draining the same log directory are not modelled.
- Messages that contain a newline are not modelled. Such a message would split into several lines of a log file; the model writes it as one line.
- Php.Value: option values are null, booleans, ints and strings only. Floats and arrays are not modelled, so the truthiness edges `0.0` and `[]` (falsy) and the string `"0.0"` (truthy, which `Php.StrTruthy` does get right) cannot reach the constructor.
- Usercycle.OccurredAt: `occurred_at` is an optional int. A string, float or other PHP value passed to `create` and handed to `strftime` is not modelled.
- Usercycle.Create: the outcome is a single value for the single call. Events and properties are string maps, not arbitrary PHP arrays.
