# ExpressWrapper server lifecycle, in Dafny

This project models the server-lifecycle guard of `ExpressWrapper`, the class in
`lib/index.js` that wraps an Express application. The constructor stores the
configuration, the configured port, the injected dependencies with their logger,
and the application, and sets `server` to null. `start()` first logs that it is
starting on the port. If `server` is null it calls `app.listen(port)` once and
stores the returned http.Server handle, then logs success. If `listen` throws
synchronously, `start()` logs the error with its message and re-throws that
error. If `server` is already set, `start()` logs that the application has
already been started and does nothing else.

Three modules:

- `Messages` (`messages.dfy`) holds the four kinds of log line as a datatype
  `Line` and their exact text as `Text`. The port is rendered in decimal, as
  `${this.port}` renders an integer of magnitude below 10^21, which includes
  every TCP port. `Text` is proved one-to-one, so the trace
  can record structured lines: two lines are equal exactly when the logger
  received the same string.
- `Lifecycle` (`lifecycle.dfy`) is the state machine on values. A
  `WrapperState` holds the port, the stored server (`None` for `null`) and an
  ordered trace of observable events: info lines, error lines, and `listen`
  calls together with their outcome. `Start` is one call, and `RunStarts` is any
  sequence of calls in which the caller catches each re-thrown error and goes
  on. `Invariant` is what every call preserves.
- `Wrapper` (`wrapper.dfy`) holds the class `ExpressWrapper`, with the source's
  fields and a ghost `trace`. Its method `Start` changes only `server` and
  `trace`, and its contract ties the new state to `Lifecycle.Start`. Three client
  methods replay the scenarios of `test/lib/index.start.test.js` using only the
  class contracts; a fourth, `RetriesAfterFailure`, shows that a failed start is
  retried.

`app.listen` is a call into Express, so it is not modelled. The `outcome`
parameter of `Start` stands in for it: `Returns(server)` or `Throws(error)`.
The application that `express()` creates is likewise a constructor parameter.
The result `Err(e)` of `Start` is the re-throw of `e`.

A failed `listen()` does not count as started: `server` stays `null`
(lib/index.js:39-42), so a later `start()` calls `listen()` again.
`Lifecycle.RunFromNotStarted` and `Wrapper.RetriesAfterFailure` state this.

## Model

| member | source | states |
|---|---|---|
| `Wrapper.ExpressWrapper.constructor` | lib/index.js:20-30 | stores configuration, `configuration.port`, dependencies, `dependencies.logger` and the app unchanged, with no validation; `server` is None, nothing is logged yet, and the invariant holds |
| `Wrapper.ExpressWrapper.Start` | lib/index.js:35-48 | changes only `server` and the trace; the starting line is always the first new entry; already started: no listen, server and result unchanged, then the already-started line; not started: exactly one `listen(port)`, then either the stored handle and the success line, or the error line with the error's message and `Err` of exactly that error with `server` still None; the result agrees with `Lifecycle.Start` |
| `Lifecycle.Start` | lib/index.js:35-48 | the port never changes; the call throws exactly when no server was stored and listen throws, and it throws listen's own error; a stored server is kept; otherwise the server becomes the handle listen returned, or stays None when listen throws |
| `Lifecycle.StartTrace` | lib/index.js:36-47 | what one call shows, in order: the old trace unchanged, then the starting line first; then the already-started line, or `listen(port)` followed by the success line or the error line; the listen count grows by one exactly when no server was stored, and the starting line is added exactly once |
| `Lifecycle.RunStarts` | lib/index.js:35-48 | a sequence of calls yields one result per call and never changes the port |
| `Lifecycle.InitInvariant` | lib/index.js:29 | the constructed state is not started, has made no listen call and satisfies the invariant |
| `Lifecycle.StartPreservesInvariant` | lib/index.js:37-44 | one call keeps the invariant: every listen used the configured port, at most one listen returned a server, the stored server is the one it returned, and the success line was logged once per such listen |
| `Lifecycle.RunPreservesInvariant` | lib/index.js:37-47 | any sequence of calls, with any listen outcomes, keeps the invariant |
| `Lifecycle.AtMostOneSuccessfulListen` | lib/index.js:37-44 | from construction, whatever the calls and outcomes, at most one listen returns a server and the success line is logged at most once |
| `Lifecycle.NoListenOnceStarted` | lib/index.js:37-47 | once a server is stored, later calls never call listen, never change the server and never throw |
| `Lifecycle.RunFromNotStarted` | lib/index.js:37-44 | with no server stored, calls keep calling listen until one returns a server: the listen count is the index of the first returning outcome plus one (or every call, if none returns); each earlier call re-throws its own error; the stored server is that first handle; every later call returns normally |
| `Lifecycle.StartingLoggedOncePerCall` | lib/index.js:36 | the starting line is logged exactly once per call |
| `Messages.TextInjective` | lib/index.js:36-46 | two log lines have the same text exactly when they are the same line: lines of different kinds never coincide, every line names its port, and the error line carries the listen error's message |
| `Messages.Text` | lib/index.js:36-46 | the exact string each log line hands to `logger.info` or `logger.error`; every info line ends in a full stop, and the error line ends in `": "` followed by the listen error's message |
| `Messages.Show` | lib/index.js:36 | `${port}` for an integer of magnitude below 10^21: the single canonical decimal string: non-empty, with no leading zero; a non-negative port renders as decimal digits that read back as the port, a negative one as a minus sign followed by such digits of its magnitude |
| `Messages.ShowInjective` | lib/index.js:36 | the decimal rendering of the port in a template literal is one-to-one |
| `Messages.DigitsRoundTrip` | lib/index.js:36 | reading back the rendered digits of a natural number gives that number |
| `Wrapper.StartsOnce` | test/lib/index.start.test.js:21-73 | a fresh wrapper whose listen returns a handle: after one start the stored server is that handle, the call returns normally, and the log is the starting line, `listen(port)`, then the success line |
| `Wrapper.StartsTwice` | test/lib/index.start.test.js:75-120 | started twice: listen is called once whatever it would do the second time, the server is the first handle, and the second call logs the starting line then the already-started line |
| `Wrapper.StartFails` | test/lib/index.start.test.js:122-168 | listen throws: start re-throws exactly that error, logs the error line with its message and no success line, and stores no server |
| `Wrapper.RetriesAfterFailure` | lib/index.js:37-42 | after a failed start, a second start calls listen again and stores the handle it returns: two listen calls in all |

## Left out

- `express()` and `app.listen` are calls into Express: the app is a constructor parameter and listen is the outcome parameter of `Start`. No HTTP server is modelled.
- The logger is not modelled: its `info` and `error` lines are entries of a ghost trace. A logger that is missing or throws (with `dependencies.logger` undefined, for example) is not modelled.
- Wrapper.ExpressWrapper.constructor: assumes both arguments are present. lib/index.js:23 and :26 read `configuration.port` and `dependencies.logger`, so a missing `configuration` or `dependencies` makes the JavaScript constructor throw a TypeError, even though `dependencies` is documented as optional. The model's constructor always succeeds.
- Lifecycle.Start, Wrapper.ExpressWrapper.Start: assume listen throws an Error-like object whose `message` is a string. If listen threw `null` or `undefined`, reading `error.message` at lib/index.js:41 would itself throw a TypeError: no error line would be logged and that TypeError would propagate instead. If listen threw a primitive, the line would end in `: undefined`. Neither case is modelled.
- Lifecycle.Start, Wrapper.ExpressWrapper.Start: assume listen returns a non-null handle. `Returns(server)` cannot hold `null`; if `app.listen` returned `null`, lib/index.js:39 would leave `server === null` after the success line, so a later `start()` would pass the guard at line 37, listen again and log success again. This is not modelled, and `Lifecycle.AtMostOneSuccessfulListen` and `Lifecycle.NoListenOnceStarted` rely on it. An `undefined` return is covered: `undefined !== null`, so it behaves like a stored server.
- Messages.Show, Messages.Text: render the port as an optional sign and all its digits, which is what `${port}` gives for integers of magnitude below 10^21 (every TCP port). JavaScript renders larger Numbers in exponent form and cannot hold integers above 2^53 exactly; those ports are not modelled.
- `Configuration` is modelled as its `port` field alone. The constructor stores the whole object but reads nothing else from it. A port that is not an integer (undefined, a string, a float) is not modelled; its rendering in the log lines would differ.
- Wrapper.StartFails, Wrapper.ExpressWrapper.Start: a re-thrown error is compared by value, not by JavaScript object identity. The server handle is likewise compared by value.
- The route registry (`_wrap`, the `routes` map, the per-verb methods, duplicate-route errors), `isServerStarting`, validation of `configuration.properties.port`, singleton instances and logger-author setup are tested in `test/lib/index._wrap.test.js` and `test/lib/index.constructor.test.js`. `lib/index.js` does not implement any of them, so there is nothing to model.
- `_onRequestAndResponseMiddleware` (logging of request and response events) is tested but absent from `lib/index.js`.
- The asynchronous `listening` and `error` events of the server: `lib/index.js` registers no handler for either, and its success line is logged as soon as `listen` returns.
- Concurrency: the model is a single caller making one call at a time, which is how the single-threaded JavaScript runtime runs `start()`.
