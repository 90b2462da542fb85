/** The server-lifecycle guard of ExpressWrapper as a state machine on values:
    the state is the configured port, the stored server handle (None for the
    source's `server === null`) and the trace of everything start() has done
    that an observer can see, in order. */
module Lifecycle {
  import opened Messages

  datatype Option<T> = None | Some(value: T)

  /** The http.Server handle that the Express application's listen() returns. */
  datatype Server = Server(id: nat)

  /** The error object a synchronous listen() failure throws. */
  datatype ListenError = ListenError(message: string)

  /** What the Express application's listen(port) does when it is called. */
  datatype ListenOutcome = Returns(server: Server) | Throws(error: ListenError)

  /** How a start() call ends: it returns normally or re-throws the listen error. */
  datatype StartResult = Ok | Err(error: ListenError)

  /** An observable effect: a call of logger.info or logger.error with the
      text Text(line), or a listen(port) call together with what it did. */
  datatype Event =
    | Info(line: Line)
    | Error(line: Line)
    | Listen(port: int, outcome: ListenOutcome)

  datatype WrapperState = WrapperState(port: int, server: Option<Server>, trace: seq<Event>)

  datatype Transition = Transition(after: WrapperState, result: StartResult)

  datatype Run = Run(after: WrapperState, results: seq<StartResult>)

  predicate IsSuccess(e: Event) {
    e.Listen? && e.outcome.Returns?
  }

  /** Number of listen() calls in a trace. */
  function Listens(t: seq<Event>): (n: nat) {
    if t == [] then 0 else Listens(t[..|t| - 1]) + (if t[|t| - 1].Listen? then 1 else 0)
  }

  /** Number of listen() calls in a trace that returned a server. */
  function Successes(t: seq<Event>): (n: nat) {
    if t == [] then 0 else Successes(t[..|t| - 1]) + (if IsSuccess(t[|t| - 1]) then 1 else 0)
  }

  /** Number of times an event occurs in a trace. */
  function Occurrences(t: seq<Event>, e: Event): (n: nat) {
    if t == [] then 0 else Occurrences(t[..|t| - 1], e) + (if t[|t| - 1] == e then 1 else 0)
  }

  /** The server returned by the first successful listen() of a trace, if any. */
  function FirstSuccess(t: seq<Event>): (first: Option<Server>) {
    if t == [] then None
    else if FirstSuccess(t[..|t| - 1]).Some? then FirstSuccess(t[..|t| - 1])
    else if IsSuccess(t[|t| - 1]) then Some(t[|t| - 1].outcome.server)
    else None
  }

  /** The state right after construction: not started, nothing observed yet. */
  function Init(port: int): (s: WrapperState) {
    WrapperState(port, None, [])
  }

  /** One start() call, when listen(port) would behave as `outcome`: listen()
      is called exactly when no server is stored, the call throws exactly when
      that listen() throws, and only a listen() that returns stores a server. */
  function Start(s: WrapperState, outcome: ListenOutcome): (t: Transition)
    ensures t.after.port == s.port
    ensures t.result.Err? <==> s.server.None? && outcome.Throws?
    ensures t.result.Err? ==> t.result.error == outcome.error
    ensures s.server.Some? ==> t.after.server == s.server
    ensures s.server.None? ==> t.after.server == (if outcome.Returns? then Some(outcome.server) else None)
  {
    var starting := s.trace + [Info(Starting(s.port))];
    if s.server.Some? then
      Transition(s.(trace := starting + [Info(AlreadyStarted(s.port))]), Ok)
    else
      var listened := starting + [Listen(s.port, outcome)];
      match outcome
      case Returns(server) =>
        Transition(WrapperState(s.port, Some(server), listened + [Info(Started(s.port))]), Ok)
      case Throws(error) =>
        Transition(s.(trace := listened + [Error(ListenFailed(s.port, error.message))]), Err(error))
  }

  /** What one start() call shows an observer, in order: the starting line
      first; then either the already-started line, or the listen(port) call
      followed by the success line or the error line naming the listen error. */
  lemma StartTrace(s: WrapperState, outcome: ListenOutcome)
    ensures var t := Start(s, outcome).after.trace;
      && |t| > |s.trace| && t[..|s.trace|] == s.trace
      && t[|s.trace|] == Info(Starting(s.port))
      && Listens(t) == Listens(s.trace) + (if s.server.None? then 1 else 0)
      && Occurrences(t, Info(Starting(s.port))) == Occurrences(s.trace, Info(Starting(s.port))) + 1
    ensures s.server.Some? ==>
      Start(s, outcome).after.trace
      == s.trace + [Info(Starting(s.port))] + [Info(AlreadyStarted(s.port))]
    ensures s.server.None? && outcome.Returns? ==>
      Start(s, outcome).after.trace
      == s.trace + [Info(Starting(s.port))] + [Listen(s.port, outcome)] + [Info(Started(s.port))]
    ensures s.server.None? && outcome.Throws? ==>
      Start(s, outcome).after.trace
      == s.trace + [Info(Starting(s.port))] + [Listen(s.port, outcome)]
         + [Error(ListenFailed(s.port, outcome.error.message))]
  {
    var p := s.port;
    var m := Info(Starting(p));
    var a := s.trace + [m];
    Append(s.trace, m, m);
    if s.server.Some? {
      Append(a, Info(AlreadyStarted(p)), m);
    } else {
      var b := a + [Listen(p, outcome)];
      Append(a, Listen(p, outcome), m);
      match outcome
      case Returns(_) =>
        Append(b, Info(Started(p)), m);
      case Throws(e) =>
        Append(b, Error(ListenFailed(p, e.message)), m);
    }
    var t := Start(s, outcome).after.trace;
    assert t[..|s.trace|] == s.trace;
  }

  /** A sequence of start() calls, one per outcome; a call that throws is
      caught by the caller, who goes on to the next call. */
  function RunStarts(s: WrapperState, outcomes: seq<ListenOutcome>): (r: Run)
    ensures |r.results| == |outcomes|
    ensures r.after.port == s.port
    decreases |outcomes|
  {
    if outcomes == [] then Run(s, [])
    else
      var t := Start(s, outcomes[0]);
      var rest := RunStarts(t.after, outcomes[1..]);
      Run(rest.after, [t.result] + rest.results)
  }

  /** What start() keeps true of the state: every listen() used the configured
      port, at most one returned a server, the stored server is the one it
      returned, and the success line was logged once for each such listen(). */
  predicate Invariant(s: WrapperState) {
    && (forall e | e in s.trace && e.Listen? :: e.port == s.port)
    && Successes(s.trace) <= 1
    && s.server == FirstSuccess(s.trace)
    && Occurrences(s.trace, Info(Started(s.port))) == Successes(s.trace)
  }

  lemma InitInvariant(port: int)
    ensures Invariant(Init(port))
    ensures Init(port).server == None && Init(port).port == port && Listens(Init(port).trace) == 0
  {
  }

  lemma {:induction false} NoSuccessNoFirst(t: seq<Event>)
    ensures FirstSuccess(t).None? <==> Successes(t) == 0
    decreases |t|
  {
    if t != [] {
      NoSuccessNoFirst(t[..|t| - 1]);
    }
  }

  /** Appending one event to a trace adds to each count what that event
      contributes (for Occurrences, counting the event `m`). */
  lemma Append(t: seq<Event>, e: Event, m: Event)
    ensures Listens(t + [e]) == Listens(t) + (if e.Listen? then 1 else 0)
    ensures Successes(t + [e]) == Successes(t) + (if IsSuccess(e) then 1 else 0)
    ensures Occurrences(t + [e], m) == Occurrences(t, m) + (if e == m then 1 else 0)
    ensures FirstSuccess(t + [e]) ==
      if FirstSuccess(t).Some? then FirstSuccess(t)
      else if IsSuccess(e) then Some(e.outcome.server) else None
  {
    assert (t + [e])[..|t|] == t;
  }

  lemma StartPreservesInvariant(s: WrapperState, outcome: ListenOutcome)
    requires Invariant(s)
    ensures Invariant(Start(s, outcome).after)
  {
    if s.server.Some? {
      AlreadyStartedKeepsInvariant(s, outcome);
    } else if outcome.Returns? {
      ListenReturnsKeepsInvariant(s, outcome.server);
    } else {
      ListenThrowsKeepsInvariant(s, outcome.error);
    }
  }

  lemma AlreadyStartedKeepsInvariant(s: WrapperState, outcome: ListenOutcome)
    requires Invariant(s) && s.server.Some?
    ensures Invariant(Start(s, outcome).after)
  {
    var p, m := s.port, Info(Started(s.port));
    var a := s.trace + [Info(Starting(p))];
    Append(s.trace, Info(Starting(p)), m);
    Append(a, Info(AlreadyStarted(p)), m);
  }

  lemma ListenReturnsKeepsInvariant(s: WrapperState, server: Server)
    requires Invariant(s) && s.server.None?
    ensures Invariant(Start(s, Returns(server)).after)
  {
    var p, m := s.port, Info(Started(s.port));
    var a := s.trace + [Info(Starting(p))];
    var b := a + [Listen(p, Returns(server))];
    NoSuccessNoFirst(s.trace);
    Append(s.trace, Info(Starting(p)), m);
    Append(a, Listen(p, Returns(server)), m);
    Append(b, m, m);
  }

  lemma ListenThrowsKeepsInvariant(s: WrapperState, error: ListenError)
    requires Invariant(s) && s.server.None?
    ensures Invariant(Start(s, Throws(error)).after)
  {
    var p, m := s.port, Info(Started(s.port));
    var a := s.trace + [Info(Starting(p))];
    var b := a + [Listen(p, Throws(error))];
    NoSuccessNoFirst(s.trace);
    Append(s.trace, Info(Starting(p)), m);
    Append(a, Listen(p, Throws(error)), m);
    Append(b, Error(ListenFailed(p, error.message)), m);
  }

  /** Whatever listen() does on each call, a run of start() calls keeps the
      invariant. */
  lemma {:induction false} RunPreservesInvariant(s: WrapperState, outcomes: seq<ListenOutcome>)
    requires Invariant(s)
    ensures Invariant(RunStarts(s, outcomes).after)
    decreases |outcomes|
  {
    if outcomes != [] {
      StartPreservesInvariant(s, outcomes[0]);
      RunPreservesInvariant(Start(s, outcomes[0]).after, outcomes[1..]);
    }
  }

  /** From construction on, whatever the sequence of start() calls and listen()
      outcomes, at most one listen() call ever returns a server, and the
      success line is logged at most once. */
  lemma AtMostOneSuccessfulListen(port: int, outcomes: seq<ListenOutcome>)
    ensures Successes(RunStarts(Init(port), outcomes).after.trace) <= 1
    ensures Occurrences(RunStarts(Init(port), outcomes).after.trace, Info(Started(port))) <= 1
  {
    InitInvariant(port);
    RunPreservesInvariant(Init(port), outcomes);
  }

  /** Once a server is stored, later start() calls never call listen() again,
      never change the server and never throw. */
  lemma {:induction false} NoListenOnceStarted(s: WrapperState, outcomes: seq<ListenOutcome>)
    requires s.server.Some?
    ensures RunStarts(s, outcomes).after.server == s.server
    ensures Listens(RunStarts(s, outcomes).after.trace) == Listens(s.trace)
    ensures forall i :: 0 <= i < |outcomes| ==> RunStarts(s, outcomes).results[i] == Ok
    decreases |outcomes|
  {
    if outcomes != [] {
      StartTrace(s, outcomes[0]);
      NoListenOnceStarted(Start(s, outcomes[0]).after, outcomes[1..]);
    }
  }

  /** Index of the first outcome in which listen() returns a server, or the
      number of outcomes when there is none. */
  function FirstReturns(outcomes: seq<ListenOutcome>): (k: nat)
    ensures k <= |outcomes|
    ensures k < |outcomes| ==> outcomes[k].Returns?
    ensures forall i :: 0 <= i < k ==> outcomes[i].Throws?
  {
    if outcomes == [] then 0
    else if outcomes[0].Returns? then 0
    else 1 + FirstReturns(outcomes[1..])
  }

  /** Starting from no server: every start() call tries listen() until one
      succeeds, each failing call re-throws its own listen error, the server
      stored is the one the first successful listen() returned, and every
      later call is a no-op that returns normally. */
  lemma {:induction false} RunFromNotStarted(s: WrapperState, outcomes: seq<ListenOutcome>)
    requires s.server.None?
    ensures var k := FirstReturns(outcomes);
      && Listens(RunStarts(s, outcomes).after.trace)
         == Listens(s.trace) + (if k < |outcomes| then k + 1 else k)
      && RunStarts(s, outcomes).after.server
         == (if k < |outcomes| then Some(outcomes[k].server) else None)
      && forall i :: 0 <= i < |outcomes| ==>
           RunStarts(s, outcomes).results[i] == (if i < k then Err(outcomes[i].error) else Ok)
    decreases |outcomes|
  {
    if outcomes != [] {
      var t := Start(s, outcomes[0]);
      var rest := outcomes[1..];
      var tail := RunStarts(t.after, rest);
      var r := RunStarts(s, outcomes);
      StartTrace(s, outcomes[0]);
      assert r.after == tail.after && r.results == [t.result] + tail.results;
      var k := FirstReturns(outcomes);
      if outcomes[0].Returns? {
        assert k == 0;
        NoListenOnceStarted(t.after, rest);
        forall i | 0 <= i < |outcomes|
          ensures r.results[i] == Ok
        {
          if i > 0 {
            assert r.results[i] == tail.results[i - 1];
          }
        }
      } else {
        RunFromNotStarted(t.after, rest);
        assert k == 1 + FirstReturns(rest);
        forall i | 0 <= i < |outcomes|
          ensures r.results[i] == (if i < k then Err(outcomes[i].error) else Ok)
        {
          if i > 0 {
            assert r.results[i] == tail.results[i - 1] && outcomes[i] == rest[i - 1];
          }
        }
      }
    }
  }

  /** Every start() call logs the starting line exactly once. */
  lemma {:induction false} StartingLoggedOncePerCall(s: WrapperState, outcomes: seq<ListenOutcome>)
    ensures var m := Info(Starting(s.port));
      Occurrences(RunStarts(s, outcomes).after.trace, m) == Occurrences(s.trace, m) + |outcomes|
    decreases |outcomes|
  {
    if outcomes != [] {
      StartTrace(s, outcomes[0]);
      StartingLoggedOncePerCall(Start(s, outcomes[0]).after, outcomes[1..]);
    }
  }
}
