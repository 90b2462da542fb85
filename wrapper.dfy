/** The ExpressWrapper class of lib/index.js: a constructor that stores its
    configuration and dependencies, and start(), which listens on the configured
    port at most once. */
module Wrapper {
  import opened Messages
  import opened Lifecycle

  /** The module's own configuration; the constructor reads only its port. */
  datatype Configuration = Configuration(port: int)

  /** The logger capability found in the injected dependencies. */
  datatype Logger = Logger(name: string)

  datatype Dependencies = Dependencies(logger: Logger)

  /** The Express application instance that express() creates. */
  datatype App = App(id: nat)

  class ExpressWrapper {
    var configuration: Configuration
    var port: int
    var dependencies: Dependencies
    var logger: Logger
    var app: App
    /** None stands for the source's `server === null`: not started. */
    var server: Option<Server>
    /** Everything the logger and listen() have been asked to do, in order. */
    ghost var trace: seq<Event>

    ghost function Model(): (s: WrapperState)
      reads this
    {
      WrapperState(port, server, trace)
    }

    ghost predicate Valid()
      reads this
    {
      Invariant(Model())
    }

    /** Stores what it is given, without validating it; `app` is what
        express() returned. */
    constructor (configuration: Configuration, dependencies: Dependencies, app: App)
      ensures Valid()
      ensures this.configuration == configuration && port == configuration.port
      ensures this.dependencies == dependencies && logger == dependencies.logger
      ensures this.app == app
      ensures server == None && trace == []
    {
      this.configuration := configuration;
      port := configuration.port;
      this.dependencies := dependencies;
      logger := dependencies.logger;
      this.app := app;
      server := None;
      trace := [];
    }

    /** start(), where `outcome` is what app.listen(port) does if it is called;
        Err(e) is the re-throw of the listen error e. */
    method Start(outcome: ListenOutcome) returns (result: StartResult)
      requires Valid()
      modifies this`server, this`trace
      ensures Valid()
      ensures Model() == Lifecycle.Start(old(Model()), outcome).after
      ensures result == Lifecycle.Start(old(Model()), outcome).result
      ensures |trace| > |old(trace)| && trace[..|old(trace)|] == old(trace)
      ensures trace[|old(trace)|] == Info(Starting(port))
      ensures old(server).Some? ==>
        && server == old(server) && result == Ok && Listens(trace) == Listens(old(trace))
        && trace == old(trace) + [Info(Starting(port))] + [Info(AlreadyStarted(port))]
      ensures old(server).None? ==> Listens(trace) == Listens(old(trace)) + 1
      ensures old(server).None? && outcome.Returns? ==>
        && server == Some(outcome.server) && result == Ok
        && trace == old(trace) + [Info(Starting(port))] + [Listen(port, outcome)]
                    + [Info(Started(port))]
      ensures old(server).None? && outcome.Throws? ==>
        && server == None && result == Err(outcome.error)
        && trace == old(trace) + [Info(Starting(port))] + [Listen(port, outcome)]
                    + [Error(ListenFailed(port, outcome.error.message))]
    {
      ghost var before := Model();
      StartTrace(before, outcome);
      StartPreservesInvariant(before, outcome);
      trace := trace + [Info(Starting(port))];
      if server.None? {
        trace := trace + [Listen(port, outcome)];
        match outcome {
          case Throws(error) =>
            trace := trace + [Error(ListenFailed(port, error.message))];
            return Err(error);
          case Returns(handle) =>
            server := Some(handle);
        }
        trace := trace + [Info(Started(port))];
      } else {
        trace := trace + [Info(AlreadyStarted(port))];
      }
      result := Ok;
    }
  }

  /** A fresh wrapper whose listen() returns `handle`, started once. */
  method StartsOnce(configuration: Configuration, dependencies: Dependencies, app: App, handle: Server)
    returns (server: Option<Server>, result: StartResult, ghost trace: seq<Event>)
    ensures server == Some(handle) && result == Ok
    ensures var p := configuration.port;
      trace == [Info(Starting(p)), Listen(p, Returns(handle)), Info(Started(p))]
  {
    var w := new ExpressWrapper(configuration, dependencies, app);
    result := w.Start(Returns(handle));
    server, trace := w.server, w.trace;
  }

  /** A fresh wrapper started twice; whatever listen() would do the second
      time, it is not called again. */
  method StartsTwice(configuration: Configuration, dependencies: Dependencies, app: App,
                     handle: Server, second: ListenOutcome)
    returns (server: Option<Server>, result: StartResult, ghost trace: seq<Event>)
    ensures server == Some(handle) && result == Ok
    ensures Listens(trace) == 1
    ensures var p := configuration.port;
      trace == [Info(Starting(p)), Listen(p, Returns(handle)), Info(Started(p)),
                Info(Starting(p)), Info(AlreadyStarted(p))]
  {
    var w := new ExpressWrapper(configuration, dependencies, app);
    var first := w.Start(Returns(handle));
    result := w.Start(second);
    server, trace := w.server, w.trace;
  }

  /** A fresh wrapper whose listen() throws `error`: start() logs the error line
      and re-throws that same error, and no server is stored. */
  method StartFails(configuration: Configuration, dependencies: Dependencies, app: App, error: ListenError)
    returns (server: Option<Server>, result: StartResult, ghost trace: seq<Event>)
    ensures server == None && result == Err(error)
    ensures var p := configuration.port;
      trace == [Info(Starting(p)), Listen(p, Throws(error)), Error(ListenFailed(p, error.message))]
  {
    var w := new ExpressWrapper(configuration, dependencies, app);
    result := w.Start(Throws(error));
    server, trace := w.server, w.trace;
  }

  /** A failed listen() is not recorded as started: the next start() calls
      listen() again, and this time the returned server is stored. */
  method RetriesAfterFailure(configuration: Configuration, dependencies: Dependencies, app: App,
                             error: ListenError, handle: Server)
    returns (server: Option<Server>, first: StartResult, second: StartResult, ghost trace: seq<Event>)
    ensures server == Some(handle) && first == Err(error) && second == Ok
    ensures Listens(trace) == 2
  {
    var w := new ExpressWrapper(configuration, dependencies, app);
    first := w.Start(Throws(error));
    second := w.Start(Returns(handle));
    server, trace := w.server, w.trace;
  }
}
