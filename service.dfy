/** `run` from service/service.go: build the service options, pick the proxy
    from the endpoint, optionally supervise a backend process whose teardown is
    deferred until the service returns, install the router and run the service. */
module Service {
  import opened Endpoints
  import opened Trace

  /** What `run` reads from its command-line context: the name, address and
      endpoint flags and the positional arguments. */
  datatype Config = Config(name: string, address: string, endpoint: string, args: seq<string>)

  /** The option list handed to `micro.NewService`. */
  function ServiceOptions(caller: seq<ServiceOption>, name: string, address: string): (opts: seq<ServiceOption>)
    ensures |caller| <= |opts| <= |caller| + 2 && opts[..|caller|] == caller
    ensures forall k :: |caller| <= k < |opts| ==> opts[k] == NameOption(name) || opts[k] == AddressOption(address)
  {
    caller
    + (if |name| > 0 then [NameOption(name)] else [])
    + (if |address| > 0 then [AddressOption(address)] else [])
  }

  /** The caller's options come first and unchanged; after them come a name
      option exactly when the name is non-empty and an address option exactly
      when the address is non-empty, the name option first. */
  lemma {:induction false} ServiceOptionsOrder(caller: seq<ServiceOption>, name: string, address: string)
    ensures var opts := ServiceOptions(caller, name, address);
            && |caller| <= |opts| && opts[..|caller|] == caller
            && |opts| == |caller| + (if name != [] then 1 else 0) + (if address != [] then 1 else 0)
            && (NameOption(name) in opts[|caller|..] <==> name != [])
            && (AddressOption(address) in opts[|caller|..] <==> address != [])
            && (name != [] && address != [] ==> opts[|caller|..] == [NameOption(name), AddressOption(address)])
  {
    var opts := ServiceOptions(caller, name, address);
    var added := opts[|caller|..];
    assert opts == caller + added;
    if name != [] && address != [] {
      assert added == [NameOption(name), AddressOption(address)];
    } else if name != [] {
      assert added == [NameOption(name)];
    } else if address != [] {
      assert added == [AddressOption(address)];
    } else {
      assert added == [];
    }
  }

  /** The proxy `run` builds: selected from the defaulted endpoint, configured
      with it; with no endpoint given, the mucp proxy on the default endpoint. */
  function SelectedProxy(endpoint: string): (p: Proxy)
    ensures p.endpoint != [] && (endpoint != [] ==> p.endpoint == endpoint)
    ensures endpoint == [] ==> p == Proxy(Mucp, DefaultEndpoint)
  {
    EmptyEndpointSelectsMucp();
    var e := Normalize(endpoint);
    Proxy(Classify(e), e)
  }

  /** Registering and starting the backend, when positional arguments were given. */
  function ProcessStart(cfg: Config): seq<Event> {
    if |cfg.args| > 0 then [Create(cfg.name, cfg.args[0], cfg.args[1..]), Start] else []
  }

  /** The deferred teardown, armed in the same branch as ProcessStart. */
  function ProcessTeardown(cfg: Config): seq<Event> {
    if |cfg.args| > 0 then [Delete(cfg.name), Stop] else []
  }

  /** The calls that serve: the log line, building the service, installing
      the router, running the service. */
  function Served(cfg: Config, caller: seq<ServiceOption>): seq<Event> {
    var p := SelectedProxy(cfg.endpoint);
    [Log(p, cfg.name, p.endpoint),
     NewService(ServiceOptions(caller, cfg.name, cfg.address)),
     InitRouter(cfg.name, p),
     RunService]
  }

  /** The whole trace of collaborator calls one `run` makes. */
  function Bootstrap(cfg: Config, caller: seq<ServiceOption>): (t: seq<Event>)
    ensures |t| == if cfg.args != [] then 8 else 4
    ensures t[|t| - 1] == if cfg.args != [] then Stop else RunService
  {
    ProcessStart(cfg) + Served(cfg, caller) + ProcessTeardown(cfg)
  }

  /** `run`, step by step: `trace` records, in order, every call it makes into
      the runtime, the logger, the service and its server. */
  method Run(cfg: Config, caller: seq<ServiceOption>) returns (trace: seq<Event>)
    ensures trace == Bootstrap(cfg, caller)
  {
    var opts := caller;
    if |cfg.name| > 0 {
      opts := opts + [NameOption(cfg.name)];
    }
    if |cfg.address| > 0 {
      opts := opts + [AddressOption(cfg.address)];
    }

    var endpoint := cfg.endpoint;
    if |endpoint| == 0 {
      endpoint := DefaultEndpoint;
    }

    assert opts == ServiceOptions(caller, cfg.name, cfg.address);

    var p: Proxy;
    if HasPrefix(endpoint, "grpc") {
      p := Proxy(Grpc, endpoint);
    } else if HasPrefix(endpoint, "http") {
      p := Proxy(Http, endpoint);
    } else {
      p := Proxy(Mucp, endpoint);
    }

    assert p == SelectedProxy(cfg.endpoint);

    trace := [];
    var deferred: seq<Event> := [];
    if |cfg.args| > 0 {
      trace := trace + [Create(cfg.name, cfg.args[0], cfg.args[1..])];
      trace := trace + [Start];
      deferred := [Delete(cfg.name), Stop];
    }
    assert trace == ProcessStart(cfg) && deferred == ProcessTeardown(cfg);

    trace := trace + [Log(p, cfg.name, endpoint)];
    trace := trace + [NewService(opts)];
    trace := trace + [InitRouter(cfg.name, p)];
    trace := trace + [RunService];
    // the deferred teardown runs once Run has returned
    assert trace == ProcessStart(cfg) + [Log(p, cfg.name, endpoint), NewService(opts), InitRouter(cfg.name, p), RunService];
    trace := trace + deferred;
  }

  /** The runtime sees exactly create, start, delete, stop for the configured
      name and command line when positional arguments are given, and nothing
      at all otherwise. */
  lemma {:induction false} RuntimeCallsOfRun(cfg: Config, caller: seq<ServiceOption>)
    ensures RuntimeCalls(Bootstrap(cfg, caller)) ==
              if |cfg.args| > 0
              then [Create(cfg.name, cfg.args[0], cfg.args[1..]), Start, Delete(cfg.name), Stop]
              else []
  {
    ServedCalls(cfg, caller);
    RuntimeCallsBracket(ProcessStart(cfg), Served(cfg, caller), ProcessTeardown(cfg));
  }

  /** Replayed against the runtime's life cycle, one `run` either never
      touches the runtime, or registers, starts, deletes by the same name and
      stops it: the backend ends stopped, with no protocol violation. */
  lemma {:induction false} SupervisedLifecycle(cfg: Config, caller: seq<ServiceOption>)
    ensures Replay(Unregistered, RuntimeCalls(Bootstrap(cfg, caller))) ==
              if |cfg.args| > 0 then Stopped else Unregistered
  {
    RuntimeCallsOfRun(cfg, caller);
    if |cfg.args| > 0 {
      var name := cfg.name;
      var calls := [Create(name, cfg.args[0], cfg.args[1..]), Start, Delete(name), Stop];
      assert Replay(Unregistered, calls) == Replay(Registered(name), calls[1..]);
      assert Replay(Registered(name), calls[1..]) == Replay(Running(name), calls[2..]);
      assert Replay(Running(name), calls[2..]) == Replay(Deleted, calls[3..]);
      assert Replay(Deleted, calls[3..]) == Replay(Stopped, []);
    }
  }

  /** Without positional arguments no runtime call happens at all. */
  lemma {:induction false} NoArgsNoRuntimeCalls(cfg: Config, caller: seq<ServiceOption>)
    requires cfg.args == []
    ensures forall e :: e in Bootstrap(cfg, caller) ==> !e.IsRuntimeCall()
  {
    RuntimeCallsOfRun(cfg, caller);
  }

  /** The serving calls include no runtime call, and include the router
      install and the run. */
  lemma {:induction false} ServedCalls(cfg: Config, caller: seq<ServiceOption>)
    ensures forall e :: e in Served(cfg, caller) ==> !e.IsRuntimeCall()
    ensures InitRouter(cfg.name, SelectedProxy(cfg.endpoint)) in Served(cfg, caller)
    ensures RunService in Served(cfg, caller)
    ensures Served(cfg, caller) != [] && Served(cfg, caller)[|Served(cfg, caller)| - 1] == RunService
  {
  }

  /* The next four lemmas state the counting and ordering facts for any trace
     shaped like the one `run` produces, over events whose payload does not
     matter; the lemmas after them apply these to Bootstrap. */

  lemma {:induction false} SupervisedCountShape(pre: seq<Event>, served: seq<Event>, post: seq<Event>,
                             create: Event, name: string)
    requires create.Create? && pre == [create, Start] && post == [Delete(name), Stop]
    requires forall e :: e in served ==> !e.IsRuntimeCall()
    requires served != [] && served[|served| - 1] == RunService
    ensures Count(pre + served + post, create) == 1 && Count(pre + served + post, Start) == 1
    ensures Count(pre + served + post, Delete(name)) == 1 && Count(pre + served + post, Stop) == 1
    ensures var t := pre + served + post; t[|t| - 3..] == [RunService, Delete(name), Stop]
  {
    assert create !in served && Start !in served && Delete(name) !in served && Stop !in served;
    var t := pre + served + post;
    assert t[|t| - 3] == served[|served| - 1];
  }

  lemma {:induction false} SupervisedOrderShape(pre: seq<Event>, served: seq<Event>, post: seq<Event>,
                             create: Event, router: Event, name: string)
    requires create.Create? && pre == [create, Start] && post == [Delete(name), Stop]
    requires router in served && RunService in served
    requires forall e :: e in served ==> !e.IsRuntimeCall()
    ensures Precedes(pre + served + post, create, Start)
    ensures Precedes(pre + served + post, Start, router)
    ensures Precedes(pre + served + post, create, router)
    ensures Precedes(pre + served + post, RunService, Delete(name))
  {
    assert pre + served + post == [create] + ([Start] + served + post);
    PrecedesAcross([create], [Start] + served + post, create, Start);
    assert pre + served + post == pre + (served + post);
    PrecedesAcross(pre, served + post, Start, router);
    PrecedesAcross(pre, served + post, create, router);
    PrecedesAcross(pre + served, post, RunService, Delete(name));
  }

  lemma {:induction false} ServedCountShape(pre: seq<Event>, log: Event, svc: Event, router: Event, post: seq<Event>)
    requires log.Log? && svc.NewService? && router.InitRouter?
    requires forall e :: e in pre ==> e.IsRuntimeCall()
    requires forall e :: e in post ==> e.IsRuntimeCall()
    ensures var t := pre + [log, svc, router, RunService] + post;
            Count(t, router) == 1 && Count(t, RunService) == 1 && Count(t, svc) == 1 && Count(t, log) == 1
  {
    assert log !in pre && router !in pre && RunService !in pre && svc !in pre;
    assert log !in post && router !in post && RunService !in post && svc !in post;
  }

  lemma {:induction false} ServedOrderShape(pre: seq<Event>, log: Event, svc: Event, router: Event, post: seq<Event>)
    requires log.Log? && svc.NewService? && router.InitRouter?
    requires forall e :: e in pre ==> e.IsRuntimeCall()
    requires forall e :: e in post ==> e.IsRuntimeCall()
    ensures var t := pre + [log, svc, router, RunService] + post;
            Precedes(t, svc, router) && Precedes(t, router, RunService) && Precedes(t, log, RunService)
  {
    var t := pre + [log, svc, router, RunService] + post;
    assert log !in pre && router !in pre && RunService !in pre && svc !in pre;
    assert log !in post && router !in post && RunService !in post && svc !in post;
    assert t == (pre + [log]) + ([svc, router, RunService] + post);
    PrecedesAcross(pre + [log], [svc, router, RunService] + post, log, RunService);
    assert t == (pre + [log, svc]) + ([router, RunService] + post);
    PrecedesAcross(pre + [log, svc], [router, RunService] + post, svc, router);
    assert t == (pre + [log, svc, router]) + ([RunService] + post);
    PrecedesAcross(pre + [log, svc, router], [RunService] + post, router, RunService);
  }

  /** With positional arguments each runtime call happens exactly once, and
      the trace closes with Run, then Delete of the name, then Stop. */
  lemma {:induction false} SupervisionOnce(cfg: Config, caller: seq<ServiceOption>)
    requires cfg.args != []
    ensures var t := Bootstrap(cfg, caller);
            && Count(t, Create(cfg.name, cfg.args[0], cfg.args[1..])) == 1
            && Count(t, Start) == 1
            && Count(t, Delete(cfg.name)) == 1
            && Count(t, Stop) == 1
            && t[|t| - 3..] == [RunService, Delete(cfg.name), Stop]
  {
    ServedCalls(cfg, caller);
    SupervisedCountShape(ProcessStart(cfg), Served(cfg, caller), ProcessTeardown(cfg),
                         Create(cfg.name, cfg.args[0], cfg.args[1..]), cfg.name);
  }

  /** With positional arguments: Create for the name and command line comes
      before Start, both precede the router install, and Run precedes the
      Delete of the name. */
  lemma {:induction false} SupervisionOrder(cfg: Config, caller: seq<ServiceOption>)
    requires cfg.args != []
    ensures var t := Bootstrap(cfg, caller);
            var create := Create(cfg.name, cfg.args[0], cfg.args[1..]);
            var router := InitRouter(cfg.name, SelectedProxy(cfg.endpoint));
            && Precedes(t, create, Start)
            && Precedes(t, Start, router)
            && Precedes(t, create, router)
            && Precedes(t, RunService, Delete(cfg.name))
  {
    ServedCalls(cfg, caller);
    SupervisedOrderShape(ProcessStart(cfg), Served(cfg, caller), ProcessTeardown(cfg),
                         Create(cfg.name, cfg.args[0], cfg.args[1..]),
                         InitRouter(cfg.name, SelectedProxy(cfg.endpoint)), cfg.name);
  }

  /** Every run logs the "Serving" line once, before the service runs; builds
      the service once, from the caller's options plus the non-empty name and
      address; and then installs the router for its name and proxy exactly
      once, strictly before the one call that runs the service. */
  lemma {:induction false} RouterBeforeRun(cfg: Config, caller: seq<ServiceOption>)
    ensures var t := Bootstrap(cfg, caller);
            var p := SelectedProxy(cfg.endpoint);
            var log := Log(p, cfg.name, p.endpoint);
            var router := InitRouter(cfg.name, p);
            var svc := NewService(ServiceOptions(caller, cfg.name, cfg.address));
            && Count(t, log) == 1 && Precedes(t, log, RunService)
            && Count(t, router) == 1 && Count(t, RunService) == 1 && Count(t, svc) == 1
            && Precedes(t, svc, router)
            && Precedes(t, router, RunService)
  {
    var p := SelectedProxy(cfg.endpoint);
    var log := Log(p, cfg.name, p.endpoint);
    var svc := NewService(ServiceOptions(caller, cfg.name, cfg.address));
    var router := InitRouter(cfg.name, p);
    var pre, post := ProcessStart(cfg), ProcessTeardown(cfg);
    assert Bootstrap(cfg, caller) == pre + [log, svc, router, RunService] + post;
    ServedCountShape(pre, log, svc, router, post);
    ServedOrderShape(pre, log, svc, router, post);
  }

  /** The proxy behind the router and in the log line is the one the endpoint
      selects: the defaulted endpoint, with gRPC for a "grpc" prefix, HTTP for
      an "http" prefix and mucp otherwise. */
  lemma {:induction false} RouterUsesSelectedProxy(cfg: Config, caller: seq<ServiceOption>)
    ensures var p := SelectedProxy(cfg.endpoint);
            && p.endpoint == Normalize(cfg.endpoint)
            && (p.tag == Grpc <==> StartsWith(p.endpoint, "grpc"))
            && (p.tag == Http <==> StartsWith(p.endpoint, "http"))
            && (cfg.endpoint == [] ==> p.tag == Mucp)
            && InitRouter(cfg.name, p) in Bootstrap(cfg, caller)
            && Log(p, cfg.name, p.endpoint) in Bootstrap(cfg, caller)
  {
    ClassifyByScheme(Normalize(cfg.endpoint));
    EmptyEndpointSelectsMucp();
  }
}
