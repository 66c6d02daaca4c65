/** The calls `run` makes into its collaborators (the process runtime, the
    logger, the service container and its server), recorded as an ordered trace
    of events, together with the life cycle a supervised backend process goes
    through in the runtime. */
module Trace {
  import opened Endpoints

  /** A proxy as `run` builds it: the protocol chosen and the endpoint it is
      configured with (`proxy.WithEndpoint`). */
  datatype Proxy = Proxy(tag: ProxyTag, endpoint: string)

  /** A `micro.Option`: the two `run` adds itself, or one its caller passed in. */
  datatype ServiceOption =
    | NameOption(name: string)
    | AddressOption(address: string)
    | CallerOption(id: string)

  datatype Event =
    | Create(name: string, command: string, args: seq<string>)  // r.Create(&Service{Name}, WithCommand(cmd, args...))
    | Start                                                      // r.Start()
    | Log(proxy: Proxy, name: string, endpoint: string)          // the "Serving" log line
    | NewService(options: seq<ServiceOption>)                    // micro.NewService(opts...)
    | InitRouter(name: string, proxy: Proxy)                     // Server().Init(WithRouter(mux.New(name, p)))
    | RunService                                                 // service.Run(), blocking until shutdown
    | Delete(name: string)                                       // r.Delete(&Service{Name})
    | Stop                                                       // r.Stop()
  {
    /** A call into the process runtime. */
    predicate IsRuntimeCall() {
      Create? || Start? || Delete? || Stop?
    }
  }

  /** The runtime's view of a trace: its runtime calls, in order. */
  function RuntimeCalls(t: seq<Event>): (r: seq<Event>)
    ensures |r| <= |t|
  {
    if t == [] then []
    else (if t[0].IsRuntimeCall() then [t[0]] else []) + RuntimeCalls(t[1..])
  }

  lemma {:induction false} RuntimeCallsAppend(a: seq<Event>, b: seq<Event>)
    ensures RuntimeCalls(a + b) == RuntimeCalls(a) + RuntimeCalls(b)
  {
    if a == [] {
      assert a + b == b;
    } else {
      var head := if a[0].IsRuntimeCall() then [a[0]] else [];
      assert (a + b)[0] == a[0];
      assert (a + b)[1..] == a[1..] + b;
      RuntimeCallsAppend(a[1..], b);
      assert RuntimeCalls(a + b) == head + RuntimeCalls(a[1..] + b);
    }
  }

  /** A trace without runtime calls is invisible to the runtime. */
  lemma {:induction false} RuntimeCallsNone(t: seq<Event>)
    requires forall e :: e in t ==> !e.IsRuntimeCall()
    ensures RuntimeCalls(t) == []
  {
    if t != [] {
      assert t[0] in t;
      RuntimeCallsNone(t[1..]);
    }
  }

  /** A trace made only of runtime calls is seen by the runtime as it is. */
  lemma {:induction false} RuntimeCallsAll(t: seq<Event>)
    requires forall e :: e in t ==> e.IsRuntimeCall()
    ensures RuntimeCalls(t) == t
  {
    if t != [] {
      assert t[0] in t;
      RuntimeCallsAll(t[1..]);
      assert t == [t[0]] + t[1..];
    }
  }

  /** Runtime calls around a stretch with none: the runtime sees just the
      calls before and after it. */
  lemma {:induction false} RuntimeCallsBracket(pre: seq<Event>, mid: seq<Event>, post: seq<Event>)
    requires forall e :: e in pre ==> e.IsRuntimeCall()
    requires forall e :: e in mid ==> !e.IsRuntimeCall()
    requires forall e :: e in post ==> e.IsRuntimeCall()
    ensures RuntimeCalls(pre + mid + post) == pre + post
  {
    RuntimeCallsAll(pre);
    RuntimeCallsNone(mid);
    RuntimeCallsAll(post);
    RuntimeCallsAppend(pre, mid);
    assert RuntimeCalls(pre + mid) == pre by {
      assert pre + [] == pre;
    }
    RuntimeCallsAppend(pre + mid, post);
  }

  /** Both events occur in `t`, and every occurrence of `a` comes strictly
      before every occurrence of `b`. */
  ghost predicate Precedes(t: seq<Event>, a: Event, b: Event) {
    a in t && b in t &&
    forall i, j :: 0 <= i < |t| && 0 <= j < |t| && t[i] == a && t[j] == b ==> i < j
  }

  /** How many times `e` occurs in `t`. */
  function Count(t: seq<Event>, e: Event): nat {
    multiset(t)[e]
  }

  /** When `a` occurs only in the first part of a trace and `b` only in the
      second, `a` precedes `b` in the whole. */
  lemma {:induction false} PrecedesAcross(x: seq<Event>, y: seq<Event>, a: Event, b: Event)
    requires a in x && a !in y
    requires b in y && b !in x
    ensures Precedes(x + y, a, b)
  {
    assert forall k :: 0 <= k < |y| ==> y[k] != a;
    assert forall k :: 0 <= k < |x| ==> x[k] != b;
  }

  /** Life cycle of the one backend record a runtime keeps: created (registered
      under a name), started, deleted by that name, then the runtime stopped.
      Any other call in any state is a protocol violation. */
  datatype Lifecycle =
    | Unregistered
    | Registered(name: string)
    | Running(name: string)
    | Deleted
    | Stopped
    | Violation

  function Step(s: Lifecycle, e: Event): Lifecycle {
    match s
    case Unregistered => if e.Create? then Registered(e.name) else Violation
    case Registered(n) => if e.Start? then Running(n) else Violation
    case Running(n) => if e == Delete(n) then Deleted else Violation
    case Deleted => if e.Stop? then Stopped else Violation
    case Stopped => Violation
    case Violation => Violation
  }

  /** The state the runtime is in after the calls `calls`, starting from `s`. */
  function Replay(s: Lifecycle, calls: seq<Event>): Lifecycle
    decreases |calls|
  {
    if calls == [] then s else Replay(Step(s, calls[0]), calls[1..])
  }
}
