/**
 * The Docker daemon as the executor sees it: the configuration it passes to `ContainerCreate`, the
 * replies the daemon can give to each lifecycle primitive, and a client whose daemon answers from a
 * script. The client records every call with the reply it got, so that orderings and clean-up can be
 * stated about the recorded trace.
 */
module Docker {
  import opened Base

  /** The error a client reports when it gets no answer from the daemon; a script whose replies for a primitive are used up answers with it. */
  const Unreachable := "Cannot connect to the Docker daemon"

  /** `container.Resources`: memory and memory+swap ceilings in bytes, and the CPU quota in microseconds per 100ms period. */
  datatype Resources = Resources(memory: int, memorySwap: int, cpuQuota: int)

  /** `container.HostConfig`: resource limits and `host:container` bind mounts. */
  datatype HostConfig = HostConfig(resources: Resources, binds: seq<string>)

  /** `container.Config`: the image to run and the command given to it. */
  datatype ContainerConfig = ContainerConfig(image: string, cmd: seq<string>)

  /** The arguments of one `ContainerCreate`; `host` is `None` where the caller passes a nil `HostConfig`. */
  datatype CreateRequest = CreateRequest(config: ContainerConfig, host: Option<HostConfig>)

  datatype CreateReply = Created(id: string) | CreateFailed(createError: string)

  /** What `ContainerWait`'s channels deliver: an error, a nil error, or the status of the stopped container. */
  datatype WaitEvent = WaitFailed(waitError: string) | WaitNilError | Exited(statusCode: int)

  /**
   * A wait's delivery, and whether the deadline of the caller's context fired before it
   * (so that a `select` that also listens for the deadline takes the deadline instead).
   * A wait under a context without a deadline never looks at `afterDeadline`.
   */
  datatype WaitReply = WaitReply(event: WaitEvent, afterDeadline: bool)

  datatype InspectReply = Inspected(oomKilled: bool) | InspectFailed(inspectError: string)

  /** The multiplexed log stream, as `stdcopy.StdCopy` splits it into stdout and stderr, or the error it stops with. */
  datatype LogStream = Demultiplexed(stdout: string, stderr: string) | Unreadable(readError: string)

  datatype LogsReply = LogsOpened(stream: LogStream) | LogsFailed(logsError: string)

  function Drop<T>(q: seq<T>): seq<T> {
    if q == [] then [] else q[1..]
  }

  /** The daemon's replies, one queue per primitive, answered in order. A `None` start reply is a successful start. */
  datatype Script = Script(
    creates: seq<CreateReply>,
    starts: seq<Option<string>>,
    waits: seq<WaitReply>,
    inspects: seq<InspectReply>,
    logs: seq<LogsReply>)
  {
    function NextCreate(): CreateReply {
      if creates == [] then CreateFailed(Unreachable) else creates[0]
    }
    function NextStart(): Option<string> {
      if starts == [] then Some(Unreachable) else starts[0]
    }
    function NextWait(): WaitReply {
      if waits == [] then WaitReply(WaitFailed(Unreachable), false) else waits[0]
    }
    function NextInspect(): InspectReply {
      if inspects == [] then InspectFailed(Unreachable) else inspects[0]
    }
    function NextLogs(): LogsReply {
      if logs == [] then LogsFailed(Unreachable) else logs[0]
    }

    /** The script once `c` has been answered: the queue of `c`'s primitive loses its head. */
    function After(c: Call): Script {
      match c
      case Create(_, _) => this.(creates := Drop(creates))
      case Start(_, _) => this.(starts := Drop(starts))
      case Wait(_, _) => this.(waits := Drop(waits))
      case Inspect(_, _) => this.(inspects := Drop(inspects))
      case Logs(_, _) => this.(logs := Drop(logs))
      case CloseLogs(_) => this
      case Remove(_) => this
    }
  }

  /** One call made to the daemon, with the reply it got. */
  datatype Call =
    | Create(request: CreateRequest, created: CreateReply)
    | Start(id: string, started: Option<string>)
    | Wait(id: string, waited: WaitReply)
    | Inspect(id: string, inspected: InspectReply)
    | Logs(id: string, logsReply: LogsReply)
    | CloseLogs(id: string)
    | Remove(id: string)
  {
    /** The call uses container `c`, neither creating nor removing it. */
    predicate On(c: string) {
      !Create? && !Remove? && id == c
    }
  }

  /** The script once every call of `calls` has been answered, in order. */
  function Consumed(s: Script, calls: seq<Call>): Script {
    if calls == [] then s else Consumed(s, calls[..|calls| - 1]).After(calls[|calls| - 1])
  }

  /** Answering two runs of calls one after the other is answering their concatenation. */
  lemma {:induction false} ConsumedConcat(s: Script, a: seq<Call>, b: seq<Call>)
    ensures Consumed(s, a + b) == Consumed(Consumed(s, a), b)
  {
    if b != [] {
      var ab := a + b;
      assert ab[..|ab| - 1] == a + b[..|b| - 1];
      assert ab[|ab| - 1] == b[|b| - 1];
      ConsumedConcat(s, a, b[..|b| - 1]);
    } else {
      assert a + b == a;
    }
  }

  lemma ConsumedSnoc(s: Script, calls: seq<Call>, c: Call)
    ensures Consumed(s, calls + [c]) == Consumed(s, calls).After(c)
  {
    assert (calls + [c])[..|calls|] == calls;
  }

  lemma AppendAssoc(a: seq<Call>, b: seq<Call>, c: seq<Call>)
    ensures a + b + c == a + (b + c)
  {
  }

  /**
   * The lifetime of one container, scoped like an acquired resource: a create that failed and
   * nothing else, or a successful create, then calls on that container only, then its removal last.
   */
  ghost predicate Scoped(p: seq<Call>) {
    |p| > 0 && p[0].Create? &&
    match p[0].created
    case CreateFailed(_) => |p| == 1
    case Created(id) =>
      |p| >= 2 && p[|p| - 1] == Remove(id) && forall k :: 0 < k < |p| - 1 ==> p[k].On(id)
  }

  /** The rest of a lifetime once container `id` exists: calls on that container only, then its removal. */
  ghost predicate EndsWithRemoval(p: seq<Call>, id: string) {
    |p| > 0 && p[|p| - 1] == Remove(id) && forall k :: 0 <= k < |p| - 1 ==> p[k].On(id)
  }

  lemma OnThenEndsWithRemoval(c: Call, p: seq<Call>, id: string)
    requires c.On(id) && EndsWithRemoval(p, id)
    ensures EndsWithRemoval([c] + p, id)
  {
    var q := [c] + p;
    assert forall k :: 0 < k < |q| ==> q[k] == p[k - 1];
  }

  /** A successful create followed by the rest of that container's lifetime is one scoped lifetime. */
  lemma CreatedThenEndsWithRemoval(request: CreateRequest, id: string, p: seq<Call>)
    requires EndsWithRemoval(p, id)
    ensures Scoped([Create(request, Created(id))] + p)
  {
    var q := [Create(request, Created(id))] + p;
    assert forall k :: 0 < k < |q| ==> q[k] == p[k - 1];
  }

  /** In a scoped lifetime the removal of every created container is requested, after everything else done with it. */
  lemma ScopedRemovesWhatItCreated(p: seq<Call>)
    requires Scoped(p)
    ensures forall k :: 0 <= k < |p| && p[k].Create? && p[k].created.Created? ==>
              k < |p| - 1 && p[|p| - 1] == Remove(p[k].created.id)
    ensures forall k :: 0 <= k < |p| && p[k].Remove? ==> k == |p| - 1 && p[0].created == Created(p[k].id)
  {
  }

  /** A client of a daemon that answers from `script`; `calls` is the trace of what it was asked. */
  class Client {
    var script: Script
    ghost var calls: seq<Call>
    ghost const initial: Script

    /** What is left of the script is the initial script with every recorded call answered. */
    ghost predicate Valid()
      reads this
    {
      script == Consumed(initial, calls)
    }

    constructor (script: Script)
      ensures Valid() && this.script == script && calls == []
    {
      this.script := script;
      calls := [];
      initial := script;
    }

    method ContainerCreate(request: CreateRequest) returns (reply: CreateReply)
      requires Valid()
      modifies this
      ensures Valid()
      ensures reply == old(script).NextCreate()
      ensures calls == old(calls) + [Create(request, reply)]
      ensures script == old(script).After(Create(request, reply))
    {
      reply := script.NextCreate();
      ConsumedSnoc(initial, calls, Create(request, reply));
      calls := calls + [Create(request, reply)];
      script := script.After(Create(request, reply));
    }

    method ContainerStart(id: string) returns (err: Option<string>)
      requires Valid()
      modifies this
      ensures Valid()
      ensures err == old(script).NextStart()
      ensures calls == old(calls) + [Start(id, err)]
      ensures script == old(script).After(Start(id, err))
    {
      err := script.NextStart();
      ConsumedSnoc(initial, calls, Start(id, err));
      calls := calls + [Start(id, err)];
      script := script.After(Start(id, err));
    }

    method ContainerWait(id: string) returns (reply: WaitReply)
      requires Valid()
      modifies this
      ensures Valid()
      ensures reply == old(script).NextWait()
      ensures calls == old(calls) + [Wait(id, reply)]
      ensures script == old(script).After(Wait(id, reply))
    {
      reply := script.NextWait();
      ConsumedSnoc(initial, calls, Wait(id, reply));
      calls := calls + [Wait(id, reply)];
      script := script.After(Wait(id, reply));
    }

    method ContainerInspect(id: string) returns (reply: InspectReply)
      requires Valid()
      modifies this
      ensures Valid()
      ensures reply == old(script).NextInspect()
      ensures calls == old(calls) + [Inspect(id, reply)]
      ensures script == old(script).After(Inspect(id, reply))
    {
      reply := script.NextInspect();
      ConsumedSnoc(initial, calls, Inspect(id, reply));
      calls := calls + [Inspect(id, reply)];
      script := script.After(Inspect(id, reply));
    }

    method ContainerLogs(id: string) returns (reply: LogsReply)
      requires Valid()
      modifies this
      ensures Valid()
      ensures reply == old(script).NextLogs()
      ensures calls == old(calls) + [Logs(id, reply)]
      ensures script == old(script).After(Logs(id, reply))
    {
      reply := script.NextLogs();
      ConsumedSnoc(initial, calls, Logs(id, reply));
      calls := calls + [Logs(id, reply)];
      script := script.After(Logs(id, reply));
    }

    /** `out.Close()` on the log stream of container `id`. */
    method CloseLogStream(id: string)
      requires Valid()
      modifies this
      ensures Valid()
      ensures calls == old(calls) + [Call.CloseLogs(id)]
      ensures script == old(script)
    {
      ConsumedSnoc(initial, calls, Call.CloseLogs(id));
      calls := calls + [Call.CloseLogs(id)];
    }

    /** `ContainerRemove`; every caller ignores its result, so it has none here. */
    method ContainerRemove(id: string)
      requires Valid()
      modifies this
      ensures Valid()
      ensures calls == old(calls) + [Remove(id)]
      ensures script == old(script)
    {
      ConsumedSnoc(initial, calls, Remove(id));
      calls := calls + [Remove(id)];
    }
  }
}
