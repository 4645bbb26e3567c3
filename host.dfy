/** The host platform as far as the adapter uses it: the application that
    hands out configuration slices, accepts services, and (acting as the
    agent team) owns the tool registry. Everything here is outside the
    adapter; its behaviour is given by the fields of App. */
module Host {
  import opened Values

  /** Identity of a tool's `execute` function; what it does is not modelled. */
  datatype ExecuteRef = ExecuteRef(id: nat)

  /** The `tool` record of a registration. */
  datatype ToolSpec = ToolSpec(inputSchema: Value, execute: ExecuteRef, description: Option<string>)

  /** The value passed to `team.tools.register`. */
  datatype RegisteredTool = RegisteredTool(name: string, tool: ToolSpec)

  /** One accepted `team.tools.register(key, value)` call. */
  datatype Registration = Registration(key: string, value: RegisteredTool)

  /** What the host observes, in the order it happens. */
  datatype HostEvent =
    | ServiceAdded(name: string)
    | ToolRegistered(registration: Registration)

  /** Whether the registry accepts a call (None) or throws, given everything
      the host has observed before it. */
  type Verdict = (seq<HostEvent>, Registration) -> Option<Error>

  /** The events that record `regs` being accepted one after another. */
  function ToolEvents(regs: seq<Registration>): (r: seq<HostEvent>)
    ensures |r| == |regs|
    ensures forall i :: 0 <= i < |regs| ==> r[i] == ToolRegistered(regs[i])
  {
    if regs == [] then [] else [ToolRegistered(regs[0])] + ToolEvents(regs[1..])
  }

  /** Recording one more registration first, then `j` more, is recording the first `j + 1`. */
  lemma ToolEventsShift(events: seq<HostEvent>, regs: seq<Registration>, j: nat)
    requires j < |regs|
    ensures events + [ToolRegistered(regs[0])] + ToolEvents(regs[1..][..j]) == events + ToolEvents(regs[..j + 1])
  {
  }

  class App {
    /** The configuration file, slice by slice; `Undefined` where a slice is absent. */
    const settings: string -> Value
    /** The registry's acceptance rule. */
    const verdict: Verdict
    /** Services added and tools registered so far. */
    var events: seq<HostEvent>

    constructor (settings: string -> Value, verdict: Verdict)
      ensures this.settings == settings && this.verdict == verdict && events == []
    {
      this.settings := settings;
      this.verdict := verdict;
      events := [];
    }

    /** `app.addServices(service)` */
    method AddServices(name: string)
      modifies this
      ensures events == old(events) + [ServiceAdded(name)]
    {
      events := events + [ServiceAdded(name)];
    }

    /** `team.tools.register(key, value)`: either records the registration or throws. */
    method RegisterTool(key: string, value: RegisteredTool) returns (err: Option<Error>)
      modifies this
      ensures err == verdict(old(events), Registration(key, value))
      ensures events == if err.None? then old(events) + [ToolRegistered(Registration(key, value))] else old(events)
    {
      err := verdict(events, Registration(key, value));
      if err.None? {
        events := events + [ToolRegistered(Registration(key, value))];
      }
    }
  }
}
