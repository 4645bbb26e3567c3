/** MCPService.ts: choosing a transport from a server's configuration, and
    republishing the tools the server offers into the host's registry. */
module Mcp {
  import opened Values
  import opened Host

  /** A transport entry as the configuration schema lets it through: an
      object whose `type` field is a string, with any other fields. */
  predicate IsTransportConfig(v: Value)
  {
    v.Obj? && Lookup(v.fields, "type").Some? && Lookup(v.fields, "type").value.Str?
  }

  type TransportConfig = v: Value | IsTransportConfig(v) witness Obj([("type", Str("stdio"))])

  /** `config.type` */
  function TypeOf(config: TransportConfig): string
  {
    Lookup(config.fields, "type").value.s
  }

  /** `config.url`, `undefined` when the entry has none. */
  function UrlOf(config: TransportConfig): Value
  {
    Get(config, "url")
  }

  /** A parsed URL object. */
  datatype Url = Url(href: string)

  /** The three transport constructors and the arguments each receives. */
  datatype Transport =
    | Stdio(params: TransportConfig)
    | Sse(url: Url, options: TransportConfig)
    | StreamableHttp(url: Url, options: TransportConfig)

  const KnownTypes: set<string> := {"stdio", "sse", "http"}

  /** The configuration tag that selects each transport. */
  function Kind(t: Transport): string
  {
    match t
    case Stdio(_) => "stdio"
    case Sse(_, _) => "sse"
    case StreamableHttp(_, _) => "http"
  }

  /** The configuration object a transport was built from. */
  function ConfigOf(t: Transport): TransportConfig
  {
    match t
    case Stdio(p) => p
    case Sse(_, o) => o
    case StreamableHttp(_, o) => o
  }

  /** The `switch (config.type)` of `register`. `parseUrl` is `new URL(...)`:
      a parsed URL, or None where it throws. */
  function SelectTransport(config: TransportConfig, parseUrl: Value -> Option<Url>): (r: Result<Transport, Error>)
    ensures r.Ok? ==> Kind(r.value) == TypeOf(config) && ConfigOf(r.value) == config
    ensures r.Ok? && !r.value.Stdio? ==> parseUrl(UrlOf(config)) == Some(r.value.url)
    ensures r.Err? <==> TypeOf(config) !in KnownTypes || (TypeOf(config) != "stdio" && parseUrl(UrlOf(config)).None?)
    ensures TypeOf(config) !in KnownTypes ==>
      r == Err(UnknownConnectionType(TypeOf(config))) && Message(r.error) == "Unknown connection type " + TypeOf(config)
    ensures r.Err? && TypeOf(config) in KnownTypes ==> r.error == InvalidUrl(UrlOf(config))
  {
    var t := TypeOf(config);
    if t == "stdio" then
      Ok(Stdio(config))
    else if t == "sse" then
      match parseUrl(UrlOf(config))
      case Some(u) => Ok(Sse(u, config))
      case None => Err(InvalidUrl(UrlOf(config)))
    else if t == "http" then
      match parseUrl(UrlOf(config))
      case Some(u) => Ok(StreamableHttp(u, config))
      case None => Err(InvalidUrl(UrlOf(config)))
    else
      Err(UnknownConnectionType(t))
  }

  /** A connected protocol client; only its identity matters here. */
  datatype Client = Client(id: nat)

  /** One entry of the map `client.tools()` resolves to. */
  datatype ToolDescriptor = ToolDescriptor(inputSchema: Value, execute: ExecuteRef, description: Option<string>)

  /** The libraries `register` calls: URL parsing, client creation and tool
      discovery, each either producing its result or throwing. The tools come
      in the order `for...in` visits them. */
  datatype Libraries = Libraries(
    parseUrl: Value -> Option<Url>,
    createClient: Transport -> Result<Client, Error>,
    listTools: Client -> Result<seq<(string, ToolDescriptor)>, Error>)

  /** The registry key of a tool, built as the source writes it: the template
      has the literal text `toolName` where the tool's name was meant. */
  function ToolKey(serverName: string, toolName: string): string
  {
    serverName + "/toolName"
  }

  /** The key the tests expect, `<serverName>/<toolName>`. */
  function IntendedToolKey(serverName: string, toolName: string): string
  {
    serverName + "/" + toolName
  }

  /** Every tool of one server gets the same key. */
  lemma ToolKeysCollide(serverName: string, a: string, b: string)
    ensures ToolKey(serverName, a) == ToolKey(serverName, b)
  {
  }

  /** The key the tests assert for `test-tool` on `test-server` is not the one produced. */
  lemma ToolKeyIsNotTheTestedKey()
    ensures ToolKey("test-server", "test-tool") != "test-server/test-tool"
    ensures IntendedToolKey("test-server", "test-tool") == "test-server/test-tool"
  {
  }

  /** Keys of different servers stay apart, whatever their tools are called. */
  lemma ToolKeysSeparateServers(a: string, b: string, t: string, u: string)
    requires a != b
    ensures ToolKey(a, t) != ToolKey(b, u)
  {
    assert ToolKey(a, t)[..|a|] == a;
    assert ToolKey(b, u)[..|b|] == b;
  }

  /** The intended keys tell the tools of one server apart. */
  lemma IntendedToolKeysDistinct(serverName: string, a: string, b: string)
    requires a != b
    ensures IntendedToolKey(serverName, a) != IntendedToolKey(serverName, b)
  {
    var n := |serverName| + 1;
    assert IntendedToolKey(serverName, a)[n..] == a;
    assert IntendedToolKey(serverName, b)[n..] == b;
  }

  /** The registration `register` issues for one discovered tool. */
  function Republish(serverName: string, toolName: string, d: ToolDescriptor): Registration
  {
    Registration(ToolKey(serverName, toolName),
                 RegisteredTool("mcp/" + toolName, ToolSpec(d.inputSchema, d.execute, d.description)))
  }

  /** The registrations for a server's tools, one per tool and in order, each
      carrying the tool's schema, function and description unchanged. */
  function Publications(serverName: string, tools: seq<(string, ToolDescriptor)>): (r: seq<Registration>)
    ensures |r| == |tools|
    ensures forall i :: 0 <= i < |tools| ==>
      r[i].key == ToolKey(serverName, tools[i].0) &&
      r[i].value.name == "mcp/" + tools[i].0 &&
      r[i].value.tool.inputSchema == tools[i].1.inputSchema &&
      r[i].value.tool.execute == tools[i].1.execute &&
      r[i].value.tool.description == tools[i].1.description
  {
    if tools == [] then []
    else [Republish(serverName, tools[0].0, tools[0].1)] + Publications(serverName, tools[1..])
  }

  /** How a run ends: what the host has observed, and the error it failed with, if any. */
  datatype Run = Run(events: seq<HostEvent>, error: Option<Error>)

  /** Issuing `regs` one by one against the registry, stopping at the first
      call it throws on. */
  function PublishRun(verdict: Verdict, events: seq<HostEvent>, regs: seq<Registration>): Run
    decreases |regs|
  {
    if regs == [] then Run(events, None)
    else
      match verdict(events, regs[0])
      case Some(e) => Run(events, Some(e))
      case None => PublishRun(verdict, events + [ToolRegistered(regs[0])], regs[1..])
  }

  /** The registry only grows, and what it gained is the accepted prefix of
      `regs`, in order; a run that does not fail gains all of them. */
  lemma {:induction false} PublishRunExtends(verdict: Verdict, events: seq<HostEvent>, regs: seq<Registration>)
    decreases |regs|
    ensures var r := PublishRun(verdict, events, regs);
      |events| <= |r.events| <= |events| + |regs| &&
      r.events == events + ToolEvents(regs[..|r.events| - |events|]) &&
      (r.error.None? <==> |r.events| == |events| + |regs|)
  {
    if regs == [] || verdict(events, regs[0]).Some? {
      assert PublishRun(verdict, events, regs).events == events;
      assert events + ToolEvents(regs[..0]) == events;
    } else {
      var e' := events + [ToolRegistered(regs[0])];
      PublishRunExtends(verdict, e', regs[1..]);
      var r := PublishRun(verdict, e', regs[1..]);
      assert PublishRun(verdict, events, regs) == r;
      ToolEventsShift(events, regs, |r.events| - |e'|);
    }
  }

  /** When the registry accepts every call, each registration is issued once, in order. */
  lemma {:induction false} PublishRunAllAccepted(verdict: Verdict, events: seq<HostEvent>, regs: seq<Registration>)
    requires forall j :: 0 <= j < |regs| ==> verdict(events + ToolEvents(regs[..j]), regs[j]).None?
    ensures PublishRun(verdict, events, regs) == Run(events + ToolEvents(regs), None)
    decreases |regs|
  {
    if regs == [] {
      assert events + ToolEvents([]) == events;
    } else {
      var e' := events + [ToolRegistered(regs[0])];
      assert events + ToolEvents(regs[..0]) == events;
      forall j | 0 <= j < |regs| - 1
        ensures verdict(e' + ToolEvents(regs[1..][..j]), regs[1..][j]).None?
      {
        ToolEventsShift(events, regs, j);
        assert verdict(events + ToolEvents(regs[..j + 1]), regs[j + 1]).None?;
      }
      PublishRunAllAccepted(verdict, e', regs[1..]);
      ToolEventsShift(events, regs, |regs| - 1);
      assert regs[1..][..|regs| - 1] == regs[1..] && regs[..|regs|] == regs;
    }
  }

  /** When the registry throws on call `k`: calls before `k` stay registered,
      later ones are never issued, and the run fails with that error. */
  lemma {:induction false} PublishRunStopsAt(verdict: Verdict, events: seq<HostEvent>, regs: seq<Registration>, k: nat, e: Error)
    requires k < |regs|
    requires forall j :: 0 <= j < k ==> verdict(events + ToolEvents(regs[..j]), regs[j]).None?
    requires verdict(events + ToolEvents(regs[..k]), regs[k]) == Some(e)
    ensures PublishRun(verdict, events, regs) == Run(events + ToolEvents(regs[..k]), Some(e))
    decreases k
  {
    if k == 0 {
      assert regs[..0] == [];
      assert events + ToolEvents([]) == events;
    } else {
      var e' := events + [ToolRegistered(regs[0])];
      assert events + ToolEvents(regs[..0]) == events;
      forall j | 0 <= j < k - 1
        ensures verdict(e' + ToolEvents(regs[1..][..j]), regs[1..][j]).None?
      {
        ToolEventsShift(events, regs, j);
        assert verdict(events + ToolEvents(regs[..j + 1]), regs[j + 1]).None?;
      }
      ToolEventsShift(events, regs, k - 1);
      PublishRunStopsAt(verdict, e', regs[1..], k - 1, e);
    }
  }

  /** Everything one `register(serverName, config, team)` call does. */
  function RegisterRun(libs: Libraries, verdict: Verdict, serverName: string, config: TransportConfig,
                       events: seq<HostEvent>): Run
  {
    match SelectTransport(config, libs.parseUrl)
    case Err(e) => Run(events, Some(e))
    case Ok(transport) =>
      match libs.createClient(transport)
      case Err(e) => Run(events, Some(e))
      case Ok(client) =>
        match libs.listTools(client)
        case Err(e) => Run(events, Some(e))
        case Ok(tools) => PublishRun(verdict, events, Publications(serverName, tools))
  }

  /** An unknown `type` fails with its message before any client exists or any tool is registered. */
  lemma UnknownTypeFailsFirst(libs: Libraries, verdict: Verdict, serverName: string, config: TransportConfig,
                              events: seq<HostEvent>)
    requires TypeOf(config) !in KnownTypes
    ensures RegisterRun(libs, verdict, serverName, config, events) == Run(events, Some(UnknownConnectionType(TypeOf(config))))
  {
  }

  /** A failure to create the client or to list its tools reaches the caller
      unchanged, and the registry receives no call. */
  lemma DiscoveryFailurePropagates(libs: Libraries, verdict: Verdict, serverName: string, config: TransportConfig,
                                   events: seq<HostEvent>, t: Transport, e: Error)
    requires SelectTransport(config, libs.parseUrl) == Ok(t)
    requires libs.createClient(t) == Err(e) || (libs.createClient(t).Ok? && libs.listTools(libs.createClient(t).value) == Err(e))
    ensures RegisterRun(libs, verdict, serverName, config, events) == Run(events, Some(e))
  {
  }

  /** With discovery done and every call accepted, the registry receives
      exactly one registration per discovered tool, in the client's order. */
  lemma {:induction false} RegisterPublishesEveryTool(libs: Libraries, verdict: Verdict, serverName: string,
                                                     config: TransportConfig, events: seq<HostEvent>,
                                                     client: Client, tools: seq<(string, ToolDescriptor)>)
    requires SelectTransport(config, libs.parseUrl).Ok?
    requires libs.createClient(SelectTransport(config, libs.parseUrl).value) == Ok(client)
    requires libs.listTools(client) == Ok(tools)
    requires forall j :: 0 <= j < |tools| ==>
      verdict(events + ToolEvents(Publications(serverName, tools)[..j]), Publications(serverName, tools)[j]).None?
    ensures RegisterRun(libs, verdict, serverName, config, events)
         == Run(events + ToolEvents(Publications(serverName, tools)), None)
  {
    PublishRunAllAccepted(verdict, events, Publications(serverName, tools));
  }

  /** A `register` call only ever appends tool registrations to what the host has seen. */
  lemma {:induction false} RegisterRunExtends(libs: Libraries, verdict: Verdict, serverName: string,
                                              config: TransportConfig, events: seq<HostEvent>)
    ensures var r := RegisterRun(libs, verdict, serverName, config, events);
      |events| <= |r.events| && r.events[..|events|] == events &&
      forall i :: |events| <= i < |r.events| ==> r.events[i].ToolRegistered?
  {
    var r := RegisterRun(libs, verdict, serverName, config, events);
    if r.events != events {
      var t := SelectTransport(config, libs.parseUrl).value;
      var client := libs.createClient(t).value;
      var regs := Publications(serverName, libs.listTools(client).value);
      PublishRunExtends(verdict, events, regs);
    }
  }

  class McpService {
    const name: string := "MCPService"
    const description: string := "Service for MCP (Model Context Protocol) servers"

    constructor ()
      ensures name == "MCPService"
      ensures description == "Service for MCP (Model Context Protocol) servers"
    {
    }

    /** Connects to one server and registers each of its tools with `team`. */
    method Register(serverName: string, config: TransportConfig, libs: Libraries, team: App)
      returns (err: Option<Error>)
      modifies team
      ensures Run(team.events, err) == RegisterRun(libs, team.verdict, serverName, config, old(team.events))
    {
      var selected := SelectTransport(config, libs.parseUrl);
      if selected.Err? {
        return Some(selected.error);
      }
      var client := libs.createClient(selected.value);
      if client.Err? {
        return Some(client.error);
      }
      var tools := libs.listTools(client.value);
      if tools.Err? {
        return Some(tools.error);
      }
      var discovered := tools.value;
      ghost var regs := Publications(serverName, discovered);
      var i := 0;
      while i < |discovered|
        invariant 0 <= i <= |discovered|
        invariant PublishRun(team.verdict, old(team.events), regs) == PublishRun(team.verdict, team.events, regs[i..])
      {
        var (toolName, tool) := discovered[i];
        var e := team.RegisterTool(ToolKey(serverName, toolName),
                                   RegisteredTool("mcp/" + toolName, ToolSpec(tool.inputSchema, tool.execute, tool.description)));
        assert regs[i] == Registration(ToolKey(serverName, toolName),
                                       RegisteredTool("mcp/" + toolName, ToolSpec(tool.inputSchema, tool.execute, tool.description)));
        if e.Some? {
          return e;
        }
        assert regs[i..][1..] == regs[i + 1..];
        i := i + 1;
      }
      err := None;
    }
  }
}
