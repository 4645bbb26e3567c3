/** index.ts: the configuration schema of the plugin and its `install`
    step, which adds one MCPService and registers every configured server. */
module Index {
  import opened Values
  import opened Host
  import opened Mcp

  /** `MCPConfigSchema`: either nothing at all, or an object whose
      `transports` is a record of objects that each carry a string `type`
      (and any other fields). */
  predicate IsMcpConfig(v: Value)
  {
    v.Undefined? ||
    (v.Obj? && Get(v, "transports").Obj? &&
     forall i :: 0 <= i < |Get(v, "transports").fields| ==> IsTransportConfig(Get(v, "transports").fields[i].1))
  }

  /** The validated configuration: the servers to register, by name, in order. */
  datatype McpConfig = McpConfig(transports: seq<(string, TransportConfig)>)

  /** What the host hands back for a configuration slice. */
  datatype Slice = Rejected | Accepted(config: Option<McpConfig>)

  /** A record of transport entries as a plain object's fields. */
  function Fields(entries: seq<(string, TransportConfig)>): (r: seq<(string, Value)>)
    ensures |r| == |entries|
    ensures forall i :: 0 <= i < |entries| ==> r[i].0 == entries[i].0 && r[i].1 == entries[i].1
  {
    seq(|entries|, i requires 0 <= i < |entries| => var v: Value := entries[i].1; (entries[i].0, v))
  }

  /** The fields of a record that the schema accepted, as transport entries. */
  function Entries(fields: seq<(string, Value)>): (r: seq<(string, TransportConfig)>)
    requires forall i :: 0 <= i < |fields| ==> IsTransportConfig(fields[i].1)
    ensures Fields(r) == fields
  {
    var r := seq(|fields|, i requires 0 <= i < |fields| => var c: TransportConfig := fields[i].1; (fields[i].0, c));
    assert forall i :: 0 <= i < |fields| ==> Fields(r)[i] == fields[i];
    r
  }

  /** The configuration as the object the schema's parse returns. */
  function ToValue(c: McpConfig): Value
  {
    Obj([("transports", Obj(Fields(c.transports)))])
  }

  /** `MCPConfigSchema.safeParse`: rejects exactly what the schema does not
      describe; the parsed object keeps the `transports` record as it was
      and drops any other top-level field. */
  function ParseConfig(v: Value): (r: Slice)
    ensures r.Accepted? <==> IsMcpConfig(v)
    ensures r == Accepted(None) <==> v == Undefined
    ensures r.Accepted? && r.config.Some? ==> ToValue(r.config.value) == Obj([("transports", Get(v, "transports"))])
  {
    if v.Undefined? then Accepted(None)
    else if IsMcpConfig(v) then Accepted(Some(McpConfig(Entries(Get(v, "transports").fields))))
    else Rejected
  }

  /** Parsing the object a parse returned gives the same configuration back. */
  lemma ParseConfigRoundTrip(c: McpConfig)
    ensures ParseConfig(ToValue(c)) == Accepted(Some(c))
  {
    var fs := Fields(c.transports);
    assert Get(ToValue(c), "transports") == Obj(fs);
    assert IsMcpConfig(ToValue(c));
    var es := Entries(fs);
    assert |es| == |c.transports|;
    forall i | 0 <= i < |es| ensures es[i] == c.transports[i] {
      assert Fields(es)[i] == fs[i];
    }
    assert es == c.transports;
  }

  lemma AcceptsUndefined()
    ensures ParseConfig(Undefined) == Accepted(None)
  {
  }

  lemma AcceptsEmptyTransports()
    ensures ParseConfig(Obj([("transports", Obj([]))])) == Accepted(Some(McpConfig([])))
  {
  }

  lemma RejectsMissingTransports()
    ensures ParseConfig(Obj([])) == Rejected
  {
  }

  lemma RejectsNonObjectEntry()
    ensures ParseConfig(Obj([("transports", Obj([("server1", Str("invalid-config"))]))])) == Rejected
  {
    var v := Obj([("transports", Obj([("server1", Str("invalid-config"))]))]);
    assert Get(v, "transports").fields[0].1 == Str("invalid-config");
  }

  /** Any string `type` passes the schema, with any further fields, and the
      entry comes back unchanged. */
  lemma AcceptsAnyStringType(name: string, t: string, extra: seq<(string, Value)>)
    ensures var entry := Obj([("type", Str(t))] + extra);
      var v := Obj([("transports", Obj([(name, entry)]))]);
      ParseConfig(v).Accepted? && ParseConfig(v).config.Some? &&
      ToValue(ParseConfig(v).config.value) == v &&
      |ParseConfig(v).config.value.transports| == 1 &&
      ParseConfig(v).config.value.transports[0].0 == name &&
      ParseConfig(v).config.value.transports[0].1 == entry
  {
  }

  /** Registering every configured server in turn, stopping at the first that fails. */
  function InstallRun(libs: Libraries, verdict: Verdict, events: seq<HostEvent>,
                      transports: seq<(string, TransportConfig)>): Run
    decreases |transports|
  {
    if transports == [] then Run(events, None)
    else
      var r := RegisterRun(libs, verdict, transports[0].0, transports[0].1, events);
      if r.error.Some? then r else InstallRun(libs, verdict, r.events, transports[1..])
  }

  /** Everything `install` does, given the host's configuration and registry. */
  function Installed(libs: Libraries, settings: string -> Value, verdict: Verdict, events: seq<HostEvent>): Run
  {
    match ParseConfig(settings("mcp"))
    case Rejected => Run(events, Some(ConfigRejected("mcp")))
    case Accepted(None) => Run(events, None)
    case Accepted(Some(c)) => InstallRun(libs, verdict, events + [ServiceAdded("MCPService")], c.transports)
  }

  /** Without an `mcp` slice nothing is added and nothing is registered. */
  lemma InstallWithoutConfig(libs: Libraries, settings: string -> Value, verdict: Verdict, events: seq<HostEvent>)
    requires settings("mcp") == Undefined
    ensures Installed(libs, settings, verdict, events) == Run(events, None)
  {
  }

  /** Installing servers one after another only appends tool registrations. */
  lemma {:induction false} InstallRunExtends(libs: Libraries, verdict: Verdict, events: seq<HostEvent>,
                                             transports: seq<(string, TransportConfig)>)
    decreases |transports|
    ensures var r := InstallRun(libs, verdict, events, transports);
      |events| <= |r.events| && r.events[..|events|] == events &&
      forall i :: |events| <= i < |r.events| ==> r.events[i].ToolRegistered?
  {
    if transports != [] {
      RegisterRunExtends(libs, verdict, transports[0].0, transports[0].1, events);
      var r := RegisterRun(libs, verdict, transports[0].0, transports[0].1, events);
      if r.error.None? {
        InstallRunExtends(libs, verdict, r.events, transports[1..]);
        var r' := InstallRun(libs, verdict, r.events, transports[1..]);
        assert r'.events[..|events|] == r'.events[..|r.events|][..|events|];
      }
    }
  }

  /** With a configuration present, exactly one service is added, before any
      tool is registered; everything after it is a tool registration. */
  lemma AddsOneServiceFirst(libs: Libraries, settings: string -> Value, verdict: Verdict, events: seq<HostEvent>,
                            c: McpConfig)
    requires ParseConfig(settings("mcp")) == Accepted(Some(c))
    ensures var r := Installed(libs, settings, verdict, events);
      |events| < |r.events| && r.events[..|events|] == events &&
      r.events[|events|] == ServiceAdded("MCPService") &&
      forall i :: |events| < i < |r.events| ==> r.events[i].ToolRegistered?
  {
    var e' := events + [ServiceAdded("MCPService")];
    InstallRunExtends(libs, verdict, e', c.transports);
    var r := InstallRun(libs, verdict, e', c.transports);
    assert r.events[..|events|] == r.events[..|e'|][..|events|];
  }

  /** Servers are registered in configuration order: a run over the first
      `k` entries extends to `k + 1` by one more `register`, unless it
      already failed. */
  lemma {:induction false} InstallRunAppend(libs: Libraries, verdict: Verdict, events: seq<HostEvent>,
                                            a: seq<(string, TransportConfig)>, b: seq<(string, TransportConfig)>)
    decreases |a|
    ensures var r := InstallRun(libs, verdict, events, a);
      InstallRun(libs, verdict, events, a + b) == if r.error.Some? then r else InstallRun(libs, verdict, r.events, b)
  {
    if a == [] {
      assert a + b == b;
    } else {
      var r0 := RegisterRun(libs, verdict, a[0].0, a[0].1, events);
      assert (a + b)[0] == a[0];
      assert (a + b)[1..] == a[1..] + b;
      if r0.error.None? {
        InstallRunAppend(libs, verdict, r0.events, a[1..], b);
      }
    }
  }

  /** One `register` call per entry, in order: the first `k + 1` entries run
      as the first `k` followed by the `register` of entry `k`. */
  lemma {:induction false} InstallRunStep(libs: Libraries, verdict: Verdict, events: seq<HostEvent>,
                                          transports: seq<(string, TransportConfig)>, k: nat)
    requires k < |transports|
    ensures var r := InstallRun(libs, verdict, events, transports[..k]);
      InstallRun(libs, verdict, events, transports[..k + 1])
        == if r.error.Some? then r else RegisterRun(libs, verdict, transports[k].0, transports[k].1, r.events)
  {
    assert transports[..k + 1] == transports[..k] + [transports[k]];
    InstallRunAppend(libs, verdict, events, transports[..k], [transports[k]]);
  }

  /** Once the entry at `k` fails, later entries are never registered. */
  lemma {:induction false} InstallStopsAtFirstFailure(libs: Libraries, verdict: Verdict, events: seq<HostEvent>,
                                                     transports: seq<(string, TransportConfig)>, k: nat)
    requires k < |transports|
    requires InstallRun(libs, verdict, events, transports[..k + 1]).error.Some?
    ensures InstallRun(libs, verdict, events, transports) == InstallRun(libs, verdict, events, transports[..k + 1])
  {
    var done, rest := transports[..k + 1], transports[k + 1..];
    assert transports == done + rest;
    InstallRunAppend(libs, verdict, events, done, rest);
    var r := InstallRun(libs, verdict, events, done);
    assert InstallRun(libs, verdict, events, done + rest) == r;
  }

  /** A `type` the schema accepts but `register` does not know reaches the
      unknown-type error, after the service was added and before any tool
      is registered. */
  lemma UnknownTypeReachable(libs: Libraries, verdict: Verdict, events: seq<HostEvent>, name: string, t: string)
    requires t !in KnownTypes
    ensures var v := Obj([("transports", Obj([(name, Obj([("type", Str(t))]))]))]);
      ParseConfig(v).Accepted? && ParseConfig(v).config.Some? &&
      InstallRun(libs, verdict, events + [ServiceAdded("MCPService")], ParseConfig(v).config.value.transports)
        == Run(events + [ServiceAdded("MCPService")], Some(UnknownConnectionType(t)))
  {
  }

  /** `install`: reads the `mcp` slice, and when there is one adds an
      MCPService and registers each configured server with it, awaiting each
      registration before the next. */
  method Install(app: App, libs: Libraries) returns (err: Option<Error>)
    modifies app
    ensures Run(app.events, err) == Installed(libs, app.settings, app.verdict, old(app.events))
  {
    // app.getConfigSlice('mcp', MCPConfigSchema)
    var slice := ParseConfig(app.settings("mcp"));
    if slice.Rejected? {
      return Some(ConfigRejected("mcp"));
    }
    if slice.config.None? {
      return None;
    }
    var config := slice.config.value;
    var mcpService := new McpService();
    app.AddServices(mcpService.name);
    var i := 0;
    while i < |config.transports|
      invariant 0 <= i <= |config.transports|
      invariant Installed(libs, app.settings, app.verdict, old(app.events))
             == InstallRun(libs, app.verdict, app.events, config.transports[i..])
    {
      var (name, entry) := config.transports[i];
      err := mcpService.Register(name, entry, libs, app);
      if err.Some? {
        return;
      }
      assert config.transports[i..][1..] == config.transports[i + 1..];
      i := i + 1;
    }
    err := None;
  }
}
