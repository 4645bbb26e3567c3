/** plugin.ts: the plugin object's `install`, which repeats the install
    logic of index.ts against the schema index.ts exports. */
module Plugin {
  import opened Values
  import opened Host
  import opened Mcp
  import opened Index

  /** `install`: reads the `mcp` slice with `MCPConfigSchema`; when present,
      adds one MCPService before anything else and awaits `register` for
      each configured server in order, stopping at the first failure. */
  method Install(app: App, libs: Libraries) returns (err: Option<Error>)
    modifies app
    ensures Run(app.events, err) == Installed(libs, app.settings, app.verdict, old(app.events))
  {
    // app.getConfigSlice('mcp', MCPConfigSchema)
    var slice := ParseConfig(app.settings("mcp"));
    if slice.Rejected? {
      return Some(ConfigRejected("mcp"));
    }
    if slice.config.None? {
      return None;
    }
    var config := slice.config.value;
    var mcpService := new McpService();
    app.AddServices(mcpService.name);
    var i := 0;
    while i < |config.transports|
      invariant 0 <= i <= |config.transports|
      invariant Installed(libs, app.settings, app.verdict, old(app.events))
             == InstallRun(libs, app.verdict, app.events, config.transports[i..])
    {
      var (name, entry) := config.transports[i];
      err := mcpService.Register(name, entry, libs, app);
      if err.Some? {
        return;
      }
      assert config.transports[i..][1..] == config.transports[i + 1..];
      i := i + 1;
    }
    err := None;
  }
}
