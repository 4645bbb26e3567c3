# MCP adapter for the TokenRing host — a verified model

The `@tokenring-ai/mcp` package connects a TokenRing application to Model
Context Protocol (MCP) servers. Its plugin reads the `mcp` configuration
slice, adds one `MCPService` to the application, and asks that service to
`register` every configured server. `register` picks a transport from the
server's `type` (`stdio`, `sse` or `http`), opens a protocol client over
it, asks the client for its tools, and registers each tool with the host's
tool registry.

This project models that core in Dafny:

- `values.dfy` (module `Values`): JavaScript values as the configuration
  and tool descriptors carry them, property lookup, and the errors of the
  install path.
- `host.dfy` (module `Host`): the host application as the adapter sees it.
  `App` holds the configuration slices, the registry's acceptance rule, and
  one ordered record of what the host observed (services added, tools
  registered). A registry call either records its registration or throws.
- `mcp_service.dfy` (module `Mcp`): `MCPService.ts`. `SelectTransport` is the
  transport switch. `McpService.Register` is the publish loop, proved equal
  to the specification `RegisterRun`. `PublishRun` and `Publications` state
  what the loop issues, and lemmas state the properties of each.
- `index.dfy` (module `Index`): `index.ts`. It holds the configuration
  schema as a predicate and a parse function, the install specification
  (`Installed`, `InstallRun`) with its lemmas, and `Install` itself.
- `plugin.dfy` (module `Plugin`): `plugin.ts`. Its `install` repeats the
  one in `index.ts` and uses the schema that `index.ts` exports. It is
  proved against the same specification.

The client library, URL parsing and the registry's decision to accept or
throw lie outside the adapter. They are parameters: `Libraries` for the
first two, `App.verdict` for the third. Every `await` is one sequential
step.

## Source and tests disagree on registry keys

`MCPService.ts:46` builds the registry key from the template
`` `${name}/toolName` ``. The text `toolName` is literal there, so every tool
of one server gets the key `<server>/toolName`. `MCPService.ts:47` sets the
registered `name` to `mcp/<toolName>`. The tests expect `<server>/<tool>`
for both (`MCPService.test.ts:103-110`). They also expect the calls to go
through `requireService` and `registerTool`, which the source never calls.
This model follows the source: `ToolKey` is the key as written, and
`ToolKeysCollide` shows that all keys of one server are equal.
`IntendedToolKey` is the key the tests expect. `IntendedToolKeysDistinct`
shows that it would tell one server's tools apart.

## Model

| member | source | states |
|---|---|---|
| `Mcp.SelectTransport` | MCPService.ts:26-38 | The transport's kind equals the config's `type`, and the transport is built from the config object unchanged. `sse` and `http` use the URL that `new URL(config.url)` gives. The call fails exactly when the `type` is unknown or the URL does not parse. An unknown `type` gives `UnknownConnectionType(type)`, whose message is `"Unknown connection type " + type`. A URL that does not parse gives `InvalidUrl`. |
| `Mcp.McpService.constructor` | MCPService.ts:19-21 | The service's name is `MCPService`, and its description is `Service for MCP (Model Context Protocol) servers`. |
| `Mcp.McpService.Register` | MCPService.ts:24-55 | What the host observes afterwards and the error returned are exactly `RegisterRun` of the old host state: dispatch, client creation, tool discovery, then one registry call per tool until the first one throws. |
| `Mcp.Publications` | MCPService.ts:44-54 | There is one registration per discovered tool, in the client's order. Each uses the as-written key and the name `mcp/<toolName>`, and copies `inputSchema`, `execute` and `description` unchanged. |
| `Mcp.PublishRunExtends` | MCPService.ts:44-54 | The registry record only grows. What it gains is the accepted prefix of the registrations, in order, and a run without error gains all of them. |
| `Mcp.PublishRunAllAccepted` | MCPService.ts:44-54 | When the registry accepts every call, each registration is recorded exactly once, in order, and there is no error. |
| `Mcp.PublishRunStopsAt` | MCPService.ts:44-46 | When the registry throws on call k, calls before k stay recorded and later calls are never issued. The run fails with that error. |
| `Mcp.UnknownTypeFailsFirst` | MCPService.ts:36-37 | An unknown `type` fails with `UnknownConnectionType(type)` before any client is created and before any tool is registered. |
| `Mcp.DiscoveryFailurePropagates` | MCPService.ts:41-42 | If creating the client or listing its tools throws, `register` fails with that same error and the registry gets no call. |
| `Mcp.RegisterPublishesEveryTool` | MCPService.ts:41-54 | After a successful discovery where every call is accepted, the registry receives exactly the registrations of the discovered tools, in order. |
| `Mcp.RegisterRunExtends` | MCPService.ts:24-55 | A `register` call keeps what the host already observed. It appends only tool registrations. |
| `Mcp.ToolKeysCollide` | MCPService.ts:46 | Two tools of the same server get the same key, whatever their names. |
| `Mcp.ToolKeysSeparateServers` | MCPService.ts:46 | Tools of two different servers never share a key. |
| `Mcp.ToolKeyIsNotTheTestedKey` | MCPService.test.ts:103-110 | The key produced for `test-tool` on `test-server` is not the `test-server/test-tool` that the test asserts. The intended key is that string. |
| `Mcp.IntendedToolKeysDistinct` | MCPService.test.ts:173-208 | The `<server>/<tool>` key the tests expect gives different tools of one server different keys. |
| `Index.ParseConfig` | index.ts:8-10 | The schema accepts exactly what `IsMcpConfig` describes: `undefined`, or an object whose `transports` is a record of objects that each have a string `type`. The result has no configuration exactly when the input is `undefined`. The parsed object keeps the `transports` record unchanged. |
| `Index.ParseConfigRoundTrip` | index.ts:8-10 | Parsing the object that a parse returns gives the same configuration back. |
| `Index.AcceptsUndefined` | index.ts:10 | `undefined` is accepted and yields no configuration. |
| `Index.AcceptsEmptyTransports` | index.ts:9 | `{transports: {}}` is accepted and yields a configuration with no servers. |
| `Index.RejectsMissingTransports` | index.ts:8-9 | An object without `transports` is rejected. |
| `Index.RejectsNonObjectEntry` | index.ts:9 | A transport entry that is a string is rejected. |
| `Index.AcceptsAnyStringType` | index.ts:9 | An entry with any string `type` and any further fields is accepted and returned unchanged. |
| `Index.UnknownTypeReachable` | index.ts:9 | A configuration with an unknown `type` passes the schema. Installing it then ends in `UnknownConnectionType(type)`, after the service is added and before any tool is registered. |
| `Index.InstallWithoutConfig` | index.ts:18-19 | With no `mcp` slice, install adds no service, registers nothing and succeeds. |
| `Index.AddsOneServiceFirst` | index.ts:19-25 | With a configuration present, even one with no servers, exactly one `MCPService` is added. It comes before every tool registration, and everything after it is a tool registration. |
| `Index.InstallRunExtends` | index.ts:23-25 | Registering the configured servers keeps what the host already observed. It appends only tool registrations. |
| `Index.InstallRunAppend` | index.ts:23-25 | Running entries `a + b` means running `a`, then `b` from where `a` left off, unless `a` failed. |
| `Index.InstallRunStep` | index.ts:23-25 | Entry k is handled by one `register(name, entry)` with its own name and value. That call comes after the first k entries, and only if none of them failed. |
| `Index.InstallStopsAtFirstFailure` | index.ts:23-25 | Once entry k fails, later entries have no effect, and install ends with that failure. |
| `Index.Install` | index.ts:17-27 | What the host observes afterwards and the error returned are exactly `Installed`: the `mcp` slice is read with `MCPConfigSchema`, and when present the service is added and the servers are registered in order. |
| `Plugin.Install` | plugin.ts:14-24 | The same specification, `Installed`, for the plugin object's `install`. |

## Left out

- Asynchrony: every `await` is one sequential step. Concurrent `register` calls and their races on the registry are not modelled.
- The MCP client library: transport wire protocols, `experimental_createMCPClient`, `client.tools()` and the tools' `execute` functions. They are the functions in `Libraries`. A tool's `execute` is an opaque identity (`ExecuteRef`), and its input schema is an opaque `Value`.
- `new URL(...)`, the URL parser of the WHATWG URL Standard (section 4.4, URL parsing), is the oracle `Libraries.parseUrl`. That oracle also covers how a non-string `url` (such as `undefined`) is converted to text. The message `Invalid URL` is the one Node.js uses.
- Oracles are functions. The same transport always gives the same client outcome, and the registry's verdict depends only on what the host observed before the call.
- Iteration order: `for...in` is taken to follow the sequence order of the tool list and of the `transports` record. JavaScript visits integer-like keys first, and that reordering is not modelled. Inherited enumerable properties are not modelled.
- JavaScript objects are lists of fields. The model does not enforce distinct keys, and lookup returns the first match.
- Numbers are integers only. Floating point is not modelled.
- zod internals. Only the predicate that `MCPConfigSchema` declares is modelled, including that it drops unknown top-level fields. The key order of a parsed loose object is not modelled.
- What `getConfigSlice` does with a slice its schema rejects is host behaviour not shown here. The model makes it an install failure, `ConfigRejected("mcp")`, with no other effect.
- The protocol client is never closed in the source. The model has no connection lifetime.
- `MCPTransportConfigSchema`, which configuration.test.ts imports, is not part of this model: `MCPService.ts` does not define it.
- Package metadata (`name`, `version`, `description` from package.json) and the unused `agent` field of `MCPService` are not modelled.
