/** The gateway's configuration entities, as every other module sees them. */
module ConfigModel {

  /** A configuration is identified by its tenant and name. */
  datatype Key = Key(tenant: string, name: string)

  /** `settings` stands for the fields the index only passes on: CORS, authentication, the SSE prefix. */
  datatype Router = Router(server: string, prefix: string, settings: string)

  /** `settings` stands for the fields the index only passes on: description and configuration. */
  datatype HttpServer = HttpServer(name: string, allowedTools: seq<string>, settings: string)

  /** `definition` stands for the fields of a tool the index only passes on. */
  datatype Tool = Tool(name: string, definition: string)

  datatype Discovery = Discovery(enabled: bool, registry: string, serviceName: string)

  /** `settings` stands for the fields transport reuse does not look at: environment, policy, load balancing. */
  datatype McpServer = McpServer(kind: string, name: string, command: string, args: seq<string>, url: string,
                                 discovery: Discovery, settings: string)

  /** The part of a configuration the store serialises and hashes; `prompts` stands for all its prompts. */
  datatype Body = Body(routers: seq<Router>, servers: seq<HttpServer>, tools: seq<Tool>, mcpServers: seq<McpServer>,
                       prompts: string)

  datatype Config = Config(key: Key, body: Body)

  /** What a row of the version log tells the gateway: a new body, or (`deleted`) that the configuration is gone. */
  datatype Change = Change(config: Config, deleted: bool)
}
