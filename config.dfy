/** The config-entry normalizer of mcporter: each raw `mcpServers` entry of
    `config/mcp-runtime.json`, a record of optional and aliased fields, becomes a
    strict `ServerDefinition` whose transport is either HTTP or a stdio subprocess. */
module Config {
  import opened Wrappers

  type Headers = map<string, string>

  /** The `command` field accepts a single string or an array of strings. */
  datatype CommandField = Str(s: string) | Arr(items: seq<string>)

  /** One server entry as the permissive schema accepts it: every field optional,
      most of them with a camelCase and a snake_case spelling. */
  datatype RawEntry = RawEntry(
    description: Option<string>,
    baseUrl: Option<string>,
    base_url: Option<string>,
    url: Option<string>,
    serverUrl: Option<string>,
    server_url: Option<string>,
    command: Option<CommandField>,
    executable: Option<string>,
    args: Option<seq<string>>,
    headers: Option<Headers>,
    env: Option<map<string, string>>,
    auth: Option<string>,
    tokenCacheDir: Option<string>,
    token_cache_dir: Option<string>,
    clientName: Option<string>,
    client_name: Option<string>,
    bearerToken: Option<string>,
    bearer_token: Option<string>,
    bearerTokenEnv: Option<string>,
    bearer_token_env: Option<string>)

  /** How a server is reached. The URL is kept as the string it was parsed from. */
  datatype CommandSpec =
    | Http(url: string, headers: Option<Headers>)
    | Stdio(command: string, args: seq<string>, cwd: string)

  datatype ServerDefinition = ServerDefinition(
    name: string,
    description: Option<string>,
    command: CommandSpec,
    env: Option<map<string, string>>,
    auth: Option<string>,
    tokenCacheDir: Option<string>,
    clientName: Option<string>)

  /** What `getCommand` resolves: an executable and its argument list. */
  datatype StdioTarget = StdioTarget(command: string, args: seq<string>)

  datatype ConfigError =
    | MissingTransport(server: string)   // neither a URL nor a command resolved
    | InvalidUrl(url: string)            // `new URL` rejected the resolved URL
    | Unreadable(path: string)           // the file could not be read, parsed or validated

  datatype LoadOptions = LoadOptions(configPath: Option<string>, rootDir: Option<string>)

  /** The collaborators the normalizer calls but does not define: the process's
      working and home directories, `expandHome`, the `path` functions, the URL
      parser's verdict, and the file read with its JSON and schema validation (which
      yields the `mcpServers` entries in `Object.entries` order, or fails). */
  datatype Host = Host(
    cwd: string,
    homeDir: string,
    expandHome: string -> string,
    resolve: seq<string> -> string,
    join: seq<string> -> string,
    dirname: string -> string,
    isUrl: string -> bool,
    readConfig: string -> Option<seq<(string, RawEntry)>>)

  const Authorization := "Authorization"
  const OAuth := "oauth"
  const TokenCacheRoot := ".mcp-runtime"
  const DefaultConfigDir := "config"
  const DefaultConfigFile := "mcp-runtime.json"

  /** JavaScript truthiness of an optional string: present and non-empty. */
  predicate Truthy(o: Option<string>) {
    o.Some? && o.value != ""
  }

  /** `r` is the first present element of the alias chain `xs`, absent when all are. */
  ghost predicate FirstPresent(xs: seq<Option<string>>, r: Option<string>) {
    && (r.None? <==> forall i | 0 <= i < |xs| :: xs[i].None?)
    && (r.Some? ==> exists i | 0 <= i < |xs| :: xs[i] == r && forall j | 0 <= j < i :: xs[j].None?)
  }

  // ---------------------------------------------------------------- aliases

  function UrlAliases(raw: RawEntry): seq<Option<string>> {
    [raw.baseUrl, raw.base_url, raw.url, raw.serverUrl, raw.server_url]
  }

  /** getUrl: the first URL alias that is present, even when it is empty. */
  function GetUrl(raw: RawEntry): (r: Option<string>)
    ensures FirstPresent(UrlAliases(raw), r)
  {
    // The source lists base_url a second time at the end of the chain; that
    // alternative is never reached.
    var r := raw.baseUrl.OrElse(raw.base_url).OrElse(raw.url).OrElse(raw.serverUrl)
               .OrElse(raw.server_url).OrElse(raw.base_url);
    assert r.Some? ==> exists i | 0 <= i < 5 :: UrlAliases(raw)[i] == r && forall j | 0 <= j < i :: UrlAliases(raw)[j].None? by {
      if raw.baseUrl.Some? { assert UrlAliases(raw)[0] == r; }
      else if raw.base_url.Some? { assert UrlAliases(raw)[1] == r; }
      else if raw.url.Some? { assert UrlAliases(raw)[2] == r; }
      else if raw.serverUrl.Some? { assert UrlAliases(raw)[3] == r; }
      else if raw.server_url.Some? { assert UrlAliases(raw)[4] == r; }
    }
    r
  }

  function BearerToken(raw: RawEntry): (r: Option<string>)
    ensures FirstPresent([raw.bearerToken, raw.bearer_token], r)
  {
    var r := raw.bearerToken.OrElse(raw.bearer_token);
    assert r.Some? ==> if raw.bearerToken.Some? then [raw.bearerToken, raw.bearer_token][0] == r
                       else [raw.bearerToken, raw.bearer_token][1] == r;
    r
  }

  function BearerTokenEnv(raw: RawEntry): (r: Option<string>)
    ensures FirstPresent([raw.bearerTokenEnv, raw.bearer_token_env], r)
  {
    var r := raw.bearerTokenEnv.OrElse(raw.bearer_token_env);
    assert r.Some? ==> if raw.bearerTokenEnv.Some? then [raw.bearerTokenEnv, raw.bearer_token_env][0] == r
                       else [raw.bearerTokenEnv, raw.bearer_token_env][1] == r;
    r
  }

  function ConfiguredTokenCacheDir(raw: RawEntry): (r: Option<string>)
    ensures FirstPresent([raw.tokenCacheDir, raw.token_cache_dir], r)
  {
    var r := raw.tokenCacheDir.OrElse(raw.token_cache_dir);
    assert r.Some? ==> if raw.tokenCacheDir.Some? then [raw.tokenCacheDir, raw.token_cache_dir][0] == r
                       else [raw.tokenCacheDir, raw.token_cache_dir][1] == r;
    r
  }

  function ClientName(raw: RawEntry): (r: Option<string>)
    ensures FirstPresent([raw.clientName, raw.client_name], r)
  {
    var r := raw.clientName.OrElse(raw.client_name);
    assert r.Some? ==> if raw.clientName.Some? then [raw.clientName, raw.client_name][0] == r
                       else [raw.clientName, raw.client_name][1] == r;
    r
  }

  // ---------------------------------------------------------------- command

  /** getCommand: `command ?? executable`; an array gives head and tail (and the
      separate `args` is ignored), a non-empty string takes `args` (or none). */
  function GetCommand(raw: RawEntry): (r: Option<StdioTarget>)
    ensures r.None? <==> match raw.command
                         case Some(Arr(items)) => items == []
                         case Some(Str(s)) => s == ""
                         case None => !Truthy(raw.executable)
    ensures r.Some? ==> match raw.command
                        case Some(Arr(items)) => [r.value.command] + r.value.args == items
                        case Some(Str(s)) => r.value == StdioTarget(s, raw.args.GetOr([]))
                        case None => r.value == StdioTarget(raw.executable.value, raw.args.GetOr([]))
  {
    var commandValue := raw.command.OrElse(if raw.executable.Some? then Some(Str(raw.executable.value)) else None);
    match commandValue
    case Some(Arr(items)) =>
      if |items| == 0 then None else Some(StdioTarget(items[0], items[1..]))
    case Some(Str(s)) =>
      if |s| > 0 then Some(StdioTarget(s, raw.args.GetOr([]))) else None
    case None => None
  }

  // ---------------------------------------------------------------- headers

  /** The value the bearer fields force on `Authorization`, if any: the
      environment form is applied last, so it beats a literal token. */
  function AuthorizationOverride(raw: RawEntry): Option<string> {
    var token := BearerToken(raw);
    var tokenEnv := BearerTokenEnv(raw);
    if Truthy(tokenEnv) then Some("$env:" + tokenEnv.value)
    else if Truthy(token) then Some("Bearer " + token.value)
    else None
  }

  /** The headers an HTTP server gets: the explicit headers with `Authorization`
      overridden by the bearer fields, absent when nothing is left. */
  function HeadersOf(raw: RawEntry): (r: Option<Headers>)
    ensures r.Some? ==> r.value != map[]
    ensures r.None? <==> raw.headers.GetOr(map[]) == map[] && !Truthy(BearerToken(raw)) && !Truthy(BearerTokenEnv(raw))
    ensures forall k | k != Authorization ::
      && (k in r.GetOr(map[]) <==> k in raw.headers.GetOr(map[]))
      && (k in raw.headers.GetOr(map[]) ==> r.GetOr(map[])[k] == raw.headers.GetOr(map[])[k])
    ensures Truthy(BearerTokenEnv(raw)) ==>
      r.Some? && Authorization in r.value && r.value[Authorization] == "$env:" + BearerTokenEnv(raw).value
    ensures !Truthy(BearerTokenEnv(raw)) && Truthy(BearerToken(raw)) ==>
      r.Some? && Authorization in r.value && r.value[Authorization] == "Bearer " + BearerToken(raw).value
    ensures !Truthy(BearerTokenEnv(raw)) && !Truthy(BearerToken(raw)) ==>
      && (Authorization in r.GetOr(map[]) <==> Authorization in raw.headers.GetOr(map[]))
      && (Authorization in raw.headers.GetOr(map[]) ==>
            r.GetOr(map[])[Authorization] == raw.headers.GetOr(map[])[Authorization])
  {
    var explicit := raw.headers.GetOr(map[]);
    match AuthorizationOverride(raw)
    case Some(value) =>
      assert Authorization in explicit[Authorization := value];
      Some(explicit[Authorization := value])
    case None => if explicit == map[] then None else Some(explicit)
  }

  /** buildHeaders, step by step on a local dictionary as the source does it. */
  method BuildHeaders(raw: RawEntry) returns (result: Option<Headers>)
    ensures result == HeadersOf(raw)
  {
    var headers: Headers := map[];
    if raw.headers.Some? {
      headers := headers + raw.headers.value;
      assert headers == raw.headers.value;
    }
    ghost var explicit := headers;
    var bearerToken := BearerToken(raw);
    if Truthy(bearerToken) {
      headers := headers[Authorization := "Bearer " + bearerToken.value];
    }
    var bearerTokenEnv := BearerTokenEnv(raw);
    if Truthy(bearerTokenEnv) {
      headers := headers[Authorization := "$env:" + bearerTokenEnv.value];
      assert headers == explicit[Authorization := "$env:" + bearerTokenEnv.value];
    }
    if |headers| > 0 {
      result := Some(headers);
    } else {
      assert headers == map[];
      result := None;
    }
  }

  // ---------------------------------------------------------------- auth and paths

  function LowerChar(c: char): char {
    if 'A' <= c <= 'Z' then (c as int + 32) as char else c
  }

  /** `toLowerCase` on the ASCII letters. */
  function ToLower(s: string): (r: string)
    ensures |r| == |s|
    ensures forall i | 0 <= i < |s| :: r[i] == LowerChar(s[i])
  {
    seq(|s|, i requires 0 <= i < |s| => LowerChar(s[i]))
  }

  /** `s` spells "oauth" in any mixture of upper and lower case. */
  predicate SpellsOAuth(s: string) {
    |s| == 5 && forall i | 0 <= i < 5 :: s[i] == OAuth[i] || s[i] == "OAUTH"[i]
  }

  lemma LowerCharIsLetter(c: char, lower: char, upper: char)
    requires 'a' <= lower <= 'z' && upper as int == lower as int - 32
    ensures LowerChar(c) == lower <==> c == lower || c == upper
  {
  }

  /** normalizeAuth: only a case-insensitive "oauth" is recognised. */
  function NormalizeAuth(auth: Option<string>): (r: Option<string>)
    ensures r.Some? ==> r.value == OAuth
    ensures r.Some? <==> auth.Some? && SpellsOAuth(auth.value)
  {
    if !Truthy(auth) then None
    else
      var s := auth.value;
      assert ToLower(s) == OAuth <==> SpellsOAuth(s) by {
        if |s| == 5 {
          forall i | 0 <= i < 5
            ensures LowerChar(s[i]) == OAuth[i] <==> s[i] == OAuth[i] || s[i] == "OAUTH"[i]
          {
            LowerCharIsLetter(s[i], OAuth[i], "OAUTH"[i]);
          }
          if SpellsOAuth(s) {
            assert ToLower(s) == OAuth;
          }
        }
      }
      if ToLower(s) == OAuth then Some(OAuth) else None
  }

  /** normalizePath: a missing or empty path is dropped, otherwise `~` is expanded. */
  function NormalizePath(input: Option<string>, expandHome: string -> string): (r: Option<string>)
    ensures r.Some? <==> Truthy(input)
    ensures r.Some? ==> r.value == expandHome(input.value)
  {
    if !Truthy(input) then None else Some(expandHome(input.value))
  }

  /** resolveConfigPath: a non-empty explicit path, otherwise
      `<rootDir>/config/mcp-runtime.json`; either way made absolute. */
  function ResolveConfigPath(configPath: Option<string>, rootDir: string, resolve: seq<string> -> string): (r: string)
    ensures Truthy(configPath) ==> r == resolve([configPath.value])
    ensures !Truthy(configPath) ==> r == resolve([rootDir, DefaultConfigDir, DefaultConfigFile])
  {
    if Truthy(configPath) then resolve([configPath.value])
    else resolve([rootDir, DefaultConfigDir, DefaultConfigFile])
  }

  /** The config path `loadServerDefinitions` reads: `rootDir` defaults to the process's cwd. */
  function ConfigPath(options: LoadOptions, host: Host): string {
    ResolveConfigPath(options.configPath, options.rootDir.GetOr(host.cwd), host.resolve)
  }

  /** The message thrown for an entry with no transport; it names the server. */
  function MissingTransportMessage(name: string): (m: string)
    ensures |m| > 8 + |name| && m[8..8 + |name|] == name
  {
    "Server '" + name + "' is missing a baseUrl/url or command definition in mcp-runtime.json"
  }

  /** The text an error carries where the normalizer writes it; the messages of
      errors thrown by `new URL` and the file read come from the platform. */
  function ErrorMessage(e: ConfigError): (m: Option<string>)
    ensures m.Some? <==> e.MissingTransport?
    ensures e.MissingTransport? ==> |m.value| > 8 + |e.server| && m.value[8..8 + |e.server|] == e.server
  {
    match e
    case MissingTransport(server) => Some(MissingTransportMessage(server))
    case InvalidUrl(_) => None
    case Unreadable(_) => None
  }

  // ---------------------------------------------------------------- one entry

  /** normalizeServerEntry: HTTP when a URL resolves to a non-empty string, else
      stdio when a command resolves, else an error naming the server. */
  function NormalizeServerEntry(name: string, raw: RawEntry, baseDir: string, host: Host)
    : (r: Result<ServerDefinition, ConfigError>)
    ensures r.Ok? ==> r.value.name == name && r.value.description == raw.description && r.value.env == raw.env
    ensures r.Ok? ==> FirstPresent([raw.clientName, raw.client_name], r.value.clientName)
    ensures r.Ok? ==> (r.value.auth.Some? <==> raw.auth.Some? && SpellsOAuth(raw.auth.value))
    ensures r.Ok? && r.value.auth.Some? ==>
      r.value.auth.value == OAuth && r.value.tokenCacheDir == Some(host.join([host.homeDir, TokenCacheRoot, name]))
    ensures r.Ok? && r.value.auth.None? ==>
      r.value.tokenCacheDir == NormalizePath(ConfiguredTokenCacheDir(raw), host.expandHome)
    ensures Truthy(GetUrl(raw)) ==>
      if host.isUrl(GetUrl(raw).value) then r.Ok? && r.value.command == Http(GetUrl(raw).value, HeadersOf(raw))
      else r == Err(InvalidUrl(GetUrl(raw).value))
    ensures !Truthy(GetUrl(raw)) && GetCommand(raw).Some? ==>
      r.Ok? && r.value.command == Stdio(GetCommand(raw).value.command, GetCommand(raw).value.args, baseDir)
    ensures !Truthy(GetUrl(raw)) && GetCommand(raw).None? ==> r == Err(MissingTransport(name))
  {
    var auth := NormalizeAuth(raw.auth);
    var tokenCacheDir := NormalizePath(ConfiguredTokenCacheDir(raw), host.expandHome);
    var httpUrl := GetUrl(raw);
    var stdio := GetCommand(raw);
    var command :=
      if Truthy(httpUrl) then
        if host.isUrl(httpUrl.value) then Ok(Http(httpUrl.value, HeadersOf(raw)))
        else Err(InvalidUrl(httpUrl.value))
      else if stdio.Some? then Ok(Stdio(stdio.value.command, stdio.value.args, baseDir))
      else Err(MissingTransport(name));
    if command.Err? then Err(command.error)
    else
      var resolvedTokenCacheDir :=
        if auth == Some(OAuth) then Some(host.join([host.homeDir, TokenCacheRoot, name])) else tokenCacheDir;
      Ok(ServerDefinition(name, raw.description, command.value, raw.env, auth, resolvedTokenCacheDir, ClientName(raw)))
  }

  // ---------------------------------------------------------------- the load loop

  /** loadServerDefinitions: one definition per entry, in order, with stdio servers
      run from the config file's directory; the first failing entry aborts the load. */
  method LoadServerDefinitions(options: LoadOptions, host: Host) returns (r: Result<seq<ServerDefinition>, ConfigError>)
    ensures host.readConfig(ConfigPath(options, host)).None? ==> r == Err(Unreadable(ConfigPath(options, host)))
    ensures r.Ok? ==> host.readConfig(ConfigPath(options, host)).Some?
    ensures r.Ok? ==>
      var entries := host.readConfig(ConfigPath(options, host)).value;
      && |r.value| == |entries|
      && forall i | 0 <= i < |entries| ::
           && r.value[i].name == entries[i].0
           && NormalizeServerEntry(entries[i].0, entries[i].1, host.dirname(ConfigPath(options, host)), host) == Ok(r.value[i])
    ensures r.Err? && host.readConfig(ConfigPath(options, host)).Some? ==>
      var entries := host.readConfig(ConfigPath(options, host)).value;
      exists i | 0 <= i < |entries| ::
        && NormalizeServerEntry(entries[i].0, entries[i].1, host.dirname(ConfigPath(options, host)), host) == Err(r.error)
        && forall j | 0 <= j < i :: NormalizeServerEntry(entries[j].0, entries[j].1, host.dirname(ConfigPath(options, host)), host).Ok?
  {
    var configPath := ConfigPath(options, host);
    var raw := host.readConfig(configPath);
    if raw.None? {
      return Err(Unreadable(configPath));
    }
    var entries := raw.value;
    var baseDir := host.dirname(configPath);

    var servers: seq<ServerDefinition> := [];
    for i := 0 to |entries|
      invariant |servers| == i
      invariant forall j | 0 <= j < i ::
        && servers[j].name == entries[j].0
        && NormalizeServerEntry(entries[j].0, entries[j].1, baseDir, host) == Ok(servers[j])
    {
      var (name, entry) := entries[i];
      var definition := NormalizeServerEntry(name, entry, baseDir, host);
      if definition.Err? {
        return Err(definition.error);
      }
      servers := servers + [definition.value];
    }
    return Ok(servers);
  }
}
