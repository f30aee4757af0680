# mcporter config-entry normalizer, in Dafny

This project models how mcporter turns the `mcpServers` section of
`config/mcp-runtime.json` into `ServerDefinition` records (`src/config.ts`).

- Each raw entry has optional, aliased fields. The model keeps the JSON keys as its field names
  (`RawEntry`, one `Option` per field). `command` is `Str(string) | Arr(seq<string>)`. Headers
  and env are maps.
- Alias chains use JavaScript's `??`, modelled as `Option.OrElse`. The first *present* alias
  wins, even when it holds an empty string. Truthiness (`Truthy`: present and non-empty) is
  checked only after the chain has picked a value.
- Transport selection: a truthy URL gives an `Http` spec. Otherwise a resolved command gives a
  `Stdio` spec whose `cwd` is the config file's directory. Otherwise the entry fails with
  `MissingTransport(name)`.
- Headers: the explicit headers are copied first. `Authorization` is then overwritten by
  `Bearer <token>` and, after that, by `$env:<name>`. The result is absent exactly when nothing
  is left.
- Auth: only a case-insensitive `oauth` counts. It forces the token cache to
  `<home>/.mcp-runtime/<name>`. Otherwise the cache is the configured directory with `~`
  expanded, or absent.
- The load loop yields one definition per entry, in order, named by the entry key. The first
  failing entry aborts the load.

Several behaviours come from outside `src/config.ts`. They are fields of the `Host` datatype:

- the process's working directory and `os.homedir()`;
- `expandHome` (from `src/env.ts`, which is not part of this model);
- `path.resolve`, `path.join` and `path.dirname`;
- whether `new URL` accepts a string;
- `readConfigFile`, which reads the file, parses the JSON and validates it against the schema.
  It yields the entries in `Object.entries` order, or fails.

The proofs hold for every choice of these functions.

Files:

- `wrappers.dfy`: `Option` (with `OrElse` for `??`) and `Result`.
- `config.dfy`: module `Config`, with the data model, every operation and the load loop.
- `config_properties.dfy`: module `ConfigProperties`, with the precedence and override rules
  stated on raw fields.

Points where the code's behaviour is easy to misread:

- **Missing default config.** `tests/config-missing.test.ts:40-48` expects a missing file at
  the default path to give an empty list. The shown `readConfigFile` (`src/config.ts:94-99`)
  does not catch the read error, so `LoadServerDefinitions` returns `Err(Unreadable(path))`
  for an unreadable file whether or not the path was explicit. The fallback the test expects
  lives in code that is not part of this model, or the test is ahead of the code.
- **Missing `mcpServers` key.** The schema requires the key (`src/config.ts:32-34`), so such a
  file fails validation; this is the `Unreadable` case, not an empty list.
- **Token cache without oauth.** The configured directory is kept when auth is not oauth
  (`src/config.ts:137-140`); only oauth replaces it.
- **Empty values.** Each alias chain takes the first *present* alias (`??`,
  `src/config.ts:170-180`), so an empty `baseUrl`, `command`, `bearerToken` or
  `bearerTokenEnv` hides the later spellings and is then rejected by the truthiness test.
- **Empty explicit config path.** An explicit `configPath` of `""` counts as absent
  (`if (configPath)`, line 88), so the default path is used. `rootDir` uses `??`, so an empty
  `rootDir` is kept.

## Model

| member | source | states |
|---|---|---|
| `Config.GetUrl` | src/config.ts:170-180 | the URL is the first present alias of baseUrl, base_url, url, serverUrl, server_url; absent iff all are absent |
| `Config.BearerToken` | src/config.ts:208 | the literal token is the first present of bearerToken, bearer_token |
| `Config.BearerTokenEnv` | src/config.ts:213 | the token variable name is the first present of bearerTokenEnv, bearer_token_env |
| `Config.ConfiguredTokenCacheDir` | src/config.ts:109 | the configured cache dir is the first present of tokenCacheDir, token_cache_dir |
| `Config.ClientName` | src/config.ts:110 | the client name is the first present of clientName, client_name |
| `Config.GetCommand` | src/config.ts:182-197 | no command iff the chosen value is an empty array, an empty string, or missing; an array command is rebuilt exactly by head and tail; a scalar command or executable takes `args` or `[]` |
| `Config.HeadersOf` | src/config.ts:199-219 | every key other than Authorization is exactly as the explicit headers have it; Authorization is `$env:<name>` when the env name is truthy, else `Bearer <token>` when the token is truthy, else the explicit value; absent iff the result would be empty |
| `Config.BuildHeaders` | src/config.ts:199-219 | the step-by-step dictionary updates yield exactly `HeadersOf` |
| `Config.ToLower` | src/config.ts:157 | lowercasing keeps the length and maps every character through ASCII lowercasing |
| `Config.NormalizeAuth` | src/config.ts:153-161 | gives "oauth" exactly when the input spells oauth in any case, and absent otherwise (empty and missing included) |
| `Config.NormalizePath` | src/config.ts:163-168 | absent iff the input is missing or empty; otherwise the home-expanded input |
| `Config.ResolveConfigPath` | src/config.ts:84-92 | a non-empty explicit path is resolved alone; otherwise `<rootDir>/config/mcp-runtime.json` is resolved |
| `Config.MissingTransportMessage` | src/config.ts:132-134 | the error message contains the server's name |
| `Config.ErrorMessage` | src/config.ts:131-134 | the normalizer writes a message exactly for the missing-transport error, and it names the server that `MissingTransport` carries |
| `Config.NormalizeServerEntry` | src/config.ts:101-151 | name, description and env are kept; the client name follows its alias chain; auth is oauth iff spelt so; under oauth the cache dir is `<home>/.mcp-runtime/<name>`, otherwise the normalized configured dir; a truthy URL gives Http with that URL and `HeadersOf`, or InvalidUrl if it does not parse; else a command gives Stdio with cwd = baseDir; else MissingTransport(name) |
| `Config.LoadServerDefinitions` | src/config.ts:66-82 | an unreadable config fails; success yields one definition per entry, in order, named by the entry key, each the normalization of its entry with baseDir the config file's directory; a failure carries the error of the first failing entry, all earlier ones having succeeded |
| `ConfigProperties.FirstPresentIsThatAlias` | src/config.ts:170-180 | the alias chosen by a `??` chain is the first present one |
| `ConfigProperties.UrlWinsOverCommand` | src/config.ts:113-124 | the first set URL alias, when non-empty and parsable, gives an Http spec with that URL even if a command is present |
| `ConfigProperties.EmptyBaseUrlHidesLaterAliases` | src/config.ts:118 | an empty baseUrl makes the entry normalize as if no URL alias were set |
| `ConfigProperties.EmptyCommandHidesExecutable` | src/config.ts:185 | an empty string command resolves no command even with an executable, and without a URL the entry fails with MissingTransport(name) |
| `ConfigProperties.ArrayCommandIgnoresArgs` | src/config.ts:186-190 | an array command ignores `args` and `executable`; empty resolves nothing, otherwise head and tail |
| `ConfigProperties.PythonArrayCommand` | src/config.ts:186-190 | `["python3","server.py","--flag"]` gives Stdio("python3", ["server.py","--flag"], baseDir) despite a sibling args |
| `ConfigProperties.ArrayCommandWithEmptyHead` | src/config.ts:187 | `[""]` is accepted as a stdio command with an empty executable |
| `ConfigProperties.ScalarCommandTakesArgs` | src/config.ts:192-196 | a non-empty scalar command or executable gives Stdio with `args` or `[]`, cwd = baseDir |
| `ConfigProperties.EmptyBearerAliasesHideSnakeCase` | src/config.ts:208-215 | an empty camelCase bearer field makes its snake_case spelling irrelevant |
| `ConfigProperties.EnvTokenBeatsLiteralToken` | src/config.ts:209-216 | with both a token and an env name set, Authorization is `$env:<name>` whatever the explicit headers |
| `ConfigProperties.HeaderFieldsIrrelevantForStdio` | src/config.ts:118-130 | without a truthy URL, the headers and all four bearer fields (both spellings of each) do not affect the result |
| `ConfigProperties.OAuthIgnoresConfiguredCacheDir` | src/config.ts:137-140 | under oauth the configured cache dirs have no effect and the cache is `<home>/.mcp-runtime/<name>` |
| `ConfigProperties.AuthSpellings` | src/config.ts:153-161 | "OAuth" and "OAUTH" normalize to oauth; "", "oauth2" and a missing value to none |
| `ConfigProperties.ConfigPathChoice` | src/config.ts:69-70 | `ConfigPath`, the path `LoadServerDefinitions` reads: without a non-empty explicit path the default path under rootDir (or cwd) is read; an explicit path ignores rootDir |

## Left out

- File I/O, `JSON.parse` and the zod schema (`src/config.ts:94-99`): `Host.readConfig` stands for all three, and fails or yields the parsed entries.
- The string-type check on an array command's head (`typeof commandValue[0] !== "string"`, line 187): the schema lets only strings through, so the element type is `string`.
- `entryRaw ?? {}` (line 76): entries that passed the schema are objects, so the fallback never applies.
- `Object.entries` ordering (integer-like keys first): it belongs to the parsed object that `Host.readConfig` yields.
- `NormalizeServerEntry`: the URL stays the configured string. The `URL` object's own normalization (trailing slash, case of the host) is not modelled; only its accept/reject verdict is, as `Host.isUrl`.
- `Config.ToLower`: covers ASCII only. No non-ASCII code point lowercases to any of `o`, `a`, `u`, `t`, `h`, so the oauth test stays exact.
- `toFileUrl` (lines 221-223): a thin wrapper over the platform's `pathToFileURL`.
- Ephemeral target resolution: its implementation (`src/cli/ephemeral-target.ts`) is not part of this model.
- Runtime, server proxy, sessions and CLI error envelopes: network and subprocess transports with async lifecycles, and their sources are not part of this model.
