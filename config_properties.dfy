/** Precedence and override rules of the config-entry normalizer, stated on the
    raw fields of an entry. */
module ConfigProperties {
  import opened Wrappers
  import opened Config

  /** The entry with every URL alias removed. */
  function WithoutUrl(raw: RawEntry): RawEntry {
    raw.(baseUrl := None, base_url := None, url := None, serverUrl := None, server_url := None)
  }

  /** Of an alias chain, the first present alias is the one `FirstPresent` picks. */
  lemma FirstPresentIsThatAlias(xs: seq<Option<string>>, r: Option<string>, i: nat)
    requires FirstPresent(xs, r)
    requires i < |xs| && xs[i].Some? && forall j | 0 <= j < i :: xs[j].None?
    ensures r == xs[i]
  {
  }

  /** An HTTP spec carrying the first set URL alias, when it is non-empty and
      parses, whether or not a command is configured too. */
  lemma UrlWinsOverCommand(name: string, raw: RawEntry, baseDir: string, host: Host, i: nat)
    requires i < 5 && Truthy(UrlAliases(raw)[i]) && forall j | 0 <= j < i :: UrlAliases(raw)[j].None?
    requires host.isUrl(UrlAliases(raw)[i].value)
    ensures NormalizeServerEntry(name, raw, baseDir, host).Ok?
    ensures NormalizeServerEntry(name, raw, baseDir, host).value.command
            == Http(UrlAliases(raw)[i].value, HeadersOf(raw))
  {
  }

  /** A present but empty `baseUrl` hides every later URL alias: the entry
      normalizes exactly as if it had no URL at all. */
  lemma EmptyBaseUrlHidesLaterAliases(name: string, raw: RawEntry, baseDir: string, host: Host)
    requires raw.baseUrl == Some("")
    ensures NormalizeServerEntry(name, raw, baseDir, host) == NormalizeServerEntry(name, WithoutUrl(raw), baseDir, host)
  {
  }

  /** A present but empty `command` string hides `executable`: no command resolves,
      and without a URL the entry is rejected with its name. */
  lemma EmptyCommandHidesExecutable(name: string, raw: RawEntry, baseDir: string, host: Host)
    requires raw.command == Some(Str(""))
    ensures GetCommand(raw) == None
    ensures !Truthy(GetUrl(raw)) ==> NormalizeServerEntry(name, raw, baseDir, host) == Err(MissingTransport(name))
  {
  }

  /** An array command is split into head and tail; `args` and `executable` are
      ignored, and an empty array resolves nothing. */
  lemma ArrayCommandIgnoresArgs(raw: RawEntry, items: seq<string>, args: Option<seq<string>>, executable: Option<string>)
    requires raw.command == Some(Arr(items))
    ensures GetCommand(raw.(args := args, executable := executable)) == GetCommand(raw)
    ensures items == [] ==> GetCommand(raw).None?
    ensures items != [] ==> GetCommand(raw) == Some(StdioTarget(items[0], items[1..]))
  {
  }

  /** `command: ["python3", "server.py", "--flag"]` with a sibling `args`. */
  lemma PythonArrayCommand(name: string, raw: RawEntry, baseDir: string, host: Host)
    requires raw.command == Some(Arr(["python3", "server.py", "--flag"])) && raw.args == Some(["ignored"])
    requires !Truthy(GetUrl(raw))
    ensures NormalizeServerEntry(name, raw, baseDir, host).Ok?
    ensures NormalizeServerEntry(name, raw, baseDir, host).value.command == Stdio("python3", ["server.py", "--flag"], baseDir)
  {
  }

  /** Only the length of an array command is checked: an empty head is accepted
      as the executable, unlike an empty scalar command. */
  lemma ArrayCommandWithEmptyHead(name: string, raw: RawEntry, baseDir: string, host: Host)
    requires raw.command == Some(Arr([""])) && !Truthy(GetUrl(raw))
    ensures NormalizeServerEntry(name, raw, baseDir, host).Ok?
    ensures NormalizeServerEntry(name, raw, baseDir, host).value.command == Stdio("", [], baseDir)
  {
  }

  /** A scalar command (or executable) takes `args`, or no arguments. */
  lemma ScalarCommandTakesArgs(name: string, raw: RawEntry, baseDir: string, host: Host, s: string)
    requires raw.command == Some(Str(s)) || (raw.command == None && raw.executable == Some(s))
    requires s != "" && !Truthy(GetUrl(raw))
    ensures NormalizeServerEntry(name, raw, baseDir, host).Ok?
    ensures NormalizeServerEntry(name, raw, baseDir, host).value.command == Stdio(s, raw.args.GetOr([]), baseDir)
  {
  }

  /** An empty `bearerToken` hides `bearer_token`; an empty `bearerTokenEnv`
      hides `bearer_token_env`. */
  lemma EmptyBearerAliasesHideSnakeCase(raw: RawEntry)
    ensures raw.bearerToken == Some("") ==> HeadersOf(raw) == HeadersOf(raw.(bearer_token := None))
    ensures raw.bearerTokenEnv == Some("") ==> HeadersOf(raw) == HeadersOf(raw.(bearer_token_env := None))
  {
  }

  /** With both a literal token and an environment variable name, the
      environment indirection wins, whatever the explicit headers say. */
  lemma EnvTokenBeatsLiteralToken(raw: RawEntry, headers: Option<Headers>)
    requires Truthy(BearerToken(raw)) && Truthy(BearerTokenEnv(raw))
    ensures HeadersOf(raw.(headers := headers)).Some?
    ensures HeadersOf(raw.(headers := headers)).value[Authorization] == "$env:" + BearerTokenEnv(raw).value
  {
  }

  /** Headers are carried only by an HTTP spec: a stdio entry normalizes the same
      whatever its header and bearer fields hold. */
  lemma HeaderFieldsIrrelevantForStdio(
    name: string, raw: RawEntry, baseDir: string, host: Host,
    headers: Option<Headers>, token: Option<string>, snakeToken: Option<string>,
    tokenEnv: Option<string>, snakeTokenEnv: Option<string>)
    requires !Truthy(GetUrl(raw))
    ensures var other := raw.(headers := headers, bearerToken := token, bearer_token := snakeToken,
                              bearerTokenEnv := tokenEnv, bearer_token_env := snakeTokenEnv);
      NormalizeServerEntry(name, other, baseDir, host) == NormalizeServerEntry(name, raw, baseDir, host)
  {
  }

  /** Under oauth the token cache lives at `<home>/.mcp-runtime/<name>`, and the
      configured cache directory aliases have no effect. */
  lemma OAuthIgnoresConfiguredCacheDir(
    name: string, raw: RawEntry, baseDir: string, host: Host, dir: Option<string>, snakeDir: Option<string>)
    requires raw.auth.Some? && SpellsOAuth(raw.auth.value)
    ensures var other := raw.(tokenCacheDir := dir, token_cache_dir := snakeDir);
      NormalizeServerEntry(name, other, baseDir, host) == NormalizeServerEntry(name, raw, baseDir, host)
    ensures NormalizeServerEntry(name, raw, baseDir, host).Ok? ==>
      NormalizeServerEntry(name, raw, baseDir, host).value.tokenCacheDir == Some(host.join([host.homeDir, TokenCacheRoot, name]))
  {
  }

  /** The auth field is matched case-insensitively; an empty value is no auth. */
  lemma AuthSpellings()
    ensures NormalizeAuth(Some("OAuth")) == Some(OAuth)
    ensures NormalizeAuth(Some("OAUTH")) == Some(OAuth)
    ensures NormalizeAuth(Some("")) == None
    ensures NormalizeAuth(Some("oauth2")) == None
    ensures NormalizeAuth(None) == None
  {
  }

  /** Without a non-empty explicit path the loader reads
      `<rootDir>/config/mcp-runtime.json`, `rootDir` defaulting to the cwd; an
      explicit path ignores `rootDir`. */
  lemma ConfigPathChoice(options: LoadOptions, host: Host)
    ensures !Truthy(options.configPath) ==>
      ConfigPath(options, host) == host.resolve([options.rootDir.GetOr(host.cwd), DefaultConfigDir, DefaultConfigFile])
    ensures Truthy(options.configPath) ==>
      ConfigPath(options, host) == ConfigPath(options.(rootDir := None), host) == host.resolve([options.configPath.value])
  {
  }
}

