/** Client construction: how the connection config and the environment
    combine into the SDK configuration, and the connection cache that makes
    every table of a connection share one account client and one workspace
    client. */
module Service {
  import opened Wrappers
  import opened Framework

  /** The connection config (`databricksConfig`); every field is optional. */
  datatype DatabricksConfig = DatabricksConfig(
    accountToken: Option<string>,
    accountHost: Option<string>,
    workspaceToken: Option<string>,
    workspaceHost: Option<string>,
    accountId: Option<string>,
    profile: Option<string>,
    configFilePath: Option<string>,
    username: Option<string>,
    password: Option<string>)

  /** The process environment; `os.Getenv` yields "" for an unset variable. */
  type Env = map<string, string>

  function Getenv(env: Env, name: string): string {
    if name in env then env[name] else ""
  }

  const AccountIdVar := "DATABRICKS_ACCOUNT_ID"
  const ProfileVar := "DATABRICKS_CONFIG_PROFILE"
  const TokenVar := "DATABRICKS_TOKEN"

  /** The fields of the SDK's `databricks.Config` the plugin sets; "" is unset. */
  datatype SdkConfig = SdkConfig(
    accountId: string,
    profile: string,
    configFile: string,
    host: string,
    token: string,
    username: string,
    password: string)

  const EmptySdkConfig := SdkConfig("", "", "", "", "", "", "")

  const AccountIdMissing := Error("account_id must be configured")

  /** The configuration `connectDatabricksAccount` hands to the SDK. */
  function AccountConfig(cfg: DatabricksConfig, env: Env): (r: Result<SdkConfig, Error>)
    // An account id is required, from the config (non-empty) or the environment.
    ensures r.Failure? <==> cfg.accountId.GetOr("") == "" && Getenv(env, AccountIdVar) == ""
    ensures r.Failure? ==> r.error == AccountIdMissing
    ensures r.Success? ==>
      r.value.accountId == cfg.accountId.GetOr("")
      && r.value.profile == cfg.profile.GetOr("")
      && r.value.configFile == cfg.configFilePath.GetOr("")
    // Host and token come from the config only when neither a config file
    // nor a profile variable is in play.
    ensures r.Success? ==>
      var direct := cfg.configFilePath.GetOr("") == "" && Getenv(env, ProfileVar) == "";
      r.value.host == (if direct then cfg.accountHost.GetOr("") else "")
      && r.value.token == (if direct then cfg.accountToken.GetOr("") else "")
    // Basic authentication only when no token is available at all.
    ensures r.Success? ==>
      var basic := cfg.configFilePath.GetOr("") == "" && Getenv(env, ProfileVar) == ""
                   && cfg.accountToken.GetOr("") == "" && Getenv(env, TokenVar) == "";
      r.value.username == (if basic then cfg.username.GetOr("") else "")
      && r.value.password == (if basic then cfg.password.GetOr("") else "")
  {
    // Each field keeps its zero value unless its source is set, as in the
    // Go struct the function fills in.
    var accountId := cfg.accountId.GetOr("");
    if accountId == "" && Getenv(env, AccountIdVar) == "" then Failure(AccountIdMissing)
    else
      var profile := cfg.profile.GetOr("");
      var configFile := cfg.configFilePath.GetOr("");
      var direct := configFile == "" && Getenv(env, ProfileVar) == "";
      var host := if direct then cfg.accountHost.GetOr("") else "";
      var token := if direct then cfg.accountToken.GetOr("") else "";
      var basic := direct && token == "" && Getenv(env, TokenVar) == "";
      var username := if basic then cfg.username.GetOr("") else "";
      var password := if basic then cfg.password.GetOr("") else "";
      Success(SdkConfig(accountId, profile, configFile, host, token, username, password))
  }

  /** The configuration `connectDatabricksWorkspace` hands to the SDK. */
  function WorkspaceConfig(cfg: DatabricksConfig, env: Env): (r: Result<SdkConfig, Error>)
    // Here any configured account id passes, even an empty one.
    ensures r.Failure? <==> cfg.accountId.None? && Getenv(env, AccountIdVar) == ""
    ensures r.Failure? ==> r.error == AccountIdMissing
    ensures r.Success? ==> r.value.accountId == cfg.accountId.GetOr("")
    // A configured profile wins: only profile and config file are set.
    ensures r.Success? && cfg.profile.Some? ==>
      r.value == EmptySdkConfig.(accountId := r.value.accountId, profile := cfg.profile.value,
                                 configFile := cfg.configFilePath.GetOr(""))
    // A profile from the environment: the SDK resolves everything else.
    ensures r.Success? && cfg.profile.None? && Getenv(env, ProfileVar) != "" ==>
      r.value == EmptySdkConfig.(accountId := r.value.accountId)
    // Otherwise host and token from the config; username and password only
    // when no token is configured and none is in the environment.
    ensures r.Success? && cfg.profile.None? && Getenv(env, ProfileVar) == "" ==>
      var basic := cfg.workspaceToken.None? && Getenv(env, TokenVar) == "";
      r.value.profile == "" && r.value.configFile == ""
      && r.value.host == cfg.workspaceHost.GetOr("")
      && r.value.token == cfg.workspaceToken.GetOr("")
      && r.value.username == (if basic then cfg.username.GetOr("") else "")
      && r.value.password == (if basic then cfg.password.GetOr("") else "")
  {
    var c0 := EmptySdkConfig;
    var c1 :=
      if cfg.profile.Some? then
        var p := c0.(profile := cfg.profile.value);
        if cfg.configFilePath.Some? then p.(configFile := cfg.configFilePath.value) else p
      else if Getenv(env, ProfileVar) == "" then
        var t :=
          if cfg.workspaceToken.Some? then c0.(token := cfg.workspaceToken.value)
          else if Getenv(env, TokenVar) == "" then
            var u := if cfg.username.Some? then c0.(username := cfg.username.value) else c0;
            if cfg.password.Some? then u.(password := cfg.password.value) else u
          else c0;
        if cfg.workspaceHost.Some? then t.(host := cfg.workspaceHost.value) else t
      else c0;
    if cfg.accountId.Some? then Success(c1.(accountId := cfg.accountId.value))
    else if Getenv(env, AccountIdVar) == "" then Failure(AccountIdMissing)
    else Success(c1)
  }

  /** The two connect functions differ on an empty configured account id. */
  lemma EmptyAccountIdAcceptedOnlyByWorkspace(cfg: DatabricksConfig, env: Env)
    requires cfg.accountId == Some("") && Getenv(env, AccountIdVar) == ""
    ensures AccountConfig(cfg, env).Failure? && WorkspaceConfig(cfg, env).Success?
  {
  }

  /** A client the SDK built. */
  datatype Client = AccountClient(config: SdkConfig) | WorkspaceClient(config: SdkConfig)

  const AccountCacheKey := "databricks_account_client"
  const WorkspaceCacheKey := "databricks_workspace_client"

  /** Resolve the configuration, then hand it to the SDK's constructor. */
  function Build(config: Result<SdkConfig, Error>, newClient: SdkConfig -> Result<Client, Error>): Result<Client, Error> {
    match config
    case Failure(e) => Failure(e)
    case Success(c) => newClient(c)
  }

  /** The connection-scoped cache (`d.ConnectionManager.Cache`) as far as
      client construction uses it. */
  class ConnectionCache {
    var entries: map<string, Client>

    constructor ()
      ensures entries == map[]
    {
      entries := map[];
    }

    /** `connectDatabricksAccount`: a cached client is returned as is;
        otherwise one is built and cached only if the SDK accepts it. */
    method ConnectDatabricksAccount(cfg: DatabricksConfig, env: Env, newAccountClient: SdkConfig -> Result<Client, Error>)
      returns (r: Result<Client, Error>)
      modifies this
      ensures AccountCacheKey in old(entries) ==>
        r == Success(old(entries)[AccountCacheKey]) && entries == old(entries)
      ensures AccountCacheKey !in old(entries) ==>
        r == Build(AccountConfig(cfg, env), newAccountClient)
        && entries == (if r.Success? then old(entries)[AccountCacheKey := r.value] else old(entries))
    {
      if AccountCacheKey in entries {
        return Success(entries[AccountCacheKey]);
      }
      var config := AccountConfig(cfg, env);
      if config.Failure? {
        return Failure(config.error);
      }
      var client := newAccountClient(config.value);
      if client.Failure? {
        return Failure(client.error);
      }
      entries := entries[AccountCacheKey := client.value];
      return client;
    }

    /** `connectDatabricksWorkspace`, the same pattern under its own key. */
    method ConnectDatabricksWorkspace(cfg: DatabricksConfig, env: Env, newWorkspaceClient: SdkConfig -> Result<Client, Error>)
      returns (r: Result<Client, Error>)
      modifies this
      ensures WorkspaceCacheKey in old(entries) ==>
        r == Success(old(entries)[WorkspaceCacheKey]) && entries == old(entries)
      ensures WorkspaceCacheKey !in old(entries) ==>
        r == Build(WorkspaceConfig(cfg, env), newWorkspaceClient)
        && entries == (if r.Success? then old(entries)[WorkspaceCacheKey := r.value] else old(entries))
    {
      if WorkspaceCacheKey in entries {
        return Success(entries[WorkspaceCacheKey]);
      }
      var config := WorkspaceConfig(cfg, env);
      if config.Failure? {
        return Failure(config.error);
      }
      var client := newWorkspaceClient(config.value);
      if client.Failure? {
        return Failure(client.error);
      }
      entries := entries[WorkspaceCacheKey := client.value];
      return client;
    }

    /** Once an account client is built, later connects return that same
        client, whatever config, environment or constructor they are given. */
    method ConnectAccountTwice(cfg1: DatabricksConfig, env1: Env, new1: SdkConfig -> Result<Client, Error>,
                               cfg2: DatabricksConfig, env2: Env, new2: SdkConfig -> Result<Client, Error>)
      returns (r1: Result<Client, Error>, r2: Result<Client, Error>)
      modifies this
      ensures r1.Success? ==> r2 == r1
      ensures r1.Success? ==> AccountCacheKey in entries && entries[AccountCacheKey] == r1.value
    {
      r1 := ConnectDatabricksAccount(cfg1, env1, new1);
      r2 := ConnectDatabricksAccount(cfg2, env2, new2);
    }
  }
}
