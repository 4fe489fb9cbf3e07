/** The environment a side's `bw` calls run with, and the decisions of `bwLoginUnlock`
    (src/index.js:52-92) around its calls to `bw`. The outcomes of those calls are
    parameters: whether `bw config server` succeeded, whether `bw login --apikey`
    succeeded, and the output of `bw unlock`, `None` when it failed. */
module Session {
  import opened Wrappers
  import opened Strings

  type Env = map<string, string>

  const AppDataKey: string := "BITWARDENCLI_APPDATA_DIR"
  const ClientIdKey: string := "BW_CLIENTID"
  const ClientSecretKey: string := "BW_CLIENTSECRET"
  const SessionKey: string := "BW_SESSION"

  /** The environment variable holding a side's master password. */
  function PasswordEnvName(side: string): (name: string)
    ensures name == "SOURCE_BW_PASSWORD" <==> side == "source"
    ensures name != "SOURCE_BW_PASSWORD" ==> name == "TARGET_BW_PASSWORD"
  {
    if side == "source" then "SOURCE_BW_PASSWORD" else "TARGET_BW_PASSWORD"
  }

  /** `{ ...process.env, BITWARDENCLI_APPDATA_DIR: appDir, BW_CLIENTID: clientId,
      BW_CLIENTSECRET: clientSecret }`: the process environment with the side's own
      state directory and API key laid over it. */
  function LoginEnv(processEnv: Env, appDir: string, clientId: string, clientSecret: string): (env: Env)
    ensures env.Keys == processEnv.Keys + {AppDataKey, ClientIdKey, ClientSecretKey}
    ensures env[AppDataKey] == appDir && env[ClientIdKey] == clientId && env[ClientSecretKey] == clientSecret
    ensures forall k :: k in processEnv && k !in {AppDataKey, ClientIdKey, ClientSecretKey} ==> env[k] == processEnv[k]
  {
    processEnv[AppDataKey := appDir][ClientIdKey := clientId][ClientSecretKey := clientSecret]
  }

  /** `{ ...env, BW_SESSION: session }` with the session token the trimmed output of
      `bw unlock --raw`. */
  function SessionEnv(env: Env, unlockOutput: string): (r: Env)
    ensures r.Keys == env.Keys + {SessionKey}
    ensures r[SessionKey] == Trim(unlockOutput)
    ensures forall k :: k in env && k != SessionKey ==> r[k] == env[k]
  {
    env[SessionKey := Trim(unlockOutput)]
  }

  /** How a side's session setup ends: with the session's environment, by exiting the
      process with a status, or with the rejection of an uncaught `bw config server`. */
  datatype SessionOutcome = Established(env: Env) | Exit(status: nat) | Rejected

  predicate IsSet(env: Env, name: string) {
    name in env && env[name] != ""
  }

  /** `bwLoginUnlock` with the outcomes of its `bw` calls as parameters. */
  function LoginUnlock(side: string, appDir: string, host: Option<string>,
                       clientId: Option<string>, clientSecret: Option<string>, processEnv: Env,
                       configServerOk: bool, loginOk: bool, unlockOutput: Option<string>): SessionOutcome
  {
    if !Truthy(clientId) || !Truthy(clientSecret) then Exit(2)
    else
      var env := LoginEnv(processEnv, appDir, clientId.value, clientSecret.value);
      var passwordEnvName := PasswordEnvName(side);
      if Truthy(host) && !configServerOk then Rejected
      else if !IsSet(env, passwordEnvName) && !IsSet(processEnv, passwordEnvName) then Exit(2)
      else if !loginOk then Exit(1)
      else if unlockOutput.None? then Exit(1)
      else Established(SessionEnv(env, unlockOutput.value))
  }

  /** Missing configuration (API key, or the password variable once the server is
      configured) exits with 2; a failed login or unlock exits with 1; otherwise the session
      is established. */
  lemma LoginUnlockOutcome(side: string, appDir: string, host: Option<string>,
                           clientId: Option<string>, clientSecret: Option<string>, processEnv: Env,
                           configServerOk: bool, loginOk: bool, unlockOutput: Option<string>)
    ensures var o := LoginUnlock(side, appDir, host, clientId, clientSecret, processEnv,
                                 configServerOk, loginOk, unlockOutput);
      var credentials := Truthy(clientId) && Truthy(clientSecret);
      var configured := !Truthy(host) || configServerOk;
      var password := IsSet(processEnv, PasswordEnvName(side));
      (o == Rejected <==> credentials && !configured) &&
      (o == Exit(2) <==> !credentials || (configured && !password)) &&
      (o == Exit(1) <==> credentials && configured && password && (!loginOk || unlockOutput.None?)) &&
      (o.Established? <==> credentials && configured && password && loginOk && unlockOutput.Some?)
  {
    var name := PasswordEnvName(side);
    if Truthy(clientId) && Truthy(clientSecret) {
      var env := LoginEnv(processEnv, appDir, clientId.value, clientSecret.value);
      assert name !in {AppDataKey, ClientIdKey, ClientSecretKey};
      assert IsSet(env, name) <==> IsSet(processEnv, name);
    }
  }

  /** An established session runs `bw` with its own state directory, its own API key and
      the trimmed unlock token, whatever the process environment held under those names;
      every other variable of the process environment is passed on unchanged. */
  lemma EstablishedEnv(side: string, appDir: string, host: Option<string>,
                       clientId: Option<string>, clientSecret: Option<string>, processEnv: Env,
                       configServerOk: bool, loginOk: bool, unlockOutput: Option<string>)
    requires LoginUnlock(side, appDir, host, clientId, clientSecret, processEnv,
                         configServerOk, loginOk, unlockOutput).Established?
    ensures var env := LoginUnlock(side, appDir, host, clientId, clientSecret, processEnv,
                                   configServerOk, loginOk, unlockOutput).env;
      clientId.Some? && clientSecret.Some? && unlockOutput.Some? &&
      env[AppDataKey] == appDir && env[ClientIdKey] == clientId.value &&
      env[ClientSecretKey] == clientSecret.value && env[SessionKey] == Trim(unlockOutput.value) &&
      env.Keys == processEnv.Keys + {AppDataKey, ClientIdKey, ClientSecretKey, SessionKey} &&
      forall k :: k in processEnv && k !in {AppDataKey, ClientIdKey, ClientSecretKey, SessionKey} ==>
        env[k] == processEnv[k]
  {
    var login := LoginEnv(processEnv, appDir, clientId.value, clientSecret.value);
    var env := SessionEnv(login, unlockOutput.value);
    assert env[AppDataKey] == login[AppDataKey];
    assert env[ClientIdKey] == login[ClientIdKey];
    assert env[ClientSecretKey] == login[ClientSecretKey];
  }

  /** The two sides never share their overlay: built from the same process environment
      with different state directories and secrets, the source's and the target's
      environments differ in both. */
  lemma SidesIsolated(processEnv: Env, sourceDir: string, targetDir: string,
                      sourceId: string, sourceSecret: string, targetId: string, targetSecret: string,
                      sourceUnlock: string, targetUnlock: string)
    requires sourceDir != targetDir && sourceSecret != targetSecret
    ensures var s := SessionEnv(LoginEnv(processEnv, sourceDir, sourceId, sourceSecret), sourceUnlock);
      var t := SessionEnv(LoginEnv(processEnv, targetDir, targetId, targetSecret), targetUnlock);
      s[AppDataKey] != t[AppDataKey] && s[ClientSecretKey] != t[ClientSecretKey] &&
      s[ClientSecretKey] == sourceSecret && t[ClientSecretKey] == targetSecret
  {
    var s0 := LoginEnv(processEnv, sourceDir, sourceId, sourceSecret);
    var t0 := LoginEnv(processEnv, targetDir, targetId, targetSecret);
    assert SessionEnv(s0, sourceUnlock)[AppDataKey] == sourceDir;
    assert SessionEnv(t0, targetUnlock)[AppDataKey] == targetDir;
    assert SessionEnv(s0, sourceUnlock)[ClientSecretKey] == sourceSecret;
    assert SessionEnv(t0, targetUnlock)[ClientSecretKey] == targetSecret;
  }

  /** Isolation covers the overlay only: both sides inherit the whole process environment,
      so a target secret held there under its own name reaches the source's `bw` calls. */
  lemma ProcessEnvInherited(processEnv: Env, sourceDir: string, sourceId: string, sourceSecret: string,
                            sourceUnlock: string)
    requires "TARGET_BW_CLIENTSECRET" in processEnv
    ensures var s := SessionEnv(LoginEnv(processEnv, sourceDir, sourceId, sourceSecret), sourceUnlock);
      "TARGET_BW_CLIENTSECRET" in s && s["TARGET_BW_CLIENTSECRET"] == processEnv["TARGET_BW_CLIENTSECRET"]
  {
    var s0 := LoginEnv(processEnv, sourceDir, sourceId, sourceSecret);
    assert "TARGET_BW_CLIENTSECRET" !in {AppDataKey, ClientIdKey, ClientSecretKey};
    assert s0["TARGET_BW_CLIENTSECRET"] == processEnv["TARGET_BW_CLIENTSECRET"];
  }
}
