/** internal/config/credentials.go and resolveSecrets of internal/config/config.go: where secrets come
    from, in an environment that resolving them partly destroys. */
module Secrets {
  import opened Wrappers
  import opened ConfigModel
  import opened Text

  type Vars = map<string, string>   // the process environment
  type Files = map<string, string>  // the readable files and their contents

  datatype SecretError = BadPath | Unreadable | Unset

  /** os.Getenv: an unset variable reads as the empty string. */
  function Getenv(env: Vars, name: string): string {
    if name in env then env[name] else ""
  }

  predicate ValidFilePath(path: string) {
    && "/" <= path
    && '\0' !in path
    && !ContainsPair(path, '.', '.')
    && (forall part | part in Split(path, '/') :: part != ".." && part != ".")
  }

  /** A usable path is absolute and holds no NUL, no two dots in a row and no component of one dot. */
  lemma FilePathShape(path: string)
    ensures ValidFilePath(path) <==>
      && path != "" && path[0] == '/'
      && (forall i | 0 <= i < |path| :: path[i] != '\0')
      && (forall i | 0 < i < |path| :: !(path[i - 1] == '.' && path[i] == '.'))
      && (forall i :: !DotAfter(path, '/', i))
  {
    var parts := Split(path, '/');
    DotComponents(path, '/');
    StartsEmpty(path, '/');
    assert forall part :: part in parts <==> part == parts[0] || part in parts[1..];
    if ".." in parts {
      var i :| 0 <= i < |parts| && parts[i] == "..";
      DotsStayTogether(path, '/', i);
    }
    if !ContainsPair(path, '.', '.') && 1 < |path| {
      forall i | 0 < i < |path| ensures !(path[i - 1] == '.' && path[i] == '.') {
        assert 0 <= i - 1 < |path| - 1;
      }
    }
  }

  /** A component keeps its neighbouring characters neighbours. */
  lemma {:induction false} DotsStayTogether(s: string, sep: char, k: nat)
    requires k < |Split(s, sep)| && Split(s, sep)[k] == ".."
    ensures ContainsPair(s, '.', '.')
  {
    var rest := Split(s[1..], sep);
    if s[0] != sep && k == 0 {
      FirstComponentStarts(s, sep);
      assert s[0] == '.' && s[1] == '.';
    } else {
      DotsStayTogether(s[1..], sep, if s[0] == sep then k - 1 else k);
      var i :| 0 <= i < |s[1..]| - 1 && s[1..][i] == '.' && s[1..][i + 1] == '.';
      assert s[i + 1] == '.' && s[i + 1 + 1] == '.';
    }
  }

  lemma {:induction false} FirstComponentStarts(s: string, sep: char)
    ensures Split(s, sep)[0] <= s
  {
    if s != "" && s[0] != sep {
      FirstComponentStarts(s[1..], sep);
      assert s == [s[0]] + s[1..];
    }
  }

  function ResolveSecret(value: string, envVar: string, filePath: string, env: Vars, files: Files)
    : Result<string, SecretError>
  {
    if value != "" then Success(value)
    else if filePath != "" then
      if !ValidFilePath(filePath) then Failure(BadPath)
      else if filePath !in files then Failure(Unreadable)
      else Success(TrimSpace(files[filePath]))
    else if envVar != "" then
      if Getenv(env, envVar) == "" then Failure(Unset) else Success(Getenv(env, envVar))
    else Success("")
  }

  function ResolveSecretWithFallback(value: string, envVar: string, filePath: string, fallbackEnv: string,
                                     env: Vars, files: Files)
    : Result<string, SecretError>
  {
    match ResolveSecret(value, envVar, filePath, env, files)
    case Failure(e) =>
      if fallbackEnv != "" && Getenv(env, fallbackEnv) != "" then Success(Getenv(env, fallbackEnv)) else Failure(e)
    case Success(r) =>
      if r != "" then Success(r)
      else if fallbackEnv != "" then Success(Getenv(env, fallbackEnv))
      else Success("")
  }

  /** The precedence of the sources: direct value, file, variable, fallback. A file hides the
      variable even when it is unreadable or blank; only the fallback steps in for it. */
  lemma SecretPrecedence(value: string, envVar: string, filePath: string, fallbackEnv: string,
                                     env: Vars, files: Files)
    ensures
      var readable := ValidFilePath(filePath) && filePath in files;
      var primary :=
        if value != "" then value
        else if filePath != "" then (if readable then TrimSpace(files[filePath]) else "")
        else if envVar != "" then Getenv(env, envVar)
        else "";
      var broken := value == "" && (if filePath != "" then !readable else envVar != "" && Getenv(env, envVar) == "");
      var fallback := if fallbackEnv != "" then Getenv(env, fallbackEnv) else "";
      var result := ResolveSecretWithFallback(value, envVar, filePath, fallbackEnv, env, files);
      && (result.Failure? <==> broken && fallback == "")
      && (result.Success? ==> result.value == if primary != "" then primary else fallback)
  {
  }

  const OAUTH_CLIENT_ID := "TS_OAUTH_CLIENT_ID"
  const OAUTH_CLIENT_SECRET := "TS_OAUTH_CLIENT_SECRET"
  const AUTHKEY := "TS_AUTHKEY"
  const AUTH_KEY := "TS_AUTH_KEY"

  /** One of the three secrets: explicit configuration first, else the default variable. */
  function ResolveOne(value: string, envVar: string, filePath: string, defaultVar: string, env: Vars, files: Files)
    : Result<string, SecretError>
  {
    if envVar != "" || filePath != "" || value != ""
    then ResolveSecretWithFallback(value, envVar, filePath, defaultVar, env, files)
    else Success(Getenv(env, defaultVar))
  }

  /** The environment once the auth keys have been hidden from tsnet. */
  function Scrubbed(env: Vars): Vars {
    env - {AUTHKEY, AUTH_KEY}
  }

  /** A result together with the environment it leaves behind. */
  datatype Resolution = Resolution(result: Result<Tailscale, SecretError>, env: Vars)

  function ResolveTailscale(t: Tailscale, env: Vars, files: Files): Resolution {
    var id := ResolveOne(t.oauthClientID, t.oauthClientIDEnv, t.oauthClientIDFile, OAUTH_CLIENT_ID, env, files);
    if id.Failure? then Resolution(Failure(id.error), env)
    else
      var secret := ResolveOne(t.oauthClientSecret, t.oauthClientSecretEnv, t.oauthClientSecretFile,
                               OAUTH_CLIENT_SECRET, env, files);
      if secret.Failure? then Resolution(Failure(secret.error), env)
      else
        var key := ResolveOne(t.authKey, t.authKeyEnv, t.authKeyFile, AUTHKEY, env, files);
        if key.Failure? then Resolution(Failure(key.error), env)
        else
          var t1 := t.(oauthClientID := id.value, oauthClientIDEnv := "", oauthClientIDFile := "",
                       oauthClientSecret := secret.value, oauthClientSecretEnv := "", oauthClientSecretFile := "",
                       authKey := key.value, authKeyEnv := "", authKeyFile := "");
          if t.stateDir != "" || t.stateDirEnv == "" then Resolution(Success(t1), Scrubbed(env))
          else if Getenv(Scrubbed(env), t.stateDirEnv) == "" then Resolution(Failure(Unset), Scrubbed(env))
          else
            var stateDir := Getenv(Scrubbed(env), t.stateDirEnv);
            Resolution(Success(t1.(stateDir := stateDir, stateDirEnv := "")), Scrubbed(env))
  }

  /** The first of three values that is not empty. */
  function FirstSet(a: string, b: string, c: string): string {
    if a != "" then a else if b != "" then b else c
  }

  /** What a setting's own file holds or, when it names none, its own variable. */
  function Configured(envVar: string, filePath: string, env: Vars, files: Files): string {
    if filePath != "" then
      if ValidFilePath(filePath) && filePath in files then TrimSpace(files[filePath]) else ""
    else if envVar != "" then Getenv(env, envVar)
    else ""
  }

  /** A setting names a source from which nothing can be read. */
  predicate Unusable(value: string, envVar: string, filePath: string, env: Vars, files: Files) {
    value == "" &&
    if filePath != "" then !ValidFilePath(filePath) || filePath !in files
    else envVar != "" && Getenv(env, envVar) == ""
  }

  /** Why nothing can be read from it. */
  function Reason(filePath: string): SecretError {
    if filePath == "" then Unset else if ValidFilePath(filePath) then Unreadable else BadPath
  }

  lemma ResolvedOne(value: string, envVar: string, filePath: string, defaultVar: string, env: Vars, files: Files)
    requires defaultVar != ""
    ensures var r := ResolveOne(value, envVar, filePath, defaultVar, env, files);
      && (r.Failure? <==> Unusable(value, envVar, filePath, env, files) && Getenv(env, defaultVar) == "")
      && (r.Failure? ==> r.error == Reason(filePath))
      && (r.Success? ==>
            r.value == FirstSet(value, Configured(envVar, filePath, env, files), Getenv(env, defaultVar)))
  {
    SecretPrecedence(value, envVar, filePath, defaultVar, env, files);
  }

  /** Where `v` got each setting from when `t` was resolved: the setting's own value, else its own file or
      variable, else its own default variable; all other settings are those of `t`. */
  ghost predicate FromSources(v: Tailscale, t: Tailscale, env: Vars, files: Files) {
    && v.oauthClientID == FirstSet(t.oauthClientID,
         Configured(t.oauthClientIDEnv, t.oauthClientIDFile, env, files), Getenv(env, "TS_OAUTH_CLIENT_ID"))
    && v.oauthClientSecret == FirstSet(t.oauthClientSecret,
         Configured(t.oauthClientSecretEnv, t.oauthClientSecretFile, env, files), Getenv(env, "TS_OAUTH_CLIENT_SECRET"))
    && v.authKey == FirstSet(t.authKey,
         Configured(t.authKeyEnv, t.authKeyFile, env, files), Getenv(env, "TS_AUTHKEY"))
    && v.stateDir ==
         (if t.stateDir != "" then t.stateDir else if t.stateDirEnv != "" then Getenv(env, t.stateDirEnv) else "")
    && v.oauthClientIDEnv == v.oauthClientIDFile == v.oauthClientSecretEnv == v.oauthClientSecretFile
         == v.authKeyEnv == v.authKeyFile == ""
    && v.stateDirEnv == (if t.stateDir != "" then t.stateDirEnv else "")
    && v.defaultTags == t.defaultTags && v.controlURL == t.controlURL
  }

  /** A secret resolves unless its own source is unusable and its default variable empty. */
  lemma SecretsResolveIff(t: Tailscale, env: Vars, files: Files)
    ensures SecretsResolve(t, env, files) <==>
      && (Unusable(t.oauthClientID, t.oauthClientIDEnv, t.oauthClientIDFile, env, files) ==>
            Getenv(env, "TS_OAUTH_CLIENT_ID") != "")
      && (Unusable(t.oauthClientSecret, t.oauthClientSecretEnv, t.oauthClientSecretFile, env, files) ==>
            Getenv(env, "TS_OAUTH_CLIENT_SECRET") != "")
      && (Unusable(t.authKey, t.authKeyEnv, t.authKeyFile, env, files) ==> Getenv(env, "TS_AUTHKEY") != "")
  {
    ResolvedOne(t.oauthClientID, t.oauthClientIDEnv, t.oauthClientIDFile, OAUTH_CLIENT_ID, env, files);
    ResolvedOne(t.oauthClientSecret, t.oauthClientSecretEnv, t.oauthClientSecretFile, OAUTH_CLIENT_SECRET, env, files);
    ResolvedOne(t.authKey, t.authKeyEnv, t.authKeyFile, AUTHKEY, env, files);
  }

  /** Every resolved setting comes from its own sources. */
  lemma ResolvedFromSources(t: Tailscale, env: Vars, files: Files)
    ensures var r := ResolveTailscale(t, env, files).result;
      r.Success? ==>
        FromSources(r.value, t, env, files) && r.value.oauthPreauthorized == t.oauthPreauthorized
  {
    ResolvedOne(t.oauthClientID, t.oauthClientIDEnv, t.oauthClientIDFile, OAUTH_CLIENT_ID, env, files);
    ResolvedOne(t.oauthClientSecret, t.oauthClientSecretEnv, t.oauthClientSecretFile, OAUTH_CLIENT_SECRET, env, files);
    ResolvedOne(t.authKey, t.authKeyEnv, t.authKeyFile, AUTHKEY, env, files);
  }

  /** Resolving fails exactly when a secret's own source is unusable and its default variable empty, or
      when the state directory is left to a variable that is empty or one of the deleted auth keys. */
  lemma ResolvingFails(t: Tailscale, env: Vars, files: Files)
    ensures ResolveTailscale(t, env, files).result.Failure? <==>
      || !SecretsResolve(t, env, files)
      || (t.stateDir == "" && t.stateDirEnv != "" &&
            (t.stateDirEnv == "TS_AUTHKEY" || t.stateDirEnv == "TS_AUTH_KEY" || Getenv(env, t.stateDirEnv) == ""))
  {
    assert t.stateDirEnv in Scrubbed(env) <==>
      t.stateDirEnv in env && t.stateDirEnv != "TS_AUTHKEY" && t.stateDirEnv != "TS_AUTH_KEY";
  }

  /** The error that is reported is that of the first of the four settings that cannot be resolved. */
  lemma FirstFailureIsReported(t: Tailscale, env: Vars, files: Files)
    ensures
      var r := ResolveTailscale(t, env, files).result;
      var noID := Unusable(t.oauthClientID, t.oauthClientIDEnv, t.oauthClientIDFile, env, files)
        && Getenv(env, "TS_OAUTH_CLIENT_ID") == "";
      var noSecret := Unusable(t.oauthClientSecret, t.oauthClientSecretEnv, t.oauthClientSecretFile, env, files)
        && Getenv(env, "TS_OAUTH_CLIENT_SECRET") == "";
      var noKey := Unusable(t.authKey, t.authKeyEnv, t.authKeyFile, env, files) && Getenv(env, "TS_AUTHKEY") == "";
      var reason :=
        if noID then Reason(t.oauthClientIDFile)
        else if noSecret then Reason(t.oauthClientSecretFile)
        else if noKey then Reason(t.authKeyFile)
        else Unset;
      r.Failure? ==> r.error == reason
  {
    ResolvedOne(t.oauthClientID, t.oauthClientIDEnv, t.oauthClientIDFile, OAUTH_CLIENT_ID, env, files);
    ResolvedOne(t.oauthClientSecret, t.oauthClientSecretEnv, t.oauthClientSecretFile, OAUTH_CLIENT_SECRET, env, files);
    ResolvedOne(t.authKey, t.authKeyEnv, t.authKeyFile, AUTHKEY, env, files);
  }

  /** Once the three secrets have resolved neither auth key can be read from the environment any more,
      whatever happens next; no other variable is touched, and until then none is. */
  lemma OnlyAuthKeysAreDeleted(t: Tailscale, env: Vars, files: Files, name: string)
    ensures Get(ResolveTailscale(t, env, files).env, name) ==
      if SecretsResolve(t, env, files) && (name == "TS_AUTHKEY" || name == "TS_AUTH_KEY") then None
      else Get(env, name)
  {
  }

  /** All three secrets resolve. */
  predicate SecretsResolve(t: Tailscale, env: Vars, files: Files) {
    && ResolveOne(t.oauthClientID, t.oauthClientIDEnv, t.oauthClientIDFile, OAUTH_CLIENT_ID, env, files).Success?
    && ResolveOne(t.oauthClientSecret, t.oauthClientSecretEnv, t.oauthClientSecretFile, OAUTH_CLIENT_SECRET,
                  env, files).Success?
    && ResolveOne(t.authKey, t.authKeyEnv, t.authKeyFile, AUTHKEY, env, files).Success?
  }

  /** They are the guard of the deletion of the auth keys. */
  lemma ResolvedEnvironment(t: Tailscale, env: Vars, files: Files)
    ensures ResolveTailscale(t, env, files).env == if SecretsResolve(t, env, files) then Scrubbed(env) else env
  {
  }

  /** A key that the settings leave to the environment is read from TS_AUTHKEY. */
  lemma ResolvedImplicitKey(t: Tailscale, env: Vars, files: Files)
    requires t.authKey == t.authKeyEnv == t.authKeyFile == ""
    ensures var r := ResolveTailscale(t, env, files).result;
      r.Success? ==> r.value.authKey == Getenv(env, AUTHKEY)
  {
  }

  /** Settings that resolving leaves alone, whatever the files now contain. */
  ghost predicate Settled(t: Tailscale, env: Vars) {
    && Scrubbed(env) == env
    && forall files :: ResolveTailscale(t, env, files) == Resolution(Success(t), env)
  }

  /** A resolved secret resolves to itself wherever its default variable reads as before or is gone. */
  lemma ResolvedAgain(value: string, envVar: string, filePath: string, defaultVar: string,
                      env: Vars, files: Files, env': Vars, files': Files)
    requires defaultVar != ""
    requires Getenv(env', defaultVar) == "" || Getenv(env', defaultVar) == Getenv(env, defaultVar)
    ensures var r := ResolveOne(value, envVar, filePath, defaultVar, env, files);
      r.Success? ==> ResolveOne(r.value, "", "", defaultVar, env', files') == r
  {
  }

  /** Resolving settles: doing it again in the environment it left behind changes nothing. */
  lemma ResolvedIsSettled(t: Tailscale, env: Vars, files: Files)
    requires ResolveTailscale(t, env, files).result.Success?
    ensures
      var r := ResolveTailscale(t, env, files);
      Settled(r.result.value, r.env)
  {
    var r := ResolveTailscale(t, env, files);
    assert Scrubbed(Scrubbed(env)) == Scrubbed(env);
    var t' := r.result.value;
    forall files' ensures ResolveTailscale(t', r.env, files') == Resolution(Success(t'), r.env) {
      ResolvedAgain(t.oauthClientID, t.oauthClientIDEnv, t.oauthClientIDFile, OAUTH_CLIENT_ID,
                    env, files, r.env, files');
      ResolvedAgain(t.oauthClientSecret, t.oauthClientSecretEnv, t.oauthClientSecretFile, OAUTH_CLIENT_SECRET,
                    env, files, r.env, files');
      ResolvedAgain(t.authKey, t.authKeyEnv, t.authKeyFile, AUTHKEY, env, files, r.env, files');
    }
  }

  class Environment {
    var vars: Vars

    function Get(name: string): string
      reads this
    {
      Getenv(vars, name)
    }

    method Unsetenv(name: string)
      modifies this
      ensures vars == old(vars) - {name}
    {
      vars := vars - {name};
    }
  }
}
