/** Configuration loading: each loader reads its environment variables in
    a fixed order and fails on the first one that is unset or empty. */
module Settings {
  import opened Wrappers

  /** The process environment: variable name to value. */
  type Env = map<string, string>

  datatype RaprasConfig = RaprasConfig(username: string, password: string)
  datatype YahooConfig = YahooConfig(phoneNumber: string)
  datatype ProxyConfig = ProxyConfig(url: string, username: string, password: string)

  datatype ConfigError = ValueError(message: string)

  const RaprasVariables: seq<string> := ["RAPRAS_USERNAME", "RAPRAS_PASSWORD"]
  const YahooVariables: seq<string> := ["YAHOO_PHONE_NUMBER"]
  const ProxyVariables: seq<string> := ["PROXY_URL", "PROXY_USERNAME", "PROXY_PASSWORD"]

  /** `os.getenv(name)`. */
  function GetEnv(env: Env, name: string): Option<string> {
    if name in env then Some(env[name]) else None
  }

  /** A value Python treats as true: set and not the empty string.
      Whitespace counts as a value. */
  predicate Present(env: Env, name: string) {
    name in env && env[name] != ""
  }

  const MissingSuffix: string := " environment variable is not set. Please set it in your .env file."

  function MissingMessage(name: string): string {
    name + MissingSuffix
  }

  /** The error names the variable: its message starts with the name and
      two different variables give two different messages. */
  lemma MissingMessageNames(n1: string, n2: string)
    ensures MissingMessage(n1)[..|n1|] == n1
    ensures MissingMessage(n1) == MissingMessage(n2) ==> n1 == n2
  {
    var m1, m2 := MissingMessage(n1), MissingMessage(n2);
    assert m1[..|n1|] == n1;
    assert m2[..|n2|] == n2;
    if m1 == m2 {
      assert |n1| == |n2|;
    }
  }

  /** Index of the first of `names` that is not present; `|names|` when
      all are. */
  function FirstMissingIndex(env: Env, names: seq<string>): (k: nat)
    ensures k <= |names|
    ensures forall j :: 0 <= j < k ==> Present(env, names[j])
    ensures k < |names| ==> !Present(env, names[k])
  {
    if names == [] || !Present(env, names[0]) then 0
    else 1 + FirstMissingIndex(env, names[1..])
  }

  /** The first of `names` that is not present, if any: the reference
      against which the loaders are checked. */
  function FirstMissing(env: Env, names: seq<string>): Option<string> {
    var k := FirstMissingIndex(env, names);
    if k < |names| then Some(names[k]) else None
  }

  /** `load_rapras_config`. */
  function LoadRaprasConfig(env: Env): Result<RaprasConfig, ConfigError> {
    var username := GetEnv(env, "RAPRAS_USERNAME");
    var password := GetEnv(env, "RAPRAS_PASSWORD");
    if username.None? || username.value == "" then Err(ValueError(MissingMessage("RAPRAS_USERNAME")))
    else if password.None? || password.value == "" then Err(ValueError(MissingMessage("RAPRAS_PASSWORD")))
    else Ok(RaprasConfig(username.value, password.value))
  }

  /** `load_yahoo_config`. */
  function LoadYahooConfig(env: Env): Result<YahooConfig, ConfigError> {
    var phoneNumber := GetEnv(env, "YAHOO_PHONE_NUMBER");
    if phoneNumber.None? || phoneNumber.value == "" then Err(ValueError(MissingMessage("YAHOO_PHONE_NUMBER")))
    else Ok(YahooConfig(phoneNumber.value))
  }

  /** `load_proxy_config`. */
  function LoadProxyConfig(env: Env): Result<ProxyConfig, ConfigError> {
    var url := GetEnv(env, "PROXY_URL");
    var username := GetEnv(env, "PROXY_USERNAME");
    var password := GetEnv(env, "PROXY_PASSWORD");
    if url.None? || url.value == "" then Err(ValueError(MissingMessage("PROXY_URL")))
    else if username.None? || username.value == "" then Err(ValueError(MissingMessage("PROXY_USERNAME")))
    else if password.None? || password.value == "" then Err(ValueError(MissingMessage("PROXY_PASSWORD")))
    else Ok(ProxyConfig(url.value, username.value, password.value))
  }

  /** The first missing of two names, checked in order. */
  lemma FirstMissingOfTwo(env: Env, a: string, b: string)
    ensures FirstMissing(env, [a, b])
            == if !Present(env, a) then Some(a) else if !Present(env, b) then Some(b) else None
  {
    var names := [a, b];
    assert names[1..] == [b];
    assert [b][1..] == [];
    if Present(env, a) {
      assert FirstMissingIndex(env, names) == 1 + FirstMissingIndex(env, [b]);
      if Present(env, b) {
        assert FirstMissingIndex(env, [b]) == 1 + FirstMissingIndex(env, []);
      }
    }
  }

  /** The first missing of three names, checked in order. */
  lemma FirstMissingOfThree(env: Env, a: string, b: string, c: string)
    ensures FirstMissing(env, [a, b, c])
            == if !Present(env, a) then Some(a) else if !Present(env, b) then Some(b)
               else if !Present(env, c) then Some(c) else None
  {
    var names := [a, b, c];
    assert names[1..] == [b, c];
    if Present(env, a) {
      assert FirstMissingIndex(env, names) == 1 + FirstMissingIndex(env, [b, c]);
      FirstMissingOfTwo(env, b, c);
    }
  }

  /** What a loader sees of one variable: `os.getenv` gives a value Python
      treats as true exactly when the variable is present. */
  lemma GetEnvPresent(env: Env, name: string)
    ensures var v := GetEnv(env, name);
            && ((v.None? || v.value == "") <==> !Present(env, name))
            && (Present(env, name) ==> v == Some(env[name]))
  {
  }

  /** The Rapras loader fails exactly when a variable is missing, naming
      the first in the order username, password; otherwise it returns the
      values verbatim, whitespace included. */
  lemma RaprasConfigSpec(env: Env)
    ensures var r := LoadRaprasConfig(env);
            && (r.Err? <==> FirstMissing(env, RaprasVariables).Some?)
            && (r.Err? ==> r.error == ValueError(MissingMessage(FirstMissing(env, RaprasVariables).value)))
            && (r.Ok? ==> r.value == RaprasConfig(env["RAPRAS_USERNAME"], env["RAPRAS_PASSWORD"]))
  {
    FirstMissingOfTwo(env, "RAPRAS_USERNAME", "RAPRAS_PASSWORD");
    GetEnvPresent(env, "RAPRAS_USERNAME");
    GetEnvPresent(env, "RAPRAS_PASSWORD");
  }

  /** The Yahoo loader fails exactly when the phone number is missing. */
  lemma YahooConfigSpec(env: Env)
    ensures var r := LoadYahooConfig(env);
            && (r.Err? <==> FirstMissing(env, YahooVariables).Some?)
            && (r.Err? ==> r.error == ValueError(MissingMessage("YAHOO_PHONE_NUMBER")))
            && (r.Ok? ==> r.value == YahooConfig(env["YAHOO_PHONE_NUMBER"]))
  {
    var k := FirstMissingIndex(env, YahooVariables);
    assert k == 0 || k == 1;
    GetEnvPresent(env, "YAHOO_PHONE_NUMBER");
  }

  /** The proxy loader checks url, username, password in that order and
      names the first one missing; otherwise it returns the values. */
  lemma ProxyConfigSpec(env: Env)
    ensures var r := LoadProxyConfig(env);
            && (r.Err? <==> FirstMissing(env, ProxyVariables).Some?)
            && (r.Err? ==> r.error == ValueError(MissingMessage(FirstMissing(env, ProxyVariables).value)))
            && (r.Ok? ==> r.value == ProxyConfig(env["PROXY_URL"], env["PROXY_USERNAME"], env["PROXY_PASSWORD"]))
  {
    FirstMissingOfThree(env, "PROXY_URL", "PROXY_USERNAME", "PROXY_PASSWORD");
    GetEnvPresent(env, "PROXY_URL");
    GetEnvPresent(env, "PROXY_USERNAME");
    GetEnvPresent(env, "PROXY_PASSWORD");
  }

  /** A missing username is reported whatever the password is: the
      password is never examined first. */
  lemma RaprasUsernameFirst(env: Env, password: Option<string>)
    requires !Present(env, "RAPRAS_USERNAME")
    ensures var e := if password.Some? then env["RAPRAS_PASSWORD" := password.value]
                     else env - {"RAPRAS_PASSWORD"};
            LoadRaprasConfig(e) == Err(ValueError(MissingMessage("RAPRAS_USERNAME")))
  {
  }
}
