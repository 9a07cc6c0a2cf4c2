/** Which value of the configuration ends up under which variable of a regenerated `.dev.vars`. */
module DevVarsConfig {
  import opened Seqs
  import opened Text
  import opened DevVars
  import opened DevVarsLaws

  // ------------------------------------------------------------- lookups in lines

  /** The value of the last setting of the key. */
  function LineGet(lines: seq<Line>, key: string): Option<string> {
    if lines == [] then None
    else if Last(lines).Set? && Last(lines).entry.0 == key then Some(Last(lines).entry.1)
    else LineGet(Init(lines), key)
  }

  predicate GoodLine(line: Line) {
    match line
    case Plain(text) => text == "" || IsComment(text)
    case Set(entry) => GoodEntry(entry)
    case Unset(name) => IsName(name)
  }

  ghost predicate GoodLines(lines: seq<Line>) {
    forall line :: line in lines ==> GoodLine(line)
  }

  lemma {:induction false} LineGetConcat(a: seq<Line>, b: seq<Line>, key: string)
    ensures LineGet(a + b, key) == OrElse(LineGet(b, key), LineGet(a, key))
  {
    if b == [] {
      assert a + b == a;
    } else {
      InitLastOfConcat(a, b);
      LineGetConcat(a, Init(b), key);
    }
  }

  lemma {:induction false} LineGetOne(line: Line, key: string)
    ensures LineGet([line], key) == if line.Set? && line.entry.0 == key then Some(line.entry.1) else None
  {
  }

  lemma {:induction false} LineGetTwo(x: Line, y: Line, key: string)
    ensures
      LineGet([x, y], key) ==
      if y.Set? && y.entry.0 == key then Some(y.entry.1)
      else if x.Set? && x.entry.0 == key then Some(x.entry.1) else None
  {
    assert [x, y] == [x] + [y];
    LineGetConcat([x], [y], key);
    LineGetOne(x, key);
    LineGetOne(y, key);
  }

  lemma {:induction false} LookupOneLine(line: Line, key: string)
    requires GoodLine(line)
    ensures LookupText(PrintLine(line), key) == RereadOption(LineGet([line], key))
  {
    LineGetOne(line, key);
    match line
    case Plain(text) =>
      if text == "" {
        LookupLine("", key);
        assert ParseLine("") == None;
      } else {
        LookupComment(text, key);
      }
    case Set(entry) => LookupSetting(entry, key);
    case Unset(name) =>
      var comment := "#" + name + "=\"\"";
      assert PrintLine(line) == comment + "\n" && '\n' !in comment;
      LookupComment(comment, key);
  }

  /** Parsing the printed lines gives for each key its last setting, reread. */
  lemma {:induction false} LookupLines(lines: seq<Line>, key: string)
    requires GoodLines(lines)
    ensures LookupText(PrintLines(lines), key) == RereadOption(LineGet(lines, key))
  {
    if lines == [] {
      LookupNothing(key);
    } else {
      var front, last := Init(lines), Last(lines);
      assert lines == front + [last];
      LookupLines(front, key);
      LinesEndLine(front);
      LookupConcat(PrintLines(front), PrintLine(last), key);
      LookupOneLine(last, key);
      LineGetConcat(front, [last], key);
    }
  }

  lemma {:induction false} MappedGet(names: seq<string>, devVars: map<string, string>, key: string)
    ensures
      LineGet(Map(names, SetOrUnset(devVars)), key) ==
      if key in names && IsSet(devVars, key) then Some(devVars[key]) else None
  {
    if names != [] {
      var front, last := Init(names), Last(names);
      assert names == front + [last];
      MapConcat(front, [last], SetOrUnset(devVars));
      assert Map([last], SetOrUnset(devVars)) == [SetOrUnset(devVars)(last)];
      LineGetConcat(Map(front, SetOrUnset(devVars)), [SetOrUnset(devVars)(last)], key);
      LineGetOne(SetOrUnset(devVars)(last), key);
      MappedGet(front, devVars, key);
    }
  }

  // ------------------------------------------------------------- the sections

  lemma {:induction false} SecurityGet(c: Config, key: string)
    ensures
      LineGet(SecurityLines(c), key) ==
      if key == "ENVIRONMENT" then Some("dev")
      else if key == "CUSTOM_DOMAIN" then Some(c.customDomain) else None
  {
    var a := [Plain("# Security Configuration"), Set(("CUSTOM_DOMAIN", c.customDomain))];
    var b := [Set(("ENVIRONMENT", "dev")), Plain("")];
    LineGetConcat(a, b, key);
    LineGetTwo(a[0], a[1], key);
    LineGetTwo(b[0], b[1], key);
  }

  lemma {:induction false} SecretGet(c: Config, key: string)
    ensures
      LineGet(SecretLines(c), key) ==
      if key == "CLOUDFLARE_ACCOUNT_ID" then Some(c.accountId)
      else if key == "CLOUDFLARE_API_TOKEN" then Some(c.apiToken) else None
  {
    var a := [Plain("# Essential Secrets"), Set(("CLOUDFLARE_API_TOKEN", c.apiToken))];
    var b := [Set(("CLOUDFLARE_ACCOUNT_ID", c.accountId)), Plain("")];
    LineGetConcat(a, b, key);
    LineGetTwo(a[0], a[1], key);
    LineGetTwo(b[0], b[1], key);
  }

  lemma {:induction false} GatewayGet(c: Config, key: string)
    ensures
      LineGet(GatewayLines(c), key) ==
      if key == "CLOUDFLARE_AI_GATEWAY_URL" && c.aiGatewayUrl != "" then Some(c.aiGatewayUrl)
      else if key == "CLOUDFLARE_AI_GATEWAY_TOKEN" then Some(Shown(c.devVars, "CLOUDFLARE_AI_GATEWAY_TOKEN"))
      else None
  {
    var a := [Plain("# AI Gateway Configuration"),
              Set(("CLOUDFLARE_AI_GATEWAY_TOKEN", Shown(c.devVars, "CLOUDFLARE_AI_GATEWAY_TOKEN")))];
    var url := Set(("CLOUDFLARE_AI_GATEWAY_URL", c.aiGatewayUrl));
    var b := if c.aiGatewayUrl != "" then [url] else [];
    LineGetConcat(a + b, [Plain("")], key);
    LineGetConcat(a, b, key);
    LineGetTwo(a[0], a[1], key);
    LineGetOne(url, key);
    LineGetOne(Plain(""), key);
    assert LineGet([], key) == None;
  }

  lemma {:induction false} ProviderGet(c: Config, key: string)
    ensures
      LineGet(ProviderLines(c), key) ==
      if key in PROVIDER_VARS && IsSet(c.devVars, key) then Some(c.devVars[key]) else None
  {
    var a, b := [Plain("# Provider specific secrets")], Map(PROVIDER_VARS, SetOrUnset(c.devVars));
    LineGetConcat(a + b, [Plain("")], key);
    LineGetConcat(a, b, key);
    LineGetOne(a[0], key);
    LineGetOne(Plain(""), key);
    MappedGet(PROVIDER_VARS, c.devVars, key);
  }

  lemma {:induction false} OauthGet(c: Config, key: string)
    ensures
      LineGet(OauthLines(c), key) ==
      if key in OAUTH_VARS && IsSet(c.devVars, key) then Some(c.devVars[key]) else None
  {
    var a := [Plain("# OAuth Configuration")];
    LineGetConcat(a, Map(OAUTH_VARS, SetOrUnset(c.devVars)), key);
    LineGetOne(a[0], key);
    MappedGet(OAUTH_VARS, c.devVars, key);
  }

  /** One of the two exporter variables is set. */
  predicate Exports(c: Config) {
    IsSet(c.devVars, "GITHUB_EXPORTER_CLIENT_ID") || IsSet(c.devVars, "GITHUB_EXPORTER_CLIENT_SECRET")
  }

  lemma {:induction false} ExporterGet(c: Config, key: string)
    ensures
      LineGet(ExporterLines(c), key) ==
      if Exports(c) && key == "GITHUB_EXPORTER_CLIENT_SECRET" then Some(Or(c.devVars, key))
      else if Exports(c) && key == "GITHUB_EXPORTER_CLIENT_ID" then Some(Or(c.devVars, key)) else None
  {
    if Exports(c) {
      var a := [Plain(""), Plain("# GitHub Exporter OAuth Configuration")];
      var b := [Set(("GITHUB_EXPORTER_CLIENT_ID", Or(c.devVars, "GITHUB_EXPORTER_CLIENT_ID"))),
                Set(("GITHUB_EXPORTER_CLIENT_SECRET", Or(c.devVars, "GITHUB_EXPORTER_CLIENT_SECRET")))];
      LineGetConcat(a, b, key);
      LineGetTwo(a[0], a[1], key);
      LineGetTwo(b[0], b[1], key);
    }
  }

  lemma {:induction false} RequiredGet(c: Config, key: string)
    ensures
      LineGet(RequiredLines(c), key) ==
      if key == TUNNEL && IsSet(c.devVars, TUNNEL) then Some(c.devVars[TUNNEL])
      else if key == "JWT_SECRET" then Some(Shown(c.devVars, "JWT_SECRET")) else None
  {
    var a := [Plain(""), Plain("# Required secrets")];
    var b := [Set(("JWT_SECRET", Shown(c.devVars, "JWT_SECRET")))];
    var d := if IsSet(c.devVars, TUNNEL) then [Set((TUNNEL, c.devVars[TUNNEL]))] else [];
    LineGetConcat(a + b, d, key);
    LineGetConcat(a, b, key);
    LineGetTwo(a[0], a[1], key);
    LineGetOne(b[0], key);
    if d != [] {
      LineGetOne(d[0], key);
    }
  }

  /** What the configuration says a variable should be, if anything; a missing token prints as `undefined`. */
  function Configured(c: Config, key: string): Option<string> {
    if key == TUNNEL && IsSet(c.devVars, TUNNEL) then Some(c.devVars[TUNNEL])
    else if key == "JWT_SECRET" then Some(Shown(c.devVars, key))
    else if key == "GITHUB_EXPORTER_CLIENT_SECRET" && Exports(c) then Some(Or(c.devVars, key))
    else if key == "GITHUB_EXPORTER_CLIENT_ID" && Exports(c) then Some(Or(c.devVars, key))
    else if key in OAUTH_VARS && IsSet(c.devVars, key) then Some(c.devVars[key])
    else if key in PROVIDER_VARS && IsSet(c.devVars, key) then Some(c.devVars[key])
    else if key == "CLOUDFLARE_AI_GATEWAY_URL" && c.aiGatewayUrl != "" then Some(c.aiGatewayUrl)
    else if key == "CLOUDFLARE_AI_GATEWAY_TOKEN" then Some(Shown(c.devVars, key))
    else if key == "CLOUDFLARE_ACCOUNT_ID" then Some(c.accountId)
    else if key == "CLOUDFLARE_API_TOKEN" then Some(c.apiToken)
    else if key == "ENVIRONMENT" then Some("dev")
    else if key == "CUSTOM_DOMAIN" then Some(c.customDomain)
    else None
  }

  /** The name is given a value in the configuration, and not the empty one. */
  predicate Given(c: Config, name: string) {
    name in c.devVars && c.devVars[name] != ""
  }

  /** A missing token is written as `undefined`. */
  lemma {:induction false} TokenVariables(c: Config)
    ensures forall key :: key == "JWT_SECRET" || key == "CLOUDFLARE_AI_GATEWAY_TOKEN" ==>
              Configured(c, key) == Some(if key in c.devVars then c.devVars[key] else "undefined")
  {
  }

  /** A provider, sign-in or tunnel variable is there exactly when it has a value. */
  lemma {:induction false} OptionalVariables(c: Config, key: string)
    requires key in PROVIDER_VARS || key in OAUTH_VARS || key == "USE_TUNNEL_FOR_PREVIEW"
    ensures Configured(c, key) == if Given(c, key) then Some(c.devVars[key]) else None
  {
  }

  /** The exporter's two come together, an absent one empty. */
  lemma {:induction false} ExporterVariables(c: Config, key: string)
    requires key == "GITHUB_EXPORTER_CLIENT_ID" || key == "GITHUB_EXPORTER_CLIENT_SECRET"
    ensures
      Configured(c, key) ==
      if Given(c, "GITHUB_EXPORTER_CLIENT_ID") || Given(c, "GITHUB_EXPORTER_CLIENT_SECRET")
      then Some(if Given(c, key) then c.devVars[key] else "") else None
  {
  }

  lemma {:induction false} ConfigLinesGet(c: Config, key: string)
    ensures LineGet(ConfigLines(c), key) == Configured(c, key)
  {
    var three := SecurityLines(c) + SecretLines(c) + GatewayLines(c);
    var five := three + ProviderLines(c) + OauthLines(c);
    LineGetConcat(five + ExporterLines(c), RequiredLines(c), key);
    LineGetConcat(five, ExporterLines(c), key);
    LineGetConcat(three + ProviderLines(c), OauthLines(c), key);
    LineGetConcat(three, ProviderLines(c), key);
    LineGetConcat(SecurityLines(c) + SecretLines(c), GatewayLines(c), key);
    LineGetConcat(SecurityLines(c), SecretLines(c), key);
    SecurityGet(c, key);
    SecretGet(c, key);
    GatewayGet(c, key);
    ProviderGet(c, key);
    OauthGet(c, key);
    ExporterGet(c, key);
    RequiredGet(c, key);
  }

  // ---------------------------------------------------------- well-formed lines

  /** No configured value contains a line feed. */
  ghost predicate OneLine(c: Config) {
    && '\n' !in c.customDomain && '\n' !in c.apiToken && '\n' !in c.accountId && '\n' !in c.aiGatewayUrl
    && forall name :: name in c.devVars ==> '\n' !in c.devVars[name]
  }

  predicate IsVariable(name: string) {
    IsKey(name) && IsName(name)
  }

  lemma {:induction false} BasicNames()
    ensures IsVariable("CUSTOM_DOMAIN") && IsVariable("ENVIRONMENT") && IsVariable("JWT_SECRET")
  {
  }

  lemma {:induction false} CloudflareNames()
    ensures IsVariable("CLOUDFLARE_API_TOKEN") && IsVariable("CLOUDFLARE_ACCOUNT_ID")
  {
  }

  lemma {:induction false} GatewayTokenName()
    ensures IsVariable("CLOUDFLARE_AI_GATEWAY_TOKEN")
  {
  }

  lemma {:induction false} GatewayUrlName()
    ensures IsVariable("CLOUDFLARE_AI_GATEWAY_URL")
  {
  }

  lemma {:induction false} TunnelName()
    ensures IsVariable(TUNNEL)
  {
  }

  lemma {:induction false} ExporterIdName()
    ensures IsVariable("GITHUB_EXPORTER_CLIENT_ID")
  {
  }

  lemma {:induction false} ExporterSecretName()
    ensures IsVariable("GITHUB_EXPORTER_CLIENT_SECRET")
  {
  }

  lemma {:induction false} FirstProviders()
    ensures IsVariable("ANTHROPIC_API_KEY") && IsVariable("OPENAI_API_KEY") && IsVariable("GROQ_API_KEY")
  {
  }

  lemma {:induction false} OtherProviders()
    ensures IsVariable("GOOGLE_AI_STUDIO_API_KEY") && IsVariable("OPENROUTER_API_KEY")
  {
  }

  lemma {:induction false} GoogleNames()
    ensures IsVariable("GOOGLE_CLIENT_ID") && IsVariable("GOOGLE_CLIENT_SECRET")
  {
  }

  lemma {:induction false} GithubNames()
    ensures IsVariable("GITHUB_CLIENT_ID") && IsVariable("GITHUB_CLIENT_SECRET")
  {
  }

  lemma {:induction false} SecurityGood(c: Config)
    requires OneLine(c)
    ensures GoodLines(SecurityLines(c))
  {
    BasicNames();
    assert IsComment("# Security Configuration");
  }

  lemma {:induction false} SecretGood(c: Config)
    requires OneLine(c)
    ensures GoodLines(SecretLines(c))
  {
    CloudflareNames();
    assert IsComment("# Essential Secrets");
  }

  lemma {:induction false} GatewayGood(c: Config)
    requires OneLine(c)
    ensures GoodLines(GatewayLines(c))
  {
    GatewayTokenName();
    GatewayUrlName();
    assert IsComment("# AI Gateway Configuration");
  }

  lemma {:induction false} MappedGood(names: seq<string>, c: Config)
    requires OneLine(c) && forall n :: n in names ==> IsVariable(n)
    ensures GoodLines(Map(names, SetOrUnset(c.devVars)))
  {
    var lines := Map(names, SetOrUnset(c.devVars));
    forall line | line in lines ensures GoodLine(line) {
      var i :| 0 <= i < |lines| && lines[i] == line;
      assert names[i] in names;
    }
  }

  lemma {:induction false} ProviderGood(c: Config)
    requires OneLine(c)
    ensures GoodLines(ProviderLines(c))
  {
    FirstProviders();
    OtherProviders();
    MappedGood(PROVIDER_VARS, c);
    assert IsComment("# Provider specific secrets");
  }

  lemma {:induction false} OauthGood(c: Config)
    requires OneLine(c)
    ensures GoodLines(OauthLines(c))
  {
    GoogleNames();
    GithubNames();
    MappedGood(OAUTH_VARS, c);
    assert IsComment("# OAuth Configuration");
  }

  lemma {:induction false} ExporterHeader()
    ensures IsComment("# GitHub Exporter OAuth Configuration")
  {
  }

  lemma {:induction false} ExporterGood(c: Config)
    requires OneLine(c)
    ensures GoodLines(ExporterLines(c))
  {
    ExporterIdName();
    ExporterSecretName();
    ExporterHeader();
  }

  lemma {:induction false} RequiredGood(c: Config)
    requires OneLine(c)
    ensures GoodLines(RequiredLines(c))
  {
    BasicNames();
    TunnelName();
    assert IsComment("# Required secrets");
  }

  lemma {:induction false} ConfigLinesGood(c: Config)
    requires OneLine(c)
    ensures GoodLines(ConfigLines(c))
  {
    SecurityGood(c);
    SecretGood(c);
    GatewayGood(c);
    ProviderGood(c);
    OauthGood(c);
    ExporterGood(c);
    RequiredGood(c);
  }

  /** In the part the configuration determines, every variable parses back to what the configuration says. */
  lemma {:induction false} ConfigTells(c: Config, key: string)
    requires OneLine(c)
    ensures LookupText(ConfigText(c), key) == RereadOption(Configured(c, key))
  {
    ConfigLinesGood(c);
    LookupLines(ConfigLines(c), key);
    ConfigLinesGet(c, key);
  }

  /** So in the regenerated file, whatever the old one held, every variable the setup manages is as configured. */
  lemma {:induction false} ManagedAsConfigured(text: string, run: Run, le: Order, leUnits: Order, key: string)
    requires GoodRun(run) && OneLine(run.config) && key in SETUP_MANAGED
    ensures LookupText(Regenerate(text, run, le, leUnits), key) == RereadOption(Configured(run.config, key))
  {
    ManagedIgnoresOldFile(text, run, le, leUnits, key);
    ConfigTells(run.config, key);
  }

  /** Whatever the configuration can print is managed by the setup, the tunnel setting excepted. */
  lemma {:induction false} ConfiguredIsManaged(c: Config, key: string)
    requires Configured(c, key).Some? && key != TUNNEL
    ensures key in SETUP_MANAGED
  {
  }

  /** And the setup manages nothing else: for each of its variables some configuration prints it. */
  lemma {:induction false} ManagedIsConfigurable(key: string) returns (c: Config)
    requires key in SETUP_MANAGED
    ensures Configured(c, key).Some?
  {
    c := Config("", "", "", "url", map[key := "value"]);
  }

  lemma {:induction false} TunnelIsUnmanaged()
    ensures TUNNEL !in SETUP_MANAGED
  {
  }

  /**
   The tunnel setting is printed from the configuration, but is not among the variables the setup manages. So a new
   setting takes effect if and only if the old file had none, or one that reads back the same.
   */
  lemma {:induction false} TunnelSettingIff(text: string, run: Run, le: Order, leUnits: Order)
    requires GoodRun(run) && IsSet(run.config.devVars, TUNNEL) && OneLine(run.config)
    ensures
      var wanted, old' := Reread(run.config.devVars[TUNNEL]), LookupText(text, TUNNEL);
      LookupText(Regenerate(text, run, le, leUnits), TUNNEL) == Some(wanted) <==>
      old'.None? || Reread(old'.value) == wanted
  {
    TunnelIsUnmanaged();
    ConfigTells(run.config, TUNNEL);
    OldValueWins(text, run, le, leUnits, TUNNEL);
  }

  /** The placeholders list the worker's variables that neither the setup manages nor the old file sets. */
  lemma {:induction false} PlaceholdersAre(text: string, run: Run, name: string)
    ensures
      name in Filter(run.managed, IsUnset(Parse(text))) <==>
      name in run.managed && name !in SETUP_MANAGED && LookupText(text, name).None?
  {
    ParseGet(Split(text, '\n'), name);
  }

  /** What makes a value gain quotes: a line feed, a carriage return, or one of the two Unicode separators. */
  lemma {:induction false} CleanIs(value: string)
    ensures
      Clean(value) <==>
      forall c :: c in value ==> c != '\n' && c != '\r' && c != '\U{2028}' && c != '\U{2029}'
  {
  }
}
