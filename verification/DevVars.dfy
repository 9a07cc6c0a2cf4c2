/**
 Regenerating `.dev.vars`: parse the old file, print a new one that carries over what the setup does not manage. The
 laws say what parsing the new file gives for every carried-over variable, over any number of regenerations.
 */
module DevVars {
  import opened Seqs
  import opened Sorting
  import opened Text

  type Entry = (string, string)

  type Order = (string, string) -> bool

  // ----------------------------------------------------------------- parsing

  predicate IsLineTerminator(c: char) {
    c == '\n' || c == '\r' || c as int == 0x2028 || c as int == 0x2029
  }

  /** No character that the `.` of a regular expression refuses. */
  predicate Clean(s: string) {
    forall c :: c in s ==> !IsLineTerminator(c)
  }

  function Quote(s: string): string {
    "\"" + s + "\""
  }

  /** `replace(/^"(.*)"$/, '$1')`. */
  function Unquote(s: string): string {
    if |s| >= 2 && s[0] == '"' && s[|s| - 1] == '"' && Clean(s[1..|s| - 1]) then s[1..|s| - 1] else s
  }

  function ParseLine(line: string): Option<Entry> {
    var trimmed := Trim(line);
    if trimmed == "" || trimmed[0] == '#' then None
    else
      var parts := Split(trimmed, '=');
      if parts[0] == "" || |parts| == 1 then None else Some((Trim(parts[0]), Unquote(Join(parts[1..], "="))))
  }

  /** `Map.set`: an existing key keeps its place. */
  function MapSet(entries: seq<Entry>, e: Entry): seq<Entry> {
    if entries == [] then [e]
    else if entries[0].0 == e.0 then [e] + entries[1..]
    else [entries[0]] + MapSet(entries[1..], e)
  }

  function MapGet(entries: seq<Entry>, key: string): Option<string> {
    if entries == [] then None else if entries[0].0 == key then Some(entries[0].1) else MapGet(entries[1..], key)
  }

  function ParseLines(lines: seq<string>): seq<Entry> {
    if lines == [] then []
    else
      match ParseLine(Last(lines))
      case None => ParseLines(Init(lines))
      case Some(e) => MapSet(ParseLines(Init(lines)), e)
  }

  function Parse(content: string): seq<Entry> {
    ParseLines(Split(content, '\n'))
  }

  method ParseExisting(content: string) returns (existingVars: seq<Entry>)
    ensures existingVars == Parse(content)
  {
    existingVars := [];
    var lines := Split(content, '\n');
    for i := 0 to |lines|
      invariant existingVars == ParseLines(lines[..i])
    {
      assert Init(lines[..i + 1]) == lines[..i] && Last(lines[..i + 1]) == lines[i];
      var trimmed := Trim(lines[i]);
      if trimmed != "" && trimmed[0] != '#' {
        var parts := Split(trimmed, '=');
        if parts[0] != "" && |parts| > 1 {
          var value := Unquote(Join(parts[1..], "="));
          existingVars := MapSet(existingVars, (Trim(parts[0]), value));
        }
      }
    }
    assert lines[..|lines|] == lines;
  }

  // ---------------------------------------------------------------- printing

  datatype Config = Config(customDomain: string, apiToken: string, accountId: string, aiGatewayUrl: string,
                           devVars: map<string, string>)

  const SETUP_MANAGED := [
    "CUSTOM_DOMAIN", "ENVIRONMENT", "CLOUDFLARE_API_TOKEN", "CLOUDFLARE_ACCOUNT_ID", "CLOUDFLARE_AI_GATEWAY_TOKEN",
    "CLOUDFLARE_AI_GATEWAY_URL", "ANTHROPIC_API_KEY", "OPENAI_API_KEY", "GOOGLE_AI_STUDIO_API_KEY",
    "OPENROUTER_API_KEY", "GROQ_API_KEY", "GOOGLE_CLIENT_ID", "GOOGLE_CLIENT_SECRET", "GITHUB_CLIENT_ID",
    "GITHUB_CLIENT_SECRET", "GITHUB_EXPORTER_CLIENT_ID", "GITHUB_EXPORTER_CLIENT_SECRET", "JWT_SECRET"]

  const PROVIDER_VARS := [
    "ANTHROPIC_API_KEY", "OPENAI_API_KEY", "GOOGLE_AI_STUDIO_API_KEY", "OPENROUTER_API_KEY", "GROQ_API_KEY"]

  const OAUTH_VARS := ["GOOGLE_CLIENT_ID", "GOOGLE_CLIENT_SECRET", "GITHUB_CLIENT_ID", "GITHUB_CLIENT_SECRET"]

  /** `` `${KEY}="${value}"` `` and a line feed. */
  function Setting(e: Entry): string {
    e.0 + "=" + Quote(e.1) + "\n"
  }

  /** `` `#${KEY}=""` `` and a line feed. */
  function Placeholder(name: string): string {
    "#" + name + "=\"\"\n"
  }

  /** A variable that is missing from the record prints as `undefined`. */
  function Shown(devVars: map<string, string>, name: string): string {
    if name in devVars then devVars[name] else "undefined"
  }

  predicate IsSet(devVars: map<string, string>, name: string) {
    name in devVars && devVars[name] != ""
  }

  /** A line of the part that the configuration determines: a comment or nothing, a setting, or a placeholder. */
  datatype Line = Plain(text: string) | Set(entry: Entry) | Unset(name: string)

  function PrintLine(line: Line): string {
    match line
    case Plain(text) => text + "\n"
    case Set(entry) => Setting(entry)
    case Unset(name) => Placeholder(name)
  }

  function PrintLines(lines: seq<Line>): string {
    if lines == [] then "" else PrintLines(Init(lines)) + PrintLine(Last(lines))
  }

  function SetOrUnset(devVars: map<string, string>): string -> Line {
    name => if IsSet(devVars, name) then Set((name, devVars[name])) else Unset(name)
  }

  function Or(devVars: map<string, string>, name: string): string {
    if IsSet(devVars, name) then devVars[name] else ""
  }

  /** Printed from the configuration, but not among the variables the setup manages. */
  const TUNNEL := "USE_TUNNEL_FOR_PREVIEW"

  function SecurityLines(c: Config): seq<Line> {
    [Plain("# Security Configuration"), Set(("CUSTOM_DOMAIN", c.customDomain))] +
    [Set(("ENVIRONMENT", "dev")), Plain("")]
  }

  function SecretLines(c: Config): seq<Line> {
    [Plain("# Essential Secrets"), Set(("CLOUDFLARE_API_TOKEN", c.apiToken))] +
    [Set(("CLOUDFLARE_ACCOUNT_ID", c.accountId)), Plain("")]
  }

  function GatewayLines(c: Config): seq<Line> {
    [Plain("# AI Gateway Configuration"),
     Set(("CLOUDFLARE_AI_GATEWAY_TOKEN", Shown(c.devVars, "CLOUDFLARE_AI_GATEWAY_TOKEN")))] +
    (if c.aiGatewayUrl != "" then [Set(("CLOUDFLARE_AI_GATEWAY_URL", c.aiGatewayUrl))] else []) + [Plain("")]
  }

  function ProviderLines(c: Config): seq<Line> {
    [Plain("# Provider specific secrets")] + Map(PROVIDER_VARS, SetOrUnset(c.devVars)) + [Plain("")]
  }

  function OauthLines(c: Config): seq<Line> {
    [Plain("# OAuth Configuration")] + Map(OAUTH_VARS, SetOrUnset(c.devVars))
  }

  function ExporterLines(c: Config): seq<Line> {
    if IsSet(c.devVars, "GITHUB_EXPORTER_CLIENT_ID") || IsSet(c.devVars, "GITHUB_EXPORTER_CLIENT_SECRET") then
      [Plain(""), Plain("# GitHub Exporter OAuth Configuration")] +
      [Set(("GITHUB_EXPORTER_CLIENT_ID", Or(c.devVars, "GITHUB_EXPORTER_CLIENT_ID"))),
       Set(("GITHUB_EXPORTER_CLIENT_SECRET", Or(c.devVars, "GITHUB_EXPORTER_CLIENT_SECRET")))]
    else []
  }

  function RequiredLines(c: Config): seq<Line> {
    [Plain(""), Plain("# Required secrets")] +
    [Set(("JWT_SECRET", Shown(c.devVars, "JWT_SECRET")))] +
    (if IsSet(c.devVars, TUNNEL) then [Set((TUNNEL, c.devVars[TUNNEL]))] else [])
  }

  function ConfigLines(c: Config): seq<Line> {
    SecurityLines(c) + SecretLines(c) + GatewayLines(c) + ProviderLines(c) + OauthLines(c) + ExporterLines(c) +
    RequiredLines(c)
  }

  /** The part of the file that the configuration determines. */
  function ConfigText(c: Config): string {
    PrintLines(ConfigLines(c))
  }

  const WORKER_HEADER := "# Worker configuration variables (preserved)"

  const UNSET_HEADER := "# Additional worker configuration " + "variables (uncomment and " + "set as needed)"

  const PRESERVED_HEADER := "# Additional variables " + "(preserved from existing .dev.vars)"

  function ByKey(le: Order): (Entry, Entry) -> bool {
    (a: Entry, b: Entry) => le(a.0, b.0)
  }

  function Unmanaged(managed: seq<string>): Entry -> bool {
    (e: Entry) => e.0 !in managed && e.0 !in SETUP_MANAGED
  }

  /** The old value of a worker variable that the setup does not manage. */
  function Carried(existing: seq<Entry>): string -> seq<Entry> {
    name =>
      match MapGet(existing, name)
      case None => []
      case Some(value) => if name in SETUP_MANAGED then [] else [(name, value)]
  }

  function IsUnset(existing: seq<Entry>): string -> bool {
    name => name !in SETUP_MANAGED && MapGet(existing, name).None?
  }

  function PrintAll(entries: seq<Entry>): string {
    if entries == [] then "" else PrintAll(Init(entries)) + Setting(Last(entries))
  }

  function PrintNames(names: seq<string>): string {
    if names == [] then "" else PrintNames(Init(names)) + Placeholder(Last(names))
  }

  function Block(header: string, body: string): string {
    if body == "" then "" else "\n" + header + "\n" + body
  }

  /** `le` is `localeCompare`, `leUnits` the default sort by code units. */
  function Render(c: Config, managed: seq<string>, existing: seq<Entry>, le: Order, leUnits: Order): string {
    ConfigText(c) + CarriedText(managed, existing, le, leUnits)
  }

  /** The part of the file that the old file determines. */
  function CarriedText(managed: seq<string>, existing: seq<Entry>, le: Order, leUnits: Order): string {
    Block(WORKER_HEADER, PrintAll(StableSort(FlatMap(managed, Carried(existing)), ByKey(le)))) +
    Block(UNSET_HEADER, PrintNames(StableSort(Filter(managed, IsUnset(existing)), leUnits))) +
    Block(PRESERVED_HEADER, PrintAll(StableSort(Filter(existing, Unmanaged(managed)), ByKey(le))))
  }

  method PrintSettings(content: string, header: string, entries: seq<Entry>) returns (r: string)
    ensures r == content + Block(header, PrintAll(entries))
  {
    r := content;
    if |entries| > 0 {
      r := r + "\n" + header + "\n";
      ghost var start := r;
      for i := 0 to |entries|
        invariant r == start + PrintAll(entries[..i])
      {
        assert Init(entries[..i + 1]) == entries[..i] && Last(entries[..i + 1]) == entries[i];
        r := r + entries[i].0 + "=" + "\"" + entries[i].1 + "\"" + "\n";
        assert r == start + (PrintAll(entries[..i]) + Setting(entries[i]));
      }
      assert entries[..|entries|] == entries;
      assert r == content + ("\n" + header + "\n" + PrintAll(entries));
    } else {
      assert content + "" == content;
    }
  }

  method PrintPlaceholders(content: string, header: string, names: seq<string>) returns (r: string)
    ensures r == content + Block(header, PrintNames(names))
  {
    r := content;
    if |names| > 0 {
      r := r + "\n" + header + "\n";
      ghost var start := r;
      for i := 0 to |names|
        invariant r == start + PrintNames(names[..i])
      {
        assert Init(names[..i + 1]) == names[..i] && Last(names[..i + 1]) == names[i];
        r := r + Placeholder(names[i]);
        assert r == start + (PrintNames(names[..i]) + Placeholder(names[i]));
      }
      assert names[..|names|] == names;
      assert r == content + ("\n" + header + "\n" + PrintNames(names));
    } else {
      assert content + "" == content;
    }
  }

  method PrintCarried(content: string, managed: seq<string>, existingVars: seq<Entry>, le: Order, leUnits: Order)
    returns (r: string)
    ensures r == content + CarriedText(managed, existingVars, le, leUnits)
  {
    var preservedVars := Filter(existingVars, Unmanaged(managed));
    var workerVars := [];
    for i := 0 to |managed|
      invariant workerVars == FlatMap(managed[..i], Carried(existingVars))
    {
      assert managed[..i + 1] == managed[..i] + [managed[i]];
      FlatMapAppend(managed[..i], managed[i], Carried(existingVars));
      var value := MapGet(existingVars, managed[i]);
      if managed[i] !in SETUP_MANAGED && value.Some? {
        workerVars := workerVars + [(managed[i], value.value)];
      }
    }
    assert managed[..|managed|] == managed;
    r := PrintSettings(content, WORKER_HEADER, StableSort(workerVars, ByKey(le)));
    r := PrintPlaceholders(r, UNSET_HEADER, StableSort(Filter(managed, IsUnset(existingVars)), leUnits));
    r := PrintSettings(r, PRESERVED_HEADER, StableSort(preservedVars, ByKey(le)));
    Reassociate(content, Block(WORKER_HEADER, PrintAll(StableSort(workerVars, ByKey(le)))),
                Block(UNSET_HEADER, PrintNames(StableSort(Filter(managed, IsUnset(existingVars)), leUnits))),
                Block(PRESERVED_HEADER, PrintAll(StableSort(preservedVars, ByKey(le)))));
  }

  lemma {:induction false} Reassociate(a: string, b: string, c: string, d: string)
    ensures a + b + c + d == a + (b + c + d)
  {
  }

  /** Reads the old file, if there is one, and returns the new one. */
  method GenerateDevVarsFile(c: Config, managed: seq<string>, oldContent: Option<string>, le: Order, leUnits: Order)
    returns (content: string)
    ensures content == Render(c, managed, if oldContent.Some? then Parse(oldContent.value) else [], le, leUnits)
  {
    var existingVars: seq<Entry> := [];
    if oldContent.Some? {
      existingVars := ParseExisting(oldContent.value);
    }
    content := PrintCarried(ConfigText(c), managed, existingVars, le, leUnits);
  }
}
