/**
 * The in-page command console: a transcript of typed lines, a command
 * line with a history navigated by the arrow keys, and a dispatcher that
 * answers each command from static data or from one of the network
 * services, falling back to fixed text when a service cannot be reached.
 *
 * Every fetch a command would make is an outcome in `Network`; what a
 * command dialled is returned, so its fallbacks can be stated.
 */
module Terminal {
  import opened Common
  import opened Text
  import opened Json
  import opened ScanFields
  import opened SiteData

  datatype LineType = Prompt | Output | System | Error

  datatype Line = Line(kind: LineType, text: string)

  /** The transcript the console opens with. */
  const Banner: seq<Line> := [
    Line(System, "Active Mirror Beacon v1.0"),
    Line(System, "Type \"help\" for available commands."),
    Line(System, "")
  ]

  const PromptPrefix: string := "mirror@beacon ~ $ "

  const HelpText: string :=
    "Available commands:\n\n"
    + "  help        Show this help\n"
    + "  status      Service health overview\n"
    + "  scan <msg>  Scan a message for scam risk\n"
    + "  scan-url <url>  Check a URL for threats\n"
    + "  models      List available AI models\n"
    + "  identity    Show identity kernel\n"
    + "  weights     Show cognitive weight map\n"
    + "  brief       Sovereign briefing\n"
    + "  manifest    Build manifest\n"
    + "  shipped     Last 10 shipped items\n"
    + "  reflect     A random reflection\n"
    + "  about       System info\n"
    + "  clear       Clear terminal"

  const ScanUsage: string := "Usage: scan <message to check for scams>"
  const UrlUsage: string := "Usage: scan-url <url to check>"
  const Unreachable: string := "  [!] Could not reach Chetana." + " Service may be running privately."

  const StatusPrivateText: string :=
    "\n  System running privately.\n"
    + "  Services are accessible on the local network only.\n\n"
    + "  Known services: 24\n"
    + "  Scheduled tasks: 5\n"
    + "  Guard rules: 23"

  const ModelsPrivateText: string :=
    "\n  Model registry not accessible from public network.\n"
    + "  Running locally: 14 models via Ollama\n\n"
    + "  Known models:\n"
    + "    llama3.2:3b\n"
    + "    llama3.1:8b\n"
    + "    qwen2.5-coder:7b\n"
    + "    deepseek-r1:7b\n"
    + "    mistral:7b\n"
    + "    gemma2:9b\n"
    + "    nomic-embed-text\n"
    + "    phi3:mini\n"
    + "    codellama:7b\n"
    + "    ... and more"

  const BriefPrivateText: string :=
    "\n  Briefing not accessible from public network.\n"
    + "  The sovereign briefing contains:\n"
    + "    - Current system phase\n"
    + "    - Active priorities\n"
    + "    - Open loops\n"
    + "    - Factory status\n"
    + "    - Drift score\n\n"
    + "  Access requires LAN or Tailscale mesh."

  function AboutText(st: SystemStats): string {
    "Active Mirror -- Sovereign AI Infrastructure\n"
    + "Built by Paul Desai in Goa, India\n\n"
    + "  Repos:          " + st.repos + "\n"
    + "  Models:         " + st.models + "\n"
    + "  Shipped:        " + st.shippedModules + "+ modules\n"
    + "  Control Plane:  " + st.controlPlaneLines + " lines\n"
    + "  Services:       " + st.services + "\n"
    + "  Guard Rules:    " + st.guardRules + "\n\n"
    + "All code is sovereign. All data stays on-device."
  }

  function ManifestPrivateText(st: SystemStats): string {
    "\n  Manifest not accessible from public network.\n"
    + "  Current build manifest includes:\n"
    + "    - " + st.repos + " active repositories\n"
    + "    - " + st.shippedModules + "+ shipped modules\n"
    + "    - " + st.controlPlaneLines + " lines in control plane\n"
    + "    - " + st.guardRules + " guard rules\n"
    + "    - " + st.services + " running services\n\n"
    + "  Access requires LAN or Tailscale mesh."
  }

  // ---------------------------------------------------------------- static reports

  function ShippedLine(item: ShippedItem): string {
    "  " + item.date + "  " + PadEnd(item.name, 34) + " " + item.detail
  }

  /** At most the first ten shipped items, one line each. */
  function ShippedLines(items: seq<ShippedItem>): (r: seq<string>)
    ensures |r| == Min(10, |items|)
    ensures forall i :: 0 <= i < |r| ==> r[i] == ShippedLine(items[i])
  {
    seq(Min(10, |items|), i requires 0 <= i < Min(10, |items|) => ShippedLine(items[i]))
  }

  function FormatShipped(items: seq<ShippedItem>): string {
    Join(ShippedLines(items), "\n")
  }

  /** `Math.round(v * 20)` for `v = h / 100`: the whole number nearest `h / 5` (never a tie). */
  function BarWidth(h: Hundredths): (f: nat)
    ensures f <= 20
    ensures 10 * f <= 2 * h + 5 < 10 * f + 10
  {
    (2 * h + 5) / 10
  }

  /** Twenty cells: `BarWidth` full blocks, then light shade. */
  function Bar(h: Hundredths): (r: string)
    ensures |r| == 20
    ensures forall k :: 0 <= k < BarWidth(h) ==> r[k] == '\U{2588}'
    ensures forall k :: BarWidth(h) <= k < 20 ==> r[k] == '\U{2591}'
  {
    Repeat('\U{2588}', BarWidth(h)) + Repeat('\U{2591}', 20 - BarWidth(h))
  }

  function DigitValue(c: char): int { c as int - '0' as int }

  /** `v.toFixed(2)` for `v = h / 100`. */
  function Fixed2(h: Hundredths): (r: string)
    ensures |r| == 4 && r[1] == '.'
    ensures '0' <= r[0] <= '9' && '0' <= r[2] <= '9' && '0' <= r[3] <= '9'
    ensures 100 * DigitValue(r[0]) + 10 * DigitValue(r[2]) + DigitValue(r[3]) == h
  {
    [DigitChar(h / 100), '.', DigitChar((h % 100) / 10), DigitChar(h % 10)]
  }

  function WeightLine(w: Weight): string {
    "  " + PadEnd(w.title, 24) + " " + Bar(w.value) + "  " + Fixed2(w.value)
  }

  function FormatWeights(ws: seq<Weight>): string {
    Join(seq(|ws|, i requires 0 <= i < |ws| => WeightLine(ws[i])), "\n")
  }

  /** `Math.floor(Math.random() * n)` for a draw in [0, 1). */
  type Draw = r: real | 0.0 <= r < 1.0

  function ReflectionIndex(draw: Draw, n: nat): (i: nat)
    ensures n > 0 ==> i < n
  {
    var x := draw * n as real;
    assert x < n as real || n == 0;
    x.Floor
  }

  /** The quoted reflection; an empty list yields the text of `undefined`. */
  function ReflectText(reflections: seq<string>, draw: Draw): (r: string)
    ensures reflections != [] ==> exists i :: 0 <= i < |reflections| && r == "\n  \"" + reflections[i] + "\"\n"
    ensures reflections == [] ==> r == "\n  \"undefined\"\n"
  {
    var i := ReflectionIndex(draw, |reflections|);
    var quote := if i < |reflections| then reflections[i] else "undefined";
    "\n  \"" + quote + "\"\n"
  }

  // ---------------------------------------------------------------- network reports

  /** The services the console can dial. */
  datatype Endpoint = ScanApi | UrlCheckApi | BrainStatus | ChetanaHealth | ModelTags | BriefApi | ManifestApi

  /** What each service would answer if the console dialled it now. */
  datatype Network = Network(
    scan: Response,
    urlCheck: Response,
    brainStatus: Response,
    chetanaHealth: Response,
    modelTags: Response,
    brief: Response,
    manifest: Response)

  /**
   * Everything a command reads besides the command line: the services, the random draw for
   * `reflect`, and `JSON.stringify(v, null, 2)`, which is not part of this model.
   */
  datatype World = World(net: Network, draw: Draw, stringify: Value -> string)

  /** `"\n    - " + s` for each element, in order. */
  function Bullets(items: seq<Value>): string {
    if items == [] then "" else "\n    - " + ToStr(items[0]) + Bullets(items[1..])
  }

  /**
   * The `scan` report. A body that cannot be read, a `null` body, or a truthy signal list that has
   * items but no `forEach` all throw inside the `try`, so they print the unreachable line.
   */
  function ScanReport(r: Response): string {
    match ReadJson(r)
    case None => Unreachable
    case Some(d) =>
      if Nullish(d) then Unreachable
      else
        var signals := Signals(d);
        if HasItems(signals) && !signals.Arr? then Unreachable
        else "\n" + "  Risk Level: " + ToStr(RiskLevel(d)) + "\n" + ScanDetails(d)
  }

  /** The verdict after its risk line: the score (`?` when absent), the signals when there are any, the action. */
  function ScanDetails(d: Value): string
    requires !Nullish(d)
    requires !HasItems(Signals(d)) || Signals(d).Arr?
  {
    var signals := Signals(d);
    var score := ScoreText(d);
    var listing := if HasItems(signals) then "\n  Signals:" + Bullets(signals.items) else "";
    var action := if Truthy(Prop(d, "recommendation")) then "\n  Action:     " + ToStr(Prop(d, "recommendation")) else "";
    "  Score:      " + score + listing + action + "\n"
  }

  /** `risk_score`, or `?` when the key is absent. */
  function ScoreText(d: Value): string
    requires !Nullish(d)
  {
    if HasScore(d) then ToStr(Prop(d, "risk_score")) else "?"
  }

  /** The `scan-url` report: only the current `signals` name is read here, with no legacy fallback. */
  function UrlReport(url: string, r: Response): string {
    match ReadJson(r)
    case None => Unreachable
    case Some(d) =>
      if Nullish(d) then Unreachable
      else
        var signals := Prop(d, "signals");
        if HasItems(signals) && !signals.Arr? then Unreachable
        else
          var flags := if HasItems(signals) then "\n  Flags:" + Bullets(signals.items) else "";
          "\n  URL:   " + url + "\n  Risk:  " + ToStr(RiskLevel(d)) + flags + "\n"
  }

  /** The partial status built from the scanner's health check, or the private-network text. */
  function HealthReport(r: Response): string {
    match ReadJson(r)
    case None => StatusPrivateText
    case Some(d) =>
      if Nullish(d) then StatusPrivateText
      else
        var model := Prop(d, "model");
        var uptime := Prop(d, "uptime");
        "\n  System Status (partial):\n" + "  chetana:  ONLINE\n"
        + (if Truthy(model) then "  model:    " + ToStr(model) + "\n" else "")
        + (if Truthy(uptime) then "  uptime:   " + ToStr(uptime) + "\n" else "")
        + "\n  [Other services running privately on LAN]"
  }

  function ModelName(m: Value): string
    requires !Nullish(m)
  {
    "  " + ToStr(Prop(m, "name"))
  }

  /** The `models` report; a `null` entry in the list throws inside `map`, which prints the fallback. */
  function ModelsReport(r: Response): string {
    match ReadJson(r)
    case None => ModelsPrivateText
    case Some(d) =>
      if Nullish(d) then ModelsPrivateText
      else
        var ms := Prop(d, "models");
        if !HasItems(ms) then "  No models loaded."
        else if !ms.Arr? || exists i :: 0 <= i < |ms.items| && Nullish(ms.items[i]) then ModelsPrivateText
        else
          var names := seq(|ms.items|, i requires 0 <= i < |ms.items| && !Nullish(ms.items[i]) => ModelName(ms.items[i]));
          "\n  Loaded models:\n\n" + Join(names, "\n") + "\n"
  }

  /** A service whose readable answer is printed as JSON, with fixed text when it cannot be read. */
  function JsonOr(r: Response, stringify: Value -> string, fallback: string): string {
    match ReadJson(r)
    case Some(d) => stringify(d)
    case None => fallback
  }

  // ---------------------------------------------------------------- dispatch

  /** The commands the console knows; any other first word is `Unknown`. */
  datatype Verb =
    | Help | Clear | About | Shipped | Reflect | Identity | Weights
    | Scan | ScanUrl | Status | Models | Brief | Manifest
    | Unknown(word: string)

  /** The `switch` on the lower-cased first word. */
  function Lookup(word: string): (v: Verb)
    ensures v.Unknown? ==> v.word == word
  {
    if word == "help" then Help
    else if word == "clear" then Clear
    else if word == "about" then About
    else if word == "shipped" then Shipped
    else if word == "reflect" then Reflect
    else if word == "identity" then Identity
    else if word == "weights" then Weights
    else if word == "scan" then Scan
    else if word == "scan-url" then ScanUrl
    else if word == "status" then Status
    else if word == "models" then Models
    else if word == "brief" then Brief
    else if word == "manifest" then Manifest
    else Unknown(word)
  }

  /** A trimmed command line: the lower-cased first word and the other words joined by single spaces. */
  datatype Command = Command(verb: Verb, args: string)

  function Parse(trimmed: string): Command {
    var parts := SplitSpaceRuns(trimmed);
    Command(Lookup(Lower(parts[0])), Join(parts[1..], " "))
  }

  function NotFoundText(word: string): string {
    "  command not found: " + word + "\n  Type \"help\" for available commands."
  }

  /** The texts a command prints after its prompt line, in order, and the services it dialled. */
  datatype Reply = Reply(texts: seq<string>, dialled: seq<Endpoint>)

  /**
   * The `status` command: the brain's status when it answers readable JSON, otherwise the
   * scanner's health check, which is dialled only then.
   */
  function StatusReply(w: World): (r: Reply)
    ensures |r.texts| == 2 && r.texts[0] == "Fetching service status..."
    ensures ReadJson(w.net.brainStatus).Some? ==>
              r.dialled == [BrainStatus] && r.texts[1] == w.stringify(ReadJson(w.net.brainStatus).value)
    ensures ReadJson(w.net.brainStatus).None? ==>
              r.dialled == [BrainStatus, ChetanaHealth] && r.texts[1] == HealthReport(w.net.chetanaHealth)
  {
    match ReadJson(w.net.brainStatus)
    case Some(d) => Reply(["Fetching service status...", w.stringify(d)], [BrainStatus])
    case None => Reply(["Fetching service status...", HealthReport(w.net.chetanaHealth)], [BrainStatus, ChetanaHealth])
  }

  function Respond(c: Command, site: Dataset, w: World): (r: Reply)
    ensures c.verb != Clear ==> |r.texts| >= 1
    ensures |r.dialled| > 0 ==> |r.texts| == 2
  {
    match c.verb
    case Help => Reply([HelpText], [])
    case Clear => Reply([], [])
    case About => Reply([AboutText(site.stats)], [])
    case Shipped => Reply(["Last 10 shipped items:\n\n" + FormatShipped(site.shipped)], [])
    case Reflect => Reply([ReflectText(site.reflections, w.draw)], [])
    case Identity => Reply([w.stringify(site.identity)], [])
    case Weights => Reply(["Cognitive Weight Map:\n\n" + FormatWeights(site.weights)], [])
    case Scan =>
      if c.args == [] then Reply([ScanUsage], [])
      else Reply(["Scanning...", ScanReport(w.net.scan)], [ScanApi])
    case ScanUrl =>
      if c.args == [] then Reply([UrlUsage], [])
      else Reply(["Checking URL...", UrlReport(c.args, w.net.urlCheck)], [UrlCheckApi])
    case Status => StatusReply(w)
    case Models => Reply(["Querying model registry...", ModelsReport(w.net.modelTags)], [ModelTags])
    case Brief => Reply(["Loading sovereign briefing...", JsonOr(w.net.brief, w.stringify, BriefPrivateText)], [BriefApi])
    case Manifest =>
      Reply(["Loading build manifest...", JsonOr(w.net.manifest, w.stringify, ManifestPrivateText(site.stats))], [ManifestApi])
    case Unknown(word) => Reply([NotFoundText(word)], [])
  }

  /** `text.split('\n')`, each piece an output line. */
  function OutputLines(text: string): (r: seq<Line>)
    ensures |r| == |Split(text, '\n')| >= 1
    ensures forall k :: 0 <= k < |r| ==> r[k] == Line(Output, Split(text, '\n')[k])
  {
    var pieces := Split(text, '\n');
    seq(|pieces|, k requires 0 <= k < |pieces| => Line(Output, pieces[k]))
  }

  /** The output lines of several texts printed one after another. */
  function Transcript(texts: seq<string>): (r: seq<Line>)
    ensures |r| >= |texts|
    ensures forall k :: 0 <= k < |r| ==> r[k].kind == Output
  {
    if texts == [] then [] else OutputLines(texts[0]) + Transcript(texts[1..])
  }

  /** The transcript after a command line is submitted. */
  function AfterCommand(lines: seq<Line>, cmd: string, site: Dataset, w: World): seq<Line> {
    var trimmed := Trim(cmd);
    if trimmed == [] then lines
    else
      var c := Parse(trimmed);
      if c.verb == Clear then []
      else lines + [Line(Prompt, PromptPrefix + trimmed)] + Transcript(Respond(c, site, w).texts)
  }

  /** The services a submitted command line dials. */
  function DialledBy(cmd: string, site: Dataset, w: World): seq<Endpoint> {
    var trimmed := Trim(cmd);
    if trimmed == [] then [] else Respond(Parse(trimmed), site, w).dialled
  }

  datatype Key = Enter | ArrowUp | ArrowDown | OtherKey

  class Console {
    var lines: seq<Line>
    var input: string
    /** Submitted command lines, newest first. */
    var history: seq<string>
    /** The history entry shown in the input, or -1 while editing a fresh line. */
    var historyIndex: int

    ghost predicate Valid()
      reads this
    {
      -1 <= historyIndex < |history|
    }

    constructor ()
      ensures Valid()
      ensures lines == Banner && input == [] && history == [] && historyIndex == -1
    {
      lines := Banner;
      input := [];
      history := [];
      historyIndex := -1;
    }

    method AddLines(newLines: seq<Line>)
      modifies this`lines
      ensures lines == old(lines) + newLines
    {
      lines := lines + newLines;
    }

    method TypeOutput(text: string)
      modifies this`lines
      ensures lines == old(lines) + OutputLines(text)
    {
      var pieces := Split(text, '\n');
      var out: seq<Line> := [];
      var k := 0;
      while k < |pieces|
        invariant 0 <= k <= |pieces|
        invariant out == OutputLines(text)[..k]
      {
        out := out + [Line(Output, pieces[k])];
        k := k + 1;
      }
      AddLines(out);
    }

    /** Echo and answer one submitted command line. */
    method ExecuteCommand(cmd: string, site: Dataset, w: World) returns (dialled: seq<Endpoint>)
      modifies this`lines
      ensures lines == AfterCommand(old(lines), cmd, site, w)
      ensures dialled == DialledBy(cmd, site, w)
    {
      var trimmed := Trim(cmd);
      dialled := [];
      if trimmed != [] {
        dialled := Run(trimmed, site, w);
      }
    }

    /** Echo a non-blank trimmed command line, then clear the transcript or answer the command. */
    method Run(trimmed: string, site: Dataset, w: World) returns (dialled: seq<Endpoint>)
      modifies this`lines
      ensures var c := Parse(trimmed);
              lines == if c.verb == Clear then [] else old(lines) + [Line(Prompt, PromptPrefix + trimmed)] + Transcript(Respond(c, site, w).texts)
      ensures dialled == Respond(Parse(trimmed), site, w).dialled
    {
      var echo := Line(Prompt, PromptPrefix + trimmed);
      lines := lines + [echo];
      var c := Parse(trimmed);
      if c.verb == Clear {
        lines := [];
        dialled := [];
        assert Respond(c, site, w).dialled == [];
      } else {
        dialled := Answer(c, site, w);
      }
    }

    /** Print the answer to a parsed command other than `clear`. */
    method Answer(c: Command, site: Dataset, w: World) returns (dialled: seq<Endpoint>)
      requires c.verb != Clear
      modifies this`lines
      ensures lines == old(lines) + Transcript(Respond(c, site, w).texts)
      ensures dialled == Respond(c, site, w).dialled
    {
      if c.verb.Scan? || c.verb.ScanUrl? || c.verb.Status? || c.verb.Models? || c.verb.Brief? || c.verb.Manifest? {
        dialled := Query(c, site, w);
      } else {
        Recite(c, site, w);
        dialled := [];
      }
    }

    /** Print the answer to a command answered from the site's own data. */
    method Recite(c: Command, site: Dataset, w: World)
      requires c.verb.Help? || c.verb.About? || c.verb.Shipped? || c.verb.Reflect? || c.verb.Identity?
               || c.verb.Weights? || c.verb.Unknown?
      modifies this`lines
      ensures lines == old(lines) + Transcript(Respond(c, site, w).texts)
      ensures Respond(c, site, w).dialled == []
    {
      OfflineReply(c, site, w);
      var text := Respond(c, site, w).texts[0];
      TranscriptOfReply([text]);
      TypeOutput(text);
    }

    /** Print the answer to a command that dials a service. */
    method Query(c: Command, site: Dataset, w: World) returns (dialled: seq<Endpoint>)
      requires c.verb.Scan? || c.verb.ScanUrl? || c.verb.Status? || c.verb.Models? || c.verb.Brief? || c.verb.Manifest?
      modifies this`lines
      ensures lines == old(lines) + Transcript(Respond(c, site, w).texts)
      ensures dialled == Respond(c, site, w).dialled
    {
      match c.verb {
        case Scan => dialled := ScanCommand(c, site, w);
        case ScanUrl => dialled := ScanUrlCommand(c, site, w);
        case Status =>
          StatusResponds(c, site, w);
          dialled := StatusCommand(w);
        case Models => dialled := ModelsCommand(c, site, w);
        case Brief => dialled := BriefCommand(c, site, w);
        case Manifest => dialled := ManifestCommand(c, site, w);
      }
    }

    /** `scan <message>`: a usage line without a message, otherwise the scanner's verdict. */
    method ScanCommand(c: Command, site: Dataset, w: World) returns (dialled: seq<Endpoint>)
      requires c.verb == Scan
      modifies this`lines
      ensures lines == old(lines) + Transcript(Respond(c, site, w).texts)
      ensures dialled == Respond(c, site, w).dialled
    {
      TranscriptOfReply(Respond(c, site, w).texts);
      dialled := [];
      if c.args == [] {
        TypeOutput(ScanUsage);
      } else {
        dialled := [ScanApi];
        Announce("Scanning...", ScanReport(w.net.scan));
      }
    }

    /** `scan-url <url>`: a usage line without a URL, otherwise the URL checker's verdict. */
    method ScanUrlCommand(c: Command, site: Dataset, w: World) returns (dialled: seq<Endpoint>)
      requires c.verb == ScanUrl
      modifies this`lines
      ensures lines == old(lines) + Transcript(Respond(c, site, w).texts)
      ensures dialled == Respond(c, site, w).dialled
    {
      TranscriptOfReply(Respond(c, site, w).texts);
      dialled := [];
      if c.args == [] {
        TypeOutput(UrlUsage);
      } else {
        dialled := [UrlCheckApi];
        Announce("Checking URL...", UrlReport(c.args, w.net.urlCheck));
      }
    }

    /** `status`: the brain's status, else the scanner's health, else the private-network text. */
    method StatusCommand(w: World) returns (dialled: seq<Endpoint>)
      modifies this`lines
      ensures lines == old(lines) + Transcript(StatusReply(w).texts)
      ensures dialled == StatusReply(w).dialled
    {
      dialled := [BrainStatus];
      var report;
      match ReadJson(w.net.brainStatus) {
        case Some(d) =>
          report := w.stringify(d);
        case None =>
          dialled := dialled + [ChetanaHealth];
          report := HealthReport(w.net.chetanaHealth);
      }
      assert StatusReply(w).texts == ["Fetching service status...", report];
      Announce("Fetching service status...", report);
    }

    /** `models`: the local model registry's list, or the fixed list when it cannot be reached. */
    method ModelsCommand(c: Command, site: Dataset, w: World) returns (dialled: seq<Endpoint>)
      requires c.verb == Models
      modifies this`lines
      ensures lines == old(lines) + Transcript(Respond(c, site, w).texts)
      ensures dialled == Respond(c, site, w).dialled
    {
      dialled := [ModelTags];
      Announce("Querying model registry...", ModelsReport(w.net.modelTags));
    }

    /** `brief`: the briefing service's JSON, or a description of it. */
    method BriefCommand(c: Command, site: Dataset, w: World) returns (dialled: seq<Endpoint>)
      requires c.verb == Brief
      modifies this`lines
      ensures lines == old(lines) + Transcript(Respond(c, site, w).texts)
      ensures dialled == Respond(c, site, w).dialled
    {
      dialled := [BriefApi];
      Announce("Loading sovereign briefing...", JsonOr(w.net.brief, w.stringify, BriefPrivateText));
    }

    /** `manifest`: the manifest service's JSON, or a summary built from the headline figures. */
    method ManifestCommand(c: Command, site: Dataset, w: World) returns (dialled: seq<Endpoint>)
      requires c.verb == Manifest
      modifies this`lines
      ensures lines == old(lines) + Transcript(Respond(c, site, w).texts)
      ensures dialled == Respond(c, site, w).dialled
    {
      dialled := [ManifestApi];
      Announce("Loading build manifest...", JsonOr(w.net.manifest, w.stringify, ManifestPrivateText(site.stats)));
    }

    /** The progress line a service command prints before it dials, then what it got. */
    method Announce(progress: string, report: string)
      modifies this`lines
      ensures lines == old(lines) + Transcript([progress, report])
    {
      TranscriptOfReply([progress, report]);
      TypeOutput(progress);
      TypeOutput(report);
    }

    /** Replace the command line's text as the user edits it. */
    method Edit(text: string)
      modifies this`input
      ensures input == text
    {
      input := text;
    }

    /** Enter: the command line's text runs and becomes the newest history entry; the line empties. */
    method Submit(site: Dataset, w: World) returns (dialled: seq<Endpoint>)
      requires Valid()
      modifies this
      ensures Valid()
      ensures input == [] && history == [old(input)] + old(history) && historyIndex == -1
      ensures lines == AfterCommand(old(lines), old(input), site, w)
      ensures dialled == DialledBy(old(input), site, w)
    {
      var cmd := input;
      Remember(cmd);
      dialled := ExecuteCommand(cmd, site, w);
    }

    /** The bookkeeping of Enter: the line empties, `cmd` becomes the newest history entry, the cursor resets. */
    method Remember(cmd: string)
      modifies this`input, this`history, this`historyIndex
      ensures input == [] && history == [cmd] + old(history) && historyIndex == -1
    {
      input := [];
      history := [cmd] + history;
      historyIndex := -1;
    }

    /**
     * One key press in the command line: Enter submits it and records it as the newest history
     * entry; the arrows walk the history (up towards older entries, stopping at the oldest; down
     * towards newer ones, past the newest back to an empty line); other keys change nothing here.
     */
    method KeyDown(key: Key, site: Dataset, w: World) returns (dialled: seq<Endpoint>)
      requires Valid()
      modifies this
      ensures Valid()
      ensures key == Enter ==>
                input == [] && history == [old(input)] + old(history) && historyIndex == -1
                && lines == AfterCommand(old(lines), old(input), site, w)
                && dialled == DialledBy(old(input), site, w)
      ensures key != Enter ==> lines == old(lines) && history == old(history) && dialled == []
      ensures key == ArrowUp && |history| > 0 ==>
                historyIndex == Min(old(historyIndex) + 1, |history| - 1) && input == history[historyIndex]
      ensures key == ArrowDown && old(historyIndex) > 0 ==>
                historyIndex == old(historyIndex) - 1 && input == history[historyIndex]
      ensures key == ArrowDown && old(historyIndex) <= 0 ==> historyIndex == -1 && input == []
      ensures (key == OtherKey || (key == ArrowUp && |history| == 0)) ==>
                input == old(input) && historyIndex == old(historyIndex)
    {
      dialled := [];
      if key == Enter {
        dialled := Submit(site, w);
      } else if key == ArrowUp {
        if |history| > 0 {
          var newIndex := Min(historyIndex + 1, |history| - 1);
          historyIndex := newIndex;
          input := history[newIndex];
        }
      } else if key == ArrowDown {
        if historyIndex > 0 {
          var newIndex := historyIndex - 1;
          historyIndex := newIndex;
          input := history[newIndex];
        } else {
          historyIndex := -1;
          input := [];
        }
      }
    }
  }

  // ---------------------------------------------------------------- properties

  /** A command answered from the site's own data prints one text and dials nothing. */
  lemma OfflineReply(c: Command, site: Dataset, w: World)
    requires c.verb.Help? || c.verb.About? || c.verb.Shipped? || c.verb.Reflect? || c.verb.Identity?
             || c.verb.Weights? || c.verb.Unknown?
    ensures |Respond(c, site, w).texts| == 1 && Respond(c, site, w).dialled == []
  {
  }

  /** `status` answers with the status reply, whatever else the command line holds. */
  lemma StatusResponds(c: Command, site: Dataset, w: World)
    requires c.verb == Status
    ensures Respond(c, site, w) == StatusReply(w)
  {
  }

  lemma TranscriptOfReply(texts: seq<string>)
    requires |texts| <= 2
    ensures |texts| == 1 ==> Transcript(texts) == OutputLines(texts[0])
    ensures |texts| == 2 ==> Transcript(texts) == OutputLines(texts[0]) + OutputLines(texts[1])
  {
    if |texts| == 2 {
      assert Transcript(texts[1..]) == OutputLines(texts[1]) + Transcript([]);
    }
  }

  /** The texts of a run of lines. */
  function Texts(ls: seq<Line>): (r: seq<string>)
    ensures |r| == |ls| && forall k :: 0 <= k < |ls| ==> r[k] == ls[k].text
  {
    seq(|ls|, k requires 0 <= k < |ls| => ls[k].text)
  }

  /** Printing a text loses nothing: its output lines, rejoined with newlines, give it back. */
  lemma OutputLinesRejoin(text: string)
    ensures Join(Texts(OutputLines(text)), "\n") == text
  {
    assert Texts(OutputLines(text)) == Split(text, '\n');
    JoinSplit(text, '\n');
  }

  /** A command line of words separated by single spaces parses into its first word and the rest. */
  lemma ParseWords(ws: seq<string>)
    requires |ws| >= 1 && forall i :: 0 <= i < |ws| ==> IsWord(ws[i])
    ensures Parse(Join(ws, " ")) == Command(Lookup(Lower(ws[0])), Join(ws[1..], " "))
  {
    SplitJoinWords(ws);
  }

  /** The command word of a trimmed, non-blank line is a non-empty word without white space. */
  lemma CommandWordIsWord(cmd: string)
    requires Trim(cmd) != []
    ensures var parts := SplitSpaceRuns(Trim(cmd)); IsWord(parts[0]) && IsWord(Lower(parts[0]))
  {
    var t := Trim(cmd);
    SplitTrimmedIntoWords(t);
    LowerKeepsWord(SplitSpaceRuns(t)[0]);
  }

  /**
   * What submitting a line does to the transcript: a blank line changes nothing, `clear` empties
   * it, and any other line keeps what was there, adds the prompt echo, then at least one output line.
   */
  lemma {:induction false} SubmitShape(lines: seq<Line>, cmd: string, site: Dataset, w: World)
    ensures Trim(cmd) == [] ==> AfterCommand(lines, cmd, site, w) == lines && DialledBy(cmd, site, w) == []
    ensures Trim(cmd) != [] && Parse(Trim(cmd)).verb == Clear ==> AfterCommand(lines, cmd, site, w) == []
    ensures Trim(cmd) != [] && Parse(Trim(cmd)).verb != Clear ==>
              var r := AfterCommand(lines, cmd, site, w);
              |r| >= |lines| + 2 && r[..|lines|] == lines
              && r[|lines|] == Line(Prompt, PromptPrefix + Trim(cmd))
              && forall k :: |lines| < k < |r| ==> r[k].kind == Output
  {
    var trimmed := Trim(cmd);
    if trimmed != [] && Parse(trimmed).verb != Clear {
      EchoedAnswer(lines, Line(Prompt, PromptPrefix + trimmed), Respond(Parse(trimmed), site, w).texts);
    }
  }

  /** An echo followed by the transcript of a non-empty reply, after the old lines. */
  lemma EchoedAnswer(lines: seq<Line>, echo: Line, texts: seq<string>)
    requires texts != []
    ensures var r := lines + [echo] + Transcript(texts);
            |r| >= |lines| + 2 && r[..|lines|] == lines && r[|lines|] == echo
            && forall k :: |lines| < k < |r| ==> r[k].kind == Output
  {
    var out := Transcript(texts);
    var r := lines + [echo] + out;
    forall k | |lines| < k < |r| ensures r[k].kind == Output {
      assert r[k] == out[k - |lines| - 1];
    }
  }

  /** A text with no newline but the one between `first` and `second` prints as those two lines. */
  lemma TwoLines(first: string, second: string)
    requires '\n' !in first && '\n' !in second
    ensures OutputLines(first + "\n" + second) == [Line(Output, first), Line(Output, second)]
  {
    SplitAt(first, second, '\n');
    SplitNone(second, '\n');
  }

  /** The not-found answer is two lines: the offending word, then the hint to type `help`. */
  lemma NotFoundLines(word: string)
    requires '\n' !in word
    ensures OutputLines(NotFoundText(word)) ==
              [Line(Output, "  command not found: " + word), Line(Output, "  Type \"help\" for available commands.")]
  {
    var first := "  command not found: " + word;
    var second := "  Type \"help\" for available commands.";
    assert '\n' !in first by {
      forall k | 0 <= k < |first| ensures first[k] != '\n' {
        if k >= 21 { assert first[k] == word[k - 21]; }
      }
    }
    assert '\n' !in second by {
      forall k | 0 <= k < |second| ensures second[k] != '\n' { }
    }
    assert NotFoundText(word) == first + "\n" + second;
    TwoLines(first, second);
  }

  /** A non-blank line other than `clear` appends its echo and the transcript of its answer. */
  lemma AfterAnswer(lines: seq<Line>, cmd: string, site: Dataset, w: World)
    requires Trim(cmd) != [] && Parse(Trim(cmd)).verb != Clear
    ensures AfterCommand(lines, cmd, site, w)
            == lines + [Line(Prompt, PromptPrefix + Trim(cmd))] + Transcript(Respond(Parse(Trim(cmd)), site, w).texts)
    ensures DialledBy(cmd, site, w) == Respond(Parse(Trim(cmd)), site, w).dialled
  {
  }

  /** The answer to an unknown word, as printed. */
  lemma UnknownTranscript(c: Command, site: Dataset, w: World)
    requires c.verb.Unknown? && '\n' !in c.verb.word
    ensures Transcript(Respond(c, site, w).texts) ==
              [Line(Output, "  command not found: " + c.verb.word), Line(Output, "  Type \"help\" for available commands.")]
    ensures Respond(c, site, w).dialled == []
  {
    NotFoundLines(c.verb.word);
    TranscriptOfReply([NotFoundText(c.verb.word)]);
  }

  /** An unknown command word is echoed back in exactly two output lines after the prompt. */
  lemma UnknownCommandAnswer(lines: seq<Line>, cmd: string, site: Dataset, w: World)
    requires Trim(cmd) != [] && Parse(Trim(cmd)).verb.Unknown?
    ensures var word := Lower(SplitSpaceRuns(Trim(cmd))[0]);
            AfterCommand(lines, cmd, site, w) == lines + [
              Line(Prompt, PromptPrefix + Trim(cmd)),
              Line(Output, "  command not found: " + word),
              Line(Output, "  Type \"help\" for available commands.")]
  {
    var c := Parse(Trim(cmd));
    UnknownWordIsOneLine(cmd);
    UnknownTranscript(c, site, w);
    AfterAnswer(lines, cmd, site, w);
    var echo := Line(Prompt, PromptPrefix + Trim(cmd));
    var answer := Transcript(Respond(c, site, w).texts);
    AppendAssoc(lines, [echo], answer);
    assert [echo] + answer == [echo, answer[0], answer[1]];
  }

  /** A text without a newline prints as one output line. */
  lemma OneLine(text: string)
    requires '\n' !in text
    ensures OutputLines(text) == [Line(Output, text)]
  {
    SplitNone(text, '\n');
  }

  /** The usage lines of `scan` and `scan-url` hold no newline. */
  lemma UsageLinesAreLines()
    ensures '\n' !in ScanUsage && '\n' !in UrlUsage
  {
    forall k | 0 <= k < |ScanUsage| ensures ScanUsage[k] != '\n' { }
    forall k | 0 <= k < |UrlUsage| ensures UrlUsage[k] != '\n' { }
  }

  /** The unreachable line holds no newline. */
  lemma UnreachableIsOneLine()
    ensures '\n' !in Unreachable
  {
    var head, tail := "  [!] Could not reach Chetana.", " Service may be running privately.";
    forall k | 0 <= k < |head| ensures head[k] != '\n' { }
    forall k | 0 <= k < |tail| ensures tail[k] != '\n' { }
    assert Unreachable == head + tail;
  }

  /** `scan` and `scan-url` without an argument print only their usage line and dial nothing. */
  lemma ScanUsageOnly(c: Command, site: Dataset, w: World)
    requires (c.verb == Scan || c.verb == ScanUrl) && c.args == []
    ensures Transcript(Respond(c, site, w).texts) == [Line(Output, if c.verb == Scan then ScanUsage else UrlUsage)]
    ensures Respond(c, site, w).dialled == []
  {
    UsageLinesAreLines();
    var u := if c.verb == Scan then ScanUsage else UrlUsage;
    assert Respond(c, site, w).texts == [u];
    TranscriptOfReply([u]);
    OneLine(u);
  }

  /** A progress line and a one-line report print as exactly those two lines. */
  lemma ProgressThenReport(progress: string, report: string)
    requires '\n' !in progress && '\n' !in report
    ensures Transcript([progress, report]) == [Line(Output, progress), Line(Output, report)]
  {
    TranscriptOfReply([progress, report]);
    OneLine(progress);
    OneLine(report);
  }

  /** `scan <message>` whose request cannot be read prints the progress line and the one unreachable line. */
  lemma ScanUnreachable(c: Command, site: Dataset, w: World)
    requires c.verb == Scan && c.args != [] && ReadJson(w.net.scan).None?
    ensures Transcript(Respond(c, site, w).texts) == [Line(Output, "Scanning..."), Line(Output, Unreachable)]
    ensures Respond(c, site, w).dialled == [ScanApi]
  {
    var progress := "Scanning...";
    assert '\n' !in progress by {
      forall k | 0 <= k < |progress| ensures progress[k] != '\n' { }
    }
    UnreachableIsOneLine();
    ProgressThenReport(progress, Unreachable);
  }

  /** `scan-url <url>` whose request cannot be read prints the progress line and the one unreachable line. */
  lemma UrlUnreachable(c: Command, site: Dataset, w: World)
    requires c.verb == ScanUrl && c.args != [] && ReadJson(w.net.urlCheck).None?
    ensures Transcript(Respond(c, site, w).texts) == [Line(Output, "Checking URL..."), Line(Output, Unreachable)]
    ensures Respond(c, site, w).dialled == [UrlCheckApi]
  {
    var progress := "Checking URL...";
    assert '\n' !in progress by {
      forall k | 0 <= k < |progress| ensures progress[k] != '\n' { }
    }
    UnreachableIsOneLine();
    ProgressThenReport(progress, Unreachable);
  }

  lemma UnknownWordIsOneLine(cmd: string)
    requires Trim(cmd) != [] && Parse(Trim(cmd)).verb.Unknown?
    ensures Parse(Trim(cmd)).verb.word == Lower(SplitSpaceRuns(Trim(cmd))[0])
    ensures '\n' !in Parse(Trim(cmd)).verb.word
  {
    var word := Lower(SplitSpaceRuns(Trim(cmd))[0]);
    CommandWordIsWord(cmd);
    assert Parse(Trim(cmd)).verb.word == word;
    assert '\n' !in word by {
      forall k | 0 <= k < |word| ensures word[k] != '\n' { assert !IsJsSpace(word[k]); }
    }
  }

  /** The second line of a text that opens with a newline, then `line`, then a newline. */
  lemma SecondLine(line: string, rest: string)
    requires '\n' !in line
    ensures var pieces := Split("\n" + line + "\n" + rest, '\n');
            |pieces| >= 2 && pieces[0] == [] && pieces[1] == line
  {
    assert "\n" + line + "\n" + rest == [] + ['\n'] + (line + ['\n'] + rest);
    SplitAt([], line + ['\n'] + rest, '\n');
    SplitAt(line, rest, '\n');
  }

  /** A readable scan verdict puts its risk level, after the newer-name fallback, on its own second line. */
  lemma ScanRiskLine(r: Response)
    requires ReadJson(r).Some? && !Nullish(ReadJson(r).value)
    requires var d := ReadJson(r).value; !HasItems(Signals(d)) || Signals(d).Arr?
    requires '\n' !in ToStr(RiskLevel(ReadJson(r).value))
    ensures var pieces := Split(ScanReport(r), '\n');
            |pieces| >= 2 && pieces[0] == [] && pieces[1] == "  Risk Level: " + ToStr(RiskLevel(ReadJson(r).value))
  {
    var d := ReadJson(r).value;
    RiskLabelIsOneLine(ToStr(RiskLevel(d)));
    VerdictReport(r);
    SecondLine("  Risk Level: " + ToStr(RiskLevel(d)), ScanDetails(d));
  }

  /** The report for a readable verdict: a blank line, the risk line, then the details. */
  lemma VerdictReport(r: Response)
    requires ReadJson(r).Some? && !Nullish(ReadJson(r).value)
    requires var d := ReadJson(r).value; !HasItems(Signals(d)) || Signals(d).Arr?
    ensures var d := ReadJson(r).value;
            ScanReport(r) == "\n" + ("  Risk Level: " + ToStr(RiskLevel(d))) + "\n" + ScanDetails(d)
  {
    var d := ReadJson(r).value;
    var head, level := "\n" + "  Risk Level: ", ToStr(RiskLevel(d));
    assert head + level == "\n" + ("  Risk Level: " + level);
  }

  lemma RiskLabelIsOneLine(level: string)
    requires '\n' !in level
    ensures '\n' !in "  Risk Level: " + level
  {
    var risk := "  Risk Level: " + level;
    forall k | 0 <= k < |risk| ensures risk[k] != '\n' {
      if k >= 14 { assert risk[k] == level[k - 14]; }
    }
  }

  /** A shipped item whose fields hold no newline makes exactly one line. */
  lemma ShippedLineIsOneLine(item: ShippedItem)
    requires '\n' !in item.date && '\n' !in item.name && '\n' !in item.detail
    ensures '\n' !in ShippedLine(item)
  {
    var name := PadEnd(item.name, 34);
    assert '\n' !in name by {
      forall k | 0 <= k < |name| ensures name[k] != '\n' {
        if k < |item.name| { assert name[k] == item.name[k]; }
      }
    }
  }

  /** `shipped` lists the first ten items (fewer when there are fewer), one line each, in order. */
  lemma ShippedListing(items: seq<ShippedItem>)
    requires |items| >= 1
    requires forall i :: 0 <= i < |items| ==> '\n' !in items[i].date && '\n' !in items[i].name && '\n' !in items[i].detail
    ensures Split(FormatShipped(items), '\n') == ShippedLines(items)
    ensures |Split(FormatShipped(items), '\n')| == Min(10, |items|)
  {
    var ls := ShippedLines(items);
    forall i | 0 <= i < |ls| ensures '\n' !in ls[i] {
      ShippedLineIsOneLine(items[i]);
    }
    SplitJoin(ls, '\n');
  }

  /** A weight whose label holds no newline makes one line of a fixed shape. */
  lemma WeightLineIsOneLine(wt: Weight)
    requires '\n' !in wt.title
    ensures '\n' !in WeightLine(wt)
    ensures |WeightLine(wt)| == 2 + Max(|wt.title|, 24) + 1 + 20 + 2 + 4
  {
    var padded := PadEnd(wt.title, 24);
    assert '\n' !in padded by {
      forall k | 0 <= k < |padded| ensures padded[k] != '\n' {
        if k < |wt.title| { assert padded[k] == wt.title[k]; }
      }
    }
    var bar := Bar(wt.value);
    assert '\n' !in bar by {
      forall k | 0 <= k < 20 ensures bar[k] != '\n' {
        if k < BarWidth(wt.value) { assert bar[k] == '\U{2588}'; } else { assert bar[k] == '\U{2591}'; }
      }
    }
    var fx := Fixed2(wt.value);
    assert '\n' !in fx by {
      assert fx == [fx[0], fx[1], fx[2], fx[3]];
    }
  }

  /** `weights` prints one line per weight, in order. */
  lemma WeightsListing(ws: seq<Weight>)
    requires |ws| >= 1 && forall i :: 0 <= i < |ws| ==> '\n' !in ws[i].title
    ensures var pieces := Split(FormatWeights(ws), '\n');
            |pieces| == |ws| && forall i :: 0 <= i < |ws| ==> pieces[i] == WeightLine(ws[i])
  {
    var ls := seq(|ws|, i requires 0 <= i < |ws| => WeightLine(ws[i]));
    forall i | 0 <= i < |ls| ensures '\n' !in ls[i] {
      WeightLineIsOneLine(ws[i]);
    }
    SplitJoin(ls, '\n');
  }

  // ---------------------------------------------------------------- verdict lines

  /** One bullet line per signal. */
  function BulletLines(items: seq<Value>): (r: seq<string>)
    ensures |r| == |items|
  {
    seq(|items|, i requires 0 <= i < |items| => "    - " + ToStr(items[i]))
  }

  /**
   * The lines of a readable verdict after its risk line, as the component means them: the score,
   * the `Signals:` heading and one bullet per signal only when there are signals, the action only when
   * a recommendation is given, and the empty piece the closing newline leaves.
   */
  function DetailLines(d: Value): seq<string>
    requires !Nullish(d)
    requires !HasItems(Signals(d)) || Signals(d).Arr?
  {
    ["  Score:      " + ScoreText(d)]
    + (if HasItems(Signals(d)) then ["  Signals:"] + BulletLines(Signals(d).items) else [])
    + (if Truthy(Prop(d, "recommendation")) then ["  Action:     " + ToStr(Prop(d, "recommendation"))] else [])
    + [""]
  }

  /** The verdict's fields that are printed hold no newline. */
  predicate OneLineFields(d: Value)
    requires !Nullish(d)
    requires !HasItems(Signals(d)) || Signals(d).Arr?
  {
    '\n' !in ScoreText(d)
    && (HasItems(Signals(d)) ==> forall i :: 0 <= i < |Signals(d).items| ==> '\n' !in ToStr(Signals(d).items[i]))
    && (Truthy(Prop(d, "recommendation")) ==> '\n' !in ToStr(Prop(d, "recommendation")))
  }

  /** The text after a non-empty list of lines, joined on after a newline; nothing for no lines. */
  function JoinedAfter(ls: seq<string>): string {
    if ls == [] then "" else "\n" + Join(ls, "\n")
  }

  /** The bullets are the bullet lines, each after a newline. */
  lemma {:induction false} BulletsJoin(items: seq<Value>)
    ensures Bullets(items) == JoinedAfter(BulletLines(items))
  {
    if items != [] {
      var ls := BulletLines(items);
      BulletsJoin(items[1..]);
      assert ls == [ls[0]] + BulletLines(items[1..]);
      JoinAppend([ls[0]], BulletLines(items[1..]), "\n");
    }
  }

  /** Joining a head line and more lines is the head, then the rest each after a newline. */
  lemma JoinAfterHead(head: string, rest: seq<string>)
    ensures Join([head] + rest, "\n") == head + JoinedAfter(rest)
  {
    JoinAppend([head], rest, "\n");
  }

  /** Lines joined after a newline, in two runs. */
  lemma JoinedAfterAppend(x: seq<string>, y: seq<string>)
    ensures JoinedAfter(x + y) == JoinedAfter(x) + JoinedAfter(y)
  {
    if x == [] {
      assert x + y == y;
    } else {
      JoinAppend(x, y, "\n");
    }
  }

  /** A line of its own after a newline, as one literal that opens with the newline. */
  lemma OwnLine(head: string, lead: string, text: string)
    requires lead == "\n" + head
    ensures JoinedAfter([head + text]) == lead + text
  {
    AppendAssoc("\n", head, text);
  }

  /** A headed block of bullets (`Signals:`, `Flags:`): its heading, then a bullet line per item. */
  lemma HeadedBlock(heading: string, lead: string, items: seq<Value>)
    requires lead == "\n" + heading
    ensures JoinedAfter([heading] + BulletLines(items)) == lead + Bullets(items)
  {
    BulletsJoin(items);
    JoinAfterHead(heading, BulletLines(items));
    AppendAssoc("\n", heading, Bullets(items));
  }

  /** Four texts in a row, grouped from the right. */
  lemma Regroup(a: string, b: string, c: string, d: string)
    ensures a + b + c + d == a + (b + (c + d))
  {
    AppendAssoc(a, b, c);
    AppendAssoc(a, b + c, d);
    AppendAssoc(b, c, d);
  }

  /** The verdict details are their lines joined by newlines. */
  lemma DetailsJoin(d: Value)
    requires !Nullish(d)
    requires !HasItems(Signals(d)) || Signals(d).Arr?
    ensures ScanDetails(d) == Join(DetailLines(d), "\n")
  {
    var signals := Signals(d);
    var rec := Prop(d, "recommendation");
    var score := "  Score:      " + ScoreText(d);
    var block := if HasItems(signals) then ["  Signals:"] + BulletLines(signals.items) else [];
    var action := if Truthy(rec) then ["  Action:     " + ToStr(rec)] else [];
    var listing := if HasItems(signals) then "\n  Signals:" + Bullets(signals.items) else "";
    var act := if Truthy(rec) then "\n  Action:     " + ToStr(rec) else "";
    if HasItems(signals) {
      HeadedBlock("  Signals:", "\n  Signals:", signals.items);
    }
    assert JoinedAfter(block) == listing;
    if Truthy(rec) {
      OwnLine("  Action:     ", "\n  Action:     ", ToStr(rec));
    }
    assert JoinedAfter(action) == act;
    JoinParts(score, block, action, listing, act);
  }

  /** A head line, two runs of lines and a closing empty piece, joined by newlines. */
  lemma JoinParts(head: string, xs: seq<string>, ys: seq<string>, x: string, y: string)
    requires JoinedAfter(xs) == x && JoinedAfter(ys) == y
    ensures Join([head] + xs + ys + [""], "\n") == head + x + y + "\n"
  {
    assert JoinedAfter([""]) == "\n";
    assert [head] + xs + ys + [""] == [head] + (xs + (ys + [""]));
    JoinAfterHead(head, xs + (ys + [""]));
    JoinedAfterAppend(xs, ys + [""]);
    JoinedAfterAppend(ys, [""]);
    Regroup(head, x, y, "\n");
  }

  /** A newline, one line, a newline and then details split into an empty piece, the line, and the details' pieces. */
  lemma SplitAfterLine(line: string, details: string, pieces: seq<string>)
    requires '\n' !in line && Split(details, '\n') == pieces
    ensures Split("\n" + line + "\n" + details, '\n') == ["", line] + pieces
  {
    var rest := line + "\n" + details;
    NewlineFirst(line, details);
    SplitAt(line, details, '\n');
    LeadingNewline(rest);
    assert [""] + ([line] + pieces) == ["", line] + pieces;
  }

  /** A newline, a line, a newline and more, grouped after the first newline. */
  lemma NewlineFirst(line: string, details: string)
    ensures "\n" + line + "\n" + details == "\n" + (line + "\n" + details)
  {
    AppendAssoc("\n", line + "\n", details);
    AppendAssoc("\n", line, "\n");
  }

  /** A text that opens with a newline splits into an empty piece and the pieces of the rest. */
  lemma LeadingNewline(rest: string)
    ensures Split("\n" + rest, '\n') == [""] + Split(rest, '\n')
  {
    SplitAt("", rest, '\n');
    assert "" + ['\n'] + rest == "\n" + rest;
  }

  /**
   * A readable verdict whose fields hold no newline prints, line by line: an empty line, the risk
   * level, the score (`?` when `risk_score` is absent), the signals block only when there are signals,
   * the action only when a recommendation is given, and the empty piece after the closing newline.
   */
  lemma ScanReportLines(r: Response)
    requires ReadJson(r).Some? && !Nullish(ReadJson(r).value)
    requires var d := ReadJson(r).value; !HasItems(Signals(d)) || Signals(d).Arr?
    requires '\n' !in ToStr(RiskLevel(ReadJson(r).value)) && OneLineFields(ReadJson(r).value)
    ensures var d := ReadJson(r).value;
            var pieces := Split(ScanReport(r), '\n');
            pieces == ["", "  Risk Level: " + ToStr(RiskLevel(d))] + DetailLines(d)
            && pieces[2] == "  Score:      " + (if HasScore(d) then ToStr(Prop(d, "risk_score")) else "?")
  {
    var d := ReadJson(r).value;
    var risk := "  Risk Level: " + ToStr(RiskLevel(d));
    RiskLabelIsOneLine(ToStr(RiskLevel(d)));
    VerdictReport(r);
    DetailsSplit(d);
    SplitAfterLine(risk, ScanDetails(d), DetailLines(d));
  }

  /** The details split back into their lines. */
  lemma DetailsSplit(d: Value)
    requires !Nullish(d)
    requires !HasItems(Signals(d)) || Signals(d).Arr?
    requires OneLineFields(d)
    ensures Split(ScanDetails(d), '\n') == DetailLines(d)
  {
    DetailsJoin(d);
    DetailLinesAreLines(d);
    SplitJoin(DetailLines(d), '\n');
  }

  /** Two texts without a newline make one without a newline. */
  lemma ConcatIsOneLine(a: string, b: string)
    requires '\n' !in a && '\n' !in b
    ensures '\n' !in a + b
  {
    forall k | 0 <= k < |a + b| ensures (a + b)[k] != '\n' {
      if k >= |a| { assert (a + b)[k] == b[k - |a|]; }
    }
  }

  /** No line of the details holds a newline. */
  lemma DetailLinesAreLines(d: Value)
    requires !Nullish(d)
    requires !HasItems(Signals(d)) || Signals(d).Arr?
    requires OneLineFields(d)
    ensures forall i :: 0 <= i < |DetailLines(d)| ==> '\n' !in DetailLines(d)[i]
  {
    var signals := Signals(d);
    var rec := Prop(d, "recommendation");
    var score, heading, bullet, act := "  Score:      ", "  Signals:", "    - ", "  Action:     ";
    forall k | 0 <= k < |score| ensures score[k] != '\n' { }
    forall k | 0 <= k < |heading| ensures heading[k] != '\n' { }
    forall k | 0 <= k < |bullet| ensures bullet[k] != '\n' { }
    forall k | 0 <= k < |act| ensures act[k] != '\n' { }
    ConcatIsOneLine(score, ScoreText(d));
    var block := if HasItems(signals) then [heading] + BulletLines(signals.items) else [];
    forall i | 0 <= i < |block| ensures '\n' !in block[i] {
      if i > 0 { ConcatIsOneLine(bullet, ToStr(signals.items[i - 1])); }
    }
    var action := if Truthy(rec) then [act + ToStr(rec)] else [];
    if Truthy(rec) { ConcatIsOneLine(act, ToStr(rec)); }
    assert DetailLines(d) == [score + ScoreText(d)] + block + action + [""];
  }

  // ---------------------------------------------------------------- fallbacks

  /**
   * When the answer cannot be read (the request failed or its body is not JSON), `status`'s health
   * stage and `models` print their fixed text and `brief` and `manifest` print their fallback; a
   * readable `null` answer also throws in the health stage and in `models`. `brief` and `manifest` print
   * any readable answer as JSON.
   */
  lemma FallbackReports(r: Response, stringify: Value -> string, fallback: string)
    ensures ReadJson(r).None? ==>
              HealthReport(r) == StatusPrivateText && ModelsReport(r) == ModelsPrivateText
              && JsonOr(r, stringify, fallback) == fallback
    ensures ReadJson(r).Some? && Nullish(ReadJson(r).value) ==>
              HealthReport(r) == StatusPrivateText && ModelsReport(r) == ModelsPrivateText
    ensures ReadJson(r).Some? ==> JsonOr(r, stringify, fallback) == stringify(ReadJson(r).value)
  {
  }

  /**
   * `models` on a readable answer: no models listed prints `No models loaded.`; a list that cannot be
   * mapped, or holds a `null` entry, throws and prints the fixed list.
   */
  lemma ModelsListFallbacks(r: Response)
    requires ReadJson(r).Some? && !Nullish(ReadJson(r).value)
    ensures var ms := Prop(ReadJson(r).value, "models");
            (!HasItems(ms) ==> ModelsReport(r) == "  No models loaded.")
            && (HasItems(ms) && !ms.Arr? ==> ModelsReport(r) == ModelsPrivateText)
            && (ms.Arr? && (exists i :: 0 <= i < |ms.items| && Nullish(ms.items[i])) ==> ModelsReport(r) == ModelsPrivateText)
  {
  }

  /** `status` whose brain and health checks both fail ends with the fixed private-network text. */
  lemma StatusFallsBack(w: World)
    requires ReadJson(w.net.brainStatus).None? && ReadJson(w.net.chetanaHealth).None?
    ensures StatusReply(w) == Reply(["Fetching service status...", StatusPrivateText], [BrainStatus, ChetanaHealth])
  {
    FallbackReports(w.net.chetanaHealth, w.stringify, "");
  }

  /** `models` whose registry cannot be read prints its progress line and the fixed list. */
  lemma ModelsFallsBack(c: Command, site: Dataset, w: World)
    requires c.verb == Models && ReadJson(w.net.modelTags).None?
    ensures Respond(c, site, w) == Reply(["Querying model registry...", ModelsPrivateText], [ModelTags])
  {
    FallbackReports(w.net.modelTags, w.stringify, "");
  }

  /** `brief` whose service cannot be read prints its progress line and the fixed briefing. */
  lemma BriefFallsBack(c: Command, site: Dataset, w: World)
    requires c.verb == Brief && ReadJson(w.net.brief).None?
    ensures Respond(c, site, w) == Reply(["Loading sovereign briefing...", BriefPrivateText], [BriefApi])
  {
    FallbackReports(w.net.brief, w.stringify, BriefPrivateText);
  }

  /** `manifest` whose service cannot be read prints its progress line and the manifest built from the site's stats. */
  lemma ManifestFallsBack(c: Command, site: Dataset, w: World)
    requires c.verb == Manifest && ReadJson(w.net.manifest).None?
    ensures Respond(c, site, w) == Reply(["Loading build manifest...", ManifestPrivateText(site.stats)], [ManifestApi])
  {
    FallbackReports(w.net.manifest, w.stringify, ManifestPrivateText(site.stats));
  }

  // ---------------------------------------------------------------- URL verdict lines

  /** The lines of a readable URL verdict: an empty line, the URL, the risk, the flags only when there are signals, and the empty piece after the closing newline. */
  function UrlLines(url: string, d: Value): seq<string>
    requires !Nullish(d)
    requires !HasItems(Prop(d, "signals")) || Prop(d, "signals").Arr?
  {
    var signals := Prop(d, "signals");
    var block := if HasItems(signals) then ["  Flags:"] + BulletLines(signals.items) else [];
    [""] + (["  URL:   " + url] + ["  Risk:  " + ToStr(RiskLevel(d))] + block + [""])
  }

  /**
   * A readable `scan-url` verdict whose URL, level and signals hold no newline prints, line by line: an
   * empty line, the URL, the risk level, the `Flags:` block only when there are signals, and the empty
   * piece after the closing newline.
   */
  lemma UrlReportLines(url: string, r: Response)
    requires ReadJson(r).Some? && !Nullish(ReadJson(r).value)
    requires var signals := Prop(ReadJson(r).value, "signals"); !HasItems(signals) || signals.Arr?
    requires '\n' !in url && '\n' !in ToStr(RiskLevel(ReadJson(r).value))
    requires var signals := Prop(ReadJson(r).value, "signals");
             HasItems(signals) ==> forall i :: 0 <= i < |signals.items| ==> '\n' !in ToStr(signals.items[i])
    ensures Split(UrlReport(url, r), '\n') == UrlLines(url, ReadJson(r).value)
  {
    var d := ReadJson(r).value;
    var signals := Prop(d, "signals");
    var level := ToStr(RiskLevel(d));
    var u, k := "  URL:   " + url, "  Risk:  " + level;
    var block := if HasItems(signals) then ["  Flags:"] + BulletLines(signals.items) else [];
    var flags := if HasItems(signals) then "\n  Flags:" + Bullets(signals.items) else "";
    if HasItems(signals) {
      HeadedBlock("  Flags:", "\n  Flags:", signals.items);
    }
    OwnLine("  Risk:  ", "\n  Risk:  ", level);
    JoinParts(u, [k], block, "\n  Risk:  " + level, flags);
    var ls := [u] + [k] + block + [""];
    UrlText(url, level, flags);
    assert UrlReport(url, r) == "\n" + Join(ls, "\n");
    LeadingNewline(Join(ls, "\n"));
    UrlLinesAreLines(url, level, signals, block);
    SplitJoin(ls, '\n');
    assert UrlLines(url, d) == [""] + ls;
  }

  /** The URL report's text, grouped as a newline before its joined lines. */
  lemma UrlText(url: string, level: string, flags: string)
    ensures "\n  URL:   " + url + "\n  Risk:  " + level + flags + "\n"
            == "\n" + (("  URL:   " + url) + ("\n  Risk:  " + level) + flags + "\n")
  {
    AppendAssoc("\n", "  URL:   ", url);
    AppendAssoc("\n" + "  URL:   " + url, "\n  Risk:  ", level);
    assert "\n  URL:   " == "\n" + "  URL:   ";
  }

  /** No line of a URL verdict holds a newline. */
  lemma UrlLinesAreLines(url: string, level: string, signals: Value, block: seq<string>)
    requires '\n' !in url && '\n' !in level
    requires HasItems(signals) ==> signals.Arr? && forall i :: 0 <= i < |signals.items| ==> '\n' !in ToStr(signals.items[i])
    requires block == if HasItems(signals) then ["  Flags:"] + BulletLines(signals.items) else []
    ensures var ls := ["  URL:   " + url] + ["  Risk:  " + level] + block + [""];
            forall i :: 0 <= i < |ls| ==> '\n' !in ls[i]
  {
    var u, k, f, bullet := "  URL:   ", "  Risk:  ", "  Flags:", "    - ";
    forall j | 0 <= j < |u| ensures u[j] != '\n' { }
    forall j | 0 <= j < |k| ensures k[j] != '\n' { }
    forall j | 0 <= j < |f| ensures f[j] != '\n' { }
    forall j | 0 <= j < |bullet| ensures bullet[j] != '\n' { }
    ConcatIsOneLine(u, url);
    ConcatIsOneLine(k, level);
    forall i | 0 <= i < |block| ensures '\n' !in block[i] {
      if i > 0 { ConcatIsOneLine(bullet, ToStr(signals.items[i - 1])); }
    }
  }
}
