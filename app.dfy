/**
 * The interactive parts of the landing page: the showcase carousel's step,
 * the scam-scanning terminal and the floating chat widget.
 *
 * Both widgets await one request in the middle of a handler. Each handler is
 * split at its `await`: the part before it is one method and the
 * continuation that receives the response is another, so that whatever the
 * user does in between (typing, pressing Enter again) is an event of its own.
 */
module App {
  import opened Common
  import opened Text
  import opened Json
  import opened ScanFields
  import opened SiteData
  import Terminal

  // ---------------------------------------------------------------- carousel

  /** JavaScript's `%` on integers: the remainder takes the sign of the dividend. */
  function JsRem(a: int, n: int): (r: int)
    requires n > 0
    ensures (a - r) % n == 0
    ensures a >= 0 ==> 0 <= r < n
    ensures a < 0 ==> -n < r <= 0
  {
    var q := if a >= 0 then a / n else -((-a) / n);
    var r := if a >= 0 then a % n else -((-a) % n);
    assert a - r == n * q;
    MultipleRem(q, n);
    r
  }

  /** A multiple of `n` leaves no remainder. */
  lemma MultipleRem(k: int, n: int)
    requires n > 0
    ensures (n * k) % n == 0
  {
    var d, m := (n * k) / n, (n * k) % n;
    assert m == n * (k - d);
    ProductBound(k - d, n);
  }

  /** A non-zero multiple of `n` is at least `n` away from zero. */
  lemma ProductBound(x: int, n: int)
    requires n > 0
    ensures x >= 1 ==> n * x >= n
    ensures x <= -1 ==> n * x <= -n
  {
    if x >= 1 {
      assert n * x == n + n * (x - 1);
    } else if x <= -1 {
      assert n * x == -n + n * (x + 1);
    }
  }

  /** `Carousel.go`: `(prev + dir + count) % count`. */
  function Go(prev: int, dir: int, count: int): (r: int)
    requires count > 0
    ensures (prev + dir + count - r) % count == 0
    ensures prev + dir + count >= 0 ==> 0 <= r < count
  {
    JsRem(prev + dir + count, count)
  }

  /** A step of one in either direction stays on a slide and wraps around at both ends. */
  lemma GoStep(prev: int, dir: int, count: int)
    requires 0 <= prev < count && (dir == 1 || dir == -1)
    ensures 0 <= Go(prev, dir, count) < count
    ensures Go(prev, dir, count) == if prev + dir == count then 0 else if prev + dir < 0 then count - 1 else prev + dir
  {
    var a := prev + dir + count;
    if a < count {
      ModBelow(a, count);
    } else {
      ModAbove(a, count);
    }
  }

  lemma ModBelow(a: int, n: int)
    requires 0 <= a < n
    ensures a % n == a
  {
  }

  lemma ModAbove(a: int, n: int)
    requires 0 < n <= a <= 2 * n
    ensures a % n == if a == 2 * n then 0 else a - n
  {
    var q := a / n;
    assert a == n * q + a % n;
    assert q <= 0 ==> n * q <= 0;
    assert q >= 3 ==> n * q >= 3 * n;
    assert q == 2 ==> n * q == 2 * n;
    assert q == 1 ==> n * q == n;
  }

  /** Going back undoes going forward, and the other way round. */
  lemma GoBack(prev: int, count: int)
    requires 0 <= prev < count
    ensures Go(Go(prev, 1, count), -1, count) == prev
    ensures Go(Go(prev, -1, count), 1, count) == prev
  {
    GoStep(prev, 1, count);
    GoStep(prev, -1, count);
    GoStep(Go(prev, 1, count), -1, count);
    GoStep(Go(prev, -1, count), 1, count);
  }

  // ---------------------------------------------------------------- scan terminal

  /** The colour keys of the terminal's lines: `s` (system), `c` (command), `o` (output), `e` (error). */
  datatype Tone = System | Command | Output | Error

  datatype TermLine = TermLine(tone: Tone, text: string)

  const Quotes: seq<string> := [
    "The model is interchangeable. The bus is identity.",
    "107 repos, one Mac Mini, zero cloud deps.",
    "There's nothing between a scammer and a grandmother with a smartphone.",
    "Your AI identity should be a portable file — stored in your files, not theirs."
  ]

  const HelpLine := TermLine(Output, "  help | about | scan <msg> | reflect | stats | clear")
  const AboutLine := TermLine(Output, "  Paul Desai · Goa · 10mo sovereign AI · 1 Mac Mini · 0 cloud deps")
  const Cleared := TermLine(System, "> cleared")
  const Scanning := TermLine(System, "  scanning...")
  const Offline := TermLine(System, "  [chetana offline — try again later]")
  const Safe := TermLine(Output, "  This message appears safe.")

  /** `$ <cmd>`: every submitted command is echoed as typed. */
  function Echo(cmd: string): TermLine {
    TermLine(Command, "$ " + cmd)
  }

  /** What the terminal does with a non-blank trimmed, lower-cased command. */
  datatype Intent = HelpIntent | AboutIntent | StatsIntent | ReflectIntent | ClearIntent | ScanIntent

  function Classify(c: string): Intent {
    if c == "help" then HelpIntent
    else if c == "about" then AboutIntent
    else if c == "stats" then StatsIntent
    else if c == "reflect" then ReflectIntent
    else if c == "clear" then ClearIntent
    else ScanIntent
  }

  /** `  <label padded to 16> <value>`. */
  function StatLine(s: Stat): TermLine {
    TermLine(Output, "  " + PadEnd(s.title, 16) + " " + s.value)
  }

  /** One line per entry of STATS, in order. */
  function StatLines(stats: seq<Stat>): (r: seq<TermLine>)
    ensures |r| == |stats| && forall k :: 0 <= k < |stats| ==> r[k] == StatLine(stats[k])
  {
    seq(|stats|, k requires 0 <= k < |stats| => StatLine(stats[k]))
  }

  /** A quote picked by `Math.floor(Math.random() * quotes.length)`. */
  function ReflectLine(draw: Terminal.Draw): TermLine {
    var i := Terminal.ReflectionIndex(draw, |Quotes|);
    TermLine(Output, "  \"" + Quotes[i] + "\"")
  }

  /** The lines a locally answered command adds after its echo. */
  function LocalReply(intent: Intent, stats: seq<Stat>, draw: Terminal.Draw): seq<TermLine> {
    match intent
    case HelpIntent => [HelpLine]
    case AboutIntent => [AboutLine]
    case StatsIntent => StatLines(stats)
    case ReflectIntent => [ReflectLine(draw)]
    case _ => []
  }

  /** `c.startsWith('scan ')`. */
  predicate ScanPrefixed(c: string) {
    |c| >= 5 && c[..5] == "scan "
  }

  /**
   * The message sent for scanning, as the component computes it: the test is made on the trimmed
   * command but the five characters are cut from the raw one.
   */
  function PayloadAsWritten(cmd: string): string {
    if ScanPrefixed(Lower(Trim(cmd))) then cmd[Min(5, |cmd|)..] else cmd
  }

  /**
   * The message sent for scanning: the command without its leading white space and the `scan ` keyword
   * when it starts with the keyword, the whole command otherwise.
   */
  function Payload(cmd: string): string {
    if ScanPrefixed(Lower(Trim(cmd))) then
      var s := StripStart(cmd, IsJsSpace);
      s[Min(5, |s|)..]
    else cmd
  }

  /** The transcript right after a command is submitted, up to the scan request if there is one. */
  function Submitted(lines: seq<TermLine>, cmd: string, stats: seq<Stat>, draw: Terminal.Draw): seq<TermLine> {
    var echoed := lines + [Echo(cmd)];
    var c := Lower(Trim(cmd));
    if c == [] then echoed else Dispatched(echoed, Classify(c), stats, draw)
  }

  /** The transcript after a non-blank command's echo, by what the command asks for. */
  function Dispatched(echoed: seq<TermLine>, intent: Intent, stats: seq<Stat>, draw: Terminal.Draw): seq<TermLine> {
    match intent
    case ClearIntent => [Cleared]
    case ScanIntent => echoed + [Scanning]
    case _ => echoed + LocalReply(intent, stats, draw)
  }

  /** The message a submitted command sends to the scanner, if it sends one, cut as the component cuts it. */
  function Sent(cmd: string): Option<string> {
    var c := Lower(Trim(cmd));
    if c != [] && Classify(c) == ScanIntent then Some(PayloadAsWritten(cmd)) else None
  }

  /** `risk === 'HIGH' ? 'e' : risk === 'MEDIUM' ? 's' : 'o'`. */
  function RiskTone(risk: Value): Tone {
    if risk == Str("HIGH") then Error else if risk == Str("MEDIUM") then System else Output
  }

  function RiskLine(risk: Value): TermLine {
    TermLine(RiskTone(risk), "  RISK: " + ToStr(risk))
  }

  /** The category line, when the response carries a truthy `category`. */
  function CategoryLines(d: Value): seq<TermLine>
    requires !Nullish(d)
  {
    if Truthy(Prop(d, "category")) then [TermLine(Output, "  Category: " + ToStr(Prop(d, "category")))] else []
  }

  function SignalLine(s: Value): TermLine {
    TermLine(Output, "    → " + ToStr(s))
  }

  function SignalLines(items: seq<Value>): (r: seq<TermLine>)
    ensures |r| == |items| && forall k :: 0 <= k < |items| ==> r[k] == SignalLine(items[k])
  {
    seq(|items|, k requires 0 <= k < |items| => SignalLine(items[k]))
  }

  /**
   * Whether the scan throws inside its `try`: the request or `r.json()` fails, the body is `null`,
   * or the signal list is truthy but not an array (so it has no `forEach`).
   */
  predicate ScanFails(r: Response) {
    var read := ReadJson(r);
    read.None? || Nullish(read.value) || !Signals(read.value).Arr?
  }

  /** The lines the scan's continuation appends, including those added before a throw. */
  function ScanLines(r: Response): seq<TermLine> {
    match ReadJson(r)
    case None => [Offline]
    case Some(d) => if Nullish(d) then [Offline] else VerdictLines(d)
  }

  /** The lines for a response body that is an object (or any non-null value). */
  function VerdictLines(d: Value): seq<TermLine>
    requires !Nullish(d)
  {
    var head := [RiskLine(RiskLevel(d))] + CategoryLines(d);
    var signals := Signals(d);
    if !signals.Arr? then head + [Offline]
    else head + SignalLines(signals.items) + (if RiskLevel(d) == Str("LOW") then [Safe] else [])
  }

  class ScanTerminal {
    var lines: seq<TermLine>
    var input: string
    var scanning: bool

    constructor ()
      ensures lines == [] && input == [] && !scanning
    {
      lines := [];
      input := [];
      scanning := false;
    }

    method Edit(text: string)
      modifies this
      ensures input == text && lines == old(lines) && scanning == old(scanning)
    {
      input := text;
    }

    /**
     * `run(cmd)` up to its `await`: echo the command, answer it locally, or announce a scan and return
     * the message to post.
     */
    method Run(cmd: string, stats: seq<Stat>, draw: Terminal.Draw) returns (sent: Option<string>)
      modifies this
      ensures lines == Submitted(old(lines), cmd, stats, draw)
      ensures sent == Sent(cmd)
      ensures scanning == (old(scanning) || sent.Some?)
      ensures input == old(input)
    {
      lines := lines + [Echo(cmd)];
      var c := Lower(Trim(cmd));
      sent := None;
      if c == [] {
        return;
      }
      sent := Dispatch(Classify(c), cmd, stats, draw);
    }

    /** What a non-blank command does after its echo. */
    method Dispatch(intent: Intent, cmd: string, stats: seq<Stat>, draw: Terminal.Draw) returns (sent: Option<string>)
      modifies this
      ensures lines == Dispatched(old(lines), intent, stats, draw)
      ensures sent == if intent == ScanIntent then Some(PayloadAsWritten(cmd)) else None
      ensures scanning == (old(scanning) || sent.Some?)
      ensures input == old(input)
    {
      sent := None;
      if intent == ClearIntent {
        lines := [Cleared];
      } else if intent == ScanIntent {
        var msg := PayloadAsWritten(cmd);
        lines := lines + [Scanning];
        scanning := true;
        sent := Some(msg);
      } else {
        Reply(intent, stats, draw);
      }
    }

    /** The answers given without a request: `help`, `about`, `stats` and `reflect`. */
    method Reply(intent: Intent, stats: seq<Stat>, draw: Terminal.Draw)
      requires intent != ClearIntent && intent != ScanIntent
      modifies this
      ensures lines == old(lines) + LocalReply(intent, stats, draw)
      ensures input == old(input) && scanning == old(scanning)
    {
      match intent {
        case HelpIntent =>
          lines := lines + [HelpLine];
        case AboutIntent =>
          lines := lines + [AboutLine];
        case StatsIntent =>
          AddStats(stats);
        case ReflectIntent =>
          lines := lines + [ReflectLine(draw)];
      }
    }

    /** `STATS.forEach(s => add(...))`. */
    method AddStats(stats: seq<Stat>)
      modifies this
      ensures lines == old(lines) + StatLines(stats)
      ensures input == old(input) && scanning == old(scanning)
    {
      var i := 0;
      while i < |stats|
        invariant 0 <= i <= |stats|
        invariant lines == old(lines) + StatLines(stats[..i])
        invariant input == old(input) && scanning == old(scanning)
      {
        assert StatLines(stats[..i + 1]) == StatLines(stats[..i]) + [StatLine(stats[i])];
        lines := lines + [StatLine(stats[i])];
        i := i + 1;
      }
      assert stats[..i] == stats;
    }

    /** The continuation of a scan once its request settles: report the verdict, then stop scanning. */
    method Complete(r: Response)
      requires scanning
      modifies this
      ensures lines == old(lines) + ScanLines(r)
      ensures !scanning && input == old(input)
    {
      var read := ReadJson(r);
      if read.None? || Nullish(read.value) {
        lines := lines + [Offline];
      } else {
        Report(read.value);
      }
      scanning := false;
    }

    /** The body of the `try` once the response is read: risk, category, signals, verdict. */
    method Report(d: Value)
      requires !Nullish(d)
      modifies this
      ensures lines == old(lines) + VerdictLines(d)
      ensures input == old(input) && scanning == old(scanning)
    {
      var risk := RiskLevel(d);
      lines := lines + [RiskLine(risk)];
      if Truthy(Prop(d, "category")) {
        lines := lines + [TermLine(Output, "  Category: " + ToStr(Prop(d, "category")))];
      }
      ghost var head := [RiskLine(risk)] + CategoryLines(d);
      assert lines == old(lines) + head;
      var signals := Signals(d);
      if !signals.Arr? {
        lines := lines + [Offline];
        assert lines == old(lines) + (head + [Offline]);
      } else {
        Conclude(signals.items, risk);
        AppendAssoc(old(lines), head, SignalLines(signals.items) + (if risk == Str("LOW") then [Safe] else []));
        AppendAssoc(head, SignalLines(signals.items), if risk == Str("LOW") then [Safe] else []);
      }
    }

    /** The signal lines, then the safe line when the risk is `LOW`. */
    method Conclude(items: seq<Value>, risk: Value)
      modifies this
      ensures lines == old(lines) + (SignalLines(items) + (if risk == Str("LOW") then [Safe] else []))
      ensures input == old(input) && scanning == old(scanning)
    {
      AddSignals(items);
      if risk == Str("LOW") {
        AppendAssoc(old(lines), SignalLines(items), [Safe]);
        lines := lines + [Safe];
      }
    }

    /** `signals.forEach(s => add(...))` on an array. */
    method AddSignals(items: seq<Value>)
      modifies this
      ensures lines == old(lines) + SignalLines(items)
      ensures input == old(input) && scanning == old(scanning)
    {
      var i := 0;
      while i < |items|
        invariant 0 <= i <= |items|
        invariant lines == old(lines) + SignalLines(items[..i])
        invariant input == old(input) && scanning == old(scanning)
      {
        assert SignalLines(items[..i + 1]) == SignalLines(items[..i]) + [SignalLine(items[i])];
        lines := lines + [SignalLine(items[i])];
        i := i + 1;
      }
      assert items[..i] == items;
    }

    /** Enter submits the input and clears it, unless a scan is still running. */
    method KeyDown(enter: bool, stats: seq<Stat>, draw: Terminal.Draw) returns (sent: Option<string>)
      modifies this
      ensures !enter || old(scanning) ==>
                sent.None? && lines == old(lines) && input == old(input) && scanning == old(scanning)
      ensures enter && !old(scanning) ==>
                lines == Submitted(old(lines), old(input), stats, draw) && input == []
                && sent == Sent(old(input)) && scanning == sent.Some?
    {
      sent := None;
      if enter && !scanning {
        sent := Run(input, stats, draw);
        input := [];
      }
    }
  }

  // ---------------------------------------------------------------- terminal properties

  /** Exactly five words are answered locally; anything else is a message to scan. */
  lemma OnlyFiveWordsAreLocal(c: string)
    ensures Classify(c) == ScanIntent <==> c != "help" && c != "about" && c != "stats" && c != "reflect" && c != "clear"
  {
  }

  /** A blank command is echoed and nothing else happens. */
  lemma BlankIsOnlyEchoed(lines: seq<TermLine>, cmd: string, stats: seq<Stat>, draw: Terminal.Draw)
    requires Lower(Trim(cmd)) == []
    ensures Submitted(lines, cmd, stats, draw) == lines + [Echo(cmd)]
    ensures Sent(cmd).None?
  {
  }

  /** `clear` leaves the single line `> cleared`, whatever came before. */
  lemma ClearLeavesOneLine(lines: seq<TermLine>, cmd: string, stats: seq<Stat>, draw: Terminal.Draw)
    requires Lower(Trim(cmd)) == "clear"
    ensures Submitted(lines, cmd, stats, draw) == [Cleared]
    ensures Sent(cmd).None?
  {
    ClassifyClear(Lower(Trim(cmd)));
  }

  lemma ClassifyClear(c: string)
    requires c == "clear"
    ensures Classify(c) == ClearIntent
  {
    assert c[0] == 'c' && c[1] == 'l';
  }

  /**
   * Every command but `clear` keeps the transcript and appends to it: the echo, then one line for
   * `help`, `about` and `reflect`, one per entry for `stats`, and the scanning notice for a scan.
   */
  lemma SubmitAppends(lines: seq<TermLine>, cmd: string, stats: seq<Stat>, draw: Terminal.Draw)
    requires Lower(Trim(cmd)) != "clear"
    ensures var r := Submitted(lines, cmd, stats, draw);
            var c := Lower(Trim(cmd));
            |r| > |lines| && r[..|lines| + 1] == lines + [Echo(cmd)]
            && (c == "stats" ==> |r| == |lines| + 1 + |stats|)
            && (c == "help" || c == "about" || c == "reflect" ==> |r| == |lines| + 2)
  {
    EchoedReaction(lines + [Echo(cmd)], Lower(Trim(cmd)), stats, draw);
  }

  /** The transcript after the echo of the lower-cased, trimmed command `c`, for any `c` but `clear`. */
  lemma EchoedReaction(echoed: seq<TermLine>, c: string, stats: seq<Stat>, draw: Terminal.Draw)
    requires c != "clear"
    ensures var r := if c == [] then echoed else Dispatched(echoed, Classify(c), stats, draw);
            |r| >= |echoed| && r[..|echoed|] == echoed
            && (c == "stats" ==> |r| == |echoed| + |stats|)
            && (c == "help" || c == "about" || c == "reflect" ==> |r| == |echoed| + 1)
  {
    if c != [] {
      ClearIntentIsClear(c);
      var tail := DispatchedAppends(echoed, Classify(c), stats, draw);
      assert (echoed + tail)[..|echoed|] == echoed;
    }
  }

  /** A command that sends a scan adds its echo and the scanning notice, nothing more. */
  lemma ScanAnnounced(lines: seq<TermLine>, cmd: string, stats: seq<Stat>, draw: Terminal.Draw)
    requires Sent(cmd).Some?
    ensures Submitted(lines, cmd, stats, draw) == lines + [Echo(cmd), Scanning]
  {
    var c := Lower(Trim(cmd));
    assert c != [] && Classify(c) == ScanIntent;
    var tail := DispatchedAppends(lines + [Echo(cmd)], Classify(c), stats, draw);
  }

  /** Only the word `clear` asks for a clear. */
  lemma ClearIntentIsClear(c: string)
    ensures Classify(c) == ClearIntent <==> c == "clear"
  {
  }

  /** Every intent but a clear keeps the echoed transcript and appends its reaction to it. */
  lemma DispatchedAppends(echoed: seq<TermLine>, intent: Intent, stats: seq<Stat>, draw: Terminal.Draw)
    returns (tail: seq<TermLine>)
    requires intent != ClearIntent
    ensures tail == if intent == ScanIntent then [Scanning] else LocalReply(intent, stats, draw)
    ensures Dispatched(echoed, intent, stats, draw) == echoed + tail
  {
    tail := if intent == ScanIntent then [Scanning] else LocalReply(intent, stats, draw);
  }

  /** `scan ` stays `scan ` when lower-cased. */
  lemma LowerKeyword(m: string)
    ensures ScanPrefixed(Lower("scan " + m))
  {
    var c := Lower("scan " + m);
    assert forall k :: 0 <= k < 5 ==> c[k] == ("scan " + m)[k];
    assert c[..5] == "scan ";
  }

  /** A command that starts with the keyword is never one of the local words. */
  lemma KeywordIsScan(c: string)
    requires ScanPrefixed(c)
    ensures Classify(c) == ScanIntent
  {
    assert c[0] == 's' && c[1] == 'c';
  }

  /**
   * The intended message of a command that starts with `scan ` after any white space is exactly the
   * text after the keyword; the component sends that text only when there is no leading white space.
   */
  lemma PayloadAfterKeyword(w: string, m: string)
    requires forall k :: 0 <= k < |w| ==> IsJsSpace(w[k])
    requires m != [] && !IsJsSpace(m[0]) && !IsJsSpace(m[|m| - 1])
    ensures Payload(w + "scan " + m) == m
    ensures w == [] ==> Sent(w + "scan " + m) == Some(m)
  {
    var x := "scan " + m;
    KeywordCommand(w, m);
    LowerKeyword(m);
    PrefixedPayload(w + "scan " + m, x);
    assert x[5..] == m;
    if w == [] {
      assert w + "scan " + m == x;
    }
  }

  /**
   * A command whose trimmed form `x` starts with the keyword is a scan: its intended message is what
   * follows the keyword in `x`, and what it sends is the raw command from its sixth character on.
   */
  lemma PrefixedPayload(cmd: string, x: string)
    requires Trim(cmd) == x && StripStart(cmd, IsJsSpace) == x && ScanPrefixed(Lower(x))
    ensures Payload(cmd) == x[5..] && Sent(cmd) == Some(cmd[Min(5, |cmd|)..])
  {
    var c := Lower(x);
    assert Lower(Trim(cmd)) == c;
    SentAsWritten(cmd);
    assert |x| >= 5 && Min(5, |x|) == 5;
    assert Payload(cmd) == x[5..];
  }

  /** A command whose trimmed, lower-cased form starts with the keyword sends the raw command from its sixth character on. */
  lemma SentAsWritten(cmd: string)
    requires ScanPrefixed(Lower(Trim(cmd)))
    ensures Sent(cmd) == Some(cmd[Min(5, |cmd|)..])
  {
    KeywordIsScan(Lower(Trim(cmd)));
  }

  lemma KeywordCommand(w: string, m: string)
    requires forall k :: 0 <= k < |w| ==> IsJsSpace(w[k])
    requires m != [] && !IsJsSpace(m[0]) && !IsJsSpace(m[|m| - 1])
    ensures Trim(w + "scan " + m) == "scan " + m
    ensures StripStart(w + "scan " + m, IsJsSpace) == "scan " + m
  {
    var x := "scan " + m;
    assert w + "scan " + m == w + x;
    assert x[0] == 's' && x[|x| - 1] == m[|m| - 1];
    TrimPadded(w, x);
    StripPadding(w, x);
  }

  /** As written, the five characters are cut from the raw command, leading white space included. */
  lemma PayloadAsWrittenAfterSpaces(w: string, m: string)
    requires forall k :: 0 <= k < |w| ==> IsJsSpace(w[k])
    requires m != [] && !IsJsSpace(m[0]) && !IsJsSpace(m[|m| - 1])
    ensures PayloadAsWritten(w + "scan " + m) == (w + "scan " + m)[5..]
    ensures Sent(w + "scan " + m) == Some((w + "scan " + m)[5..])
  {
    KeywordCommand(w, m);
    LowerKeyword(m);
    SentAsWritten(w + "scan " + m);
  }

  /** The component as written cuts the wrong five characters: `"  scan hello"` sends `"n hello"`. */
  lemma PayloadAsWrittenLosesText(w: string, m: string)
    requires w == "  " && m == "hello"
    ensures PayloadAsWritten(w + "scan " + m) == "n hello" && Sent(w + "scan " + m) == Some("n hello")
    ensures Payload(w + "scan " + m) == "hello"
  {
    ExampleIsPadded(w, m);
    PayloadAfterKeyword(w, m);
    PayloadAsWrittenAfterSpaces(w, m);
    ExampleCut(w, m);
  }

  lemma ExampleIsPadded(w: string, m: string)
    requires w == "  " && m == "hello"
    ensures forall k :: 0 <= k < |w| ==> IsJsSpace(w[k])
    ensures m != [] && !IsJsSpace(m[0]) && !IsJsSpace(m[|m| - 1])
  {
  }

  lemma ExampleCut(w: string, m: string)
    requires w == "  " && m == "hello"
    ensures (w + "scan " + m)[5..] == "n hello"
  {
  }

  /** Without leading white space the two computations agree. */
  lemma PayloadAgreesWithoutLeadingSpace(cmd: string)
    requires cmd == [] || !IsJsSpace(cmd[0])
    ensures PayloadAsWritten(cmd) == Payload(cmd)
  {
    assert StripStart(cmd, IsJsSpace) == cmd;
  }
  // ---------------------------------------------------------------- scan-report properties

  /** The third character of each kind of line tells them apart. */
  lemma LineMarks(risk: Value, s: Value, d: Value)
    requires !Nullish(d)
    ensures Offline.text[2] == '[' && Safe.text[2] == 'T'
    ensures RiskLine(risk).text[2] == 'R' && SignalLine(s).text[2] == ' '
    ensures forall k :: 0 <= k < |CategoryLines(d)| ==> CategoryLines(d)[k].text[2] == 'C'
  {
  }

  /**
   * A scan that throws ends with exactly one offline line, and it is the last; a scan that does not
   * throw prints no offline line at all.
   */
  lemma OfflineOnlyOnFailure(r: Response)
    ensures var out := ScanLines(r);
            |out| >= 1 && Offline !in out[..|out| - 1]
            && (out[|out| - 1] == Offline <==> ScanFails(r))
  {
    var read := ReadJson(r);
    if read.Some? && !Nullish(read.value) {
      var d := read.value;
      LineMarks(RiskLevel(d), Null, d);
      var head := [RiskLine(RiskLevel(d))] + CategoryLines(d);
      assert forall k :: 0 <= k < |head| ==> head[k] != Offline;
      var signals := Signals(d);
      if signals.Arr? {
        var out := VerdictLines(d);
        forall k | 0 <= k < |signals.items|
          ensures SignalLines(signals.items)[k] != Offline
        {
          LineMarks(RiskLevel(d), signals.items[k], d);
        }
        assert forall k :: 0 <= k < |out| ==> out[k] != Offline;
      } else {
        assert VerdictLines(d)[..|VerdictLines(d)| - 1] == head;
      }
    }
  }

  /** The "appears safe" line is printed exactly when the scan completes with risk `LOW`. */
  lemma SafeOnlyForLow(r: Response)
    ensures Safe in ScanLines(r) <==>
              !ScanFails(r) && RiskLevel(ReadJson(r).value) == Str("LOW")
  {
    var read := ReadJson(r);
    if read.Some? && !Nullish(read.value) {
      var d := read.value;
      LineMarks(RiskLevel(d), Null, d);
      var head := [RiskLine(RiskLevel(d))] + CategoryLines(d);
      assert forall k :: 0 <= k < |head| ==> head[k] != Safe;
      var signals := Signals(d);
      if signals.Arr? {
        forall k | 0 <= k < |signals.items|
          ensures SignalLines(signals.items)[k] != Safe
        {
          LineMarks(RiskLevel(d), signals.items[k], d);
        }
        var body := head + SignalLines(signals.items);
        assert forall k :: 0 <= k < |body| ==> body[k] != Safe;
      }
    }
  }

  /**
   * Once the body is read, the first line reports the risk level in its colour (red for `HIGH`, amber
   * for `MEDIUM`, grey otherwise), and a completed scan prints one arrow line per signal.
   */
  lemma RiskLineFirst(r: Response)
    requires ReadJson(r).Some? && !Nullish(ReadJson(r).value)
    ensures var d := ReadJson(r).value;
            var out := ScanLines(r);
            var risk := RiskLevel(d);
            out[0] == TermLine(RiskTone(risk), "  RISK: " + ToStr(risk))
            && (out[0].tone == Error <==> risk == Str("HIGH"))
            && (out[0].tone == System <==> risk == Str("MEDIUM"))
            && (Signals(d).Arr? ==>
                  var n := 1 + |CategoryLines(d)|;
                  |out| == n + |Signals(d).items| + (if risk == Str("LOW") then 1 else 0)
                  && out[n..n + |Signals(d).items|] == SignalLines(Signals(d).items))
  {
    var d := ReadJson(r).value;
    var risk := RiskLevel(d);
    if Signals(d).Arr? {
      var n := 1 + |CategoryLines(d)|;
      var items := Signals(d).items;
      var out := ScanLines(r);
      assert out == ([RiskLine(risk)] + CategoryLines(d)) + SignalLines(items) + (if risk == Str("LOW") then [Safe] else []);
      assert out[n..n + |items|] == SignalLines(items);
    }
  }

  // ---------------------------------------------------------------- chat widget

  /** One turn of the conversation as the widget keeps it; a reply is whatever `data.reply` held. */
  datatype ChatTurn = ChatTurn(role: string, content: Value)

  const MaxChatInput: nat := 500
  const TooLong := "Message too long (max 500 chars)"
  const ConnectFallback := "Failed to connect. Please try again."

  /** `e.message || 'Failed to connect. Please try again.'`. */
  function Shown(message: string): (r: string)
    ensures r != []
    ensures message != [] ==> r == message
  {
    if message != [] then message else ConnectFallback
  }

  /**
   * What a settled chat request leads to: the assistant's reply, or the error the widget shows. A non-ok
   * status shows the body's `detail` (or `Error <status>` when it has none); a body that cannot be read
   * shows the parse error; a `null` body makes the property read throw.
   */
  function ChatOutcome(r: Response): (o: Result<Value, string>)
    ensures o.Failure? ==> o.error != []
    ensures r.Failed? ==> o == Failure(Shown(r.reason))
    ensures r.Ok? && r.body.Parsed? && !Nullish(r.body.value) ==> o == Success(Prop(r.body.value, "reply"))
  {
    match r
    case Failed(reason) => Failure(Shown(reason))
    case NotOk(status, body) =>
      var errData := if body.Parsed? then body.value else Obj(map[]);
      if Nullish(errData) then Failure(Shown(NullReadMessage("detail")))
      else
        var detail := Prop(errData, "detail");
        Failure(Shown(if Truthy(detail) then ToStr(detail) else "Error " + IntToString(status)))
    case Ok(body) =>
      match body
      case Malformed(reason) => Failure(Shown(reason))
      case Parsed(v) => if Nullish(v) then Failure(Shown(NullReadMessage("reply"))) else Success(Prop(v, "reply"))
  }

  class ChatWidget {
    var msgs: seq<ChatTurn>
    var input: string
    var loading: bool
    var error: string

    /** While a request is out, the conversation ends with the user turn that was sent. */
    ghost predicate Valid()
      reads this
    {
      loading ==> msgs != [] && msgs[|msgs| - 1].role == "user"
    }

    constructor ()
      ensures msgs == [] && input == [] && !loading && error == [] && Valid()
    {
      msgs := [];
      input := [];
      loading := false;
      error := [];
    }

    method Edit(text: string)
      modifies this
      ensures input == text && msgs == old(msgs) && loading == old(loading) && error == old(error)
    {
      input := text;
    }

    /**
     * `send()` up to its `await`. Blank input or a request in flight does nothing; text over 500
     * characters only sets the error; otherwise the user turn is appended, the input and error are
     * cleared, and the whole conversation is returned as the request body.
     */
    method Send() returns (request: Option<seq<ChatTurn>>)
      requires Valid()
      modifies this
      ensures Valid()
      ensures Trim(old(input)) == [] || old(loading) ==>
                request.None? && msgs == old(msgs) && input == old(input) && loading == old(loading) && error == old(error)
      ensures Trim(old(input)) != [] && !old(loading) && |Trim(old(input))| > MaxChatInput ==>
                request.None? && error == TooLong && msgs == old(msgs) && input == old(input) && !loading
      ensures Trim(old(input)) != [] && !old(loading) && |Trim(old(input))| <= MaxChatInput ==>
                request == Some(old(msgs) + [ChatTurn("user", Str(Trim(old(input))))]) && msgs == request.value
                && input == [] && error == [] && loading
    {
      request := Post(Trim(input));
    }

    /** `send()` once the input is trimmed to `text`. */
    method Post(text: string) returns (request: Option<seq<ChatTurn>>)
      requires Valid()
      modifies this
      ensures Valid()
      ensures text == [] || old(loading) ==>
                request.None? && msgs == old(msgs) && input == old(input) && loading == old(loading) && error == old(error)
      ensures text != [] && !old(loading) && |text| > MaxChatInput ==>
                request.None? && error == TooLong && msgs == old(msgs) && input == old(input) && !loading
      ensures text != [] && !old(loading) && |text| <= MaxChatInput ==>
                request == Some(old(msgs) + [ChatTurn("user", Str(text))]) && msgs == request.value
                && input == [] && error == [] && loading
    {
      if text == [] || loading {
        request := None;
      } else if |text| > MaxChatInput {
        error := TooLong;
        request := None;
      } else {
        var newMsgs := msgs + [ChatTurn("user", Str(text))];
        msgs := newMsgs;
        input := [];
        error := [];
        loading := true;
        request := Some(newMsgs);
      }
    }

    /**
     * The continuation of `send()` once the request settles: append the assistant's reply, or keep the
     * conversation (the user turn included) and show the error. Loading ends either way.
     */
    method Receive(r: Response)
      requires Valid() && loading
      modifies this
      ensures Valid() && !loading && input == old(input)
      ensures ChatOutcome(r).Success? ==>
                msgs == old(msgs) + [ChatTurn("assistant", ChatOutcome(r).value)] && error == old(error)
      ensures ChatOutcome(r).Failure? ==> msgs == old(msgs) && error == ChatOutcome(r).error
    {
      var outcome := ChatOutcome(r);
      match outcome {
        case Success(reply) =>
          msgs := msgs + [ChatTurn("assistant", reply)];
        case Failure(message) =>
          error := message;
      }
      loading := false;
    }
  }

  /** A non-ok status shows the server's `detail` text when it sends one, and `Error <status>` otherwise. */
  lemma StatusErrorShown(status: int, body: Body)
    ensures body.Parsed? && body.value.Obj? && "detail" in body.value.props && body.value.props["detail"].Str?
            && body.value.props["detail"].s != [] ==>
              ChatOutcome(NotOk(status, body)) == Failure(body.value.props["detail"].s)
    ensures (body.Malformed? || (body.value.Obj? && "detail" !in body.value.props)) ==>
              ChatOutcome(NotOk(status, body)) == Failure("Error " + IntToString(status))
  {
    var e := "Error " + IntToString(status);
    assert e[0] == 'E';
  }
}
