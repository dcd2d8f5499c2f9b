# Beacon site: a verified model of its interactive logic

This project models the interactive core of the Active Mirror "Beacon" website in Dafny, and of the
small chat server behind its chat widget. The model covers:

- the in-page command console, with its transcript, its command history and a dispatcher whose network
  commands fall back to fixed text;
- the service-status panel, which probes a fixed catalogue of services one after another;
- the chat server's request policy: a sliding-window rate limiter, request validation and
  sanitisation, a first-success cascade over six model providers, and the `KEY=VALUE` secrets loader;
- the front page's scanner terminal, chat widget and carousel;
- the scam-scanner section with its risk badge;
- the build-log timeline grouped by date;
- the cognitive-weight sliders.

Every network request is an input to the model, never an action it performs. A request settles as
`Ok(body)`, `NotOk(status, body)` or `Failed(reason)`, where a timeout or an abort counts as `Failed`. A
body is either parsed JSON (`Parsed(value)`) or a read failure (`Malformed(reason)`). JavaScript values
are the `Json.Value` datatype. On it, JavaScript truthiness, `||`, `String(v)` and property reads are
written out. Components that `await` a request are split at the `await`. The part before it is one
method and the continuation is another. In between, the page is free to handle further input.

Modules, one per source file plus shared pieces:

| module | file | models |
|---|---|---|
| `Common` | common.dfy | `Option`, `Result`, `Min`, `Max` |
| `Text` | text.dfy | JavaScript and Python white space, `trim`/`strip`, `split`/`join`, `padEnd`, lower-casing, number rendering |
| `Json` | json.dfy | JavaScript values, truthiness, `||`, `String(v)`, property reads, fetch outcomes |
| `ScanFields` | scan_fields.dfy | the two key conventions of a scan verdict (`risk_level`/`risk`, `signals`/`risk_signals`) |
| `SiteData` | site_data.dfy | the record shapes of the site's static datasets |
| `Terminal` | terminal.dfy | `src/components/Terminal.jsx` |
| `SystemPulse` | system_pulse.dfy | `src/components/SystemPulse.jsx` |
| `ChatServer` | chat_server.dfy | `api/chat_server.py` |
| `App` | app.dfy | `src/App.jsx`: `Carousel.go`, `ScanTerminal`, `ChatWidget` |
| `ScamScanner` | scam_scanner.dfy | `src/components/ScamScanner.jsx` |
| `BuildLog` | build_log.dfy | `src/components/BuildLog.jsx` |
| `CognitiveWeights` | cognitive_weights.dfy | `src/components/CognitiveWeights.jsx` |

Stateful components are classes whose fields are the component's state:

- `Terminal.Console`, `SystemPulse.Pulse`, `App.ScanTerminal`, `App.ChatWidget` and `ScamScanner.Scanner`;
- on the server, `ChatServer.RateLimiter` (the `rate_buckets` dictionary) and `ChatServer.Environ` (`os.environ`).

Each loop in the source is a method with a loop:

- the status probes;
- the provider cascade;
- sanitisation;
- the secrets-file loop;
- the date grouping;
- the scanner terminal's line appends.

Each of these methods is proved against a specification function. Lemmas then prove the function's
properties. The rate limiter's list comprehension and `sum` are not loops of the handler; they are the
recursive functions `Prune` and `CountRecent`, and `CheckRateLimit` is a method without a loop.

## Model

| member | source | states |
|---|---|---|
| Terminal.ShippedLines | src/components/Terminal.jsx:34-39 | `shipped` lists exactly the first min(10, n) items, one formatted line per item, in order |
| Terminal.ShippedListing | src/components/Terminal.jsx:34-39 | when no field holds a newline, the listing splits back into exactly those min(10, n) lines |
| Terminal.ShippedLineIsOneLine | src/components/Terminal.jsx:36-37 | an item whose fields hold no newline makes one line |
| Terminal.BarWidth | src/components/Terminal.jsx:47 | `Math.round(v * 20)` for a weight of h hundredths is the whole number nearest h/5, between 0 and 20 |
| Terminal.Bar | src/components/Terminal.jsx:47-49 | the bar is 20 cells: `BarWidth` full blocks, then light shade to the end |
| Terminal.Fixed2 | src/components/Terminal.jsx:51 | `toFixed(2)` prints `d.dd` and its digits spell the weight's hundredths |
| Terminal.WeightLineIsOneLine | src/components/Terminal.jsx:46-52 | a weight line holds no newline and has a fixed width given by its padded label |
| Terminal.WeightsListing | src/components/Terminal.jsx:45-143 | `weights` prints one line per weight, in order |
| Terminal.ReflectionIndex | src/components/Terminal.jsx:132 | `Math.floor(Math.random() * n)` is a valid index whenever the list is non-empty |
| Terminal.Lookup | src/components/Terminal.jsx:114-303 | a word that names no command is dispatched to the `default` branch with that word |
| Terminal.StatusReply | src/components/Terminal.jsx:204-231 | `status` prints its progress line, then the brain's JSON when readable, else the scanner health report, which it dials only then |
| Terminal.Respond | src/components/Terminal.jsx:114-305 | every command except `clear` prints at least one text, and a command that dials a service prints exactly its progress line and one report |
| Terminal.OutputLines | src/components/Terminal.jsx:86-89 | `typeOutput` makes one output line per `\n`-separated piece, in order |
| Terminal.OutputLinesRejoin | src/components/Terminal.jsx:86-89 | rejoining the printed lines with newlines gives the text back, so printing loses nothing |
| Terminal.Transcript | src/components/Terminal.jsx:86-89 | texts printed in turn make at least one line each, all of the output kind |
| Terminal.TranscriptOfReply | src/components/Terminal.jsx:86-89 | printing one or two texts is printing each in turn |
| Terminal.Console.constructor | src/components/Terminal.jsx:56-63 | the console opens with the three banner lines, empty input and history, and cursor -1 |
| Terminal.Console.AddLines | src/components/Terminal.jsx:82-84 | `addLines` appends the new lines after the existing ones |
| Terminal.Console.TypeOutput | src/components/Terminal.jsx:86-89 | `typeOutput` appends exactly the output lines of its text |
| Terminal.Console.ExecuteCommand | src/components/Terminal.jsx:104-306 | the transcript after a command line is `AfterCommand`, and the services dialled are `DialledBy` |
| Terminal.Console.Run | src/components/Terminal.jsx:108-121 | a non-blank trimmed line is echoed after the prompt; `clear` then empties the transcript, any other command appends the transcript of its reply, and only the reply's services are dialled |
| Terminal.Console.Answer | src/components/Terminal.jsx:114-305 | a command other than `clear` appends exactly the transcript of its reply |
| Terminal.Console.Recite | src/components/Terminal.jsx:114-143 | an offline command (`help`, `about`, `shipped`, `reflect`, `identity`, `weights`, an unknown word) appends exactly the transcript of its reply and dials nothing |
| Terminal.OfflineReply | src/components/Terminal.jsx:114-143 | an offline command prints a single text and dials nothing |
| Terminal.Console.Query | src/components/Terminal.jsx:145-301 | a network-backed command appends the transcript of its reply and reports what it dialled |
| Terminal.Console.ScanCommand | src/components/Terminal.jsx:145-175 | `scan` appends exactly the transcript of its reply: the usage line, or the progress line and the verdict |
| Terminal.Console.ScanUrlCommand | src/components/Terminal.jsx:177-202 | `scan-url` appends exactly the transcript of its reply: the usage line, or the progress line and the verdict |
| Terminal.OneLine | src/components/Terminal.jsx:86-87 | a text without a newline prints as exactly one output line |
| Terminal.UsageLinesAreLines | src/components/Terminal.jsx:147-179 | the usage lines of `scan` and `scan-url` hold no newline |
| Terminal.UnreachableIsOneLine | src/components/Terminal.jsx:172 | the unreachable line holds no newline |
| Terminal.ProgressThenReport | src/components/Terminal.jsx:86-89 | a progress line and a one-line report print as exactly those two lines |
| Terminal.ScanUsageOnly | src/components/Terminal.jsx:146-181 | without an argument, `scan` and `scan-url` print only their usage line and dial nothing |
| Terminal.ScanUnreachable | src/components/Terminal.jsx:150-173 | a `scan` whose request fails prints the progress line and exactly one unreachable line |
| Terminal.UrlUnreachable | src/components/Terminal.jsx:182-200 | a `scan-url` whose request fails prints the progress line and exactly one unreachable line |
| Terminal.Console.StatusCommand | src/components/Terminal.jsx:204-231 | `status` appends exactly the transcript of `StatusReply` (brain JSON, else scanner health, else fixed text) and dials exactly what that reply dials |
| Terminal.StatusResponds | src/components/Terminal.jsx:204 | the `status` word is answered by the status branch, whatever the rest of the line |
| Terminal.Console.ModelsCommand | src/components/Terminal.jsx:233-261 | `models` prints the registry's names, or the fixed list on any failure |
| Terminal.Console.BriefCommand | src/components/Terminal.jsx:263-281 | `brief` prints the service's JSON, or the fixed description on any failure |
| Terminal.Console.ManifestCommand | src/components/Terminal.jsx:283-301 | `manifest` prints the service's JSON, or the summary built from the headline figures |
| Terminal.Console.Announce | src/components/Terminal.jsx:150-284 | a service command prints its progress line, then its report |
| Terminal.Console.Edit | src/components/Terminal.jsx:61 | editing replaces the input only |
| Terminal.Console.Submit | src/components/Terminal.jsx:309-314 | Enter empties the line, pushes the raw input onto the history, resets the cursor to -1 and runs the command |
| Terminal.Console.Remember | src/components/Terminal.jsx:310-313 | the bookkeeping of Enter: empty line, the command as newest history entry, cursor -1 |
| Terminal.Console.KeyDown | src/components/Terminal.jsx:308-333 | Enter pushes the raw input (even if blank) onto the history, resets the cursor to -1 and runs the command; ArrowUp moves to min(i+1, n-1); ArrowDown steps back or resets to -1 with empty input; the cursor stays in [-1, n-1] |
| Terminal.ParseWords | src/components/Terminal.jsx:110-112 | a line of single-spaced words parses as its lower-cased first word and the rest joined by single spaces |
| Terminal.CommandWordIsWord | src/components/Terminal.jsx:105-111 | the command word of a non-blank trimmed line is non-empty and holds no white space |
| Terminal.SubmitShape | src/components/Terminal.jsx:105-121 | a blank line changes nothing and dials nothing; `clear` empties the transcript; any other line keeps the transcript, adds the prompt echo of the trimmed line, then output lines only |
| Terminal.AfterAnswer | src/components/Terminal.jsx:108-305 | a non-blank line other than `clear` appends its echo and then the transcript of its reply |
| Terminal.TwoLines | src/components/Terminal.jsx:86-87 | a text with a single newline prints as exactly two lines |
| Terminal.NotFoundLines | src/components/Terminal.jsx:303-304 | the not-found answer is the two lines `command not found: <word>` and the help hint |
| Terminal.UnknownTranscript | src/components/Terminal.jsx:303-304 | an unknown word prints those two lines and dials nothing |
| Terminal.UnknownCommandAnswer | src/components/Terminal.jsx:104-304 | an unknown command appends exactly the prompt echo and the two not-found lines, all as ordinary output |
| Terminal.UnknownWordIsOneLine | src/components/Terminal.jsx:110-111 | the word echoed back is the lower-cased first token and holds no newline |
| Terminal.SecondLine | src/components/Terminal.jsx:86-87 | a text opening with a newline and a line prints that line second |
| Terminal.ScanRiskLine | src/components/Terminal.jsx:157-162 | a readable verdict puts its risk level (`risk_level`, else `risk`, else `UNKNOWN`) on its own line |
| Terminal.VerdictReport | src/components/Terminal.jsx:157-162 | a readable verdict opens with a blank line, then the risk-level line, then the score and signal details |
| Terminal.ScanReportLines | src/components/Terminal.jsx:157-170 | a readable verdict whose fields hold no newline prints an empty line, the risk level, the score (`?` when `risk_score` is absent), the `Signals:` heading and one bullet per signal only when there are signals, the action only when `recommendation` is truthy, and the empty piece after the closing newline |
| Terminal.DetailsSplit | src/components/Terminal.jsx:159-170 | the details after the risk line split back into exactly those lines |
| Terminal.DetailsJoin | src/components/Terminal.jsx:159-170 | the details text is its lines joined by newlines |
| Terminal.BulletsJoin | src/components/Terminal.jsx:165 | the bullets are one `    - <item>` line per item, each after a newline, in order |
| Terminal.DetailLinesAreLines | src/components/Terminal.jsx:159-169 | when the score, signals and recommendation hold no newline, no detail line does |
| Terminal.UrlReportLines | src/components/Terminal.jsx:189-197 | a readable `scan-url` verdict whose URL, level and signals hold no newline prints an empty line, the URL, the risk level, the `Flags:` heading and one bullet per signal only when there are signals, and the empty piece after the closing newline |
| Terminal.FallbackReports | src/components/Terminal.jsx:212-299 | an answer that cannot be read gives the fixed private-network text in `status`'s health stage and in `models`, and the fallback in `brief` and `manifest`; a `null` answer also gives the fixed text in both; a readable answer to `brief` or `manifest` is printed as JSON |
| Terminal.ModelsListFallbacks | src/components/Terminal.jsx:238-258 | a readable answer without models prints `No models loaded.`; a model list that cannot be mapped, or holds a `null` entry, prints the fixed list |
| Terminal.StatusFallsBack | src/components/Terminal.jsx:204-228 | `status` whose brain and health checks both fail prints its progress line and the fixed private-network text, having dialled both |
| Terminal.ModelsFallsBack | src/components/Terminal.jsx:233-258 | `models` whose registry cannot be read prints its progress line and the fixed list, having dialled the registry |
| Terminal.BriefFallsBack | src/components/Terminal.jsx:263-279 | `brief` whose service cannot be read prints its progress line and the fixed briefing |
| Terminal.ManifestFallsBack | src/components/Terminal.jsx:283-299 | `manifest` whose service cannot be read prints its progress line and the summary built from the headline figures |
| Terminal.ReflectText | src/components/Terminal.jsx:131-134 | `reflect` quotes one of the reflections on a line of its own; with none it quotes `undefined` |
| ScanFields.ReportedRisk | src/components/ScamScanner.jsx:107 | the level is `risk_level` when truthy, else `risk` |
| ScanFields.RiskLevel | src/components/Terminal.jsx:158 | the level is `risk_level`, else `risk`, else `UNKNOWN`, and never falsy |
| ScanFields.Signals | src/components/Terminal.jsx:160 | signals are `signals`, else `risk_signals`, else the empty list, and never falsy |
| ScanFields.LegacyNamesAreRead | src/components/Terminal.jsx:158-160 | a verdict using only the legacy names is read like the current ones |
| ScanFields.EmptyResponseNormalises | src/components/Terminal.jsx:158-160 | a verdict with none of the keys reads as `UNKNOWN` with no signals |
| SystemPulse.InitialStatus | src/components/SystemPulse.jsx:29-31 | a service starts `checking` exactly when it is public and has a URL, else `private` |
| SystemPulse.DialledUrls | src/components/SystemPulse.jsx:37-45 | a check fetches at most one URL per catalogue entry |
| SystemPulse.Pulse.constructor | src/components/SystemPulse.jsx:29-32 | the panel starts with the initial map and no check time |
| SystemPulse.Pulse.CheckServices | src/components/SystemPulse.jsx:34-58 | a check publishes once, at the end, the map `CheckResult`; it records the check time and dials the URLs in catalogue order |
| SystemPulse.ProbeAll | src/components/SystemPulse.jsx:35-51 | the sequential loop writes each service's resolution into a copy of the initial map, in catalogue order |
| SystemPulse.Resolve | src/components/SystemPulse.jsx:38-50 | a service is private exactly when it is not public, offline exactly when it is dialled and its probe is not ok, and online otherwise |
| SystemPulse.Probe | src/components/SystemPulse.jsx:38-50 | a service without a URL or not public is not fetched and reads `online` if public, else `private`; any other is fetched once and resolves to its probe's outcome |
| SystemPulse.AssignKeys | src/components/SystemPulse.jsx:37-51 | the loop adds exactly the catalogue's keys and no other |
| SystemPulse.AssignAt | src/components/SystemPulse.jsx:38-50 | with distinct keys, each service ends with its own resolution |
| SystemPulse.AssignUntouched | src/components/SystemPulse.jsx:35-37 | a key the loop does not visit keeps its value |
| SystemPulse.InitialKeys | src/components/SystemPulse.jsx:30 | the initial map has exactly the catalogue's keys |
| SystemPulse.InitialAt | src/components/SystemPulse.jsx:30 | with distinct keys, each service starts as `checking` if dialled, else `private` |
| SystemPulse.CheckCoversCatalog | src/components/SystemPulse.jsx:37-54 | after a check every catalogue key, and this app's, has exactly one entry |
| SystemPulse.CheckOutcome | src/components/SystemPulse.jsx:38-54 | this app is online; a non-public service is private whatever the probes say; a dialled service is online iff its probe returned ok; a public service without a URL is online |
| SystemPulse.ServiceKeysDistinct | src/components/SystemPulse.jsx:5-14 | the catalogue's keys are distinct |
| SystemPulse.ServiceKeys | src/components/SystemPulse.jsx:5-14 | the catalogue's eight keys |
| SystemPulse.CheckKeysAreCatalogKeys | src/components/SystemPulse.jsx:7-54 | this app is in the catalogue, so a check adds no key beyond it |
| SystemPulse.CountsWithinEntries | src/components/SystemPulse.jsx:66-67 | the online and private counts never add up to more than the number of entries |
| SystemPulse.CountsWithinCatalog | src/components/SystemPulse.jsx:66-67 | after any check the two counts add up to at most the catalogue size |
| SystemPulse.InitialPanel | src/components/SystemPulse.jsx:5-31 | before the first check, the three public services with a URL are `checking` and the other five are `private` |
| SystemPulse.PanelAfterCheck | src/components/SystemPulse.jsx:5-54 | after any check this app is online, the four LAN services are private, and the three probed services follow their probes |
| ChatServer.Prune | api/chat_server.py:97-99 | pruning keeps exactly the timestamps less than an hour old, and their number is the hour count compared with 50 |
| ChatServer.PruneAppend | api/chat_server.py:97 | pruning a concatenation prunes each part and keeps them in order |
| ChatServer.RateVerdict | api/chat_server.py:98-103 | a request is admitted exactly when fewer than 10 timestamps lie in the last minute and fewer than 50 in the hour; the hourly refusal comes only after the minute check passed |
| ChatServer.CountRecent | api/chat_server.py:98 | the count within a window never exceeds the list's length |
| ChatServer.RateLimiter.constructor | api/chat_server.py:93 | the limiter starts with no buckets |
| ChatServer.RateLimiter.CheckRateLimit | api/chat_server.py:95-104 | the bucket is pruned; 10 timestamps in the last minute are refused first, then 50 in the hour, both with 429; a refused request records nothing and an accepted one appends `now` |
| ChatServer.RateLimiter.Chat | api/chat_server.py:240-270 | the rate limit is checked first, then validation, then sanitisation and the cascade; `remaining` is 30 minus the clean turns, in [0, 30); the client's bucket becomes its pruned list plus `now` whenever the rate check admits the request, even if validation or the cascade then refuses it |
| ChatServer.Converse | api/chat_server.py:245-270 | validation rejects first; otherwise the reply comes from the first answering provider over the sanitised turns, or 503 |
| ChatServer.CountRecentAppend | api/chat_server.py:98-104 | appending a timestamp adds one to a window's count exactly when it lies in the window |
| ChatServer.AcceptedStaysWithinLimits | api/chat_server.py:98-104 | right after an accepted request the client has at most 10 timestamps in the minute and 50 in the hour, all less than an hour old |
| ChatServer.PruneIdempotent | api/chat_server.py:97 | pruning twice at the same time prunes nothing more |
| ChatServer.FirstAnswered | api/chat_server.py:206-210 | the first provider in chain order whose reply is a non-empty string; none before it answered |
| ChatServer.GetResponse | api/chat_server.py:203-216 | providers are called in chain order until one answers, and none after it; its reply and name are returned; `name: message` is logged for each that raised; 503 when none answers |
| ChatServer.FirstAnsweredAt | api/chat_server.py:206-210 | the first answering position is the one a scan from the front stops at |
| ChatServer.Validate | api/chat_server.py:245-257 | passes exactly the well-formed conversations: 1 to 30 messages ending with a user message whose content is a string of at most 500 characters that is not blank |
| ChatServer.ValidateRejections | api/chat_server.py:245-257 | checked in order: empty list, over 30 messages, last role not `user`, content without `len` (a 500), over 500 characters, blank content; each refusal is a 400 with its exact detail |
| ChatServer.Sanitized | api/chat_server.py:259-265 | only user and assistant messages are kept, with content of at most 500 characters, never more turns than messages |
| ChatServer.SanitizedAppend | api/chat_server.py:260-265 | sanitising a concatenation sanitises each part in turn, so kept messages keep their order |
| ChatServer.SanitizedOne | api/chat_server.py:261-265 | one message is kept exactly when its role is `user` or `assistant`, as the turn with that role and `str(content)[:500]` |
| ChatServer.CleanTurn | api/chat_server.py:265 | a kept message keeps its role and the first 500 characters of `str(content)`, all of it when it is no longer |
| ChatServer.Cascade | api/chat_server.py:203-216 | the cascade succeeds exactly when some provider answers, and its reply is the non-empty text the named provider in the chain returned; otherwise 503 |
| ChatServer.Reply | api/chat_server.py:267-270 | the handler answers with the cascade's reply and provider and `remaining` equal to 30 minus the clean turns, or with the cascade's 503 |
| ChatServer.Sanitize | api/chat_server.py:259-265 | the loop builds exactly `Sanitized` |
| ChatServer.SanitizeIdempotent | api/chat_server.py:259-265 | a clean conversation sent again comes back unchanged |
| ChatServer.ResendClean | api/chat_server.py:259-265 | turns that already pass the filter are kept unchanged |
| ChatServer.ValidatedKeepsLast | api/chat_server.py:245-268 | a validated conversation keeps between 1 and 30 turns, so `remaining` lies in [0, 29] |
| ChatServer.SanitizedKeepsLast | api/chat_server.py:262-265 | a conversation ending with a kept role keeps at least one turn |
| ChatServer.ParseSecretLine | api/chat_server.py:368-372 | a line sets something only when its stripped text is non-empty, is not a comment and holds `=`, with a non-empty key without surrounding white space and a non-empty value without surrounding quotes |
| ChatServer.SkippedLines | api/chat_server.py:368-369 | blank lines, `#` comments and lines without `=` set nothing |
| ChatServer.SecretSplit | api/chat_server.py:370-371 | the split is at the first `=`: the key is the stripped text before it, the value the text after it stripped of white space, then of quotes |
| ChatServer.CleanLineSets | api/chat_server.py:368-373 | a clean `K=V` line sets exactly `K` to `V` |
| ChatServer.QuotedLineSets | api/chat_server.py:368-373 | a clean `K="V"` line sets exactly `K` to `V`, the quotes dropped |
| ChatServer.Assignment | api/chat_server.py:370-372 | the split is made at the first `=`, and both sides are cleaned and non-empty |
| ChatServer.SecretKey | api/chat_server.py:370-372 | the key has no white space at either end |
| ChatServer.SecretValue | api/chat_server.py:371 | the value has no quote at either end |
| ChatServer.SetDefault | api/chat_server.py:373 | `setdefault` never changes a set variable and adds at most the line's own key |
| ChatServer.ParsedLines | api/chat_server.py:367-372 | one parse result per line, in order |
| ChatServer.Environ.constructor | api/chat_server.py:373 | the environment starts as given |
| ChatServer.Environ.LoadSecrets | api/chat_server.py:366-373 | the loop applies every line's assignment with `setdefault`, in file order |
| ChatServer.LoadKeepsExisting | api/chat_server.py:373 | loading never overrides a variable that is already set, and only adds keys |
| ChatServer.LoadedFromLines | api/chat_server.py:367-373 | every added variable comes from some line of the file |
| ChatServer.FirstLineWins | api/chat_server.py:373 | when a key is set on several lines, the first line's value wins |
| App.JsRem | src/App.jsx:80 | JavaScript's `%`: the result differs from the dividend by a multiple of the divisor, and lies in [0, n) for a non-negative dividend and in (-n, 0] for a negative one, so it takes the dividend's sign |
| App.Go | src/App.jsx:79-81 | `(prev + dir + count) % count` is congruent to `prev + dir` modulo the slide count, and is a slide index whenever the sum is not negative |
| App.GoStep | src/App.jsx:79-81 | a step of ±1 stays in [0, count), wrapping from the last slide to 0 and from 0 to the last |
| App.GoBack | src/App.jsx:79-81 | going back undoes going forward, and the other way round |
| App.StatLines | src/App.jsx:213 | `stats` adds one line per STATS entry, in order |
| App.SignalLines | src/App.jsx:230 | one arrow line per signal, in order |
| App.ScanTerminal.constructor | src/App.jsx:180-182 | empty transcript and input, not scanning |
| App.ScanTerminal.Edit | src/App.jsx:258 | editing replaces the input only |
| App.ScanTerminal.Run | src/App.jsx:209-220 | the echo `$ <cmd>` always comes first; a blank command stops there; otherwise the command is dispatched, and only a scan starts scanning and sends its payload, cut as written (`Sent`) |
| App.ScanTerminal.Dispatch | src/App.jsx:211-220 | local words append their answer, `clear` leaves `> cleared` alone, anything else announces the scan and sends the raw command from its sixth character on when it starts with the keyword, the whole command otherwise |
| App.ScanTerminal.Reply | src/App.jsx:211-214 | `help`, `about`, `stats` and `reflect` append their local answer |
| App.ScanTerminal.AddStats | src/App.jsx:213 | the loop appends exactly the stat lines |
| App.ScanTerminal.Complete | src/App.jsx:221-235 | the settled scan appends `ScanLines` and scanning ends, on either outcome |
| App.ScanTerminal.Report | src/App.jsx:227-231 | a read body appends the risk line, the category, the signal lines and the safe line for LOW |
| App.ScanTerminal.Conclude | src/App.jsx:230-231 | appends one arrow line per signal, then the safe line exactly when the risk is `LOW` |
| App.ScanTerminal.AddSignals | src/App.jsx:230 | the loop appends exactly the signal lines |
| App.ScanTerminal.KeyDown | src/App.jsx:259 | Enter is ignored while scanning; otherwise it runs the input and clears it |
| App.OnlyFiveWordsAreLocal | src/App.jsx:211-216 | exactly `help`, `about`, `stats`, `reflect` and `clear` are handled locally; any other input is scanned |
| App.BlankIsOnlyEchoed | src/App.jsx:210 | blank input is echoed and nothing else happens |
| App.ClearLeavesOneLine | src/App.jsx:215 | `clear` leaves the single line `> cleared`, whatever came before, and sends nothing |
| App.SubmitAppends | src/App.jsx:210-219 | every command but `clear` keeps the transcript and appends the echo first; `stats` then adds one line per stat, and `help`, `about`, `reflect` one line each |
| App.EchoedReaction | src/App.jsx:210-219 | after the echo, a blank command adds nothing; any other command but `clear` keeps the echoed transcript as a prefix; `stats` adds one line per stat and `help`, `about`, `reflect` one line |
| App.ScanAnnounced | src/App.jsx:216-219 | a command that sends a scan appends exactly its echo and the `scanning...` line before the request |
| App.ClearIntentIsClear | src/App.jsx:215 | a command is handled as `clear` exactly when its trimmed, lower-cased text is `clear` |
| App.DispatchedAppends | src/App.jsx:211-219 | every command but `clear` only appends: a scan adds `scanning...`, a local word its answer |
| App.KeywordIsScan | src/App.jsx:216-218 | input starting with `scan ` is never a local word |
| App.PayloadAfterKeyword | src/App.jsx:218 | corrected payload: for `scan <m>` after any leading white space it is exactly `m`; the component sends `m` only when there is no leading white space |
| App.PrefixedPayload | src/App.jsx:216-218 | a command whose trimmed text starts with `scan ` is a scan; its corrected payload is the trimmed text after those five characters, while what it sends is the raw command from its sixth character on |
| App.SentAsWritten | src/App.jsx:216-218 | a command whose trimmed, lower-cased text starts with `scan ` sends the raw command from its sixth character on |
| App.PayloadAsWrittenAfterSpaces | src/App.jsx:218 | as written, the five characters are cut from the raw command, leading white space included, and that is what is sent |
| App.PayloadAsWrittenLosesText | src/App.jsx:218 | as written, `"  scan hello"` sends `"n hello"`; the corrected payload is `"hello"` |
| App.PayloadAgreesWithoutLeadingSpace | src/App.jsx:218 | without leading white space the written and the corrected payloads agree |
| App.LineMarks | src/App.jsx:228-233 | the offline, safe, risk, signal and category lines are told apart by their third character |
| App.OfflineOnlyOnFailure | src/App.jsx:221-234 | a scan that throws ends with exactly one offline line, its last; a scan that does not throw prints none |
| App.SafeOnlyForLow | src/App.jsx:227-231 | the "appears safe" line is printed exactly when the scan completes with risk `LOW` |
| App.RiskLineFirst | src/App.jsx:227-230 | once the body is read, the first line is the risk line, coloured `e` for HIGH, `s` for MEDIUM and `o` otherwise; a completed scan prints one arrow line per signal |
| App.Shown | src/App.jsx:304 | the shown error is never empty: the message, or the fallback text |
| App.ChatOutcome | src/App.jsx:290-305 | a failed request shows its message; a readable ok body yields its `reply` |
| App.StatusErrorShown | src/App.jsx:297-299 | a non-ok status shows the body's `detail` when present, else `Error <status>` |
| App.ChatWidget.constructor | src/App.jsx:270-273 | no turns, empty input and error, not loading |
| App.ChatWidget.Edit | src/App.jsx:271 | editing replaces the input only |
| App.ChatWidget.Send | src/App.jsx:279-288 | blank text or a request in flight does nothing; more than 500 characters only sets the error; exactly 500 is accepted; otherwise the user turn is appended and the new list is the request body |
| App.ChatWidget.Post | src/App.jsx:279-288 | given the trimmed text: blank or in flight does nothing; over 500 characters sets only the error; otherwise appends the user turn, clears input and error, starts loading and returns the new list |
| App.ChatWidget.Receive | src/App.jsx:290-306 | success appends an assistant turn; failure keeps the turns, the user turn included, and sets the error; loading ends false |
| ScamScanner.BadgeColours | src/components/ScamScanner.jsx:6-13 | HIGH, MEDIUM and LOW get their own colours and every other level is muted |
| ScamScanner.BadgeLabels | src/components/ScamScanner.jsx:14 | the label is never blank: the level when truthy, `UNKNOWN` when absent |
| ScamScanner.Render | src/components/ScamScanner.jsx:104-128 | the result panel is hidden exactly when the result is falsy |
| ScamScanner.RenderReadsBothConventions | src/components/ScamScanner.jsx:107-126 | the level is `risk_level`, else `risk`; the score is shown iff `risk_score` is defined; signals come from `signals`, else `risk_signals`; the recommendation is shown iff present |
| ScamScanner.LegacyRendersLikeCurrent | src/components/ScamScanner.jsx:107-117 | a verdict using the legacy names renders exactly like one using the current names |
| ScamScanner.Scanner.constructor | src/components/ScamScanner.jsx:20-23 | empty input, null result, not loading, no error |
| ScamScanner.Scanner.Edit | src/components/ScamScanner.jsx:71 | editing replaces the input only |
| ScamScanner.ScanText | src/components/ScamScanner.jsx:25 | the scanned text is the explicit message when non-empty, else the input, and is empty only when both are |
| ScamScanner.Scanner.Scan | src/components/ScamScanner.jsx:25-31 | the text is the argument if non-empty, else the input; blank text changes nothing; otherwise loading starts, error and result are cleared, and the text is sent |
| ScamScanner.Scanner.Finish | src/components/ScamScanner.jsx:43-49 | a readable body becomes the result; any failure sets the fixed error and leaves the result as it was; loading ends either way |
| ScamScanner.Scanner.Example | src/components/ScamScanner.jsx:52-55 | an example puts its text in the field and scans it |
| BuildLog.ToggleChangesListing | src/components/BuildLog.jsx:6-46 | the collapsed log is the first min(8, n) items; the toggle is offered exactly when the two listings differ |
| BuildLog.OnDate | src/components/BuildLog.jsx:9-13 | a group holds only items of its date |
| BuildLog.GroupByDate | src/components/BuildLog.jsx:9-29 | the reduce's keys, in creation order, are the distinct dates by first occurrence, and each key's list is exactly that date's items, in order |
| BuildLog.DatesAreDistinct | src/components/BuildLog.jsx:10-29 | each date heads exactly one group |
| BuildLog.DatesAreItemDates | src/components/BuildLog.jsx:9-13 | the group dates are exactly the items' dates, and every item lands in its date's group |
| BuildLog.AbsentDateIsEmpty | src/components/BuildLog.jsx:9-13 | a date that no item carries has no items |
| BuildLog.GroupsCoverItems | src/components/BuildLog.jsx:9-13 | the group sizes add up to the number of shown items |
| BuildLog.GroupingExtends | src/components/BuildLog.jsx:9-13 | grouping keeps the original relative order: the groups of a longer list extend those of its prefix |
| CognitiveWeights.Changed | src/components/CognitiveWeights.jsx:53-58 | only entry i's value changes, to v; the length, the other entries and entry i's key and label are unchanged |
| CognitiveWeights.Moved | src/components/CognitiveWeights.jsx:53-87 | any series of slider moves keeps the number of rows |
| CognitiveWeights.InitialIsConfiguration | src/components/CognitiveWeights.jsx:51-63 | the initial state and the state after a reset both equal the configuration, entry for entry |
| CognitiveWeights.MovedKeepsRows | src/components/CognitiveWeights.jsx:53-58 | slider moves never change a row's key or label |
| CognitiveWeights.MovedShowsLastMove | src/components/CognitiveWeights.jsx:53-58 | each row holds the value of its own last move, or its original value if it never moved |
| CognitiveWeights.ChangesCommute | src/components/CognitiveWeights.jsx:53-58 | moving two different sliders gives the same weights in either order |
| CognitiveWeights.BarBands | src/components/CognitiveWeights.jsx:32 | amber above 0.7, green above 0.4, muted otherwise; a larger value never gets a lower band |
| Json.Truthy | src/components/Terminal.jsx:163 | `null` and `undefined` are never truthy |
| Json.Or | src/components/Terminal.jsx:158 | `a \|\| b` is one of its operands, and truthy exactly when either operand is |
| Json.Prop | src/components/Terminal.jsx:158-160 | reading a key an object does not hold, other than `length`, gives `undefined` |
| Json.ToStr | src/components/Terminal.jsx:161 | `String(v)` of a string is the string itself, and of any other scalar is never empty |
| Json.HasItems | src/components/Terminal.jsx:163 | a value with a positive `length` is truthy |
| Json.ReadJson | src/App.jsx:226 | `r.json()` yields a value exactly when the request settled and the body parsed, whatever the status |
| Text.SplitTrimmedIntoWords | src/components/Terminal.jsx:110 | `trimmed.split(/\s+/)` of a non-blank trimmed line gives non-empty words without white space |
| Text.SplitJoinWords | src/components/Terminal.jsx:110-112 | splitting single-spaced words at white-space runs gives the words back |
| Text.Strip | src/components/Terminal.jsx:105 | `trim` never lengthens its text, and a non-empty result neither starts nor ends with white space |
| Text.StripBlank | src/components/Terminal.jsx:105-106 | `trim` gives the empty string exactly when every character is white space |
| Text.JoinAppend | src/components/Terminal.jsx:38 | joining two lists of lines is joining the first, then the second after a separator |
| Text.SplitJoin | src/components/Terminal.jsx:87 | joining the pieces of `split` with the separator gives the text back |

## Left out

- Network I/O is left out: `fetch`, `AbortController`, `AbortSignal.timeout`, the provider SDK calls and `httpx`. Each request is an outcome passed in, and a timeout is `Failed`. The chat server's `/api/chat/health` probe is left out as network probing.
- Time is a parameter. The rate limiter's `time.time()` is a `real` argument, and the panel's `new Date()` is an integer argument.
- Randomness is a draw in [0, 1) passed in, for `reflect` in both consoles.
- Timers, intervals and lifecycle effects are left out: the panel's 60-second polling, the carousel's auto-advance, the scanner terminal's demo intro, the slider animation delay and scrolling.
- The `Bloom` canvas animation, the clock, the `months` computation and all JSX styling and hover handling are presentation and are left out.
- The subscribe endpoint and its client-side `localStorage` fallback are left out. It is persistence and mail, and its `json` module is never imported, so it cannot succeed as written.
- FastAPI, CORS and uvicorn wiring are left out. Pydantic's `max_length=30` would answer a 31-message list with 422 before the handler runs. The model follows the handler's own check (400, "Session limit") and does not model the 422.
- `JSON.stringify(v, null, 2)`, `toLocaleString` and Python's `str()` of lists and dicts are parameters. They are foreign formatting and are not modelled.
- Floating point is left out. Weights are whole hundredths, which is what the sliders (step 0.01) produce. Configured weights that are not multiples of 0.01 are not covered.
- Lower-casing covers ASCII letters only. JavaScript's and Python's full Unicode case mapping is not modelled.
- Lengths count code points. JavaScript's `length` counts UTF-16 code units, so text outside the Basic Multilingual Plane is measured differently in the 500-character checks.
- `Object.entries` lists integer-like keys first, in ascending order. The model assumes dates are never integer-like, so groups keep first-occurrence order. Object keys that collide with `Object.prototype` members (a date or level named `constructor`, say) are not modelled.
- The badge colour object and the status colour object are read only by their own keys. Inherited prototype properties are not modelled.
- Terminal.Lookup: states only the unknown-word case; the mapping of each known word to its command is in its body.
- Terminal.UnknownCommandAnswer: states the transcript only. That an unknown command dials nothing is stated by Terminal.UnknownTranscript.
- Terminal.ScanRiskLine: requires that the level's text holds no newline. A level containing a newline would split across lines, and that case is not stated.
- App.Go: requires `count > 0`. An empty carousel would compute `NaN`, and the component never renders one.
- App.ScanTerminal.Complete: requires `scanning`. The continuation runs only after `Run` started a scan, and Enter is ignored until it ends.
- App.ChatWidget.Receive: requires a request in flight, which `Send` guarantees, because a second send is refused while loading.
- Json.HasItems: an object's `length` counts only when it is a positive number. JavaScript would also count a non-number `length` such as `"3"` or `true` as positive and then throw at `forEach`/`map`; those objects are not modelled.
- ScamScanner.Render: the shown level, score, signals and recommendation are values, and "never blank" holds for the value only. React throws on an object-valued child and renders nothing for `true`; what the page then shows is not modelled.
- ScamScanner.BadgeLabels: the same limit applies. The label value is never blank, but an object or `true` label is not rendered as text.
- Text.Lines: Python's `splitlines()` is modelled as a split at each line-break character. A `\r\n` pair therefore yields one extra empty piece between its two characters. The loader skips that piece as a blank line, so the loaded environment is the same.
- The model of `Terminal.jsx` treats each command as one step. The console has no busy guard (`isAnimating` is always false), so two network commands could interleave their output; that interleaving is not modelled.
- The static datasets in `src/data` are not part of this model. Every operation takes them as parameters.
- `mockups/generate_dashboards.py` and the presentation-only components are not part of this model. Those components are `Hero`, `Footer`, `DevSection`, `Articles` and `Reflections`.

## Findings

| source | as written | input that shows it | evidently intended | confidence | as-written member | corrected member |
|---|---|---|---|---|---|---|
| src/App.jsx:218 | the `scan ` prefix is tested on the trimmed, lower-cased command, but `cmd.slice(5)` cuts five characters from the raw command | `"  scan hello"` sends `"n hello"` | send the text after the keyword, `"hello"` | not executed | App.PayloadAsWritten (App.PayloadAsWrittenLosesText) | App.Payload (App.PayloadAfterKeyword) |
