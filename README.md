# docker-flow-monitor server, modelled in Dafny

docker-flow-monitor keeps Prometheus' configuration in step with the
services of a Docker Swarm. Services register themselves at
`/v1/docker-flow-monitor` with a scrape target (`serviceName`,
`scrapePort`) and/or an alert rule (`alertName`, `alertIf`, `alertFrom`).
The server keeps them in a `Serve` object, writes
`/etc/prometheus/prometheus.yml` and asks Prometheus to reload it.

This project models that server:

- `wrappers.dfy` holds `Option` and `Result`.
- `decimal.dfy` models `strconv.Atoi`, which reads `SCRAPE_INTERVAL`, and `%d`, which prints numbers. It proves that the two round-trip.
- `order.dfy` gives the ascending key order the renderers use. It proves that the sorted key sequence exists, is unique, and splits around any key.
- `config.dfy` holds the pure renderers:
  - the `global:` block;
  - one `scrape_configs:` stanza per target;
  - one `ALERT` stanza per rule;
  - the written file.

  It also proves how registering one entry changes the rendered text.
- `server.dfy` holds the registry:
  - alert-name normalisation;
  - the upsert rules, with their key invariants;
  - how the reply is classified;
  - the `Serve` class, with its map fields `Scrapes` and `Alerts` and its `Handler` and `WriteConfig` methods.
- `scenarios.dfy` states the unit tests of `server/server_test.go` that concern the registry, the renderers and the handler's reply, as lemmas or client methods. Each uses the test's own inputs and, where the test compares text, its byte-exact expected text. The tests of `Execute`, `RunPrometheus`, the JSON header and the reload request have no counterpart; see "## Left out".

`server/server.go` itself is not part of this model. Its behaviour is taken
from `server/server_test.go`, which fixes the rendered text byte for byte
on the tests' inputs. Where the tests leave the behaviour open, the model
makes a choice; each choice is listed under "## Left out" under the
member that makes it. In outline:

- **Alert-name normalisation.** The tests fix two cases only: `my-alert` becomes `myalert`, and `myAlert` stays `myAlert`, so letters keep their case and the hyphen goes. The model removes every character that is not an ASCII letter or digit.
- **Empty alert names.** A rule whose name normalises to the empty string is not stored.
- **Render order.** Go does not fix the order in which it iterates a map, so the model renders in ascending key order. This order is byte-wise, as Go compares strings. It matches the order the tests expect: `service-1` before `service-2`, and `alert-name-1` before `alert-name-2`.
- **Scrape interval.** The model reads `SCRAPE_INTERVAL` as Go's `strconv.Atoi` would and prints the parsed value as `%d` would. This is an assumption about the unseen code.
- **Written file.** The file holds the global block, a newline and the scrape block. No alert block is written, as the tests at lines 209-233 and 308-329 show.
- **Reply status and code.** The reply is "OK" only when the file was written and the reload completed with a status below 300. When the reload completed, the reply carries Prometheus' status code. A failed render or a reload that never completed answers 500. A failed render writes nothing and attempts no reload.

Inputs that the Go code reads from its environment are parameters here:

- the `SCRAPE_INTERVAL` value;
- the outcome of the reload POST (`TransportFailure` or `Completed(status)`);
- the parsed query parameters (`Request`).

The text that would be written to the file is returned as a value.

## Model

| member | source | states |
|---|---|---|
| Server.Serve.constructor | server/server_test.go:41-53 | a new server has no scrape targets and no alert rules |
| Server.Serve.Handler | server/server_test.go:173-233 | upserts the alert under its normalised name and the target under its name, keeps every key equal to its entry's name, writes global + newline + scrape block, and answers the echoed entries with the reload's status and code |
| Server.Serve.WriteConfig | server/server_test.go:308-329 | the written text is exactly `GetGlobalConfig()` + "\n" + `GetScrapeConfig()` for the current targets, and fails exactly when the global block fails |
| Server.NormalizeAlertName | server/server_test.go:153-171 | the normalised name keeps only letters and digits, is no longer than the name, and holds no character the name lacked |
| Server.NormalizeFixedPoint | server/server_test.go:103-122 | a name is kept unchanged, case included, if and only if it consists of letters and digits only |
| Server.NormalizeIdempotent | server/server_test.go:153-171 | normalising an already normalised name changes nothing |
| Server.NormalizeAppend | server/server_test.go:153-171 | normalisation removes characters independently of their neighbours (it distributes over concatenation) |
| Server.UpsertScrape | server/server_test.go:124-141 | a non-empty service name maps to `Scrape{name, port}`, the key set gains just that name, and every other target is unchanged; an empty name changes nothing |
| Server.UpsertAlert | server/server_test.go:103-122 | the rule is stored as `Alert{norm(name), if, from}` under `norm(name)`, all other rules unchanged; an empty normalised name changes nothing |
| Server.UpsertScrapeKeeps | server/server_test.go:137-140 | registering a target keeps every target stored under its own service name |
| Server.UpsertAlertKeeps | server/server_test.go:118-121 | registering a rule keeps every rule stored under its own name, and every key normalised |
| Server.UpsertScrapeOverwrites | server/server_test.go:124-141 | registering the same service twice leaves one entry, with the last port |
| Server.UpsertScrapeSize | server/server_test.go:143-151 | the number of targets grows by one exactly when a new non-empty name is registered |
| Server.UpsertAlertSize | server/server_test.go:143-151 | the number of rules grows by one exactly when a new non-empty normalised name is registered; an empty name leaves it as it was |
| Server.UpsertScrapeConfig | server/server_test.go:209-233 | after registering a target, the scrape block is the old stanzas before it, its new stanza, then the old stanzas after it |
| Server.EchoedScrape | server/server_test.go:173-207 | the reply echoes the registered target, or the zero target when no service name was given |
| Server.EchoedAlert | server/server_test.go:173-207 | the reply echoes the stored rule (with normalised name), or the zero rule when no name was given |
| Server.ReplyStatus | server/server_test.go:257-304 | the status is "OK" or "NOK"; "OK" only after a written file and a completed reload, and then exactly when the answered code is below 300 |
| Server.ReplyCode | server/server_test.go:277-304 | a completed reload after a written file answers Prometheus' own code; a render error or a transport failure answers 500 |
| Server.ReplyClassification | server/server_test.go:257-304 | status is "OK" or "NOK"; a completed reload's code is answered and the status is "OK" iff it is below 300; a transport failure or a render error is "NOK" with code 500 |
| Config.GlobalConfig | server/server_test.go:333-354 | the global block fails, naming the interval, exactly when the interval does not parse as an integer |
| Config.ConfigFile | server/server_test.go:308-329 | the file text fails exactly when the global block fails |
| Config.ScrapeStanza | server/server_test.go:360-366 | a scrape stanza opens with a line break (the empty line between stanzas) and ends with one |
| Config.ScrapeStanzaNewlines | server/server_test.go:360-366 | with a single-line service name a scrape stanza is exactly seven line breaks: the empty line and six lines |
| Config.AlertStanza | server/server_test.go:389-395 | an alert stanza opens with a line break and ends with one |
| Config.AlertStanzaNewlines | server/server_test.go:389-395 | with single-line fields an alert stanza is three line breaks, four when the rule has a source (the FROM line) |
| Config.RenderAll | server/server_test.go:358-405 | no entries render as the empty text, and every entry's stanza occurs in the rendered block |
| Config.ScrapeConfig | server/server_test.go:358-383 | the scrape block is empty for no targets and contains every target's stanza |
| Config.AlertConfig | server/server_test.go:387-405 | the alert block is empty for no rules and contains every rule's stanza |
| Config.ScrapeConfigNewlines | server/server_test.go:358-383 | with single-line service names the scrape block has seven line breaks per target |
| Config.AlertConfigNewlines | server/server_test.go:387-405 | with single-line rules the alert block has between three and four line breaks per rule: three each when no rule has a source, four each when all do |
| Config.RenderKeysContains | server/server_test.go:358-405 | each listed entry's stanza occurs in the rendering of a key list |
| Config.RenderKeysNewlines | server/server_test.go:358-405 | per-stanza bounds on line breaks add up over a key list |
| Config.GlobalConfigNumeral | server/server_test.go:333-344 | a numeric interval N renders exactly as "\nglobal:\n  scrape_interval: Ns" |
| Config.GlobalConfigNotNumber | server/server_test.go:346-354 | an interval with a non-digit (other than a leading sign) is an error |
| Config.RenderAllSplit | server/server_test.go:358-383 | every entry is rendered once, after all entries with smaller keys and before all with larger keys |
| Config.RenderAllUpsert | server/server_test.go:358-383 | upserting an entry changes the rendered block in that entry's place only |
| Config.RenderAllSingle | server/server_test.go:209-233 | a single entry renders as its own stanza alone |
| Config.RenderAllEmpty | server/server_test.go:358-383 | no entries render as the empty text |
| Config.RenderKeysAppend | server/server_test.go:358-383 | rendering a concatenated key list is the concatenation of the renderings |
| Config.RenderKeysAgree | server/server_test.go:358-383 | the block depends only on the entries under the listed keys |
| StringOrder.SortedKeys | server/server_test.go:358-383 | the keys come out strictly ascending, each key once, none added |
| StringOrder.StrictlySortedUnique | server/server_test.go:358-383 | there is only one strictly ascending sequence of a given key set, so the render order is deterministic |
| StringOrder.SortedKeysSplit | server/server_test.go:358-383 | in the sorted keys each key sits between the smaller keys and the larger ones |
| StringOrder.LeastKey | server/server_test.go:358-383 | a non-empty key set has a member no larger than any other |
| StringOrder.PrecedesAtFirstDifference | server/server_test.go:387-405 | strings sharing a prefix are ordered by their first differing character (`alert-name-1` before `alert-name-2`) |
| Decimal.Atoi | server/server_test.go:346-354 | a parsed interval is a sign or digit followed by digits only, and lies in the 64-bit range |
| Decimal.AtoiSigned | server/server_test.go:333-354 | an optional `+` or `-` followed by digits parses to the digits' value, negated after `-`, when that value is within the 64-bit range, and to nothing otherwise |
| Decimal.IntToString | server/server_test.go:333-344 | the printed integer is non-empty, starts with `-` exactly for negatives, and is otherwise a canonical numeral |
| Decimal.IntToStringNoBreak | server/server_test.go:366 | a printed integer holds no line break |
| Decimal.AtoiIntToString | server/server_test.go:333-344 | every 64-bit integer printed with `%d` parses back to itself |
| Decimal.AtoiCanonical | server/server_test.go:333-344 | a canonical numeral parses to its value, and printing that value gives the numeral back |
| Decimal.NatToString | server/server_test.go:366 | a port prints as a canonical numeral whose digits have the port's value |
| Scenarios.AddsAlert | server/server_test.go:103-122 | `alertName=myAlert` stores `Alert{myAlert, my-if, my-from}` under `myAlert` |
| Scenarios.AddsScrape | server/server_test.go:124-141 | `serviceName=my-service&scrapePort=1234` stores `Scrape{my-service, 1234}` |
| Scenarios.DoesNotAddAlertWhenAlertNameIsEmpty | server/server_test.go:143-151 | a request without alert name leaves no rule |
| Scenarios.RemovesSpecialCharactersFromTheAlertName | server/server_test.go:153-171 | `alertName=my-alert` stores `Alert{myalert, my-if, my-from}` under `myalert` |
| Scenarios.NormalizeDropsHyphen | server/server_test.go:153-171 | `my-alert` normalises to `myalert` |
| Scenarios.NormalizeDropsSeparator | server/server_test.go:153-171 | a separator between two alphanumeric words is dropped and the words kept |
| Scenarios.NormalizeKeepsLetters | server/server_test.go:103-122 | `myAlert` and `myalert` normalise to themselves |
| Scenarios.NewInitializesScrapesAndAlerts | server/server_test.go:41-53 | a new server has zero targets and zero rules |
| Scenarios.HandlerReturnsJson | server/server_test.go:173-207 | with reload answering 200 the reply is "OK" with code 200 and echoes `myalert` and `my-service`/1234 |
| Scenarios.HandlerCallsWriteConfig | server/server_test.go:209-233 | registering `my-service`/1234 and `my-alert` writes exactly the expected file, without an alert block |
| Scenarios.WriteConfigWritesConfig | server/server_test.go:308-329 | with `service-1` and `service-2` registered the file is the global block, a newline and the scrape block, byte-exact |
| Scenarios.WriteConfigMyService | server/server_test.go:209-233 | the file for `my-service`/1234 and interval 5 is byte-exact the expected text |
| Scenarios.HandlerReturnsNokWhenPrometheusReloadFails | server/server_test.go:257-275 | an unreachable Prometheus yields status "NOK" |
| Scenarios.HandlerReturnsStatusCodeFromPrometheus | server/server_test.go:277-304 | a 502 from Prometheus yields status "NOK" and code 502 |
| Scenarios.GlobalConfigReturnsConfigWithData | server/server_test.go:333-344 | interval `123` renders "\nglobal:\n  scrape_interval: 123s" |
| Scenarios.GlobalConfigFive | server/server_test.go:209-233 | interval `5` renders "\nglobal:\n  scrape_interval: 5s" |
| Scenarios.GlobalConfigReturnsErrorWhenScrapeIntervalIsNotNumber | server/server_test.go:346-354 | interval `xxx` is an error |
| Scenarios.GetScrapeConfigReturnsConfigWithData | server/server_test.go:358-383 | two targets render byte-exact as the two expected stanzas, `service-1` first |
| Scenarios.ServiceOneStanza | server/server_test.go:361-366 | the stanza of `service-1`/1234 is the expected six lines |
| Scenarios.ServiceTwoStanza | server/server_test.go:368-373 | the stanza of `service-2`/5678 is the expected six lines |
| Scenarios.MyServiceStanza | server/server_test.go:214-219 | the stanza of `my-service`/1234 is the expected six lines |
| Scenarios.GetAlertConfigReturnsConfigWithData | server/server_test.go:387-405 | two rules render byte-exact, `alert-name-1` with its FROM line first, `alert-name-2` without one |
| Scenarios.AlertOneStanza | server/server_test.go:390-392 | a rule with a source renders as ALERT, IF and FROM lines |
| Scenarios.AlertTwoStanza | server/server_test.go:394-395 | a rule without a source renders without a FROM line |
| Scenarios.TwoKeysInOrder | server/server_test.go:375-378 | two entries render in key order whichever was inserted first |

## Left out

- `Execute` and its HTTP listener on `0.0.0.0:8080`, with its error pass-through (server/server_test.go:57-83): network plumbing.
- The reload request itself, a POST to `/-/reload` (server/server_test.go:235-255): an outbound HTTP call. Only its outcome is modelled, as the `ReloadResult` input.
- `RunPrometheus` and `main.go`: both start an external process, and `main.go` also starts a goroutine.
- The afero filesystem and the file path. Write errors are not modelled: the written text is returned as a value and the write always succeeds.
- Reading `SCRAPE_INTERVAL` from the environment. The value is a parameter. The test at lines 209-233 relies on it being `5`.
- Query-string decoding is not modelled. Handler takes the already-decoded `Request`, and `scrapePort` is an integer there.
- JSON encoding of the reply, the `Content-Type: application/json` header and `ResponseWriterMock` (server/server_test.go:87-101, 434-458): serialisation and test scaffolding.
- Concurrent requests. The Go server shares its maps and the file between simultaneous requests. The model runs one request at a time.
- Server.Serve.Handler: the reply code on a failed render or an unreachable Prometheus is taken to be 500; the tests fix only the codes 200 and 502. That the status is "OK" exactly when the completed reload's code is below 300 is likewise a choice: the tests fix only that 200 is "OK" and 502 is "NOK".
- Server.NormalizeAlertName: the tests fix only that `-` is removed and that letters keep their case. The model strips every character that is not an ASCII letter or digit, which is a choice; a normaliser that kept `_`, or any other character the tests do not use, would pass the same tests.
- Config.GlobalConfig: that `SCRAPE_INTERVAL` is read with `strconv.Atoi` and printed with `%d` is assumed, because `server/server.go` is not part of this model. The block prints the parsed value, so `05` and `+5` render as `5s`; the tests use only `123` and `xxx`, so they do not fix this.
- Server.Serve.WriteConfig: when the global block fails, the model writes nothing, and the Handler then attempts no reload. The test at lines 308-329 discards the error (`gc, _ :=`), so the Go code may instead write a file with an empty global block; the tests do not fix this.
