/**
 * The registry behind the `/v1/docker-flow-monitor` endpoint: a `Serve`
 * object holding the scrape targets and alert rules registered so far,
 * and the handler that upserts a request into it, writes the
 * configuration and reports how Prometheus' reload went.
 */
module Server {
  import opened Wrappers
  import opened Config

  predicate IsAlphanumeric(c: char) {
    'a' <= c <= 'z' || 'A' <= c <= 'Z' || '0' <= c <= '9'
  }

  predicate AllAlphanumeric(s: string) {
    forall i :: 0 <= i < |s| ==> IsAlphanumeric(s[i])
  }

  /**
   * The key an alert is stored under: its name with every character that
   * is not an ASCII letter or digit removed; letters keep their case.
   */
  function NormalizeAlertName(name: string): (r: string)
    ensures |r| <= |name|
    ensures AllAlphanumeric(r)
    ensures forall c :: c in r ==> c in name
  {
    if name == [] then []
    else (if IsAlphanumeric(name[0]) then [name[0]] else []) + NormalizeAlertName(name[1..])
  }

  /** Normalising distributes over concatenation. */
  lemma {:induction false} NormalizeAppend(a: string, b: string)
    ensures NormalizeAlertName(a + b) == NormalizeAlertName(a) + NormalizeAlertName(b)
    decreases |a|
  {
    if a == [] {
      assert a + b == b;
    } else {
      assert (a + b)[0] == a[0] && (a + b)[1..] == a[1..] + b;
      NormalizeAppend(a[1..], b);
    }
  }

  /** A name is left as it is exactly when it holds only letters and digits. */
  lemma {:induction false} NormalizeFixedPoint(name: string)
    ensures NormalizeAlertName(name) == name <==> AllAlphanumeric(name)
    decreases |name|
  {
    if name != [] {
      NormalizeFixedPoint(name[1..]);
      if !IsAlphanumeric(name[0]) {
        assert |NormalizeAlertName(name)| < |name|;
      }
    }
  }

  /** Normalising twice is normalising once. */
  lemma NormalizeIdempotent(name: string)
    ensures NormalizeAlertName(NormalizeAlertName(name)) == NormalizeAlertName(name)
  {
    NormalizeFixedPoint(NormalizeAlertName(name));
  }

  /** Every key is the name of the target stored under it. */
  ghost predicate ScrapesKeyed(scrapes: map<string, Scrape>) {
    forall k :: k in scrapes ==> k != "" && scrapes[k].ServiceName == k
  }

  /** Every key is a non-empty normalised name, and the name of the rule stored under it. */
  ghost predicate AlertsKeyed(alerts: map<string, Alert>) {
    forall k :: k in alerts ==> k != "" && NormalizeAlertName(k) == k && alerts[k].AlertName == k
  }

  /**
   * Registers `serviceName` on `scrapePort`, replacing any target of that
   * name; a request without a service name leaves the targets alone.
   */
  function UpsertScrape(scrapes: map<string, Scrape>, serviceName: string, scrapePort: int): (r: map<string, Scrape>)
    ensures serviceName == "" ==> r == scrapes
    ensures serviceName != "" ==> r.Keys == scrapes.Keys + {serviceName} && r[serviceName] == Scrape(serviceName, scrapePort)
    ensures forall k :: k in scrapes && k != serviceName ==> k in r && r[k] == scrapes[k]
  {
    if serviceName == "" then scrapes else scrapes[serviceName := Scrape(serviceName, scrapePort)]
  }

  /**
   * Registers an alert under its normalised name, replacing any rule of
   * that name; a request whose name normalises to nothing leaves the rules
   * alone.
   */
  function UpsertAlert(alerts: map<string, Alert>, alertName: string, alertIf: string, alertFrom: string): (r: map<string, Alert>)
    ensures NormalizeAlertName(alertName) == "" ==> r == alerts
    ensures NormalizeAlertName(alertName) != "" ==>
      var key := NormalizeAlertName(alertName);
      r.Keys == alerts.Keys + {key} && r[key] == Alert(key, alertIf, alertFrom)
    ensures forall k :: k in alerts && k != NormalizeAlertName(alertName) ==> k in r && r[k] == alerts[k]
  {
    var key := NormalizeAlertName(alertName);
    if key == "" then alerts else alerts[key := Alert(key, alertIf, alertFrom)]
  }

  lemma UpsertScrapeKeeps(scrapes: map<string, Scrape>, serviceName: string, scrapePort: int)
    requires ScrapesKeyed(scrapes)
    ensures ScrapesKeyed(UpsertScrape(scrapes, serviceName, scrapePort))
  {
  }

  lemma UpsertAlertKeeps(alerts: map<string, Alert>, alertName: string, alertIf: string, alertFrom: string)
    requires AlertsKeyed(alerts)
    ensures AlertsKeyed(UpsertAlert(alerts, alertName, alertIf, alertFrom))
  {
    NormalizeIdempotent(alertName);
  }

  /** Registering a target again replaces it: the last port wins and no entry is added. */
  lemma UpsertScrapeOverwrites(scrapes: map<string, Scrape>, serviceName: string, port1: int, port2: int)
    ensures UpsertScrape(UpsertScrape(scrapes, serviceName, port1), serviceName, port2)
         == UpsertScrape(scrapes, serviceName, port2)
    ensures |UpsertScrape(UpsertScrape(scrapes, serviceName, port1), serviceName, port2)|
         == |UpsertScrape(scrapes, serviceName, port1)|
  {
  }

  /** The number of targets grows by one exactly when a new service name is registered. */
  lemma UpsertScrapeSize(scrapes: map<string, Scrape>, serviceName: string, scrapePort: int)
    ensures |UpsertScrape(scrapes, serviceName, scrapePort)|
         == if serviceName == "" || serviceName in scrapes then |scrapes| else |scrapes| + 1
  {
  }

  /** The number of rules grows by one exactly when a new normalised name is registered. */
  lemma UpsertAlertSize(alerts: map<string, Alert>, alertName: string, alertIf: string, alertFrom: string)
    ensures var key := NormalizeAlertName(alertName);
      |UpsertAlert(alerts, alertName, alertIf, alertFrom)|
         == if key == "" || key in alerts then |alerts| else |alerts| + 1
  {
  }

  /**
   * Registering a target changes the written configuration in that
   * target's stanza only.
   */
  lemma UpsertScrapeConfig(scrapes: map<string, Scrape>, serviceName: string, scrapePort: int)
    requires serviceName != ""
    ensures ScrapeConfig(UpsertScrape(scrapes, serviceName, scrapePort))
         == ScrapeConfig(EntriesBefore(scrapes, serviceName))
          + ScrapeStanza(Scrape(serviceName, scrapePort))
          + ScrapeConfig(EntriesAfter(scrapes, serviceName))
  {
    RenderAllUpsert(scrapes, serviceName, Scrape(serviceName, scrapePort), ScrapeStanza);
  }

  /** A registration request as the endpoint's query parameters carry it. */
  datatype Request = Request(
    serviceName: string, scrapePort: int,
    alertName: string, alertIf: string, alertFrom: string)

  /** What came of the POST to Prometheus' `/-/reload`. */
  datatype ReloadResult = TransportFailure | Completed(statusCode: int)

  /** The body the handler answers with. */
  datatype Response = Response(Status: string, Alert: Alert, Scrape: Scrape)

  /** The code answered when the reload could not be attempted or did not complete. */
  const StatusInternalServerError: int := 500

  /** The target the response echoes: the one registered, or the zero value. */
  function EchoedScrape(req: Request): (s: Scrape)
    ensures req.serviceName == "" ==> s == Scrape("", 0)
    ensures req.serviceName != "" ==> UpsertScrape(map[], req.serviceName, req.scrapePort)[req.serviceName] == s
  {
    if req.serviceName == "" then Scrape("", 0) else Scrape(req.serviceName, req.scrapePort)
  }

  /** The rule the response echoes: the one registered, or the zero value. */
  function EchoedAlert(req: Request): (a: Alert)
    ensures var key := NormalizeAlertName(req.alertName);
      (key == "" ==> a == Alert("", "", "")) &&
      (key != "" ==> UpsertAlert(map[], req.alertName, req.alertIf, req.alertFrom)[key] == a)
  {
    var key := NormalizeAlertName(req.alertName);
    if key == "" then Alert("", "", "") else Alert(key, req.alertIf, req.alertFrom)
  }

  /** "OK" when the configuration was written and Prometheus reloaded it, "NOK" otherwise. */
  function ReplyStatus(written: Result<string, ConfigError>, reload: ReloadResult): (r: string)
    ensures r == "OK" || r == "NOK"
    ensures r == "OK" ==> written.Ok? && reload.Completed?
    ensures written.Ok? && reload.Completed? ==> (r == "OK" <==> ReplyCode(written, reload) < 300)
  {
    if written.Ok? && reload.Completed? && reload.statusCode < 300 then "OK" else "NOK"
  }

  /** The HTTP status answered: Prometheus' own when the reload completed. */
  function ReplyCode(written: Result<string, ConfigError>, reload: ReloadResult): (r: int)
    ensures written.Err? || reload.TransportFailure? ==> r == StatusInternalServerError
    ensures written.Ok? && reload.Completed? ==> r == reload.statusCode
  {
    if written.Ok? && reload.Completed? then reload.statusCode else StatusInternalServerError
  }

  /** How the reply classifies each outcome of writing and reloading. */
  lemma ReplyClassification(written: Result<string, ConfigError>, reload: ReloadResult)
    ensures ReplyStatus(written, reload) == "OK" || ReplyStatus(written, reload) == "NOK"
    ensures written.Err? ==> ReplyStatus(written, reload) == "NOK" && ReplyCode(written, reload) == StatusInternalServerError
    ensures written.Ok? && reload.TransportFailure? ==>
      ReplyStatus(written, reload) == "NOK" && ReplyCode(written, reload) == StatusInternalServerError
    ensures written.Ok? && reload.Completed? ==>
      ReplyCode(written, reload) == reload.statusCode &&
      (ReplyStatus(written, reload) == "OK" <==> reload.statusCode < 300)
  {
  }

  class Serve {
    var Scrapes: map<string, Scrape>
    var Alerts: map<string, Alert>

    ghost predicate Valid()
      reads this
    {
      ScrapesKeyed(Scrapes) && AlertsKeyed(Alerts)
    }

    /** A server with no targets and no rules. */
    constructor ()
      ensures Valid()
      ensures Scrapes == map[] && Alerts == map[]
    {
      Scrapes := map[];
      Alerts := map[];
    }

    /**
     * The text to write to `/etc/prometheus/prometheus.yml`: the global
     * block, a newline and the scrape block; no alert block.
     */
    method WriteConfig(scrapeInterval: string) returns (written: Result<string, ConfigError>)
      ensures written.Err? <==> GlobalConfig(scrapeInterval).Err?
      ensures written.Ok? ==> written.value == GlobalConfig(scrapeInterval).value + "\n" + ScrapeConfig(Scrapes)
      ensures written == ConfigFile(scrapeInterval, Scrapes)
    {
      written := ConfigFile(scrapeInterval, Scrapes);
    }

    /**
     * Handles one registration: upserts the alert and the target, writes
     * the configuration and, when that succeeded, reloads Prometheus with
     * outcome `reload`. `written` is the file's new text (None: nothing was
     * written, and no reload was attempted).
     */
    method Handler(req: Request, scrapeInterval: string, reload: ReloadResult)
      returns (resp: Response, code: int, written: Option<string>)
      requires Valid()
      modifies this
      ensures Valid()
      ensures Alerts == UpsertAlert(old(Alerts), req.alertName, req.alertIf, req.alertFrom)
      ensures Scrapes == UpsertScrape(old(Scrapes), req.serviceName, req.scrapePort)
      ensures written == (if ConfigFile(scrapeInterval, Scrapes).Ok? then Some(ConfigFile(scrapeInterval, Scrapes).value) else None)
      ensures resp == Response(ReplyStatus(ConfigFile(scrapeInterval, Scrapes), reload), EchoedAlert(req), EchoedScrape(req))
      ensures code == ReplyCode(ConfigFile(scrapeInterval, Scrapes), reload)
    {
      var alert := EchoedAlert(req);
      UpsertAlertKeeps(Alerts, req.alertName, req.alertIf, req.alertFrom);
      Alerts := UpsertAlert(Alerts, req.alertName, req.alertIf, req.alertFrom);
      var scrape := EchoedScrape(req);
      UpsertScrapeKeeps(Scrapes, req.serviceName, req.scrapePort);
      Scrapes := UpsertScrape(Scrapes, req.serviceName, req.scrapePort);
      var config := WriteConfig(scrapeInterval);
      var status := "NOK";
      code := StatusInternalServerError;
      if config.Err? {
        written := None;
      } else {
        written := Some(config.value);
        if reload.Completed? {
          code := reload.statusCode;
          if reload.statusCode < 300 {
            status := "OK";
          }
        }
      }
      resp := Response(status, alert, scrape);
    }
  }
}
