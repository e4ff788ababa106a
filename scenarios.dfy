/**
 * The behaviour the server's unit tests expect, stated on the model with
 * the tests' own inputs. Expected texts are written one line per `+`
 * operand, in the layout of the tests' multi-line string literals.
 */
module Scenarios {
  import opened Wrappers
  import opened Config
  import opened Server
  import StringOrder
  import Decimal

  /** The hyphen is dropped from `my-alert`. */
  lemma NormalizeDropsHyphen()
    ensures NormalizeAlertName("my-alert") == "myalert"
  {
    MyAlertPieces();
    NormalizeDropsSeparator("my", '-', "alert");
  }

  /** `my-alert` and `myalert` assembled from their pieces. */
  lemma MyAlertPieces()
    ensures "my-alert" == "my" + ['-'] + "alert"
    ensures "myalert" == "my" + "alert"
    ensures AllAlphanumeric("my") && AllAlphanumeric("alert") && !IsAlphanumeric('-')
  {
  }

  /** A separator between two alphanumeric words is dropped, the words kept. */
  lemma NormalizeDropsSeparator(a: string, c: char, b: string)
    requires AllAlphanumeric(a) && AllAlphanumeric(b) && !IsAlphanumeric(c)
    ensures NormalizeAlertName(a + [c] + b) == a + b
  {
    assert NormalizeAlertName([c]) == [] by {
      assert [c][1..] == [];
    }
    NormalizeAppend(a, [c]);
    NormalizeFixedPoint(a);
    assert NormalizeAlertName(a + [c]) == a by {
      assert a + [] == a;
    }
    NormalizeAppend(a + [c], b);
    NormalizeFixedPoint(b);
  }

  /** A name of letters only, in either case, is kept as it is. */
  lemma NormalizeKeepsLetters()
    ensures NormalizeAlertName("myAlert") == "myAlert"
    ensures NormalizeAlertName("myalert") == "myalert"
  {
    NormalizeFixedPoint("myAlert");
    NormalizeFixedPoint("myalert");
  }

  /** `alertName=myAlert&alertIf=my-if&alertFrom=my-from` stores the rule under `myAlert`. */
  lemma AddsAlert()
    ensures UpsertAlert(map[], "myAlert", "my-if", "my-from") == map["myAlert" := Alert("myAlert", "my-if", "my-from")]
  {
    NormalizeKeepsLetters();
  }

  /** `alertName=my-alert` stores the rule under, and names it, `myalert`. */
  lemma RemovesSpecialCharactersFromTheAlertName()
    ensures UpsertAlert(map[], "my-alert", "my-if", "my-from") == map["myalert" := Alert("myalert", "my-if", "my-from")]
  {
    NormalizeDropsHyphen();
  }

  /** A request without an alert name adds no rule. */
  lemma DoesNotAddAlertWhenAlertNameIsEmpty()
    ensures |UpsertAlert(map[], "", "", "")| == 0
  {
  }

  /** `serviceName=my-service&scrapePort=1234` stores that target under `my-service`. */
  lemma AddsScrape()
    ensures UpsertScrape(map[], "my-service", 1234) == map["my-service" := Scrape("my-service", 1234)]
  {
  }

  lemma GlobalConfigReturnsConfigWithData()
    ensures GlobalConfig("123") == Ok(
      "\n"
      + "global:\n"
      + "  scrape_interval: 123s")
  {
    assert Decimal.DigitsValue("123") == 123 by {
      assert "123"[..2] == "12" && "12"[..1] == "1" && "1"[..0] == "";
    }
    GlobalConfigNumeral("123");
    assert "  scrape_interval: " + "123" + "s" == "  scrape_interval: 123s";
  }

  lemma GlobalConfigFive()
    ensures GlobalConfig("5") == Ok(
      "\n"
      + "global:\n"
      + "  scrape_interval: 5s")
  {
    GlobalConfigNumeral("5");
    assert "  scrape_interval: " + "5" + "s" == "  scrape_interval: 5s";
  }

  lemma GlobalConfigReturnsErrorWhenScrapeIntervalIsNotNumber()
    ensures GlobalConfig("xxx").Err?
  {
    GlobalConfigNotNumber("xxx", 0);
  }

  /** The lines every scrape stanza shares. */
  lemma ScrapeFixedLines()
    ensures Line("scrape_configs:") == "scrape_configs:\n"
    ensures Line("    dns_sd_configs:") == "    dns_sd_configs:\n"
    ensures Line("        type: A") == "        type: A\n"
  {
  }

  lemma ServiceOneStanza()
    ensures ScrapeStanza(Scrape("service-1", 1234)) ==
      "\n"
      + "scrape_configs:\n"
      + "  - job_name: \"service-1\"\n"
      + "    dns_sd_configs:\n"
      + "      - names: [\"tasks.service-1\"]\n"
      + "        type: A\n"
      + "        port: 1234\n"
  {
    ScrapeFixedLines();
    ServiceOneLines();
  }

  /** The lines of the `service-1` stanza that name the service and its port. */
  lemma ServiceOneLines()
    ensures Decimal.IntToString(1234) == "1234"
    ensures Line("  - job_name: \"" + "service-1" + "\"") == "  - job_name: \"service-1\"\n"
    ensures Line("      - names: [\"tasks." + "service-1" + "\"]") == "      - names: [\"tasks.service-1\"]\n"
    ensures Line("        port: " + "1234") == "        port: 1234\n"
  {
    assert Decimal.IntToString(1234) == "1234";
  }

  lemma ServiceTwoStanza()
    ensures ScrapeStanza(Scrape("service-2", 5678)) ==
      "\n"
      + "scrape_configs:\n"
      + "  - job_name: \"service-2\"\n"
      + "    dns_sd_configs:\n"
      + "      - names: [\"tasks.service-2\"]\n"
      + "        type: A\n"
      + "        port: 5678\n"
  {
    ScrapeFixedLines();
    ServiceTwoLines();
  }

  /** The lines of the `service-2` stanza that name the service and its port. */
  lemma ServiceTwoLines()
    ensures Decimal.IntToString(5678) == "5678"
    ensures Line("  - job_name: \"" + "service-2" + "\"") == "  - job_name: \"service-2\"\n"
    ensures Line("      - names: [\"tasks." + "service-2" + "\"]") == "      - names: [\"tasks.service-2\"]\n"
    ensures Line("        port: " + "5678") == "        port: 5678\n"
  {
    assert Decimal.IntToString(5678) == "5678";
  }

  /** Two targets render as two full stanzas, `service-1` first. */
  lemma GetScrapeConfigReturnsConfigWithData()
    ensures ScrapeConfig(map[
      "service-1" := Scrape("service-1", 1234),
      "service-2" := Scrape("service-2", 5678)]) ==
      ("\n"
      + "scrape_configs:\n"
      + "  - job_name: \"service-1\"\n"
      + "    dns_sd_configs:\n"
      + "      - names: [\"tasks.service-1\"]\n"
      + "        type: A\n"
      + "        port: 1234\n")
      +
      ("\n"
      + "scrape_configs:\n"
      + "  - job_name: \"service-2\"\n"
      + "    dns_sd_configs:\n"
      + "      - names: [\"tasks.service-2\"]\n"
      + "        type: A\n"
      + "        port: 5678\n")
  {
    assert "service-1" == "service-" + "1" && "service-2" == "service-" + "2";
    StringOrder.PrecedesAtFirstDifference("service-", "1", "2");
    TwoKeysInOrder("service-1", Scrape("service-1", 1234), "service-2", Scrape("service-2", 5678), ScrapeStanza);
    ServiceOneStanza();
    ServiceTwoStanza();
  }

  /** Two rules render as two stanzas, the second without a `FROM` line. */
  lemma GetAlertConfigReturnsConfigWithData()
    ensures AlertConfig(map[
      "alert-name-1" := Alert("alert-name-1", "alert-if-1", "alert-from-1"),
      "alert-name-2" := Alert("alert-name-2", "alert-if-2", "")]) ==
      ("\n"
      + "ALERT alert-name-1\n"
      + "  IF alert-if-1\n"
      + "  FROM alert-from-1\n")
      +
      ("\n"
      + "ALERT alert-name-2\n"
      + "  IF alert-if-2\n")
  {
    assert "alert-name-1" == "alert-name-" + "1" && "alert-name-2" == "alert-name-" + "2";
    StringOrder.PrecedesAtFirstDifference("alert-name-", "1", "2");
    TwoKeysInOrder(
      "alert-name-1", Alert("alert-name-1", "alert-if-1", "alert-from-1"),
      "alert-name-2", Alert("alert-name-2", "alert-if-2", ""), AlertStanza);
    AlertOneStanza();
    AlertTwoStanza();
  }

  lemma AlertOneStanza()
    ensures AlertStanza(Alert("alert-name-1", "alert-if-1", "alert-from-1")) ==
      "\n"
      + "ALERT alert-name-1\n"
      + "  IF alert-if-1\n"
      + "  FROM alert-from-1\n"
  {
    assert Line("ALERT " + "alert-name-1") == "ALERT alert-name-1\n";
    assert Line("  IF " + "alert-if-1") == "  IF alert-if-1\n";
    assert Line("  FROM " + "alert-from-1") == "  FROM alert-from-1\n";
  }

  lemma AlertTwoStanza()
    ensures AlertStanza(Alert("alert-name-2", "alert-if-2", "")) ==
      "\n"
      + "ALERT alert-name-2\n"
      + "  IF alert-if-2\n"
  {
    assert Line("ALERT " + "alert-name-2") == "ALERT alert-name-2\n";
    assert Line("  IF " + "alert-if-2") == "  IF alert-if-2\n";
  }

  /** Two entries render in key order, whichever was inserted first. */
  lemma TwoKeysInOrder<V>(k1: string, v1: V, k2: string, v2: V, stanza: V -> string)
    requires StringOrder.Precedes(k1, k2)
    ensures RenderAll(map[k1 := v1, k2 := v2], stanza) == stanza(v1) + stanza(v2)
    ensures RenderAll(map[k2 := v2, k1 := v1], stanza) == stanza(v1) + stanza(v2)
  {
    var first := map[k1 := v1];
    assert EntriesBefore(first, k2) == first;
    assert EntriesAfter(first, k2) == map[] by {
      if StringOrder.Precedes(k2, k1) {
        StringOrder.BelowAntisymmetric(k1, k2);
      }
    }
    assert RenderAll(first[k2 := v2], stanza) == stanza(v1) + stanza(v2) by {
      RenderAllUpsert(first, k2, v2, stanza);
      RenderAllSingle(k1, v1, stanza);
    }
    assert map[k2 := v2, k1 := v1] == first[k2 := v2];
  }

  lemma MyServiceStanza()
    ensures ScrapeStanza(Scrape("my-service", 1234)) ==
      "\n"
      + "scrape_configs:\n"
      + "  - job_name: \"my-service\"\n"
      + "    dns_sd_configs:\n"
      + "      - names: [\"tasks.my-service\"]\n"
      + "        type: A\n"
      + "        port: 1234\n"
  {
    ScrapeFixedLines();
    MyServiceLines();
  }

  /** The lines of the `my-service` stanza that name the service and its port. */
  lemma MyServiceLines()
    ensures Decimal.IntToString(1234) == "1234"
    ensures Line("  - job_name: \"" + "my-service" + "\"") == "  - job_name: \"my-service\"\n"
    ensures Line("      - names: [\"tasks." + "my-service" + "\"]") == "      - names: [\"tasks.my-service\"]\n"
    ensures Line("        port: " + "1234") == "        port: 1234\n"
  {
    assert Decimal.IntToString(1234) == "1234";
  }

  /** The file the test expects after registering `my-service` on port 1234. */
  const MyServiceConfig: string :=
    ("\n"
    + "global:\n"
    + "  scrape_interval: 5s")
    + "\n"
    + ("\n"
    + "scrape_configs:\n"
    + "  - job_name: \"my-service\"\n"
    + "    dns_sd_configs:\n"
    + "      - names: [\"tasks.my-service\"]\n"
    + "        type: A\n"
    + "        port: 1234\n")

  /**
   * The file written after registering `my-service` on port 1234 with
   * `SCRAPE_INTERVAL` set to 5: the global block, an empty line and the
   * one scrape stanza.
   */
  lemma WriteConfigMyService()
    ensures ConfigFile("5", map["my-service" := Scrape("my-service", 1234)]) == Ok(MyServiceConfig)
  {
    GlobalConfigFive();
    RenderAllSingle("my-service", Scrape("my-service", 1234), ScrapeStanza);
    MyServiceStanza();
  }

  /** A new server holds no targets and no rules. */
  method NewInitializesScrapesAndAlerts() returns (scrapes: nat, alerts: nat)
    ensures scrapes == 0 && alerts == 0
  {
    var serve := new Serve();
    scrapes := |serve.Scrapes|;
    alerts := |serve.Alerts|;
  }

  /** The two targets the rendering tests register. */
  const TwoServices: map<string, Scrape> := map[
    "service-1" := Scrape("service-1", 1234),
    "service-2" := Scrape("service-2", 5678)]

  /**
   * With `service-1` and `service-2` registered and `SCRAPE_INTERVAL` set
   * to 5, the file is the global block, a newline and both stanzas.
   */
  method WriteConfigWritesConfig() returns (written: Result<string, ConfigError>)
    ensures written == Ok(GlobalConfig("5").value + "\n" + ScrapeConfig(TwoServices))
    ensures written == Ok(
      ("\n"
      + "global:\n"
      + "  scrape_interval: 5s")
      + "\n"
      + (("\n"
      + "scrape_configs:\n"
      + "  - job_name: \"service-1\"\n"
      + "    dns_sd_configs:\n"
      + "      - names: [\"tasks.service-1\"]\n"
      + "        type: A\n"
      + "        port: 1234\n")
      + ("\n"
      + "scrape_configs:\n"
      + "  - job_name: \"service-2\"\n"
      + "    dns_sd_configs:\n"
      + "      - names: [\"tasks.service-2\"]\n"
      + "        type: A\n"
      + "        port: 5678\n")))
  {
    var serve := new Serve();
    serve.Scrapes := TwoServices;
    GlobalConfigFive();
    GetScrapeConfigReturnsConfigWithData();
    written := serve.WriteConfig("5");
  }

  /**
   * A registration of `my-service` on port 1234 and of rule `myalert`,
   * against a Prometheus that answers 200, with `SCRAPE_INTERVAL` set to 5:
   * the reply echoes both with status "OK" and code 200.
   */
  method HandlerReturnsJson() returns (resp: Response, code: int)
    ensures resp == Response("OK", Alert("myalert", "my-if", "my-from"), Scrape("my-service", 1234))
    ensures code == 200
  {
    var serve := new Serve();
    var req := Request("my-service", 1234, "myalert", "my-if", "my-from");
    NormalizeKeepsLetters();
    var written;
    resp, code, written := serve.Handler(req, "5", Completed(200));
    assert ConfigFile("5", serve.Scrapes).Ok? by {
      GlobalConfigFive();
    }
  }

  /**
   * The same registration with rule `my-alert`: the file written holds the
   * global block and the one scrape stanza, but no alert.
   */
  method HandlerCallsWriteConfig() returns (written: Option<string>)
    ensures written == Some(MyServiceConfig)
  {
    var serve := new Serve();
    var req := Request("my-service", 1234, "my-alert", "my-if", "my-from");
    AddsScrape();
    WriteConfigMyService();
    var resp, code;
    resp, code, written := serve.Handler(req, "5", Completed(200));
  }

  /** Prometheus cannot be reached: the reply says "NOK". */
  method HandlerReturnsNokWhenPrometheusReloadFails() returns (resp: Response, code: int)
    ensures resp.Status == "NOK"
    ensures resp.Scrape == Scrape("my-service", 1234)
  {
    var serve := new Serve();
    var req := Request("my-service", 1234, "", "", "");
    var written;
    resp, code, written := serve.Handler(req, "5", TransportFailure);
  }

  /** Prometheus answers 502: the reply says "NOK" and carries code 502. */
  method HandlerReturnsStatusCodeFromPrometheus() returns (resp: Response, code: int)
    ensures resp.Status == "NOK"
    ensures code == 502
  {
    var serve := new Serve();
    var req := Request("my-service", 1234, "", "", "");
    GlobalConfigFive();
    var written;
    resp, code, written := serve.Handler(req, "5", Completed(502));
  }
}
