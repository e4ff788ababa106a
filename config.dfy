/**
 * The Prometheus configuration text the server renders from its registry:
 * the `global:` block, one `scrape_configs:` stanza per scrape target and
 * one `ALERT` stanza per alert rule, each collection in ascending key order.
 */
module Config {
  import opened Wrappers
  import Decimal
  import StringOrder

  /** A service Prometheus scrapes, found through DNS as `tasks.<name>`. */
  datatype Scrape = Scrape(ServiceName: string, ScrapePort: int)

  /** An alert rule: its name, its `IF` condition and its optional `FROM`. */
  datatype Alert = Alert(AlertName: string, AlertIf: string, AlertFrom: string)

  /** Why rendering can fail: the scrape interval is not a number. */
  datatype ConfigError = ScrapeIntervalNotNumber(scrapeInterval: string)

  /**
   * The `global:` block for the `SCRAPE_INTERVAL` setting, which must read
   * as an integer number of seconds.
   */
  function GlobalConfig(scrapeInterval: string): (r: Result<string, ConfigError>)
    ensures r.Err? <==> Decimal.Atoi(scrapeInterval).None?
    ensures r.Err? ==> r.error == ScrapeIntervalNotNumber(scrapeInterval)
  {
    match Decimal.Atoi(scrapeInterval)
    case None => Err(ScrapeIntervalNotNumber(scrapeInterval))
    case Some(seconds) =>
      Ok("\n"
         + "global:\n"
         + ("  scrape_interval: " + Decimal.IntToString(seconds) + "s"))
  }

  /** The number of line breaks in `s`. */
  function Newlines(s: string): nat
    decreases |s|
  {
    if s == [] then 0 else Newlines(s[..|s| - 1]) + (if s[|s| - 1] == '\n' then 1 else 0)
  }

  /** No field of the rule holds a line break. */
  predicate SingleLine(alert: Alert) {
    '\n' !in alert.AlertName && '\n' !in alert.AlertIf && '\n' !in alert.AlertFrom
  }

  /** `text` as one line of the file. */
  function Line(text: string): string {
    text + "\n"
  }

  /** A text without line breaks makes one line. */
  lemma NoBreakLine(text: string)
    requires '\n' !in text
    ensures Newlines(Line(text)) == 1
  {
    NoBreakNewlines(text);
    assert Line(text)[..|text|] == text;
  }

  /** A text without line breaks has none to count. */
  lemma {:induction false} NoBreakNewlines(text: string)
    requires '\n' !in text
    ensures Newlines(text) == 0
    decreases |text|
  {
    if text != [] {
      var init := text[..|text| - 1];
      assert forall c :: c in init ==> c in text;
      NoBreakNewlines(init);
    }
  }

  /** Splitting a text splits its line breaks. */
  lemma {:induction false} NewlinesAppend(a: string, b: string)
    ensures Newlines(a + b) == Newlines(a) + Newlines(b)
    decreases |b|
  {
    if b != [] {
      var init := b[..|b| - 1];
      NewlinesAppend(a, init);
      assert (a + b)[..|a + b| - 1] == a + init;
    } else {
      assert a + b == a;
    }
  }

  lemma NewlinesAppend3(a: string, b: string, c: string)
    ensures Newlines(a + b + c) == Newlines(a) + Newlines(b) + Newlines(c)
  {
    NewlinesAppend(a, b);
    NewlinesAppend(a + b, c);
  }

  /**
   * One `scrape_configs:` stanza, line by line. It opens with a line break,
   * so consecutive stanzas are separated by an empty line, and ends with one.
   */
  function ScrapeStanza(scrape: Scrape): (r: string)
    ensures |r| > 0 && r[0] == '\n' && r[|r| - 1] == '\n'
  {
    "\n"
    + Line("scrape_configs:")
    + Line("  - job_name: \"" + scrape.ServiceName + "\"")
    + Line("    dns_sd_configs:")
    + Line("      - names: [\"tasks." + scrape.ServiceName + "\"]")
    + Line("        type: A")
    + Line("        port: " + Decimal.IntToString(scrape.ScrapePort))
  }

  /**
   * One `ALERT` stanza, line by line: the `ALERT` and `IF` lines, and the
   * `FROM` line exactly when the rule has a source.
   */
  function AlertStanza(alert: Alert): (r: string)
    ensures |r| > 0 && r[0] == '\n' && r[|r| - 1] == '\n'
  {
    "\n"
    + Line("ALERT " + alert.AlertName)
    + Line("  IF " + alert.AlertIf)
    + (if alert.AlertFrom == "" then "" else Line("  FROM " + alert.AlertFrom))
  }

  /**
   * A scrape stanza is an empty line and six lines: header, job name,
   * discovery header, names, type and port.
   */
  lemma ScrapeStanzaNewlines(scrape: Scrape)
    requires '\n' !in scrape.ServiceName
    ensures Newlines(ScrapeStanza(scrape)) == 7
  {
    var name := scrape.ServiceName;
    var port := Decimal.IntToString(scrape.ScrapePort);
    Decimal.IntToStringNoBreak(scrape.ScrapePort);
    var l2, l3 := Line("scrape_configs:"), Line("  - job_name: \"" + name + "\"");
    var l4, l5 := Line("    dns_sd_configs:"), Line("      - names: [\"tasks." + name + "\"]");
    var l6, l7 := Line("        type: A"), Line("        port: " + port);
    ScrapeLinesNewlines(name, port);
    NewlinesAppend3("\n", l2, l3);
    NewlinesAppend3("\n" + l2 + l3, l4, l5);
    NewlinesAppend3("\n" + l2 + l3 + l4 + l5, l6, l7);
  }

  /** Each line of a scrape stanza is one line when the name and port are. */
  lemma ScrapeLinesNewlines(name: string, port: string)
    requires '\n' !in name && '\n' !in port
    ensures Newlines("\n") == 1
    ensures Newlines(Line("scrape_configs:")) == 1
    ensures Newlines(Line("  - job_name: \"" + name + "\"")) == 1
    ensures Newlines(Line("    dns_sd_configs:")) == 1
    ensures Newlines(Line("      - names: [\"tasks." + name + "\"]")) == 1
    ensures Newlines(Line("        type: A")) == 1
    ensures Newlines(Line("        port: " + port)) == 1
  {
    ScrapeFixedLinesNewlines();
    NoBreakLine("  - job_name: \"" + name + "\"");
    NoBreakLine("      - names: [\"tasks." + name + "\"]");
    NoBreakLine("        port: " + port);
  }

  /** The fixed lines of a scrape stanza. */
  lemma ScrapeFixedLinesNewlines()
    ensures Newlines("\n") == 1
    ensures Newlines(Line("scrape_configs:")) == 1
    ensures Newlines(Line("    dns_sd_configs:")) == 1
    ensures Newlines(Line("        type: A")) == 1
  {
    NoBreakLine("scrape_configs:");
    NoBreakLine("    dns_sd_configs:");
    NoBreakLine("        type: A");
  }

  /**
   * An alert stanza is an empty line, the `ALERT` and `IF` lines, and the
   * `FROM` line when the rule has a source.
   */
  lemma AlertStanzaNewlines(alert: Alert)
    requires SingleLine(alert)
    ensures Newlines(AlertStanza(alert)) == if alert.AlertFrom == "" then 3 else 4
  {
    var l2, l3 := Line("ALERT " + alert.AlertName), Line("  IF " + alert.AlertIf);
    var from := if alert.AlertFrom == "" then "" else Line("  FROM " + alert.AlertFrom);
    assert Newlines(l2) == 1 by { NoBreakLine("ALERT " + alert.AlertName); }
    assert Newlines(l3) == 1 by { NoBreakLine("  IF " + alert.AlertIf); }
    assert Newlines(from) == if alert.AlertFrom == "" then 0 else 1 by {
      if alert.AlertFrom != "" {
        NoBreakLine("  FROM " + alert.AlertFrom);
      }
    }
    assert Newlines("\n") == 1;
    NewlinesAppend3("\n", l2, l3);
    NewlinesAppend("\n" + l2 + l3, from);
  }

  /** `part` occurs somewhere in `whole`. */
  ghost predicate Occurs(part: string, whole: string) {
    exists before, after :: whole == before + part + after
  }

  /** The stanzas of the entries under `keys`, in the order of `keys`. */
  function RenderKeys<V>(entries: map<string, V>, keys: seq<string>, stanza: V -> string): string
    requires forall k :: k in keys ==> k in entries
  {
    if keys == [] then "" else stanza(entries[keys[0]]) + RenderKeys(entries, keys[1..], stanza)
  }

  /**
   * The stanzas of all entries, in ascending key order: nothing for no
   * entries, and every entry's stanza somewhere in the text.
   */
  function RenderAll<V>(entries: map<string, V>, stanza: V -> string): (r: string)
    ensures entries == map[] ==> r == ""
    ensures forall k :: k in entries ==> Occurs(stanza(entries[k]), r)
  {
    var keys := StringOrder.SortedKeys(entries.Keys);
    RenderKeysContains(entries, keys, stanza);
    RenderKeys(entries, keys, stanza)
  }

  /** The scrape block: one stanza per target, each somewhere in the text. */
  function ScrapeConfig(scrapes: map<string, Scrape>): (r: string)
    ensures scrapes == map[] ==> r == ""
    ensures forall k :: k in scrapes ==> Occurs(ScrapeStanza(scrapes[k]), r)
  {
    RenderAll(scrapes, ScrapeStanza)
  }

  /** The alert block: one stanza per rule, each somewhere in the text. */
  function AlertConfig(alerts: map<string, Alert>): (r: string)
    ensures alerts == map[] ==> r == ""
    ensures forall k :: k in alerts ==> Occurs(AlertStanza(alerts[k]), r)
  {
    RenderAll(alerts, AlertStanza)
  }

  /** With single-line service names, the scrape block is seven line breaks per target. */
  lemma ScrapeConfigNewlines(scrapes: map<string, Scrape>)
    requires forall k :: k in scrapes ==> '\n' !in scrapes[k].ServiceName
    ensures Newlines(ScrapeConfig(scrapes)) == 7 * |scrapes|
  {
    var keys := StringOrder.SortedKeys(scrapes.Keys);
    forall k | k in keys {
      ScrapeStanzaNewlines(scrapes[k]);
    }
    RenderKeysNewlines(scrapes, keys, ScrapeStanza, 7, 7);
    assert |keys| == |scrapes.Keys| == |scrapes|;
  }

  /**
   * With single-line rules, the alert block is three line breaks per rule
   * and one more per rule that has a source: between three and four per rule.
   */
  lemma AlertConfigNewlines(alerts: map<string, Alert>)
    requires forall k :: k in alerts ==> SingleLine(alerts[k])
    ensures 3 * |alerts| <= Newlines(AlertConfig(alerts)) <= 4 * |alerts|
    ensures (forall k :: k in alerts ==> alerts[k].AlertFrom == "") ==> Newlines(AlertConfig(alerts)) == 3 * |alerts|
    ensures (forall k :: k in alerts ==> alerts[k].AlertFrom != "") ==> Newlines(AlertConfig(alerts)) == 4 * |alerts|
  {
    AlertConfigBounds(alerts, 3, 4);
    if forall k :: k in alerts ==> alerts[k].AlertFrom == "" {
      AlertConfigBounds(alerts, 3, 3);
    }
    if forall k :: k in alerts ==> alerts[k].AlertFrom != "" {
      AlertConfigBounds(alerts, 4, 4);
    }
  }

  /** Per-rule bounds on the line breaks of alert stanzas carry over to the block. */
  lemma AlertConfigBounds(alerts: map<string, Alert>, lo: nat, hi: nat)
    requires forall k :: k in alerts ==> SingleLine(alerts[k])
    requires forall k :: k in alerts ==> lo <= (if alerts[k].AlertFrom == "" then 3 else 4) <= hi
    ensures lo * |alerts| <= Newlines(AlertConfig(alerts)) <= hi * |alerts|
  {
    var keys := StringOrder.SortedKeys(alerts.Keys);
    forall k | k in keys {
      AlertStanzaNewlines(alerts[k]);
    }
    assert |keys| == |alerts.Keys| == |alerts|;
    RenderKeysNewlines(alerts, keys, AlertStanza, lo, hi);
  }

  /** Every listed entry's stanza occurs in the rendered text. */
  lemma {:induction false} RenderKeysContains<V>(entries: map<string, V>, keys: seq<string>, stanza: V -> string)
    requires forall k :: k in keys ==> k in entries
    ensures forall k :: k in keys ==> Occurs(stanza(entries[k]), RenderKeys(entries, keys, stanza))
    decreases |keys|
  {
    if keys != [] {
      RenderKeysContains(entries, keys[1..], stanza);
      var first := stanza(entries[keys[0]]);
      var rest := RenderKeys(entries, keys[1..], stanza);
      var whole := RenderKeys(entries, keys, stanza);
      assert whole == first + rest;
      forall k | k in keys ensures Occurs(stanza(entries[k]), whole) {
        var part := stanza(entries[k]);
        if k == keys[0] {
          assert whole == [] + part + rest;
        } else {
          assert k in keys[1..];
          var before, after :| rest == before + part + after;
          assert whole == (first + before) + part + after;
        }
      }
    }
  }

  /** `c * n` is `c` more than `c * (n - 1)`. */
  lemma MultiplyStep(c: nat, n: nat)
    requires n > 0
    ensures c * n == c + c * (n - 1)
  {
  }

  /**
   * If every listed stanza has between `lo` and `hi` line breaks, the text
   * has between `lo` and `hi` line breaks per key.
   */
  lemma {:induction false} RenderKeysNewlines<V>(entries: map<string, V>, keys: seq<string>, stanza: V -> string, lo: nat, hi: nat)
    requires forall k :: k in keys ==> k in entries
    requires forall k :: k in keys ==> lo <= Newlines(stanza(entries[k])) <= hi
    ensures lo * |keys| <= Newlines(RenderKeys(entries, keys, stanza)) <= hi * |keys|
    decreases |keys|
  {
    if keys != [] {
      var tail := keys[1..];
      assert forall k :: k in tail ==> k in keys;
      RenderKeysNewlines(entries, tail, stanza, lo, hi);
      var first := stanza(entries[keys[0]]);
      var rest := RenderKeys(entries, tail, stanza);
      assert keys[0] in keys;
      assert lo <= Newlines(first) <= hi;
      assert lo * |tail| <= Newlines(rest) <= hi * |tail|;
      NewlinesAppend(first, rest);
      assert RenderKeys(entries, keys, stanza) == first + rest;
      MultiplyStep(lo, |keys|);
      MultiplyStep(hi, |keys|);
    }
  }

  /** The text written to the configuration file: global block, newline, scrape block. */
  function ConfigFile(scrapeInterval: string, scrapes: map<string, Scrape>): (r: Result<string, ConfigError>)
    ensures r.Err? <==> GlobalConfig(scrapeInterval).Err?
  {
    match GlobalConfig(scrapeInterval)
    case Err(e) => Err(e)
    case Ok(global) => Ok(global + "\n" + ScrapeConfig(scrapes))
  }

  /** The entries whose keys sort strictly before, or strictly after, `k`. */
  function EntriesBefore<V>(entries: map<string, V>, k: string): (r: map<string, V>)
    ensures r.Keys == StringOrder.KeysBefore(entries.Keys, k)
  {
    map x | x in entries && StringOrder.Precedes(x, k) :: entries[x]
  }

  function EntriesAfter<V>(entries: map<string, V>, k: string): (r: map<string, V>)
    ensures r.Keys == StringOrder.KeysAfter(entries.Keys, k)
  {
    map x | x in entries && StringOrder.Precedes(k, x) :: entries[x]
  }

  lemma {:induction false} RenderKeysAppend<V>(entries: map<string, V>, a: seq<string>, b: seq<string>, stanza: V -> string)
    requires forall k :: k in a + b ==> k in entries
    ensures RenderKeys(entries, a + b, stanza) == RenderKeys(entries, a, stanza) + RenderKeys(entries, b, stanza)
    decreases |a|
  {
    if a == [] {
      assert a + b == b;
    } else {
      assert (a + b)[0] == a[0] && (a + b)[1..] == a[1..] + b;
      RenderKeysAppend(entries, a[1..], b, stanza);
    }
  }

  /** Only the entries under the listed keys matter to the rendered text. */
  lemma {:induction false} RenderKeysAgree<V>(m1: map<string, V>, m2: map<string, V>, keys: seq<string>, stanza: V -> string)
    requires forall k :: k in keys ==> k in m1 && k in m2 && m1[k] == m2[k]
    ensures RenderKeys(m1, keys, stanza) == RenderKeys(m2, keys, stanza)
    decreases |keys|
  {
    if keys != [] {
      RenderKeysAgree(m1, m2, keys[1..], stanza);
    }
  }

  /**
   * Each entry is rendered exactly once, after every entry with a smaller
   * key and before every entry with a larger one.
   */
  lemma RenderAllSplit<V>(entries: map<string, V>, k: string, stanza: V -> string)
    requires k in entries
    ensures RenderAll(entries, stanza)
         == RenderAll(EntriesBefore(entries, k), stanza) + stanza(entries[k]) + RenderAll(EntriesAfter(entries, k), stanza)
  {
    var lo, hi := EntriesBefore(entries, k), EntriesAfter(entries, k);
    var loKeys, hiKeys := StringOrder.SortedKeys(lo.Keys), StringOrder.SortedKeys(hi.Keys);
    StringOrder.SortedKeysSplit(entries.Keys, k);
    var keys := StringOrder.SortedKeys(entries.Keys);
    assert keys == loKeys + [k] + hiKeys;
    assert forall x :: x in loKeys ==> x in lo && lo[x] == entries[x];
    assert forall x :: x in hiKeys ==> x in hi && hi[x] == entries[x];
    RenderKeysThree(entries, loKeys, k, hiKeys, stanza);
    RenderKeysAgree(entries, lo, loKeys, stanza);
    RenderKeysAgree(entries, hi, hiKeys, stanza);
  }

  lemma RenderKeysThree<V>(entries: map<string, V>, a: seq<string>, k: string, b: seq<string>, stanza: V -> string)
    requires k in entries
    requires forall x :: x in a ==> x in entries
    requires forall x :: x in b ==> x in entries
    ensures RenderKeys(entries, a + [k] + b, stanza)
         == RenderKeys(entries, a, stanza) + stanza(entries[k]) + RenderKeys(entries, b, stanza)
  {
    RenderKeysAppend(entries, a + [k], b, stanza);
    RenderKeysAppend(entries, a, [k], stanza);
    assert RenderKeys(entries, [k], stanza) == stanza(entries[k]) + RenderKeys(entries, [], stanza);
  }

  /**
   * Upserting one entry changes the rendered text in that entry's place
   * only: everything before and after it is rendered as it was.
   */
  lemma RenderAllUpsert<V>(entries: map<string, V>, k: string, v: V, stanza: V -> string)
    ensures RenderAll(entries[k := v], stanza)
         == RenderAll(EntriesBefore(entries, k), stanza) + stanza(v) + RenderAll(EntriesAfter(entries, k), stanza)
  {
    var updated := entries[k := v];
    RenderAllSplit(updated, k, stanza);
    EntriesAroundUpsert(entries, k, v);
  }

  lemma EntriesAroundUpsert<V>(entries: map<string, V>, k: string, v: V)
    ensures EntriesBefore(entries[k := v], k) == EntriesBefore(entries, k)
    ensures EntriesAfter(entries[k := v], k) == EntriesAfter(entries, k)
  {
  }

  /** A registry with no entries renders no stanzas at all. */
  lemma RenderAllEmpty<V>(stanza: V -> string)
    ensures RenderAll(map[], stanza) == ""
  {
  }

  /** A registry with a single entry renders that entry's stanza alone. */
  lemma RenderAllSingle<V>(k: string, v: V, stanza: V -> string)
    ensures RenderAll(map[k := v], stanza) == stanza(v)
  {
    var empty: map<string, V> := map[];
    RenderAllUpsert(empty, k, v, stanza);
    assert EntriesBefore(empty, k) == empty;
    assert EntriesAfter(empty, k) == empty;
    RenderAllEmpty(stanza);
  }

  /** A numeric interval "N" renders exactly as "\nglobal:\n  scrape_interval: Ns". */
  lemma GlobalConfigNumeral(scrapeInterval: string)
    requires Decimal.Canonical(scrapeInterval)
    requires Decimal.DigitsValue(scrapeInterval) <= Decimal.MaxInt64
    ensures GlobalConfig(scrapeInterval) == Ok("\n" + "global:\n" + ("  scrape_interval: " + scrapeInterval + "s"))
  {
    Decimal.AtoiCanonical(scrapeInterval);
  }

  /** An interval holding anything but digits after an optional sign is an error. */
  lemma GlobalConfigNotNumber(scrapeInterval: string, i: nat)
    requires i < |scrapeInterval| && !Decimal.IsDigit(scrapeInterval[i])
    requires i > 0 || (scrapeInterval[0] != '+' && scrapeInterval[0] != '-')
    ensures GlobalConfig(scrapeInterval) == Err(ScrapeIntervalNotNumber(scrapeInterval))
  {
  }
}
