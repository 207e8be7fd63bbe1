/** The Iris commands: `investigate` (a domain's risk score, its
    infrastructure, connected domains and threat indicators), `enrich`
    (extra data of one kind, or of all kinds) and `detect` (newly observed
    risky domains). Each builds the keyword arguments of its SDK call from
    its options; the table renderings colour scores and cap lists. */
module Iris {
  import opened Wrappers
  import opened Text
  import opened Json
  import Client
  import Output
  import opened Commands

  // ---------------------------------------------------------------------
  // Keyword arguments

  /** investigate's keyword arguments: include_whois and include_dns,
      each only when its flag is set. */
  function InvestigateKwargs(includeWhois: bool, includeDns: bool): (r: Entries)
    ensures Has(r, "include_whois") <==> includeWhois
    ensures Has(r, "include_dns") <==> includeDns
    ensures forall i :: 0 <= i < |r| ==> r[i].1 == JBool(true)
    ensures |r| <= 2
  {
    var flags := [("include_whois", includeWhois), ("include_dns", includeDns)];
    assert flags[0] == ("include_whois", includeWhois) && flags[1] == ("include_dns", includeDns);
    SetFlags(flags)
  }

  /** enrich's keyword arguments: data_type, unless it is "all". */
  function EnrichKwargs(dataType: string): (r: Entries)
    ensures Has(r, "data_type") <==> dataType != "all"
    ensures dataType != "all" ==> Get(r, "data_type") == JStr(dataType)
    ensures dataType == "all" ==> r == []
  {
    if dataType != "all" then
      assert Keys([("data_type", JStr(dataType))]) == ["data_type"];
      [("data_type", JStr(dataType))]
    else []
  }

  /** detect's keyword arguments: the options under the SDK's names. */
  function DetectKwargs(days: int, riskThreshold: int, limit: int): (r: Entries)
    ensures Get(r, "days_back") == JInt(days)
    ensures Get(r, "risk_score_threshold") == JInt(riskThreshold)
    ensures Get(r, "limit") == JInt(limit)
    ensures Keys(r) == ["days_back", "risk_score_threshold", "limit"]
  {
    var r := [("days_back", JInt(days)), ("risk_score_threshold", JInt(riskThreshold)), ("limit", JInt(limit))];
    assert r[1..][1..] == [("limit", JInt(limit))];
    assert Find(r[1..][1..], "limit") == Some(JInt(limit));
    assert Find(r[1..], "risk_score_threshold") == Some(JInt(riskThreshold));
    r
  }

  /** investigate, enrich and detect hand their keyword arguments to the
      SDK unchanged; detect has no query. */
  lemma CallsForward(client: Client.DomainToolsClient, domain: string, whois: bool, dns: bool,
                     dataType: string, days: int, riskThreshold: int, limit: int)
    ensures Client.Call(client, Client.IrisInvestigate, Some(domain), InvestigateKwargs(whois, dns)).Ok? <==>
      client.api(Client.Request(Client.IrisInvestigate, Some(domain), InvestigateKwargs(whois, dns))).Ok?
    ensures Client.Call(client, Client.IrisEnrich, Some(domain), EnrichKwargs(dataType)).Ok? <==>
      client.api(Client.Request(Client.IrisEnrich, Some(domain), EnrichKwargs(dataType))).Ok?
    ensures Client.Call(client, Client.IrisDetect, None, DetectKwargs(days, riskThreshold, limit)).Ok? <==>
      client.api(Client.Request(Client.IrisDetect, None, DetectKwargs(days, riskThreshold, limit))).Ok?
  {
  }

  // ---------------------------------------------------------------------
  // investigate

  /** Green under 30, yellow under 70, red from 70 on. */
  function ScoreColour(score: real): (s: Output.Style)
    ensures s == Output.Green <==> score < 30.0
    ensures s == Output.Yellow <==> 30.0 <= score < 70.0
    ensures s == Output.Red <==> score >= 70.0
  {
    if score < 30.0 then Output.Green else if score < 70.0 then Output.Yellow else Output.Red
  }

  /** investigate colours a score as format_reputation does. */
  lemma ScoreColourMatchesFormatter(score: real)
    ensures ScoreColour(score) == Output.LevelStyle(Output.RiskLevelOf(score))
  {
  }

  const MaxConnected := 10

  /** One connected domain: its domain and score, "N/A" when missing. */
  function ConnectedLine(item: Json): (r: Result<string, string>)
    ensures r.Ok? <==> item.JObject?
    ensures r.Ok? ==> (r.value ==
      "  \U{2022} " + PyStr(GetOr(item.entries, "domain", JStr("N/A"))) +
      " (Score: " + PyStr(GetOr(item.entries, "risk_score", JStr("N/A"))) + ")")
  {
    match item
    case JObject(e) =>
      Ok("  \U{2022} " + PyStr(GetOr(e, "domain", JStr("N/A"))) +
         " (Score: " + PyStr(GetOr(e, "risk_score", JStr("N/A"))) + ")")
    case _ => Err("AttributeError")
  }

  /** The connected domains printed, and the count of those left out. */
  datatype Connected = Connected(lines: seq<string>, more: Option<nat>)

  /** What investigate's table rendering prints, section by section; a
      section is None when its key is absent (or, for the lists, when the
      list is empty). */
  datatype InvestigateView = InvestigateView(
    score: Option<Output.Span>,
    infrastructure: Option<(string, string, string)>,
    connected: Option<Connected>,
    threats: Option<seq<string>>)

  /** The risk score line: a score that is not a number fails the
      comparison. */
  function ScoreLine(result: Json): (r: Result<Option<Output.Span>, string>)
    ensures result.JObject? ==> (r == Ok(None) <==> !Has(result.entries, "risk_score"))
    ensures r.Ok? && r.value.Some? ==> (
      result.JObject? && var score := Get(result.entries, "risk_score");
      Number(score).Some? && r.value.value == Output.Span(ScoreColour(Number(score).value), PyStr(score)))
    ensures result.JObject? && Has(result.entries, "risk_score") ==>
      (r.Ok? <==> Number(Get(result.entries, "risk_score")).Some?) && (r.Ok? ==> r.value.Some?) &&
      (r.Err? ==> r.error == "TypeError")
  {
    var present :- PyIn("risk_score", result);
    if !present then Ok(None)
    else
      var score :- Subscript(result, "risk_score");
      match Number(score)
      case None => Err("TypeError")
      case Some(x) => Ok(Some(Output.Span(ScoreColour(x), PyStr(score))))
  }

  /** The infrastructure counts, 0 when missing; get() needs a mapping. */
  function InfrastructureLines(result: Json): (r: Result<Option<(string, string, string)>, string>)
    ensures result.JObject? && !Has(result.entries, "infrastructure") ==> r == Ok(None)
    ensures result.JObject? && Has(result.entries, "infrastructure") ==>
      (r.Ok? <==> Get(result.entries, "infrastructure").JObject?) && (r.Ok? ==> r.value.Some?)
    ensures r.Ok? && r.value.Some? ==>
      result.JObject? && Has(result.entries, "infrastructure") &&
      var infra := Get(result.entries, "infrastructure").entries;
      r.value.value.0 == (if Has(infra, "ip_count") then PyStr(Get(infra, "ip_count")) else "0") &&
      r.value.value.1 == (if Has(infra, "nameserver_count") then PyStr(Get(infra, "nameserver_count")) else "0") &&
      r.value.value.2 == (if Has(infra, "mailserver_count") then PyStr(Get(infra, "mailserver_count")) else "0")
  {
    var present :- PyIn("infrastructure", result);
    if !present then Ok(None)
    else
      var infra :- Subscript(result, "infrastructure");
      match infra
      case JObject(m) =>
        Ok(Some((PyStr(GetOr(m, "ip_count", JInt(0))), PyStr(GetOr(m, "nameserver_count", JInt(0))),
          PyStr(GetOr(m, "mailserver_count", JInt(0))))))
      case _ => Err("AttributeError")
  }

  /** One threat indicator, printed with str() behind a warning sign. */
  function ThreatLine(threat: Json): string {
    "  \U{26A0} " + PyStr(threat)
  }

  /** The threat indicators, one line each and in order. */
  function Threats(result: Json): (r: Result<Option<seq<string>>, string>)
    ensures result.JObject? && !Has(result.entries, "threat_indicators") ==> r == Ok(None)
    ensures r.Ok? && r.value.Some? ==> (
      result.JObject? && var threats := Get(result.entries, "threat_indicators");
      Truthy(threats) && Iterate(threats).Some? &&
      var items := Iterate(threats).value;
      |r.value.value| == |items| &&
      forall i :: 0 <= i < |items| ==> r.value.value[i] == "  \U{26A0} " + PyStr(items[i]))
    ensures result.JObject? && Has(result.entries, "threat_indicators") ==>
      var threats := Get(result.entries, "threat_indicators");
      (!Truthy(threats) ==> r == Ok(None)) &&
      (Truthy(threats) ==> (r.Ok? <==> Iterate(threats).Some?) && (r.Ok? ==> r.value.Some?) &&
                           (r.Err? ==> r.error == "TypeError"))
  {
    var present :- PyIn("threat_indicators", result);
    if !present then Ok(None)
    else
      var threats :- Subscript(result, "threat_indicators");
      if !Truthy(threats) then Ok(None)
      else
        match Iterate(threats)
        case None => Err("TypeError")
        case Some(items) =>
          EachAt(items, ThreatLine);
          Ok(Some(Each(items, ThreatLine)))
  }

  /** The first ten connected domains can be sliced and each prints. */
  predicate ConnectedRenders(c: Json) {
    Slice(c, MaxConnected).Ok? && Rows(Slice(c, MaxConnected).value, ConnectedLine).Ok?
  }

  /** The connected domains section: at most ten lines, and "... and N
      more" with N the number left out exactly when there are more than
      ten. */
  method ConnectedSection(result: Json) returns (r: Result<Option<Connected>, string>)
    ensures result.JObject? && !Has(result.entries, "connected_domains") ==> r == Ok(None)
    ensures r.Ok? && r.value.Some? ==> (
      result.JObject? && var c := Get(result.entries, "connected_domains");
      Slice(c, MaxConnected).Ok? && Len(c).Ok? &&
      Rows(Slice(c, MaxConnected).value, ConnectedLine) == Ok(r.value.value.lines) &&
      |r.value.value.lines| <= MaxConnected &&
      (r.value.value.more.Some? <==> Len(c).value > MaxConnected) &&
      (r.value.value.more.Some? ==> r.value.value.more.value == Len(c).value - MaxConnected))
    ensures result.JObject? && Has(result.entries, "connected_domains") ==>
      var c := Get(result.entries, "connected_domains");
      (!Truthy(c) ==> r == Ok(None)) &&
      (Truthy(c) ==> (r.Ok? <==> ConnectedRenders(c)) && (r.Ok? ==> r.value.Some?))
  {
    var present := PyIn("connected_domains", result);
    if present.Err? {
      return Err(present.error);
    }
    if !present.value {
      return Ok(None);
    }
    var connected := Subscript(result, "connected_domains");
    if connected.Err? {
      return Err(connected.error);
    }
    var c := connected.value;
    if !Truthy(c) {
      return Ok(None);
    }
    var shown := Slice(c, MaxConnected);
    if shown.Err? {
      return Err(shown.error);
    }
    var lines := AddRows(shown.value, ConnectedLine);
    if lines.Err? {
      return Err(lines.error);
    }
    RowsShape(shown.value, ConnectedLine);
    var n := Len(c).value;
    var more: Option<nat> := None;
    if n > MaxConnected {
      more := Some(n - MaxConnected);
    }
    return Ok(Some(Connected(lines.value, more)));
  }

  /** investigate's table rendering: the sections in the order printed. */
  method Investigate(result: Json) returns (r: Result<InvestigateView, string>)
    ensures r.Ok? ==> ScoreLine(result) == Ok(r.value.score)
    ensures r.Ok? ==> InfrastructureLines(result) == Ok(r.value.infrastructure)
    ensures r.Ok? ==> Threats(result) == Ok(r.value.threats)
    ensures result.JObject? && !Has(result.entries, "connected_domains") && r.Ok? ==> r.value.connected.None?
    ensures result.JObject? && Has(result.entries, "connected_domains") && r.Ok? ==>
      var c := Get(result.entries, "connected_domains");
      (r.value.connected.Some? <==> Truthy(c)) &&
      (r.value.connected.Some? ==>
        Slice(c, MaxConnected).Ok? && Len(c).Ok? &&
        Rows(Slice(c, MaxConnected).value, ConnectedLine) == Ok(r.value.connected.value.lines) &&
        |r.value.connected.value.lines| <= MaxConnected &&
        (r.value.connected.value.more.Some? <==> Len(c).value > MaxConnected) &&
        (r.value.connected.value.more.Some? ==> r.value.connected.value.more.value == Len(c).value - MaxConnected))
    ensures (result.JObject? && ScoreLine(result).Ok? && InfrastructureLines(result).Ok? && Threats(result).Ok? &&
             (Has(result.entries, "connected_domains") && Truthy(Get(result.entries, "connected_domains")) ==>
                ConnectedRenders(Get(result.entries, "connected_domains")))) ==> r.Ok?
  {
    var score := ScoreLine(result);
    if score.Err? {
      return Err(score.error);
    }
    var infra := InfrastructureLines(result);
    if infra.Err? {
      return Err(infra.error);
    }
    var connected := ConnectedSection(result);
    if connected.Err? {
      return Err(connected.error);
    }
    var threats := Threats(result);
    if threats.Err? {
      return Err(threats.error);
    }
    return Ok(InvestigateView(score.value, infra.value, connected.value, threats.value));
  }

  // ---------------------------------------------------------------------
  // detect

  /** Red from 80 on, yellow below. */
  function DetectColour(score: real): (s: Output.Style)
    ensures s == Output.Red <==> score >= 80.0
    ensures s == Output.Yellow <==> score < 80.0
  {
    if score >= 80.0 then Output.Red else Output.Yellow
  }

  datatype DetectRow = DetectRow(domain: string, risk: Output.Span, firstSeen: string, threatType: string)

  /** A detected domain's row: the score, 0 when missing, in its colour;
      the threat type "Unknown" when missing. */
  function DetectRowOf(item: Json): (r: Result<DetectRow, string>)
    ensures !item.JObject? ==> r == Err("AttributeError")
    ensures r.Ok? ==> (
      item.JObject? && var score := GetOr(item.entries, "risk_score", JInt(0));
      Number(score).Some? && r.value.risk == Output.Span(DetectColour(Number(score).value), PyStr(score)) &&
      r.value.firstSeen == PyStr(GetOr(item.entries, "first_seen", JStr("N/A"))))
    ensures item.JObject? && !Has(item.entries, "threat_type") && r.Ok? ==> r.value.threatType == "Unknown"
    ensures r.Ok? ==> (
      item.JObject? &&
      Cell(GetOr(item.entries, "domain", JStr("N/A"))) == Ok(r.value.domain) &&
      Cell(GetOr(item.entries, "threat_type", JStr("Unknown"))) == Ok(r.value.threatType))
    ensures item.JObject? ==>
      (r.Ok? <==> Number(GetOr(item.entries, "risk_score", JInt(0))).Some? &&
                  Cell(GetOr(item.entries, "domain", JStr("N/A"))).Ok? &&
                  Cell(GetOr(item.entries, "threat_type", JStr("Unknown"))).Ok?)
  {
    match item
    case JObject(e) =>
      var score := GetOr(e, "risk_score", JInt(0));
      (match Number(score)
       case None => Err("TypeError")
       case Some(x) =>
         var domain :- Cell(GetOr(e, "domain", JStr("N/A")));
         var threat :- Cell(GetOr(e, "threat_type", JStr("Unknown")));
         Ok(DetectRow(domain, Output.Span(DetectColour(x), PyStr(score)),
                      PyStr(GetOr(e, "first_seen", JStr("N/A"))), threat)))
    case _ => Err("AttributeError")
  }

  datatype DetectView =
    | NoDetectResults
    | NoThreats
    | DetectTable(rows: seq<DetectRow>, total: nat, notice: Option<string>)

  /** detect's table rendering: at most `limit` rows, and the notice
      exactly when more domains were detected. */
  method Detect(result: Json, limit: int) returns (r: Result<DetectView, string>)
    ensures result.JObject? && !Has(result.entries, "detected_domains") ==> r == Ok(NoDetectResults)
    ensures (result.JObject? && Has(result.entries, "detected_domains") &&
             !Truthy(Get(result.entries, "detected_domains"))) ==> r == Ok(NoThreats)
    ensures r.Ok? && r.value.DetectTable? ==> (
      result.JObject? && var ds := Get(result.entries, "detected_domains");
      Slice(ds, limit).Ok? && Rows(Slice(ds, limit).value, DetectRowOf) == Ok(r.value.rows) &&
      Len(ds) == Ok(r.value.total) && r.value.notice == ShowingNotice(limit, r.value.total, "detected threats"))
    ensures (result.JObject? && Get(result.entries, "detected_domains").JList? &&
             var items := Get(result.entries, "detected_domains").items;
             items != [] && Rows(SliceTo(items, limit), DetectRowOf).Ok?) ==>
      r.Ok? && r.value.DetectTable?
  {
    var present := PyIn("detected_domains", result);
    if present.Err? {
      return Err(present.error);
    }
    if !present.value {
      return Ok(NoDetectResults);
    }
    var domains := Subscript(result, "detected_domains");
    if domains.Err? {
      return Err(domains.error);
    }
    var ds := domains.value;
    if !Truthy(ds) {
      return Ok(NoThreats);
    }
    var shown := Slice(ds, limit);
    if shown.Err? {
      return Err(shown.error);
    }
    var rows := AddRows(shown.value, DetectRowOf);
    if rows.Err? {
      return Err(rows.error);
    }
    var total := Len(ds).value;
    return Ok(DetectTable(rows.value, total, ShowingNotice(limit, total, "detected threats")));
  }
}
