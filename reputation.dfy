/** The reputation commands: `check`, which bands one domain's risk score
    and draws it as a bar, and `batch_check`, which checks several domains
    one after the other, keeps going when one of them fails, and collects
    the domains at or above a threshold. */
module Reputation {
  import opened Wrappers
  import opened Text
  import opened Json
  import Client
  import Output
  import opened Commands

  // ---------------------------------------------------------------------
  // check

  /** check's keyword arguments: include_reasons only when the flag is
      set. */
  function CheckKwargs(includeReasons: bool): (r: Entries)
    ensures Has(r, "include_reasons") <==> includeReasons
    ensures forall i :: 0 <= i < |r| ==> r[i] == ("include_reasons", JBool(true))
  {
    SetFlags([("include_reasons", includeReasons)])
  }

  /** The band check prints: its label, its colour and its emoji. */
  datatype Band = Band(title: string, colour: Output.Style, emoji: string)

  /** LOW RISK under 30, MEDIUM RISK under 70, HIGH RISK from 70 on. */
  function CheckBand(score: real): (b: Band)
    ensures b.title == "LOW RISK" <==> score < 30.0
    ensures b.title == "MEDIUM RISK" <==> 30.0 <= score < 70.0
    ensures b.title == "HIGH RISK" <==> 70.0 <= score
  {
    if score < 30.0 then Band("LOW RISK", Output.Green, "\U{2705}")
    else if score < 70.0 then Band("MEDIUM RISK", Output.Yellow, "\U{26A0}\U{FE0F}")
    else Band("HIGH RISK", Output.Red, "\U{1F6A8}")
  }

  /** check colours a score as format_reputation does. */
  lemma CheckBandMatchesFormatter(score: real)
    ensures CheckBand(score).colour == Output.LevelStyle(Output.RiskLevelOf(score))
  {
  }

  const BarLength := 50
  const Full := '\U{2588}'
  const Empty := '\U{2591}'

  /** int(bar_length * score / 100): truncation toward zero. */
  function Filled(score: real): int {
    Trunc(BarLength as real * score / 100.0)
  }

  /** "█" * filled + "░" * (bar_length - filled); a negative count
      repeats nothing. */
  function Bar(score: real): string {
    var filled := Filled(score);
    Repeat(Full, filled) + Repeat(Empty, BarLength - filled)
  }

  /** For a score from 0 to 100 the bar is 50 characters, and a cell,
      which stands for two points, is filled exactly when the score
      reaches its upper end; so floor(score / 2) cells are filled. */
  lemma BarCells(score: real)
    requires 0.0 <= score <= 100.0
    ensures |Bar(score)| == BarLength
    ensures forall i :: 0 <= i < BarLength ==> (Bar(score)[i] == Full <==> 2.0 * (i + 1) as real <= score)
  {
    var f := Filled(score);
    assert f == (score / 2.0).Floor;
    assert 0 <= f <= BarLength;
    var bar := Bar(score);
    forall i | 0 <= i < BarLength
      ensures bar[i] == Full <==> 2.0 * (i + 1) as real <= score
    {
      if i < f {
        assert bar[i] == Full;
        assert (i + 1) as real <= f as real <= score / 2.0;
      } else {
        assert bar[i] == Empty;
        assert score / 2.0 < (f + 1) as real <= (i + 1) as real;
      }
    }
  }

  /** A score of 102 or more overflows the bar: it is only filled cells,
      and more than 50 of them. */
  lemma BarOverflows(score: real)
    requires score >= 102.0
    ensures |Bar(score)| > BarLength
    ensures forall i :: 0 <= i < |Bar(score)| ==> Bar(score)[i] == Full
  {
    assert Filled(score) == (score / 2.0).Floor;
  }

  /** A score of -2 or less draws more than 50 empty cells. */
  lemma BarUnderflows(score: real)
    requires score <= -2.0
    ensures |Bar(score)| > BarLength
    ensures forall i :: 0 <= i < |Bar(score)| ==> Bar(score)[i] == Empty
  {
    assert Filled(score) <= -1;
  }

  /** The Risk Assessment panel. */
  datatype Panel = Panel(band: Band, score: string, bar: string)

  /** The panel `check` prints for a result, when "risk_score" is in it;
      comparing a score that is not a number raises TypeError, and a
      result that is not a mapping cannot be subscripted with the key. */
  function RiskPanel(result: Json): (r: Result<Option<Panel>, string>)
    ensures result.JObject? ==> (r == Ok(None) <==> !Has(result.entries, "risk_score"))
    ensures r.Ok? && r.value.Some? ==>
      result.JObject? && var x := Number(Get(result.entries, "risk_score"));
      x.Some? && r.value.value.band == CheckBand(x.value) && r.value.value.bar == Bar(x.value) &&
      r.value.value.score == PyStr(Get(result.entries, "risk_score")) + "/100"
    ensures (result.JObject? && Has(result.entries, "risk_score") &&
             Number(Get(result.entries, "risk_score")).None?) ==> r == Err("TypeError")
    ensures (result.JObject? && Has(result.entries, "risk_score") &&
             Number(Get(result.entries, "risk_score")).Some?) ==> r.Ok? && r.value.Some?
  {
    var present :- PyIn("risk_score", result);
    if !present then Ok(None)
    else
      var score :- Subscript(result, "risk_score");
      match Number(score)
      case None => Err("TypeError")
      case Some(x) => Ok(Some(Panel(CheckBand(x), PyStr(score) + "/100", Bar(x))))
  }

  // ---------------------------------------------------------------------
  // batch_check

  /** One row of the batch: what batch_check stores per domain. */
  datatype BatchRecord = BatchRecord(domain: string, riskScore: Json, riskLevel: string, categories: string)

  /** High from 70 on, Medium from 30, else Low. */
  function BatchLevel(score: real): (l: string)
    ensures l == "High" <==> score >= 70.0
    ensures l == "Medium" <==> 30.0 <= score < 70.0
    ensures l == "Low" <==> score < 30.0
  {
    if score >= 70.0 then "High" else if score >= 30.0 then "Medium" else "Low"
  }

  function LevelName(l: Output.RiskLevel): string {
    match l
    case Low => "Low"
    case Medium => "Medium"
    case High => "High"
  }

  /** batch_check's levels have the same boundaries as format_reputation's
      bands. */
  lemma BatchLevelMatchesFormatter(score: real)
    ensures BatchLevel(score) == LevelName(Output.RiskLevelOf(score))
  {
  }

  /** The text of each item, for items that are all strings. */
  function Texts(items: seq<Json>): (r: seq<string>)
    requires forall i :: 0 <= i < |items| ==> items[i].JStr?
    ensures |r| == |items| && forall i :: 0 <= i < |items| ==> items[i] == JStr(r[i])
  {
    seq(|items|, i requires 0 <= i < |items| => items[i].s)
  }

  /** ", ".join(v): v must be iterable and yield strings only, and the
      result is their texts with ", " between each two. */
  function JoinStrings(v: Json): (r: Result<string, string>)
    ensures r.Ok? <==> Iterate(v).Some? && forall i :: 0 <= i < |Iterate(v).value| ==> Iterate(v).value[i].JStr?
    ensures r.Err? ==> r.error == "TypeError"
    ensures r.Ok? ==> r.value == Join(", ", Texts(Iterate(v).value))
    ensures v == JList([]) ==> r == Ok("")
  {
    match Iterate(v)
    case None => Err("TypeError")
    case Some(items) =>
      if forall i :: 0 <= i < |items| ==> items[i].JStr? then
        Ok(Join(", ", Texts(items)))
      else Err("TypeError")
  }

  /** Two categories are shown as "a, b". */
  lemma JoinStringsTwo(a: string, b: string)
    ensures JoinStrings(JList([JStr(a), JStr(b)])) == Ok(a + ", " + b)
  {
    var t := Texts([JStr(a), JStr(b)]);
    assert t == [a, b];
    assert t[1..] == [b];
    assert Join(", ", t) == a + ", " + Join(", ", [b]);
  }

  /** A category given as one string is joined character by character:
      "ab" is shown as "a, b". */
  lemma JoinStringsOfText()
    ensures JoinStrings(JStr("ab")) == Ok("a, b")
  {
    var items := Iterate(JStr("ab")).value;
    assert items == [JStr("a"), JStr("b")];
    var t := Texts(items);
    assert t == ["a", "b"];
    assert t[1..] == ["b"];
    assert Join(", ", t) == "a" + ", " + Join(", ", ["b"]);
    assert "a" + ", " + "b" == "a, b";
  }

  /** The `try` block for one domain: the record built from the client's
      reply, or the message of the exception raised on the way: the
      client's own error, AttributeError for a reply that is not a
      mapping, TypeError for a score that is not a number or categories
      that cannot be joined. */
  function Assess(domain: string, reply: Result<Json, Client.ClientError>): (r: Result<BatchRecord, string>)
    ensures reply.Err? ==> r == Err(reply.error.message)
    ensures reply.Ok? && !reply.value.JObject? ==> r == Err("AttributeError")
    ensures r.Ok? ==> (
      reply.Ok? && reply.value.JObject? &&
      var score := GetOr(reply.value.entries, "risk_score", JInt(0));
      r.value.domain == domain && r.value.riskScore == score &&
      Number(score).Some? && r.value.riskLevel == BatchLevel(Number(score).value) &&
      (!Has(reply.value.entries, "categories") ==> r.value.categories == "N/A") &&
      (Has(reply.value.entries, "categories") ==>
         JoinStrings(Get(reply.value.entries, "categories")) == Ok(r.value.categories)))
    ensures (reply.Ok? && reply.value.JObject? &&
             Number(GetOr(reply.value.entries, "risk_score", JInt(0))).None?) ==> r == Err("TypeError")
    ensures (reply.Ok? && reply.value.JObject? &&
             Number(GetOr(reply.value.entries, "risk_score", JInt(0))).Some? &&
             (Has(reply.value.entries, "categories") ==>
                JoinStrings(Get(reply.value.entries, "categories")).Ok?)) ==> r.Ok?
  {
    match reply
    case Err(e) => Err(e.message)
    case Ok(JObject(entries)) =>
      var score := GetOr(entries, "risk_score", JInt(0));
      (match Number(score)
       case None => Err("TypeError")
       case Some(x) =>
         var categories :-
           if Has(entries, "categories") then JoinStrings(GetOr(entries, "categories", JList([])))
           else Ok("N/A");
         Ok(BatchRecord(domain, score, BatchLevel(x), categories)))
    case Ok(_) => Err("AttributeError")
  }

  /** The record of a domain whose check raised. */
  function ErrorRecord(domain: string, message: string): BatchRecord {
    BatchRecord(domain, JStr("Error"), "Error", message)
  }

  /** What batch_check appends to `results` for one domain. */
  function RecordOf(domain: string, reply: Result<Json, Client.ClientError>): (r: BatchRecord)
    ensures r.domain == domain
    ensures r.riskLevel == "Error" <==> Assess(domain, reply).Err?
  {
    match Assess(domain, reply)
    case Ok(rec) => rec
    case Err(m) => ErrorRecord(domain, m)
  }

  /** client.reputation(domain). */
  function Reply(client: Client.DomainToolsClient, domain: string): Result<Json, Client.ClientError> {
    Client.Call(client, Client.Reputation, Some(domain), [])
  }

  /** `risk_score >= threshold` for a record whose score is a number. */
  predicate IsHighRisk(rec: BatchRecord, threshold: int) {
    Number(rec.riskScore).Some? && Number(rec.riskScore).value >= threshold as real
  }

  /** The records batch_check collects, domain by domain. */
  function Results(client: Client.DomainToolsClient, domains: seq<string>): seq<BatchRecord> {
    Each(domains, d => RecordOf(d, Reply(client, d)))
  }

  /** The records of high_risk_domains: those of the domains checked
      without error whose score reaches the threshold. */
  function HighRisk(client: Client.DomainToolsClient, domains: seq<string>, threshold: int): seq<BatchRecord> {
    if domains == [] then []
    else
      var d := domains[|domains| - 1];
      HighRisk(client, domains[..|domains| - 1], threshold) +
      match Assess(d, Reply(client, d))
      case Ok(rec) => if IsHighRisk(rec, threshold) then [rec] else []
      case Err(_) => []
  }

  /** The checking loop of batch_check. */
  method BatchCheck(client: Client.DomainToolsClient, domains: seq<string>, threshold: int)
    returns (results: seq<BatchRecord>, highRisk: seq<BatchRecord>)
    ensures results == Results(client, domains)
    ensures highRisk == HighRisk(client, domains, threshold)
  {
    results, highRisk := [], [];
    var i := 0;
    while i < |domains|
      invariant 0 <= i <= |domains|
      invariant results == Results(client, domains[..i])
      invariant highRisk == HighRisk(client, domains[..i], threshold)
    {
      var domain := domains[i];
      assert domains[..i + 1][..i] == domains[..i] && domains[..i + 1][i] == domain;
      var result := Reply(client, domain);
      match Assess(domain, result) {
        case Ok(rec) =>
          results := results + [rec];
          if Number(rec.riskScore).value >= threshold as real {
            highRisk := highRisk + [rec];
          }
        case Err(message) =>
          results := results + [ErrorRecord(domain, message)];
      }
      i := i + 1;
    }
    assert domains[..i] == domains;
  }

  /** One record per domain, in the order given, each built from that
      domain's own reply. */
  lemma ResultsPerDomain(client: Client.DomainToolsClient, domains: seq<string>)
    ensures |Results(client, domains)| == |domains|
    ensures forall i :: 0 <= i < |domains| ==>
      Results(client, domains)[i] == RecordOf(domains[i], Reply(client, domains[i]))
  {
    EachAt(domains, d => RecordOf(d, Reply(client, d)));
  }

  /** A domain whose call raises gets the error record, with the message
      as its categories. */
  lemma FailedDomainRecord(client: Client.DomainToolsClient, domain: string)
    requires Reply(client, domain).Err?
    ensures RecordOf(domain, Reply(client, domain)) ==
      BatchRecord(domain, JStr("Error"), "Error", Reply(client, domain).error.message)
  {
  }

  /** A reply without a score or categories is a Low record with score 0
      and categories "N/A". */
  lemma MissingScoreIsLow(domain: string, entries: Entries)
    requires !Has(entries, "risk_score") && !Has(entries, "categories")
    ensures RecordOf(domain, Ok(JObject(entries))) == BatchRecord(domain, JInt(0), "Low", "N/A")
  {
    assert GetOr(entries, "risk_score", JInt(0)) == JInt(0);
  }

  /** The records of `rs` that reach the threshold, in order. */
  function Above(rs: seq<BatchRecord>, threshold: int): (r: seq<BatchRecord>)
    ensures |r| <= |rs|
  {
    if rs == [] then []
    else
      Above(rs[..|rs| - 1], threshold) +
      (if IsHighRisk(rs[|rs| - 1], threshold) then [rs[|rs| - 1]] else [])
  }

  /** high_risk_domains is exactly the subsequence of results that reach
      the threshold: the error records never do, since their score is the
      string "Error". */
  lemma {:induction false} HighRiskIsAbove(client: Client.DomainToolsClient, domains: seq<string>, threshold: int)
    ensures HighRisk(client, domains, threshold) == Above(Results(client, domains), threshold)
  {
    if domains != [] {
      var init := domains[..|domains| - 1];
      HighRiskIsAbove(client, init, threshold);
      var rs := Results(client, domains);
      assert rs[..|rs| - 1] == Results(client, init);
    }
  }

  lemma {:induction false} AboveConcat(a: seq<BatchRecord>, b: seq<BatchRecord>, threshold: int)
    ensures Above(a + b, threshold) == Above(a, threshold) + Above(b, threshold)
    decreases |b|
  {
    if b == [] {
      assert a + b == a;
    } else {
      var b0 := b[..|b| - 1];
      assert (a + b)[..|a + b| - 1] == a + b0;
      AboveConcat(a, b0, threshold);
    }
  }

  /** A record is in the filtered list exactly when it is in the list and
      reaches the threshold. */
  lemma {:induction false} AboveMembers(rs: seq<BatchRecord>, threshold: int, x: BatchRecord)
    ensures x in Above(rs, threshold) <==> x in rs && IsHighRisk(x, threshold)
  {
    if rs != [] {
      AboveMembers(rs[..|rs| - 1], threshold, x);
      assert rs == rs[..|rs| - 1] + [rs[|rs| - 1]];
    }
  }

  /** Raising the threshold only filters the alert list further. */
  lemma {:induction false} AboveNested(rs: seq<BatchRecord>, low: int, high: int)
    requires low <= high
    ensures Above(Above(rs, low), high) == Above(rs, high)
  {
    if rs != [] {
      var init := rs[..|rs| - 1];
      var last := rs[|rs| - 1];
      AboveNested(init, low, high);
      var part := if IsHighRisk(last, low) then [last] else [];
      AboveConcat(Above(init, low), part, high);
      if IsHighRisk(last, low) {
        assert Above(part, high) == Above([], high) + (if IsHighRisk(last, high) then [last] else []) by {
          assert part[..0] == [];
        }
      }
    }
  }

  // ---------------------------------------------------------------------
  // The results table and the warning

  /** The colour of a level cell: red, yellow, green for the three levels,
      dim for anything else (the error records). */
  function LevelColour(level: string): Output.Style {
    if level == "High" then Output.Red
    else if level == "Medium" then Output.Yellow
    else if level == "Low" then Output.Green
    else Output.Dim
  }

  const MaxCategoriesWidth := 50

  datatype DisplayRow = DisplayRow(domain: string, score: Output.Span, level: Output.Span, categories: string)

  /** The row of the results table for a record: score and level in the
      level's colour, categories cut to 50 characters. */
  function DisplayRowOf(rec: BatchRecord): (row: DisplayRow)
    ensures row.domain == rec.domain
    ensures row.score == Output.Span(LevelColour(rec.riskLevel), PyStr(rec.riskScore))
    ensures row.level == Output.Span(LevelColour(rec.riskLevel), rec.riskLevel)
    ensures |row.categories| <= MaxCategoriesWidth && row.categories <= rec.categories
    ensures |rec.categories| <= MaxCategoriesWidth ==> row.categories == rec.categories
  {
    var colour := LevelColour(rec.riskLevel);
    DisplayRow(rec.domain, Output.Span(colour, PyStr(rec.riskScore)),
               Output.Span(colour, rec.riskLevel), SliceTo(rec.categories, MaxCategoriesWidth))
  }

  /** A record checked without error is coloured as format_reputation
      colours its score; an error record is dim. */
  lemma DisplayColour(domain: string, reply: Result<Json, Client.ClientError>)
    ensures var rec := RecordOf(domain, reply);
      match Assess(domain, reply)
      case Ok(r) => DisplayRowOf(rec).level.style == Output.LevelStyle(Output.RiskLevelOf(Number(r.riskScore).value))
      case Err(_) => DisplayRowOf(rec).level.style == Output.Dim
  {
  }

  /** The warning after the table: how many domains reached the threshold,
      and each one's domain and score. */
  datatype Warning = Warning(count: nat, threshold: int, entries: seq<(string, string)>)

  function HighRiskWarning(highRisk: seq<BatchRecord>, threshold: int): (r: Option<Warning>)
    ensures r.Some? <==> highRisk != []
    ensures r.Some? ==> (
      r.value.count == |highRisk| == |r.value.entries| && r.value.threshold == threshold &&
      forall i :: 0 <= i < |highRisk| ==> r.value.entries[i] == (highRisk[i].domain, PyStr(highRisk[i].riskScore)))
  {
    if highRisk == [] then None
    else Some(Warning(|highRisk|, threshold,
      seq(|highRisk|, i requires 0 <= i < |highRisk| => (highRisk[i].domain, PyStr(highRisk[i].riskScore)))))
  }
}
