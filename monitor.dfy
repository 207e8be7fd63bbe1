/** The monitoring commands: `brand` (new registrations that may imitate a
    brand, coloured by risk and counted), `registrant` (domains of one
    registrant with their status) and `nameserver` (domains on one
    nameserver, split into new and existing ones). Each builds keyword
    arguments for its SDK call and, in its table rendering, caps the rows
    it shows by the limit. */
module Monitor {
  import opened Wrappers
  import opened Text
  import opened Json
  import Output
  import opened Commands

  /** The keyword arguments every monitor passes: days_back and limit. */
  function MonitorKwargs(daysBack: int, limit: int): (r: Entries)
    ensures Get(r, "days_back") == JInt(daysBack) && Get(r, "limit") == JInt(limit)
    ensures Keys(r) == ["days_back", "limit"]
  {
    var r := [("days_back", JInt(daysBack)), ("limit", JInt(limit))];
    assert r[1..] == [("limit", JInt(limit))];
    assert Find(r[1..], "limit") == Some(JInt(limit));
    r
  }

  /** brand's keyword arguments: days_back and limit always,
      include_deleted only when the flag is set. */
  function BrandKwargs(daysBack: int, limit: int, includeDeleted: bool): (r: Entries)
    ensures Get(r, "days_back") == JInt(daysBack) && Get(r, "limit") == JInt(limit)
    ensures Has(r, "include_deleted") <==> includeDeleted
    ensures includeDeleted ==> Get(r, "include_deleted") == JBool(true)
  {
    var base := MonitorKwargs(daysBack, limit);
    var flags := SetFlags([("include_deleted", includeDeleted)]);
    FindAppend(base, flags, "days_back");
    FindAppend(base, flags, "limit");
    FindAppend(base, flags, "include_deleted");
    base + flags
  }

  const RegistrarWidth := 30

  // ---------------------------------------------------------------------
  // brand

  /** Red from 70 on, yellow from 40, else green. */
  function BrandColour(score: real): (s: Output.Style)
    ensures s == Output.Red <==> score >= 70.0
    ensures s == Output.Yellow <==> 40.0 <= score < 70.0
    ensures s == Output.Green <==> score < 40.0
  {
    if score >= 70.0 then Output.Red else if score >= 40.0 then Output.Yellow else Output.Green
  }

  datatype BrandRow = BrandRow(domain: string, discovered: string, registrar: string, risk: Output.Span)

  /** A domain's row: the score (0 when missing) in its colour, the
      registrar cut to 30 characters. get() needs a mapping, the colour
      test a number, the cut a string, and rich a string or None for the
      domain. */
  function BrandRowOf(item: Json): (r: Result<BrandRow, string>)
    ensures !item.JObject? ==> r == Err("AttributeError")
    ensures r.Ok? ==> (
      item.JObject? && var score := GetOr(item.entries, "risk_score", JInt(0));
      Number(score).Some? &&
      r.value.risk == Output.Span(BrandColour(Number(score).value), PyStr(score)) &&
      r.value.discovered == PyStr(GetOr(item.entries, "discovered", JStr("N/A"))) &&
      Cell(GetOr(item.entries, "domain", JStr("N/A"))) == Ok(r.value.domain) &&
      var registrar := GetOr(item.entries, "registrar", JStr("N/A"));
      registrar.JStr? && r.value.registrar == SliceTo(registrar.s, RegistrarWidth) &&
      |r.value.registrar| <= RegistrarWidth)
    ensures item.JObject? && Number(GetOr(item.entries, "risk_score", JInt(0))).None? ==> r == Err("TypeError")
    ensures item.JObject? ==>
      (r.Ok? <==> Number(GetOr(item.entries, "risk_score", JInt(0))).Some? &&
                  Cell(GetOr(item.entries, "domain", JStr("N/A"))).Ok? &&
                  GetOr(item.entries, "registrar", JStr("N/A")).JStr?)
  {
    match item
    case JObject(e) =>
      var score := GetOr(e, "risk_score", JInt(0));
      (match Number(score)
       case None => Err("TypeError")
       case Some(x) =>
         var registrar := GetOr(e, "registrar", JStr("N/A"));
         if !(registrar.JStr? || registrar.JList?) then Err("TypeError")
         else
           var domain :- Cell(GetOr(e, "domain", JStr("N/A")));
           var cut :- Cut(registrar, RegistrarWidth);
           Ok(BrandRow(domain, PyStr(GetOr(e, "discovered", JStr("N/A"))), cut,
                       Output.Span(BrandColour(x), PyStr(score)))))
    case _ => Err("AttributeError")
  }

  /** `d.get("risk_score", 0) >= 70` needs a mapping and a number. */
  function ScoreOf(item: Json): (r: Result<real, string>)
    ensures r.Ok? <==> item.JObject? && Number(GetOr(item.entries, "risk_score", JInt(0))).Some?
    ensures r.Ok? ==> r.value == Number(GetOr(item.entries, "risk_score", JInt(0))).value
  {
    var score :- DictGet(item, "risk_score", JInt(0));
    match Number(score)
    case None => Err("TypeError")
    case Some(x) => Ok(x)
  }

  /** How many of the scores reach the bound. */
  function CountAtLeast(xs: seq<real>, bound: real): (n: nat)
    ensures n <= |xs|
  {
    if xs == [] then 0
    else CountAtLeast(xs[..|xs| - 1], bound) + if xs[|xs| - 1] >= bound then 1 else 0
  }

  /** `sum(1 for d in domains if d.get("risk_score", 0) >= 70)`, over all
      the domains and not only the ones shown. */
  function HighRiskCount(items: seq<Json>): (r: Result<nat, string>)
    ensures r.Ok? ==> r.value <= |items|
  {
    var scores :- Rows(items, ScoreOf);
    RowsShape(items, ScoreOf);
    Ok(CountAtLeast(scores, 70.0))
  }

  /** How many rows are red. */
  function RedRows(rows: seq<BrandRow>): nat {
    if rows == [] then 0
    else RedRows(rows[..|rows| - 1]) + if rows[|rows| - 1].risk.style == Output.Red then 1 else 0
  }

  /** Rows that are red exactly where the scores reach 70 are as many as
      those scores. */
  lemma {:induction false} RedRowsCount(scores: seq<real>, rows: seq<BrandRow>)
    requires |scores| == |rows|
    requires forall i :: 0 <= i < |rows| ==> (rows[i].risk.style == Output.Red <==> scores[i] >= 70.0)
    ensures CountAtLeast(scores, 70.0) == RedRows(rows)
  {
    if rows != [] {
      var n := |rows| - 1;
      assert forall i :: 0 <= i < n ==> scores[..n][i] == scores[i] && rows[..n][i] == rows[i];
      RedRowsCount(scores[..n], rows[..n]);
    }
  }

  /** The high-risk count is the number of red rows the table would have
      if it showed every domain. */
  lemma HighRiskCountIsRedRows(items: seq<Json>)
    requires Rows(items, BrandRowOf).Ok?
    ensures HighRiskCount(items) == Ok(RedRows(Rows(items, BrandRowOf).value))
  {
    RowsShape(items, BrandRowOf);
    RowsShape(items, ScoreOf);
    var rows := Rows(items, BrandRowOf).value;
    var scores := Rows(items, ScoreOf).value;
    RedRowsCount(scores, rows);
  }

  /** What brand's table rendering prints: the no-results notice when the
      reply has no "domains", the all-clear for an empty list, or the
      table, the summary counts and the "Showing" notice. */
  datatype BrandView =
    | NoBrandResults
    | NoInfringement
    | BrandTable(rows: seq<BrandRow>, total: nat, highRisk: nat, notice: Option<string>)

  method Brand(result: Json, limit: int) returns (r: Result<BrandView, string>)
    ensures result.JObject? && !Has(result.entries, "domains") ==> r == Ok(NoBrandResults)
    ensures result.JObject? && Has(result.entries, "domains") && !Truthy(Get(result.entries, "domains")) ==>
      r == Ok(NoInfringement)
    ensures r.Ok? && r.value.BrandTable? ==> (
      result.JObject? && var ds := Get(result.entries, "domains");
      ds.JList? && Rows(SliceTo(ds.items, limit), BrandRowOf) == Ok(r.value.rows) &&
      r.value.total == |ds.items| && HighRiskCount(ds.items) == Ok(r.value.highRisk) &&
      r.value.notice == ShowingNotice(limit, |ds.items|, "total domains"))
    ensures (result.JObject? && Get(result.entries, "domains").JList? &&
             var items := Get(result.entries, "domains").items;
             items != [] && Rows(SliceTo(items, limit), BrandRowOf).Ok? && HighRiskCount(items).Ok?) ==>
      r.Ok? && r.value.BrandTable?
  {
    var present := PyIn("domains", result);
    if present.Err? {
      return Err(present.error);
    }
    if !present.value {
      return Ok(NoBrandResults);
    }
    var domains := Subscript(result, "domains");
    if domains.Err? {
      return Err(domains.error);
    }
    var ds := domains.value;
    if !Truthy(ds) {
      return Ok(NoInfringement);
    }
    var shown := Slice(ds, limit);
    if shown.Err? {
      return Err(shown.error);
    }
    var rows := AddRows(shown.value, BrandRowOf);
    if rows.Err? {
      return Err(rows.error);
    }
    var items := Iterate(ds).value;
    var high := HighRiskCount(items);
    if ds.JStr? {
      RowsShape(items, ScoreOf);
      assert items[0] == JStr([ds.s[0]]);
    }
    if high.Err? {
      return Err(high.error);
    }
    return Ok(BrandTable(rows.value, |items|, high.value, ShowingNotice(limit, |items|, "total domains")));
  }

  // ---------------------------------------------------------------------
  // registrant

  datatype RegistrantRow = RegistrantRow(domain: string, registered: string, registrar: string, status: Output.Span)

  /** A domain's row: the status, "active" when missing, green exactly
      when it is the string "active" and red otherwise. */
  function RegistrantRowOf(item: Json): (r: Result<RegistrantRow, string>)
    ensures r.Ok? <==> item.JObject? && Cell(GetOr(item.entries, "domain", JStr("N/A"))).Ok? &&
                       GetOr(item.entries, "registrar", JStr("N/A")).JStr?
    ensures r.Ok? ==> (
      var status := GetOr(item.entries, "status", JStr("active"));
      r.value.status.text == PyStr(status) &&
      (r.value.status.style == Output.Green <==> status == JStr("active")) &&
      (r.value.status.style == Output.Red <==> status != JStr("active")) &&
      Cell(GetOr(item.entries, "domain", JStr("N/A"))) == Ok(r.value.domain) &&
      r.value.registered == PyStr(GetOr(item.entries, "created", JStr("N/A"))) &&
      r.value.registrar == SliceTo(GetOr(item.entries, "registrar", JStr("N/A")).s, RegistrarWidth) &&
      |r.value.registrar| <= RegistrarWidth)
  {
    var status :- DictGet(item, "status", JStr("active"));
    var colour := if status == JStr("active") then Output.Green else Output.Red;
    var e := item.entries;
    var registrar := GetOr(e, "registrar", JStr("N/A"));
    if !(registrar.JStr? || registrar.JList?) then Err("TypeError")
    else
      var domain :- Cell(GetOr(e, "domain", JStr("N/A")));
      var cut :- Cut(registrar, RegistrarWidth);
      Ok(RegistrantRow(domain, PyStr(GetOr(e, "created", JStr("N/A"))), cut, Output.Span(colour, PyStr(status))))
  }

  /** A domain without a status is shown as active, in green. */
  lemma MissingStatusIsActive(e: Entries)
    requires !Has(e, "status") && RegistrantRowOf(JObject(e)).Ok?
    ensures RegistrantRowOf(JObject(e)).value.status == Output.Span(Output.Green, "active")
  {
    assert GetOr(e, "status", JStr("active")) == JStr("active");
  }

  datatype RegistrantView =
    | NoRegistrantResults
    | NoDomains
    | RegistrantTable(rows: seq<RegistrantRow>, total: nat, notice: Option<string>)

  method Registrant(result: Json, limit: int) returns (r: Result<RegistrantView, string>)
    ensures result.JObject? && !Has(result.entries, "domains") ==> r == Ok(NoRegistrantResults)
    ensures result.JObject? && Has(result.entries, "domains") && !Truthy(Get(result.entries, "domains")) ==>
      r == Ok(NoDomains)
    ensures r.Ok? && r.value.RegistrantTable? ==> (
      result.JObject? && var ds := Get(result.entries, "domains");
      Slice(ds, limit).Ok? && Rows(Slice(ds, limit).value, RegistrantRowOf) == Ok(r.value.rows) &&
      Len(ds) == Ok(r.value.total) && r.value.notice == ShowingNotice(limit, r.value.total, "total domains"))
    ensures (result.JObject? && Get(result.entries, "domains").JList? &&
             var items := Get(result.entries, "domains").items;
             items != [] && Rows(SliceTo(items, limit), RegistrantRowOf).Ok?) ==>
      r.Ok? && r.value.RegistrantTable?
  {
    var present := PyIn("domains", result);
    if present.Err? {
      return Err(present.error);
    }
    if !present.value {
      return Ok(NoRegistrantResults);
    }
    var domains := Subscript(result, "domains");
    if domains.Err? {
      return Err(domains.error);
    }
    var ds := domains.value;
    if !Truthy(ds) {
      return Ok(NoDomains);
    }
    var shown := Slice(ds, limit);
    if shown.Err? {
      return Err(shown.error);
    }
    var rows := AddRows(shown.value, RegistrantRowOf);
    if rows.Err? {
      return Err(rows.error);
    }
    var total := Len(ds).value;
    return Ok(RegistrantTable(rows.value, total, ShowingNotice(limit, total, "total domains")));
  }

  // ---------------------------------------------------------------------
  // nameserver

  /** `d.get("is_new", False)`, taken as a truth value. */
  function IsNew(item: Json): (r: Result<bool, string>)
    ensures r.Ok? <==> item.JObject?
  {
    var flag :- DictGet(item, "is_new", JBool(false));
    Ok(Truthy(flag))
  }

  /** The items whose flag is `wanted`, in order. */
  function Pick(items: seq<Json>, flags: seq<bool>, wanted: bool): (r: seq<Json>)
    requires |flags| == |items|
    ensures |r| <= |items|
  {
    if items == [] then []
    else
      var n := |items| - 1;
      Pick(items[..n], flags[..n], wanted) + if flags[n] == wanted then [items[n]] else []
  }

  /** An item picked came with the wanted flag. */
  lemma {:induction false} PickMember(items: seq<Json>, flags: seq<bool>, wanted: bool, x: Json)
    requires |flags| == |items| && x in Pick(items, flags, wanted)
    ensures exists i :: 0 <= i < |items| && items[i] == x && flags[i] == wanted
  {
    var n := |items| - 1;
    if x in Pick(items[..n], flags[..n], wanted) {
      PickMember(items[..n], flags[..n], wanted, x);
      var i :| 0 <= i < n && items[..n][i] == x && flags[..n][i] == wanted;
      assert items[i] == x && flags[i] == wanted;
    }
  }

  /** Picking both ways splits the items. */
  lemma {:induction false} PickPartition(items: seq<Json>, flags: seq<bool>)
    requires |flags| == |items|
    ensures multiset(Pick(items, flags, true)) + multiset(Pick(items, flags, false)) == multiset(items)
    ensures |Pick(items, flags, true)| + |Pick(items, flags, false)| == |items|
  {
    if items != [] {
      var n := |items| - 1;
      assert items == items[..n] + [items[n]];
      PickPartition(items[..n], flags[..n]);
    }
  }

  lemma {:induction false} PickConcat(a: seq<Json>, fa: seq<bool>, b: seq<Json>, fb: seq<bool>, wanted: bool)
    requires |fa| == |a| && |fb| == |b|
    ensures Pick(a + b, fa + fb, wanted) == Pick(a, fa, wanted) + Pick(b, fb, wanted)
    decreases |b|
  {
    if b == [] {
      assert a + b == a && fa + fb == fa;
    } else {
      var n := |b| - 1;
      assert (a + b)[..|a| + n] == a + b[..n] && (fa + fb)[..|a| + n] == fa + fb[..n];
      PickConcat(a, fa, b[..n], fb[..n], wanted);
    }
  }

  /** The comprehension over the domains that keeps those whose is_new is
      `wanted`; get() raises AttributeError at the first domain that is
      not a mapping. */
  function Select(items: seq<Json>, wanted: bool): (r: Result<seq<Json>, string>)
    ensures r.Ok? <==> forall i :: 0 <= i < |items| ==> items[i].JObject?
    ensures r.Ok? ==> |r.value| <= |items|
  {
    RowsShape(items, IsNew);
    var flags :- Rows(items, IsNew);
    Ok(Pick(items, flags, wanted))
  }

  /** Every domain picked as new has a true is_new, and every existing one
      a false one. */
  lemma SelectWanted(items: seq<Json>, wanted: bool, x: Json)
    requires Select(items, wanted).Ok? && x in Select(items, wanted).value
    ensures IsNew(x) == Ok(wanted)
  {
    RowsShape(items, IsNew);
    PickMember(items, Rows(items, IsNew).value, wanted, x);
  }

  /** The new and the existing domains split the domains between them:
      together they hold every domain, each as often as it occurs. */
  lemma SelectPartition(items: seq<Json>)
    requires Select(items, true).Ok?
    ensures Select(items, false).Ok?
    ensures multiset(Select(items, true).value) + multiset(Select(items, false).value) == multiset(items)
    ensures |Select(items, true).value| + |Select(items, false).value| == |items|
  {
    RowsShape(items, IsNew);
    PickPartition(items, Rows(items, IsNew).value);
  }

  /** No domain is in both lists. */
  lemma SelectDisjoint(items: seq<Json>, x: Json)
    requires Select(items, true).Ok? && Select(items, false).Ok?
    ensures !(x in Select(items, true).value && x in Select(items, false).value)
  {
    if x in Select(items, true).value && x in Select(items, false).value {
      SelectWanted(items, true, x);
      SelectWanted(items, false, x);
    }
  }

  /** Each list keeps the domains in the order they came: selecting from
      two runs of domains is selecting from each run in turn. */
  lemma SelectConcat(a: seq<Json>, b: seq<Json>, wanted: bool)
    requires Select(a + b, wanted).Ok?
    ensures Select(a, wanted).Ok? && Select(b, wanted).Ok?
    ensures Select(a + b, wanted).value == Select(a, wanted).value + Select(b, wanted).value
  {
    RowsConcat(a, b, IsNew);
    RowsShape(a, IsNew);
    RowsShape(b, IsNew);
    PickConcat(a, Rows(a, IsNew).value, b, Rows(b, IsNew).value, wanted);
  }

  datatype NewRow = NewRow(domain: string, firstSeen: string, registrar: string)

  datatype ExistingRow = ExistingRow(domain: string, firstSeen: string, lastSeen: string)

  /** A new domain's row: the domain as it is, first_seen, and the
      registrar cut to 30 characters. */
  function NewRowOf(item: Json): (r: Result<NewRow, string>)
    ensures !item.JObject? ==> r == Err("AttributeError")
    ensures item.JObject? ==>
      (r.Ok? <==> Cell(GetOr(item.entries, "domain", JStr("N/A"))).Ok? &&
                  GetOr(item.entries, "registrar", JStr("N/A")).JStr?)
    ensures r.Ok? ==> (
      item.JObject? &&
      Cell(GetOr(item.entries, "domain", JStr("N/A"))) == Ok(r.value.domain) &&
      r.value.firstSeen == PyStr(GetOr(item.entries, "first_seen", JStr("N/A"))) &&
      var registrar := GetOr(item.entries, "registrar", JStr("N/A"));
      registrar.JStr? && r.value.registrar == SliceTo(registrar.s, RegistrarWidth) &&
      |r.value.registrar| <= RegistrarWidth)
  {
    match item
    case JObject(e) =>
      var registrar := GetOr(e, "registrar", JStr("N/A"));
      if !(registrar.JStr? || registrar.JList?) then Err("TypeError")
      else
        var domain :- Cell(GetOr(e, "domain", JStr("N/A")));
        var cut :- Cut(registrar, RegistrarWidth);
        Ok(NewRow(domain, PyStr(GetOr(e, "first_seen", JStr("N/A"))), cut))
    case _ => Err("AttributeError")
  }

  /** An existing domain's row: the domain as it is, first_seen and
      last_seen. */
  function ExistingRowOf(item: Json): (r: Result<ExistingRow, string>)
    ensures r.Ok? <==> item.JObject? && Cell(GetOr(item.entries, "domain", JStr("N/A"))).Ok?
    ensures r.Ok? ==>
      Cell(GetOr(item.entries, "domain", JStr("N/A"))) == Ok(r.value.domain) &&
      r.value.firstSeen == PyStr(GetOr(item.entries, "first_seen", JStr("N/A"))) &&
      r.value.lastSeen == PyStr(GetOr(item.entries, "last_seen", JStr("N/A")))
  {
    match item
    case JObject(e) =>
      var domain :- Cell(GetOr(e, "domain", JStr("N/A")));
      Ok(ExistingRow(domain, PyStr(GetOr(e, "first_seen", JStr("N/A"))), PyStr(GetOr(e, "last_seen", JStr("N/A")))))
    case _ => Err("AttributeError")
  }

  /** What nameserver's table rendering prints: the notices, or the new
      domains' table (when there are new domains), the existing domains'
      table (when there are existing ones and the limit leaves room), and
      the three counts of the summary. */
  datatype NameserverView =
    | NoNameserverResults
    | NoNameserverDomains
    | Split(newTable: Option<seq<NewRow>>, existingTable: Option<seq<ExistingRow>>,
            total: nat, newCount: nat, existingCount: nat)

  method Nameserver(result: Json, limit: int) returns (r: Result<NameserverView, string>)
    ensures result.JObject? && !Has(result.entries, "domains") ==> r == Ok(NoNameserverResults)
    ensures result.JObject? && Has(result.entries, "domains") && !Truthy(Get(result.entries, "domains")) ==>
      r == Ok(NoNameserverDomains)
    ensures r.Ok? && r.value.Split? ==> (
      result.JObject? && var ds := Get(result.entries, "domains");
      Iterate(ds).Some? && var items := Iterate(ds).value;
      Select(items, true).Ok? && Select(items, false).Ok? &&
      var newOnes := Select(items, true).value;
      var existing := Select(items, false).value;
      r.value.total == |items| && r.value.newCount == |newOnes| && r.value.existingCount == |existing| &&
      (r.value.newTable.Some? <==> newOnes != []) &&
      (r.value.newTable.Some? ==> Rows(SliceTo(newOnes, limit / 2), NewRowOf) == Ok(r.value.newTable.value)) &&
      (r.value.existingTable.Some? <==> existing != [] && limit > |newOnes|) &&
      (r.value.existingTable.Some? ==>
        Rows(SliceTo(existing, limit - |newOnes|), ExistingRowOf) == Ok(r.value.existingTable.value)))
    ensures (result.JObject? && Has(result.entries, "domains") && Truthy(Get(result.entries, "domains")) &&
             Iterate(Get(result.entries, "domains")).None?) ==> r == Err("TypeError")
    ensures (result.JObject? && Has(result.entries, "domains") && var ds := Get(result.entries, "domains");
             Truthy(ds) && Iterate(ds).Some? && var items := Iterate(ds).value;
             Select(items, true).Ok? && Select(items, false).Ok? &&
             var newOnes := Select(items, true).value;
             var existing := Select(items, false).value;
             (newOnes != [] ==> Rows(SliceTo(newOnes, limit / 2), NewRowOf).Ok?) &&
             (existing != [] && limit > |newOnes| ==>
                Rows(SliceTo(existing, limit - |newOnes|), ExistingRowOf).Ok?)) ==>
      r.Ok? && r.value.Split?
  {
    var present := PyIn("domains", result);
    if present.Err? {
      return Err(present.error);
    }
    if !present.value {
      return Ok(NoNameserverResults);
    }
    var domains := Subscript(result, "domains");
    if domains.Err? {
      return Err(domains.error);
    }
    var ds := domains.value;
    if !Truthy(ds) {
      return Ok(NoNameserverDomains);
    }
    var all := Iterate(ds);
    if all.None? {
      return Err("TypeError");
    }
    var items := all.value;
    var newOnes := Select(items, true);
    if newOnes.Err? {
      return Err(newOnes.error);
    }
    var existing := Select(items, false);
    if existing.Err? {
      return Err(existing.error);
    }
    var newTable: Option<seq<NewRow>> := None;
    if newOnes.value != [] {
      // limit // 2: Dafny's division by a positive divisor floors, as Python's does.
      var rows := AddRows(SliceTo(newOnes.value, limit / 2), NewRowOf);
      if rows.Err? {
        return Err(rows.error);
      }
      newTable := Some(rows.value);
    }
    var existingTable: Option<seq<ExistingRow>> := None;
    if existing.value != [] && limit > |newOnes.value| {
      var rows := AddRows(SliceTo(existing.value, limit - |newOnes.value|), ExistingRowOf);
      if rows.Err? {
        return Err(rows.error);
      }
      existingTable := Some(rows.value);
    }
    return Ok(Split(newTable, existingTable, |items|, |newOnes.value|, |existing.value|));
  }

  /** The counts of the summary add up, and with a limit of zero or more
      the two tables together show at most `limit` rows. */
  lemma NameserverShowsAtMostLimit(result: Json, limit: int, view: NameserverView, items: seq<Json>)
    requires limit >= 0
    requires result.JObject? && Iterate(Get(result.entries, "domains")) == Some(items)
    requires view.Split? && Select(items, true).Ok? && Select(items, false).Ok?
    requires view.total == |items| && view.newCount == |Select(items, true).value| &&
             view.existingCount == |Select(items, false).value|
    requires view.newTable.Some? ==> Rows(SliceTo(Select(items, true).value, limit / 2), NewRowOf) == Ok(view.newTable.value)
    requires view.existingTable.Some? ==>
      limit > view.newCount &&
      Rows(SliceTo(Select(items, false).value, limit - view.newCount), ExistingRowOf) == Ok(view.existingTable.value)
    ensures view.newCount + view.existingCount == view.total
    ensures (if view.newTable.Some? then |view.newTable.value| else 0) +
            (if view.existingTable.Some? then |view.existingTable.value| else 0) <= limit
  {
    SelectPartition(items);
    var newOnes := Select(items, true).value;
    if view.newTable.Some? {
      RowsShape(SliceTo(newOnes, limit / 2), NewRowOf);
    }
    if view.existingTable.Some? {
      RowsShape(SliceTo(Select(items, false).value, limit - view.newCount), ExistingRowOf);
    }
  }
}
