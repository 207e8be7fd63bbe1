/** The rich-output formatter: the data tree of nested results, the
    display of single values, result tables, search results, the
    reputation panel and the sections of a domain profile.

    Rendering is abstract: a piece of styled text is a sequence of spans
    (style and text), a tree is a node with its label and children, a
    table is its title, column headers and rows of cell texts. Whatever a
    formatter prints is returned as such a value; an exception it raises
    is an Err naming the exception class. */
module Output {
  import opened Wrappers
  import opened Text
  import opened Json

  datatype Style = Plain | Dim | Cyan | Magenta | Green | Yellow | Red | BoldYellow | BoldBlue

  datatype Span = Span(style: Style, text: string)

  type Markup = seq<Span>

  /** The text of styled markup, without its styles. */
  function TextOf(m: Markup): string {
    if m == [] then "" else TextOf(m[..|m| - 1]) + m[|m| - 1].text
  }

  lemma TextOfOne(x: Span)
    ensures TextOf([x]) == x.text
  {
    assert [x][..0] == [];
  }

  function Min(a: int, b: int): int {
    if a < b then a else b
  }

  // ---------------------------------------------------------------------
  // _format_value

  const MaxValueLength := 100

  /** _format_value: None dim, booleans cyan (a bool is tested before the
      numbers, so True shows as True and not as a number), numbers
      magenta, strings as they are, cut after 100 characters. */
  function FormatValue(v: Json): (r: Markup)
    ensures TextOf(r) == if v.JStr? && |v.s| > MaxValueLength then v.s[..MaxValueLength] + "..." else PyStr(v)
    ensures v.JStr? && |v.s| <= MaxValueLength ==> r == [Span(Plain, v.s)]
    ensures v.JBool? ==> r == [Span(Cyan, if v.b then "True" else "False")]
    ensures v.JInt? || v.JFloat? ==> r == [Span(Magenta, PyStr(v))]
  {
    match v
    case JNull => TextOfOne(Span(Dim, "None")); [Span(Dim, "None")]
    case JBool(_) => TextOfOne(Span(Cyan, PyStr(v))); [Span(Cyan, PyStr(v))]
    case JInt(_) => TextOfOne(Span(Magenta, PyStr(v))); [Span(Magenta, PyStr(v))]
    case JFloat(_) => TextOfOne(Span(Magenta, PyStr(v))); [Span(Magenta, PyStr(v))]
    case JStr(s) =>
      if |s| > MaxValueLength then
        var r := [Span(Plain, s[..MaxValueLength]), Span(Dim, "...")];
        assert r[..1] == [Span(Plain, s[..MaxValueLength])];
        TextOfOne(Span(Plain, s[..MaxValueLength]));
        r
      else TextOfOne(Span(Plain, s)); [Span(Plain, s)]
    case _ => TextOfOne(Span(Plain, PyStr(v))); [Span(Plain, PyStr(v))]
  }

  /** A long string shows exactly its first 100 characters and the marker. */
  lemma FormatValueTruncates(s: string)
    requires |s| > MaxValueLength
    ensures |TextOf(FormatValue(JStr(s)))| == MaxValueLength + 3
    ensures StartsWith(TextOf(FormatValue(JStr(s))), s[..MaxValueLength])
  {
    var t := TextOf(FormatValue(JStr(s)));
    assert t == s[..MaxValueLength] + "...";
    assert t[..MaxValueLength] == s[..MaxValueLength];
  }

  // ---------------------------------------------------------------------
  // _build_tree

  /** A tree node: its caption and the nodes added under it. */
  datatype Node = Node(caption: Markup, children: seq<Node>)

  const MaxDepth := 10
  const MaxListItems := 10

  function EllipsisLabel(): Markup { [Span(Dim, "...")] }
  function KeyLabel(key: string): Markup { [Span(BoldYellow, key)] }
  function EntryLabel(key: string, v: Json): Markup { [Span(Green, key), Span(Plain, ": ")] + FormatValue(v) }
  function IndexLabel(i: nat): Markup { [Span(BoldBlue, "[" + NatToString(i) + "]")] }
  function ItemLabel(i: nat, v: Json): Markup { [Span(Plain, "[" + NatToString(i) + "]: ")] + FormatValue(v) }
  function MoreLabel(n: nat): Markup { [Span(Dim, "... and " + NatToString(n) + " more items")] }

  /** A mapping value becomes a branch when it is a non-empty mapping or
      list; every list item that is a mapping or list does. */
  predicate IsBranchValue(v: Json) {
    IsContainer(v) && Truthy(v)
  }

  /** _build_tree(tree, data, max_depth, depth): the nodes it adds under
      `tree`. At the depth limit one "..." node; a mapping gives one node
      per entry; a list gives its first ten items and, when longer, one
      node counting the rest; anything else adds nothing. */
  function BuildTree(data: Json, maxDepth: int, depth: int): (r: seq<Node>)
    ensures depth >= maxDepth ==> r == [Node(EllipsisLabel(), [])]
    ensures depth < maxDepth && data.JObject? ==> |r| == |data.entries|
    ensures depth < maxDepth && data.JList? ==>
      |r| == Min(|data.items|, MaxListItems) + (if |data.items| > MaxListItems then 1 else 0)
    ensures depth < maxDepth && !IsContainer(data) ==> r == []
    decreases data
  {
    if depth >= maxDepth then [Node(EllipsisLabel(), [])]
    else
      match data
      case JObject(entries) =>
        seq(|entries|, i requires 0 <= i < |entries| =>
          if IsBranchValue(entries[i].1) then Node(KeyLabel(entries[i].0), BuildTree(entries[i].1, maxDepth, depth + 1))
          else Node(EntryLabel(entries[i].0, entries[i].1), []))
      case JList(items) =>
        var n := Min(|items|, MaxListItems);
        seq(n, i requires 0 <= i < n =>
          if IsContainer(items[i]) then Node(IndexLabel(i), BuildTree(items[i], maxDepth, depth + 1))
          else Node(ItemLabel(i, items[i]), [])) +
        (if |items| > MaxListItems then [Node(MoreLabel(|items| - MaxListItems), [])] else [])
      case _ => []
  }

  /** The nodes a mapping entry gives below the depth limit: a branch
      holding the value's own tree exactly when the value is a non-empty
      container, and otherwise a leaf showing the formatted value. */
  lemma {:induction false} EntryNode(data: Json, maxDepth: int, depth: int, i: nat)
    requires depth < maxDepth && data.JObject? && i < |data.entries|
    ensures var (k, v) := data.entries[i];
      var node := BuildTree(data, maxDepth, depth)[i];
      (IsBranchValue(v) ==> node == Node(KeyLabel(k), BuildTree(v, maxDepth, depth + 1))) &&
      (!IsBranchValue(v) ==> node == Node(EntryLabel(k, v), []))
    ensures (BuildTree(data, maxDepth, depth)[i].children != []) <==> IsBranchValue(data.entries[i].1)
  {
    var v := data.entries[i].1;
    if IsBranchValue(v) {
      NonEmptyTree(v, maxDepth, depth + 1);
    }
  }

  /** A non-empty mapping or list always adds at least one node. */
  lemma NonEmptyTree(v: Json, maxDepth: int, depth: int)
    requires IsBranchValue(v)
    ensures BuildTree(v, maxDepth, depth) != []
  {
    if depth < maxDepth && v.JList? {
      assert Min(|v.items|, MaxListItems) >= 1;
    }
  }

  /** The node a list item among the first ten gives below the depth
      limit: every mapping or list, even an empty one, is a branch holding
      its own tree under its index; any other item is a leaf showing its
      index and formatted value. */
  lemma {:induction false} ItemNode(data: Json, maxDepth: int, depth: int, i: nat)
    requires depth < maxDepth && data.JList? && i < Min(|data.items|, MaxListItems)
    ensures var v := data.items[i];
      var node := BuildTree(data, maxDepth, depth)[i];
      (IsContainer(v) ==> node == Node(IndexLabel(i), BuildTree(v, maxDepth, depth + 1))) &&
      (!IsContainer(v) ==> node == Node(ItemLabel(i, v), []))
  {
  }

  /** A list longer than ten shows items 0..9, each under its own index,
      and then one node counting the other len - 10. */
  lemma {:induction false} ListTail(data: Json, maxDepth: int, depth: int)
    requires depth < maxDepth && data.JList? && |data.items| > MaxListItems
    ensures var r := BuildTree(data, maxDepth, depth);
      |r| == MaxListItems + 1 && r[MaxListItems] == Node(MoreLabel(|data.items| - MaxListItems), [])
    ensures var r := BuildTree(data, maxDepth, depth);
      forall i :: 0 <= i < MaxListItems ==>
        r[i].caption == (if IsContainer(data.items[i]) then IndexLabel(i) else ItemLabel(i, data.items[i]))
  {
    forall i | 0 <= i < MaxListItems
      ensures BuildTree(data, maxDepth, depth)[i].caption ==
        (if IsContainer(data.items[i]) then IndexLabel(i) else ItemLabel(i, data.items[i]))
    {
      ItemNode(data, maxDepth, depth, i);
    }
  }

  /** The height of a forest: 0 for no nodes, else one more than the
      highest forest of children. */
  function Height(ns: seq<Node>): nat
    decreases ns
  {
    if ns == [] then 0
    else
      var h := 1 + Height(ns[0].children);
      var t := Height(ns[1..]);
      if h > t then h else t
  }

  lemma {:induction false} HeightAtMost(ns: seq<Node>, h: nat)
    requires forall i :: 0 <= i < |ns| ==> 1 + Height(ns[i].children) <= h
    ensures Height(ns) <= h
    decreases ns
  {
    if ns != [] {
      assert forall i :: 0 <= i < |ns| - 1 ==> ns[1..][i] == ns[i + 1];
      HeightAtMost(ns[1..], h);
    }
  }

  /** The depth cap bounds the tree: from depth d, at most max_depth - d
      levels of data and one level of "..." nodes below them. */
  lemma {:induction false} TreeHeight(data: Json, maxDepth: int, depth: int)
    ensures Height(BuildTree(data, maxDepth, depth)) <= HeightBound(maxDepth, depth)
    decreases data, 1
  {
    if depth >= maxDepth {
      var r := BuildTree(data, maxDepth, depth);
      assert r[1..] == [];
    } else if data.JObject? {
      DictTreeHeight(data, maxDepth, depth);
    } else if data.JList? {
      ListTreeHeight(data, maxDepth, depth);
    }
  }

  function HeightBound(maxDepth: int, depth: int): nat {
    if depth >= maxDepth then 1 else maxDepth - depth + 1
  }

  lemma {:induction false} DictTreeHeight(data: Json, maxDepth: int, depth: int)
    requires depth < maxDepth && data.JObject?
    ensures Height(BuildTree(data, maxDepth, depth)) <= HeightBound(maxDepth, depth)
    decreases data, 0
  {
    var r := BuildTree(data, maxDepth, depth);
    forall i | 0 <= i < |r|
      ensures 1 + Height(r[i].children) <= HeightBound(maxDepth, depth)
    {
      var v := data.entries[i].1;
      if IsBranchValue(v) {
        assert r[i].children == BuildTree(v, maxDepth, depth + 1);
        TreeHeight(v, maxDepth, depth + 1);
      } else {
        assert r[i].children == [];
      }
    }
    HeightAtMost(r, HeightBound(maxDepth, depth));
  }

  lemma {:induction false} ListTreeHeight(data: Json, maxDepth: int, depth: int)
    requires depth < maxDepth && data.JList?
    ensures Height(BuildTree(data, maxDepth, depth)) <= HeightBound(maxDepth, depth)
    decreases data, 0
  {
    var r := BuildTree(data, maxDepth, depth);
    var items := data.items;
    var n := Min(|items|, MaxListItems);
    forall i | 0 <= i < |r|
      ensures 1 + Height(r[i].children) <= HeightBound(maxDepth, depth)
    {
      if i < n && IsContainer(items[i]) {
        assert r[i].children == BuildTree(items[i], maxDepth, depth + 1);
        TreeHeight(items[i], maxDepth, depth + 1);
      } else {
        assert r[i].children == [];
      }
    }
    HeightAtMost(r, HeightBound(maxDepth, depth));
  }

  // ---------------------------------------------------------------------
  // Tables

  /** A column header: underscores become spaces, then title case. */
  function Header(key: string): string {
    Title(ReplaceChar(key, '_', ' '))
  }

  lemma HeaderHasNoUnderscore(key: string)
    ensures '_' !in Header(key)
  {
    var t := ReplaceChar(key, '_', ' ');
    var h := Title(t);
    forall i | 0 <= i < |h|
      ensures h[i] != '_'
    {
      CaseChangeKeepsUnderscore(t[i]);
    }
  }

  lemma CaseChangeKeepsUnderscore(c: char)
    requires c != '_'
    ensures ToUpper(c) != '_' && ToLower(c) != '_'
  {
  }

  /** A cell: a mapping or list as json.dumps gives it (indented by
      `indent` when given), anything else as str(). */
  function Cell(v: Json, indent: Option<nat>): string {
    if IsContainer(v) then Dumps(v, indent, 0) else PyStr(v)
  }

  /** The cells of a row: one per value of the mapping, in order. */
  function RowOf(entries: Entries, indent: Option<nat>): (r: seq<string>)
    ensures |r| == |entries|
  {
    seq(|entries|, j requires 0 <= j < |entries| => Cell(entries[j].1, indent))
  }

  datatype Table = Table(title: string, columns: seq<string>, rows: seq<seq<string>>)

  /** What format_table prints: the "No results found" notice, or the table. */
  datatype TableView = NoResults | Rendered(table: Table)

  /** The row loop of the table formatters: item.values() raises
      AttributeError for anything but a mapping. */
  method BuildRow(item: Json, indent: Option<nat>) returns (row: Result<seq<string>, string>)
    ensures row.Ok? <==> item.JObject?
    ensures row.Err? ==> row.error == "AttributeError"
    ensures row.Ok? ==> row.value == RowOf(item.entries, indent)
  {
    if !item.JObject? {
      return Err("AttributeError");
    }
    var values := Values(item.entries);
    var cells: seq<string> := [];
    var j := 0;
    while j < |values|
      invariant 0 <= j <= |values|
      invariant |cells| == j
      invariant forall k :: 0 <= k < j ==> cells[k] == Cell(item.entries[k].1, indent)
    {
      cells := cells + [Cell(values[j], indent)];
      j := j + 1;
    }
    return Ok(cells);
  }

  /** The column loop: one header per key of the first item. */
  method BuildColumns(keys: seq<string>) returns (columns: seq<string>)
    ensures |columns| == |keys|
    ensures forall i :: 0 <= i < |keys| ==> columns[i] == Header(keys[i])
  {
    columns := [];
    var i := 0;
    while i < |keys|
      invariant 0 <= i <= |keys|
      invariant |columns| == i
      invariant forall k :: 0 <= k < i ==> columns[k] == Header(keys[k])
    {
      columns := columns + [Header(keys[i])];
      i := i + 1;
    }
  }

  /** The rows of `items` in order, each as RowOf with the given indent;
      AttributeError at the first item that is not a mapping. */
  method BuildRows(items: seq<Json>, indent: Option<nat>) returns (rows: Result<seq<seq<string>>, string>)
    ensures rows.Ok? <==> forall i :: 0 <= i < |items| ==> items[i].JObject?
    ensures rows.Err? ==> rows.error == "AttributeError"
    ensures rows.Ok? ==> |rows.value| == |items|
    ensures rows.Ok? ==> forall i :: 0 <= i < |items| ==> rows.value[i] == RowOf(items[i].entries, indent)
  {
    var acc: seq<seq<string>> := [];
    var i := 0;
    while i < |items|
      invariant 0 <= i <= |items|
      invariant |acc| == i
      invariant forall k :: 0 <= k < i ==> items[k].JObject? && acc[k] == RowOf(items[k].entries, indent)
    {
      var row := BuildRow(items[i], indent);
      if row.Err? {
        return Err(row.error);
      }
      acc := acc + [row.value];
      i := i + 1;
    }
    return Ok(acc);
  }

  /** format_table(data, title): the notice for no data; otherwise columns
      from the first item's keys and one row per item, nested values
      dumped with indent 2. */
  method FormatTable(data: seq<Json>, title: string) returns (r: Result<TableView, string>)
    ensures data == [] ==> r == Ok(NoResults)
    ensures data != [] ==> (r.Ok? <==> forall i :: 0 <= i < |data| ==> data[i].JObject?)
    ensures r.Err? ==> r.error == "AttributeError"
    ensures r.Ok? && data != [] ==>
      r.value.Rendered? && r.value.table.title == title &&
      r.value.table.columns == seq(|data[0].entries|, i requires 0 <= i < |data[0].entries| => Header(data[0].entries[i].0)) &&
      |r.value.table.rows| == |data| &&
      forall i :: 0 <= i < |data| ==> r.value.table.rows[i] == RowOf(data[i].entries, Some(2))
  {
    if data == [] {
      return Ok(NoResults);
    }
    if !data[0].JObject? {
      return Err("AttributeError");
    }
    var columns := BuildColumns(Keys(data[0].entries));
    var rows := BuildRows(data, Some(2));
    if rows.Err? {
      return Err(rows.error);
    }
    return Ok(Rendered(Table(title, columns, rows.value)));
  }

  // ---------------------------------------------------------------------
  // format_search_results

  const MaxSearchRows := 20

  /** What format_search_results prints under its banner: nothing more
      when there is no "results" key, the "No results found" notice, or
      the table and, for more than twenty results, a notice. */
  datatype SearchBody =
    | NoResultsKey
    | NoSearchResults
    | Listed(columns: seq<string>, rows: seq<seq<string>>, notice: Option<string>)

  datatype SearchView = SearchView(banner: string, body: SearchBody)

  /** `items[0]` for the truthy results: only a list gives an item
      (a mapping raises KeyError, a string's character has no keys(),
      anything else is not subscriptable). */
  function FirstItem(items: Json): (r: Result<Json, string>)
    requires Truthy(items)
    ensures r.Ok? <==> items.JList?
    ensures r.Ok? ==> r.value == items.items[0]
  {
    match items
    case JList(xs) => Ok(xs[0])
    case JObject(_) => Err("KeyError")
    case JStr(_) => Err("AttributeError")
    case _ => Err("TypeError")
  }

  /** format_search_results(results, search_type). */
  method FormatSearchResults(results: Json, searchType: string) returns (r: Result<SearchView, string>)
    ensures r.Ok? ==> r.value.banner == searchType + " Search Results"
    ensures results.JObject? && !Has(results.entries, "results") ==>
      r == Ok(SearchView(searchType + " Search Results", NoResultsKey))
    ensures results.JObject? && Has(results.entries, "results") && !Truthy(Get(results.entries, "results")) ==>
      r == Ok(SearchView(searchType + " Search Results", NoSearchResults))
    ensures (results.JObject? && Has(results.entries, "results") && Get(results.entries, "results").JList? &&
             Get(results.entries, "results").items != []) ==>
      var items := Get(results.entries, "results").items;
      (r.Ok? <==> forall i :: 0 <= i < Min(|items|, MaxSearchRows) ==> items[i].JObject?) &&
      (r.Ok? ==> r.value.body.Listed?)
    ensures r.Ok? && r.value.body.Listed? ==>
      results.JObject? && Get(results.entries, "results").JList? &&
      var items := Get(results.entries, "results").items;
      var shown := Min(|items|, MaxSearchRows);
      items != [] && items[0].JObject? &&
      r.value.body.columns ==
        seq(|items[0].entries|, i requires 0 <= i < |items[0].entries| => Header(items[0].entries[i].0)) &&
      |r.value.body.rows| == shown &&
      (forall i :: 0 <= i < shown ==> items[i].JObject? && r.value.body.rows[i] == RowOf(items[i].entries, None)) &&
      (r.value.body.notice.Some? <==> |items| > MaxSearchRows) &&
      (|items| > MaxSearchRows ==>
        r.value.body.notice == Some("Showing 20 of " + NatToString(|items|) + " total results"))
  {
    var banner := searchType + " Search Results";
    var present := PyIn("results", results);
    if present.Err? {
      return Err(present.error);
    }
    if !present.value {
      return Ok(SearchView(banner, NoResultsKey));
    }
    var items := Subscript(results, "results");
    if items.Err? {
      return Err(items.error);
    }
    if !Truthy(items.value) {
      return Ok(SearchView(banner, NoSearchResults));
    }
    var first := FirstItem(items.value);
    if first.Err? {
      return Err(first.error);
    }
    if !first.value.JObject? {
      return Err("AttributeError");
    }
    var columns := BuildColumns(Keys(first.value.entries));
    var all := items.value.items;
    var rows := BuildRows(all[..Min(|all|, MaxSearchRows)], None);
    if rows.Err? {
      return Err(rows.error);
    }
    var notice: Option<string> := None;
    if |all| > MaxSearchRows {
      notice := Some("Showing 20 of " + NatToString(|all|) + " total results");
    }
    return Ok(SearchView(banner, Listed(columns, rows.value, notice)));
  }

  // ---------------------------------------------------------------------
  // format_reputation

  datatype RiskLevel = Low | Medium | High

  /** The reputation panel's band: Low under 30, Medium under 70, High
      from 70 on. */
  function RiskLevelOf(score: real): (b: RiskLevel)
    ensures b == Low <==> score < 30.0
    ensures b == Medium <==> 30.0 <= score < 70.0
    ensures b == High <==> score >= 70.0
  {
    if score < 30.0 then Low else if score < 70.0 then Medium else High
  }

  function LevelStyle(b: RiskLevel): Style {
    match b
    case Low => Green
    case Medium => Yellow
    case High => Red
  }

  /** What format_reputation prints: the domain, the score in its band's
      colour, the band, and the risk-factor lines when the key is
      present. */
  datatype ReputationView = ReputationView(
    domain: string, score: Span, level: RiskLevel, factors: Option<seq<string>>)

  /** format_reputation(reputation): the domain defaults to "Unknown" and
      the score to 0; a score that is not a number fails the comparison
      with TypeError, and risk factors that cannot be iterated too. */
  function FormatReputation(rep: Json): (r: Result<ReputationView, string>)
    ensures r.Ok? ==> rep.JObject?
    ensures r.Ok? ==> var score := GetOr(rep.entries, "risk_score", JInt(0));
      Number(score).Some? && r.value.level == RiskLevelOf(Number(score).value) &&
      r.value.score == Span(LevelStyle(r.value.level), PyStr(score))
    ensures r.Ok? ==> (r.value.factors.Some? <==> Has(rep.entries, "risk_factors"))
    ensures r.Ok? ==> r.value.domain == if Has(rep.entries, "domain") then PyStr(Get(rep.entries, "domain")) else "Unknown"
    ensures r.Ok? && r.value.factors.Some? ==>
      var fs := Iterate(Get(rep.entries, "risk_factors"));
      fs.Some? && |r.value.factors.value| == |fs.value| &&
      forall i :: 0 <= i < |fs.value| ==> r.value.factors.value[i] == "  • " + PyStr(fs.value[i])
    ensures rep.JObject? && Number(GetOr(rep.entries, "risk_score", JInt(0))).None? ==> r == Err("TypeError")
    ensures r.Ok? <==> rep.JObject? && Number(GetOr(rep.entries, "risk_score", JInt(0))).Some? &&
                       (Has(rep.entries, "risk_factors") ==> Iterate(Get(rep.entries, "risk_factors")).Some?)
  {
    var domain :- DictGet(rep, "domain", JStr("Unknown"));
    var score := GetOr(rep.entries, "risk_score", JInt(0));
    match Number(score)
    case None => Err("TypeError")
    case Some(x) =>
      var level := RiskLevelOf(x);
      if Has(rep.entries, "risk_factors") then
        match Iterate(Get(rep.entries, "risk_factors"))
        case None => Err("TypeError")
        case Some(fs) =>
          Ok(ReputationView(PyStr(domain), Span(LevelStyle(level), PyStr(score)), level,
            Some(seq(|fs|, i requires 0 <= i < |fs| => "  • " + PyStr(fs[i])))))
      else Ok(ReputationView(PyStr(domain), Span(LevelStyle(level), PyStr(score)), level, None))
  }

  /** A reputation without a score is shown as 0, in the Low band. */
  lemma MissingScoreIsLow(rep: Entries)
    requires !Has(rep, "risk_score") && !Has(rep, "risk_factors")
    ensures FormatReputation(JObject(rep)).Ok?
    ensures FormatReputation(JObject(rep)).value.level == Low
  {
    assert GetOr(rep, "risk_score", JInt(0)) == JInt(0);
  }

  // ---------------------------------------------------------------------
  // format_domain_profile

  type Row = (string, string)

  /** The rows of a Field/Value table: for each (label, key), str() of
      `section.get(key, "N/A")`; only a mapping has get(). */
  function FieldRows(section: Json, fields: seq<(string, string)>): (r: Result<seq<Row>, string>)
    ensures r.Ok? <==> section.JObject?
    ensures r.Ok? ==> |r.value| == |fields|
    ensures r.Ok? ==> forall i :: 0 <= i < |fields| ==>
      r.value[i] == (fields[i].0, PyStr(GetOr(section.entries, fields[i].1, JStr("N/A"))))
  {
    match section
    case JObject(entries) =>
      Ok(seq(|fields|, i requires 0 <= i < |fields| =>
        (fields[i].0, PyStr(GetOr(entries, fields[i].1, JStr("N/A"))))))
    case _ => Err("AttributeError")
  }

  const RegistrationFields: seq<(string, string)> :=
    [("Created", "created"), ("Updated", "updated"), ("Expires", "expires"), ("Registrar", "registrar")]

  const WebsiteFields: seq<(string, string)> :=
    [("Title", "title"), ("Server", "server"), ("Response Code", "response_code")]

  const WhoisFields: seq<(string, string)> :=
    [("Registrant", "registrant"), ("Admin", "admin"), ("Tech", "tech")]

  /** A value rich accepts as a cell as it is: a string, or None for an
      empty cell; anything else raises NotRenderableError. */
  function Renderable(v: Json): Result<string, string> {
    match v
    case JStr(s) => Ok(s)
    case JNull => Ok("")
    case _ => Err("NotRenderableError")
  }

  /** The fields whose key the mapping holds, in their order. */
  function PresentFields(m: Entries, fields: seq<(string, string)>): (r: seq<(string, string)>)
    ensures |r| <= |fields|
    ensures forall j :: 0 <= j < |r| ==> r[j] in fields && Has(m, r[j].1)
  {
    if fields == [] then []
    else
      var init := PresentFields(m, fields[..|fields| - 1]);
      assert forall j :: 0 <= j < |init| ==> init[j] in fields[..|fields| - 1];
      if Has(m, fields[|fields| - 1].1) then init + [fields[|fields| - 1]] else init
  }

  /** The WHOIS rows for the fields whose key is `in` the section, in the
      order Registrant, Admin, Tech, each showing the value as it is. */
  function WhoisRows(whois: Json, fields: seq<(string, string)>): (r: Result<seq<Row>, string>)
    ensures r.Ok? ==> |r.value| <= |fields|
    ensures whois.JObject? ==>
      (r.Ok? <==> forall i :: 0 <= i < |fields| && Has(whois.entries, fields[i].1) ==>
                    Renderable(Get(whois.entries, fields[i].1)).Ok?)
    ensures whois.JObject? && r.Ok? ==>
      var present := PresentFields(whois.entries, fields);
      |r.value| == |present| &&
      forall j :: 0 <= j < |present| ==>
        r.value[j] == (present[j].0, Renderable(Get(whois.entries, present[j].1)).value)
    decreases |fields|
  {
    if fields == [] then Ok([])
    else
      var init := fields[..|fields| - 1];
      assert forall i :: 0 <= i < |init| ==> init[i] == fields[i];
      var rest :- WhoisRows(whois, init);
      var (name, key) := fields[|fields| - 1];
      var present :- PyIn(key, whois);
      if present then
        var v :- Subscript(whois, key);
        var text :- Renderable(v);
        Ok(rest + [(name, text)])
      else Ok(rest)
  }

  /** The printed sections of a domain profile, in the order they are
      printed; a section is None when its key is absent. */
  datatype ProfileView = ProfileView(
    title: string,
    registration: Option<seq<Row>>,
    whois: Option<seq<Row>>,
    nameservers: Option<seq<string>>,
    website: Option<seq<Row>>)

  /** The registration table, when the profile has the key; its value
      must be a mapping, since the rows call get() on it. */
  function RegistrationSection(p: Entries): (r: Result<Option<seq<Row>>, string>)
    ensures r.Ok? <==> !Has(p, "registration") || Get(p, "registration").JObject?
    ensures r.Ok? ==> (r.value.Some? <==> Has(p, "registration"))
    ensures r.Ok? && r.value.Some? ==> |r.value.value| == |RegistrationFields|
    ensures r.Ok? && r.value.Some? ==> forall i :: 0 <= i < |RegistrationFields| ==>
      r.value.value[i] == (RegistrationFields[i].0,
                           PyStr(GetOr(Get(p, "registration").entries, RegistrationFields[i].1, JStr("N/A"))))
  {
    if Has(p, "registration") then
      var rows :- FieldRows(Get(p, "registration"), RegistrationFields);
      Ok(Some(rows))
    else Ok(None)
  }

  /** The WHOIS table, when the profile has the key. A mapping gives it
      exactly when every one of its WHOIS fields is a string or None. */
  function WhoisSection(p: Entries): (r: Result<Option<seq<Row>>, string>)
    ensures r.Ok? <==> !Has(p, "whois") || WhoisRows(Get(p, "whois"), WhoisFields).Ok?
    ensures r.Ok? ==> (r.value.Some? <==> Has(p, "whois"))
    ensures r.Ok? && r.value.Some? ==> r.value.value == WhoisRows(Get(p, "whois"), WhoisFields).value
    ensures r.Ok? && r.value.Some? ==> |r.value.value| <= |WhoisFields|
    ensures Has(p, "whois") && Get(p, "whois").JObject? ==>
      var w := Get(p, "whois").entries;
      (r.Ok? <==> forall i :: 0 <= i < |WhoisFields| && Has(w, WhoisFields[i].1) ==>
                    Renderable(Get(w, WhoisFields[i].1)).Ok?)
  {
    if Has(p, "whois") then
      var rows :- WhoisRows(Get(p, "whois"), WhoisFields);
      Ok(Some(rows))
    else Ok(None)
  }

  /** The website table, when the profile has the key; its value must be
      a mapping, since the rows call get() on it. */
  function WebsiteSection(p: Entries): (r: Result<Option<seq<Row>>, string>)
    ensures r.Ok? <==> !Has(p, "website") || Get(p, "website").JObject?
    ensures r.Ok? ==> (r.value.Some? <==> Has(p, "website"))
    ensures r.Ok? && r.value.Some? ==> |r.value.value| == |WebsiteFields|
    ensures r.Ok? && r.value.Some? ==> forall i :: 0 <= i < |WebsiteFields| ==>
      r.value.value[i] == (WebsiteFields[i].0,
                           PyStr(GetOr(Get(p, "website").entries, WebsiteFields[i].1, JStr("N/A"))))
  {
    if Has(p, "website") then
      var rows :- FieldRows(Get(p, "website"), WebsiteFields);
      Ok(Some(rows))
    else Ok(None)
  }

  /** The nameserver lines of the DNS section: present only when the DNS
      data holds "nameservers". */
  function NameserverLines(dns: Json): (r: Result<Option<seq<string>>, string>)
    ensures r.Ok? <==> (PyIn("nameservers", dns).Ok? &&
                        (PyIn("nameservers", dns) == Ok(true) ==>
                           dns.JObject? && Iterate(Get(dns.entries, "nameservers")).Some?))
    ensures r.Ok? ==> (r.value.Some? <==> PyIn("nameservers", dns) == Ok(true))
    ensures r.Ok? && r.value.Some? ==>
      var ns := Iterate(Get(dns.entries, "nameservers")).value;
      |r.value.value| == |ns| && forall i :: 0 <= i < |ns| ==> r.value.value[i] == "  • " + PyStr(ns[i])
  {
    var present :- PyIn("nameservers", dns);
    if present then
      var list :- Subscript(dns, "nameservers");
      match Iterate(list)
      case None => Err("TypeError")
      case Some(ns) => Ok(Some(seq(|ns|, i requires 0 <= i < |ns| => "  • " + PyStr(ns[i]))))
    else Ok(None)
  }

  /** format_domain_profile(profile): the title from profile["domain"]
      ["domain"] ("Unknown" when absent), then the registration, WHOIS,
      nameserver and website sections for the keys that are present. */
  function FormatDomainProfile(profile: Json): (r: Result<ProfileView, string>)
    ensures r.Ok? ==> profile.JObject?
    ensures r.Ok? ==> (r.value.registration.Some? <==> Has(profile.entries, "registration"))
    ensures r.Ok? ==> (r.value.whois.Some? <==> Has(profile.entries, "whois"))
    ensures r.Ok? ==> (r.value.website.Some? <==> Has(profile.entries, "website"))
    ensures r.Ok? ==> (r.value.nameservers.Some? <==>
      Has(profile.entries, "dns") && PyIn("nameservers", Get(profile.entries, "dns")) == Ok(true))
    ensures r.Ok? && r.value.registration.Some? ==> |r.value.registration.value| == |RegistrationFields|
    ensures r.Ok? && r.value.website.Some? ==> |r.value.website.value| == |WebsiteFields|
    ensures r.Ok? && r.value.whois.Some? ==> |r.value.whois.value| <= |WhoisFields|
    ensures profile.JObject? && !Has(profile.entries, "domain") && r.Ok? ==>
      r.value.title == "Domain Profile: " + "Unknown"
    ensures r.Ok? <==> (profile.JObject? &&
                        var p := profile.entries;
                        GetOr(p, "domain", JObject([])).JObject? &&
                        RegistrationSection(p).Ok? && WhoisSection(p).Ok? &&
                        (Has(p, "dns") ==> NameserverLines(Get(p, "dns")).Ok?) && WebsiteSection(p).Ok?)
    ensures r.Ok? ==>
      var p := profile.entries;
      r.value.title == "Domain Profile: " + PyStr(GetOr(GetOr(p, "domain", JObject([])).entries, "domain", JStr("Unknown"))) &&
      r.value.registration == RegistrationSection(p).value && r.value.whois == WhoisSection(p).value &&
      r.value.website == WebsiteSection(p).value &&
      (Has(p, "dns") ==> r.value.nameservers == NameserverLines(Get(p, "dns")).value)
  {
    var outer :- DictGet(profile, "domain", JObject([]));
    var domain :- DictGet(outer, "domain", JStr("Unknown"));
    var p := profile.entries;
    var registration :- RegistrationSection(p);
    var whois :- WhoisSection(p);
    var nameservers :- if Has(p, "dns") then NameserverLines(Get(p, "dns")) else Ok(None);
    var website :- WebsiteSection(p);
    Ok(ProfileView("Domain Profile: " + PyStr(domain), registration, whois, nameservers, website))
  }
}
