/** What the CLI commands share: slicing and iterating a value of the
    vendor's results, the row loop that fills a table, the "Showing"
    notice under a capped table and the keyword arguments built from the
    flags that are set. */
module Commands {
  import opened Wrappers
  import opened Text
  import opened Json

  /** `for item in v[:n]`: a list or a string can be sliced (a string's
      items are its characters), anything else raises TypeError. */
  function Slice(v: Json, n: int): (r: Result<seq<Json>, string>)
    ensures r.Ok? <==> v.JList? || v.JStr?
    ensures v.JList? ==> r == Ok(SliceTo(v.items, n))
    ensures r.Ok? && n >= 0 ==> |r.value| <= n
    ensures r.Err? ==> r.error == "TypeError"
  {
    match v
    case JList(items) => Ok(SliceTo(items, n))
    case JStr(_) => Ok(SliceTo(Iterate(v).value, n))
    case _ => Err("TypeError")
  }

  /** len(v): only containers and strings have a length. */
  function Len(v: Json): (r: Result<nat, string>)
    ensures r.Ok? <==> Iterate(v).Some?
    ensures v.JList? ==> r == Ok(|v.items|)
  {
    match Iterate(v)
    case Some(items) => Ok(|items|)
    case None => Err("TypeError")
  }

  /** A table cell `v[:n]`: a string is cut to its first n characters; a
      sliced list is not something rich can render, and anything else
      cannot be sliced. */
  function Cut(v: Json, n: int): (r: Result<string, string>)
    ensures r.Ok? <==> v.JStr?
    ensures r.Ok? ==> r.value == SliceTo(v.s, n)
    ensures r.Ok? && n >= 0 ==> |r.value| <= n && r.value <= v.s
  {
    match v
    case JStr(s) => Ok(SliceTo(s, n))
    case JList(_) => Err("NotRenderableError")
    case _ => Err("TypeError")
  }

  /** A cell given as it is: rich renders a string, and None as an empty
      cell; anything else raises NotRenderableError. */
  function Cell(v: Json): (r: Result<string, string>)
    ensures r.Ok? <==> v.JStr? || v.JNull?
    ensures v.JStr? ==> r == Ok(v.s)
  {
    match v
    case JStr(s) => Ok(s)
    case JNull => Ok("")
    case _ => Err("NotRenderableError")
  }

  // ---------------------------------------------------------------------
  // The row loops

  /** The rows a `for item in items: table.add_row(...)` loop adds, each
      made by `row`; the first item whose row raises ends the loop with
      that exception. */
  function Rows<T>(items: seq<Json>, row: Json -> Result<T, string>): Result<seq<T>, string> {
    if items == [] then Ok([])
    else
      var init :- Rows(items[..|items| - 1], row);
      var last :- row(items[|items| - 1]);
      Ok(init + [last])
  }

  /** The rows come out one per item and in order, and the loop fails
      exactly when some item's row raises. */
  lemma {:induction false} RowsShape<T>(items: seq<Json>, row: Json -> Result<T, string>)
    ensures Rows(items, row).Ok? <==> forall i :: 0 <= i < |items| ==> row(items[i]).Ok?
    ensures Rows(items, row).Ok? ==>
      |Rows(items, row).value| == |items| &&
      forall i :: 0 <= i < |items| ==> Rows(items, row).value[i] == row(items[i]).value
  {
    if items != [] {
      var init := items[..|items| - 1];
      RowsShape(init, row);
      assert forall i :: 0 <= i < |init| ==> init[i] == items[i];
    }
  }

  /** When the rows fail, the exception is the one the first failing item
      raises. */
  lemma {:induction false} RowsFirstError<T>(items: seq<Json>, row: Json -> Result<T, string>, k: nat)
    requires k < |items| && row(items[k]).Err?
    requires forall i :: 0 <= i < k ==> row(items[i]).Ok?
    ensures Rows(items, row) == Err(row(items[k]).error)
  {
    var init := items[..|items| - 1];
    if k < |items| - 1 {
      assert forall i :: 0 <= i < |init| ==> init[i] == items[i];
      RowsFirstError(init, row, k);
    } else {
      RowsShape(init, row);
      assert forall i :: 0 <= i < |init| ==> init[i] == items[i];
    }
  }

  /** The rows of two runs of items are the rows of each run in turn. */
  lemma {:induction false} RowsConcat<T>(a: seq<Json>, b: seq<Json>, row: Json -> Result<T, string>)
    requires Rows(a + b, row).Ok?
    ensures Rows(a, row).Ok? && Rows(b, row).Ok?
    ensures Rows(a + b, row).value == Rows(a, row).value + Rows(b, row).value
    decreases |b|
  {
    if b == [] {
      assert a + b == a;
    } else {
      var n := |b| - 1;
      assert (a + b)[..|a| + n] == a + b[..n] && (a + b)[|a| + n] == b[n];
      RowsConcat(a, b[..n], row);
    }
  }

  /** The loop itself. */
  method AddRows<T>(items: seq<Json>, row: Json -> Result<T, string>) returns (r: Result<seq<T>, string>)
    ensures r == Rows(items, row)
  {
    var acc: seq<T> := [];
    var i := 0;
    while i < |items|
      invariant 0 <= i <= |items|
      invariant Rows(items[..i], row) == Ok(acc)
    {
      assert items[..i + 1][..i] == items[..i];
      var next := row(items[i]);
      if next.Err? {
        assert items[..i + 1][i] == items[i];
        RowsPrefixError(items, row, i + 1);
        return Err(next.error);
      }
      acc := acc + [next.value];
      i := i + 1;
    }
    assert items[..i] == items;
    return Ok(acc);
  }

  /** Once a prefix fails, so does every longer prefix, with the same
      exception. */
  lemma {:induction false} RowsPrefixError<T>(items: seq<Json>, row: Json -> Result<T, string>, k: nat)
    requires k <= |items| && Rows(items[..k], row).Err?
    ensures Rows(items, row) == Rows(items[..k], row)
    decreases |items| - k
  {
    if k < |items| {
      assert items[..k + 1][..k] == items[..k];
      RowsPrefixError(items, row, k + 1);
    } else {
      assert items[..k] == items;
    }
  }

  /** A loop over `items[:limit]`, for a limit of zero or more, adds
      min(limit, len(items)) rows. */
  lemma RowsOfSlice<T>(items: seq<Json>, limit: int, row: Json -> Result<T, string>)
    requires limit >= 0 && Rows(SliceTo(items, limit), row).Ok?
    ensures |Rows(SliceTo(items, limit), row).value| == if |items| < limit then |items| else limit
  {
    RowsShape(SliceTo(items, limit), row);
  }

  /** `[f(x) for x in xs]`, built as a loop appending one entry per item
      builds it. */
  function Each<A, B>(xs: seq<A>, f: A -> B): seq<B> {
    if xs == [] then [] else Each(xs[..|xs| - 1], f) + [f(xs[|xs| - 1])]
  }

  /** One entry per item, in order. */
  lemma {:induction false} EachAt<A, B>(xs: seq<A>, f: A -> B)
    ensures |Each(xs, f)| == |xs|
    ensures forall i :: 0 <= i < |xs| ==> Each(xs, f)[i] == f(xs[i])
  {
    if xs != [] {
      var init := xs[..|xs| - 1];
      EachAt(init, f);
      assert forall i :: 0 <= i < |init| ==> init[i] == xs[i];
    }
  }

  // ---------------------------------------------------------------------
  // Notices and keyword arguments

  /** The notice under a table cut to `limit` rows: printed exactly when
      there are more than `limit` items. */
  function ShowingNotice(limit: int, total: nat, what: string): (r: Option<string>)
    ensures r.Some? <==> total > limit
    ensures r.Some? ==> r.value == "Showing " + IntToString(limit) + " of " + NatToString(total) + " " + what
  {
    if total > limit then Some("Showing " + IntToString(limit) + " of " + NatToString(total) + " " + what)
    else None
  }

  /** `kwargs[name] = True` for each flag that is set, in the order the
      flags are tested. */
  function SetFlags(flags: seq<(string, bool)>): (r: Entries)
    ensures forall i :: 0 <= i < |r| ==> r[i].1 == JBool(true)
    ensures forall k :: Has(r, k) <==> exists i :: 0 <= i < |flags| && flags[i] == (k, true)
    ensures |r| <= |flags|
  {
    if flags == [] then []
    else
      var init := SetFlags(flags[..|flags| - 1]);
      var (name, isSet) := flags[|flags| - 1];
      assert forall i :: 0 <= i < |flags| - 1 ==> flags[..|flags| - 1][i] == flags[i];
      if isSet then
        assert Keys(init + [(name, JBool(true))]) == Keys(init) + [name];
        init + [(name, JBool(true))]
      else init
  }
}
