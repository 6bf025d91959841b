/** The relational frontier store (sqlliteDatasource.py): two tables mapping a URL to its
    `visited` column, changed only through the CREATE and UPDATE_URL statements. */
module SqliteDatasource {
  import opened Common

  /** CONTENT_URL_TB and PIC_URL_TB. */
  datatype Table = ContentUrlTb | PicUrlTb {
    function Name(): string {
      match this
      case ContentUrlTb => "urls"
      case PicUrlTb => "picUrls"
    }

    function Other(): Table {
      match this
      case ContentUrlTb => PicUrlTb
      case PicUrlTb => ContentUrlTb
    }
  }

  /** One table: `urlLoc` (unique) to the `visited` column, 0 or 1. */
  type Rows = map<string, int>

  /** The parameters `(urlLoc, visited)` of `INSERT OR IGNORE INTO t (urlLoc, visited) VALUES (?,?)`. */
  datatype InsertArgs = InsertArgs(urlLoc: string, visited: int)

  /** The parameters of `UPDATE t SET urlLoc = ?, visited = ? WHERE urlLoc = ?`. */
  datatype UpdateArgs = UpdateArgs(newLoc: string, visited: int, whereLoc: string)

  /** INSERT OR IGNORE: a row whose key is already present is left as it is. */
  function InsertOrIgnore(t: Rows, a: InsertArgs): Rows {
    if a.urlLoc in t then t else t[a.urlLoc := a.visited]
  }

  /** UPDATE_URL: the row matching `whereLoc`, if any, gets the new key and the new `visited`. */
  function UpdateUrl(t: Rows, a: UpdateArgs): Rows {
    if a.whereLoc in t then (t - {a.whereLoc})[a.newLoc := a.visited] else t
  }

  /** The batch of a `executeBatch` call over CREATE: one statement per argument, in order. */
  function ApplyInserts(t: Rows, argsList: seq<InsertArgs>): Rows
    decreases |argsList|
  {
    if argsList == [] then t
    else InsertOrIgnore(ApplyInserts(t, argsList[..|argsList| - 1]), argsList[|argsList| - 1])
  }

  function ApplyUpdates(t: Rows, argsList: seq<UpdateArgs>): Rows
    decreases |argsList|
  {
    if argsList == [] then t
    else UpdateUrl(ApplyUpdates(t, argsList[..|argsList| - 1]), argsList[|argsList| - 1])
  }

  /** The argument list add_to_visit_urls builds: `(url, 0)` per URL. */
  function InsertArgsFor(urlLocs: seq<string>): (r: seq<InsertArgs>)
    ensures |r| == |urlLocs|
  {
    seq(|urlLocs|, i requires 0 <= i < |urlLocs| => InsertArgs(urlLocs[i], 0))
  }

  /** The argument list add_visited_urls builds: `(url, 1, url)` per URL. */
  function UpdateArgsFor(urlLocs: seq<string>): (r: seq<UpdateArgs>)
    ensures |r| == |urlLocs|
  {
    seq(|urlLocs|, i requires 0 <= i < |urlLocs| => UpdateArgs(urlLocs[i], 1, urlLocs[i]))
  }

  /** What add_to_visit_urls does to a table. */
  function Enqueued(t: Rows, urlLocs: seq<string>): Rows {
    ApplyInserts(t, InsertArgsFor(urlLocs))
  }

  /** What add_visited_urls does to a table. */
  function MarkedVisited(t: Rows, urlLocs: seq<string>): Rows {
    ApplyUpdates(t, UpdateArgsFor(urlLocs))
  }

  /** The rows selected by `SELECT * FROM t WHERE visited = 0`. */
  function ToVisit(t: Rows): set<string> {
    set u | u in t && t[u] == 0
  }

  /** Every `visited` value is 0 or 1. */
  predicate WellFormed(t: Rows) {
    forall u :: u in t ==> t[u] == 0 || t[u] == 1
  }

  /** `visited` is never reset: a row that is visited in `t` is present and visited in `t'`. */
  predicate VisitedKept(t: Rows, t': Rows) {
    t.Keys <= t'.Keys && forall u :: u in t && t[u] != 0 ==> t'[u] != 0
  }

  /** Enqueue is insert-or-ignore: known URLs keep their row, visited or not, and new URLs
      enter with `visited = 0`. */
  lemma {:induction false} EnqueuedRows(t: Rows, urlLocs: seq<string>)
    ensures Enqueued(t, urlLocs).Keys == t.Keys + set u | u in urlLocs
    ensures forall u :: u in t ==> Enqueued(t, urlLocs)[u] == t[u]
    ensures forall u :: u in Enqueued(t, urlLocs) && u !in t ==> Enqueued(t, urlLocs)[u] == 0
    decreases |urlLocs|
  {
    if urlLocs != [] {
      var init := urlLocs[..|urlLocs| - 1];
      assert InsertArgsFor(urlLocs)[..|urlLocs| - 1] == InsertArgsFor(init);
      EnqueuedRows(t, init);
      assert urlLocs == init + [urlLocs[|urlLocs| - 1]];
    }
  }

  /** Marking sets `visited = 1` on exactly the listed URLs that are present, without moving
      any row; absent URLs are not inserted. */
  lemma {:induction false} MarkedVisitedRows(t: Rows, urlLocs: seq<string>)
    ensures MarkedVisited(t, urlLocs).Keys == t.Keys
    ensures forall u :: u in t ==> MarkedVisited(t, urlLocs)[u] == if u in urlLocs then 1 else t[u]
    decreases |urlLocs|
  {
    if urlLocs != [] {
      var init := urlLocs[..|urlLocs| - 1];
      assert UpdateArgsFor(urlLocs)[..|urlLocs| - 1] == UpdateArgsFor(init);
      MarkedVisitedRows(t, init);
      assert urlLocs == init + [urlLocs[|urlLocs| - 1]];
    }
  }

  /** Marking the same URLs twice is the same as marking them once. */
  lemma MarkedVisitedIdempotent(t: Rows, urlLocs: seq<string>)
    ensures MarkedVisited(MarkedVisited(t, urlLocs), urlLocs) == MarkedVisited(t, urlLocs)
  {
    var once := MarkedVisited(t, urlLocs);
    MarkedVisitedRows(t, urlLocs);
    MarkedVisitedRows(once, urlLocs);
  }

  /** Neither statement ever sets a visited row back to 0, and both keep the table well formed. */
  lemma VisitedMonotone(t: Rows, urlLocs: seq<string>)
    ensures VisitedKept(t, Enqueued(t, urlLocs)) && VisitedKept(t, MarkedVisited(t, urlLocs))
    ensures WellFormed(t) ==> WellFormed(Enqueued(t, urlLocs)) && WellFormed(MarkedVisited(t, urlLocs))
  {
    EnqueuedRows(t, urlLocs);
    MarkedVisitedRows(t, urlLocs);
  }

  lemma VisitedKeptTrans(a: Rows, b: Rows, c: Rows)
    requires VisitedKept(a, b) && VisitedKept(b, c)
    ensures VisitedKept(a, c)
  {
  }

  /** A page taken from the table and marked after its links were enqueued is present and
      visited, and no visited row was reset on the way. */
  lemma {:induction false} EnqueueThenMark(t: Rows, urlLocs: seq<string>, u: string)
    requires u in t
    ensures var t' := MarkedVisited(Enqueued(t, urlLocs), [u]);
      VisitedKept(t, t') && u in t' && t'[u] == 1
  {
    var mid := Enqueued(t, urlLocs);
    VisitedMonotone(t, urlLocs);
    VisitedMonotone(mid, [u]);
    EnqueuedRows(t, urlLocs);
    MarkedVisitedRows(mid, [u]);
  }

  /** The same for a page whose links were never enqueued. */
  lemma MarkOnly(t: Rows, u: string)
    requires u in t
    ensures var t' := MarkedVisited(t, [u]);
      VisitedKept(t, t') && u in t' && t'[u] == 1
  {
    VisitedMonotone(t, [u]);
    MarkedVisitedRows(t, [u]);
  }

  /** After marking, none of the listed URLs is still to visit. */
  lemma MarkedNotToVisit(t: Rows, urlLocs: seq<string>)
    ensures ToVisit(MarkedVisited(t, urlLocs)) == ToVisit(t) - set u | u in urlLocs
  {
    MarkedVisitedRows(t, urlLocs);
  }

  /** A write of the store, in the order the store received it. */
  datatype StoreOp = Inserted(table: Table, urlLocs: seq<string>) | Visited(table: Table, urlLocs: seq<string>)

  class SqlLiteDataStore {
    var contentRows: Rows
    var picRows: Rows
    /** The writes received so far. */
    ghost var log: seq<StoreOp>

    /** Opens a store over tables that may already hold the rows of an earlier run. */
    constructor (content: Rows, pics: Rows)
      ensures contentRows == content && picRows == pics && log == []
    {
      contentRows, picRows, log := content, pics, [];
    }

    function RowsOf(table: Table): Rows
      reads this
    {
      match table
      case ContentUrlTb => contentRows
      case PicUrlTb => picRows
    }

    /** `executeBatch(CREATE, argsList)`: one INSERT OR IGNORE per argument on `table`. */
    method ExecuteInsertBatch(table: Table, argsList: seq<InsertArgs>)
      modifies this`contentRows, this`picRows
      ensures RowsOf(table) == ApplyInserts(old(RowsOf(table)), argsList)
      ensures RowsOf(table.Other()) == old(RowsOf(table.Other()))
    {
      for i := 0 to |argsList|
        invariant RowsOf(table) == ApplyInserts(old(RowsOf(table)), argsList[..i])
        invariant RowsOf(table.Other()) == old(RowsOf(table.Other()))
      {
        assert argsList[..i + 1][..i] == argsList[..i];
        if table == ContentUrlTb {
          contentRows := InsertOrIgnore(contentRows, argsList[i]);
        } else {
          picRows := InsertOrIgnore(picRows, argsList[i]);
        }
      }
      assert argsList[..|argsList|] == argsList;
    }

    /** `executeBatch(UPDATE_URL, argsList)`: one UPDATE per argument on `table`. */
    method ExecuteUpdateBatch(table: Table, argsList: seq<UpdateArgs>)
      modifies this`contentRows, this`picRows
      ensures RowsOf(table) == ApplyUpdates(old(RowsOf(table)), argsList)
      ensures RowsOf(table.Other()) == old(RowsOf(table.Other()))
    {
      for i := 0 to |argsList|
        invariant RowsOf(table) == ApplyUpdates(old(RowsOf(table)), argsList[..i])
        invariant RowsOf(table.Other()) == old(RowsOf(table.Other()))
      {
        assert argsList[..i + 1][..i] == argsList[..i];
        if table == ContentUrlTb {
          contentRows := UpdateUrl(contentRows, argsList[i]);
        } else {
          picRows := UpdateUrl(picRows, argsList[i]);
        }
      }
      assert argsList[..|argsList|] == argsList;
    }

    /** add_to_visit_urls: insert-or-ignore every URL with `visited = 0` into `table`. */
    method AddToVisitUrls(urlLocs: seq<string>, table: Table)
      modifies this
      ensures RowsOf(table) == Enqueued(old(RowsOf(table)), urlLocs)
      ensures RowsOf(table.Other()) == old(RowsOf(table.Other()))
      ensures log == old(log) + [Inserted(table, urlLocs)]
    {
      var argsList: seq<InsertArgs> := [];
      for i := 0 to |urlLocs|
        invariant argsList == InsertArgsFor(urlLocs[..i])
      {
        argsList := argsList + [InsertArgs(urlLocs[i], 0)];
      }
      assert urlLocs[..|urlLocs|] == urlLocs;
      ExecuteInsertBatch(table, argsList);
      log := log + [Inserted(table, urlLocs)];
    }

    /** add_visited_urls: set `visited = 1` on every listed URL of `table`. */
    method AddVisitedUrls(urlLocs: seq<string>, table: Table)
      modifies this
      ensures RowsOf(table) == MarkedVisited(old(RowsOf(table)), urlLocs)
      ensures RowsOf(table.Other()) == old(RowsOf(table.Other()))
      ensures log == old(log) + [Visited(table, urlLocs)]
    {
      var argsList: seq<UpdateArgs> := [];
      for i := 0 to |urlLocs|
        invariant argsList == UpdateArgsFor(urlLocs[..i])
      {
        argsList := argsList + [UpdateArgs(urlLocs[i], 1, urlLocs[i])];
      }
      assert urlLocs[..|urlLocs|] == urlLocs;
      ExecuteUpdateBatch(table, argsList);
      log := log + [Visited(table, urlLocs)];
    }

    /** get_next_to_visit: some row with `visited = 0` (READ_ONE_LIMIT fixes no order), or None
        when there is none. */
    method GetNextToVisit(table: Table) returns (r: Option<string>)
      ensures r.Some? <==> ToVisit(RowsOf(table)) != {}
      ensures r.Some? ==> r.value in ToVisit(RowsOf(table))
    {
      var t := RowsOf(table);
      if u :| u in t && t[u] == 0 {
        assert u in ToVisit(t);
        r := Some(u);
      } else {
        assert forall v :: v !in ToVisit(t);
        r := None;
      }
    }

    /** get_all_to_visit: every URL with `visited = 0`, each once. */
    method GetAllToVisit(table: Table) returns (visitList: seq<string>)
      ensures (set u | u in visitList) == ToVisit(RowsOf(table))
      ensures forall i, j :: 0 <= i < j < |visitList| ==> visitList[i] != visitList[j]
    {
      var resp := ToVisit(RowsOf(table));
      visitList := [];
      while resp != {}
        invariant (set u | u in visitList) + resp == ToVisit(RowsOf(table))
        invariant forall u :: u in visitList ==> u !in resp
        invariant forall i, j :: 0 <= i < j < |visitList| ==> visitList[i] != visitList[j]
        decreases resp
      {
        var item :| item in resp;
        visitList := visitList + [item];
        resp := resp - {item};
      }
    }
  }
}
