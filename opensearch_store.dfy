/** The search-index frontier store (datasource/opensearch_datasource.py): a `url` index and a
    `pic_url` index of `{visited, err}` documents keyed by URL, and a `stored_pic` index of
    `{filePath, url}` documents keyed by the picture hash. */
module OpenSearchDatasource {
  import opened Common

  const UrlIndexName := "url"
  const PicUrlIndexName := "pic_url"
  const StoredPicIndexName := "stored_pic"
  /** `_get_next_to_visit_query` asks for 25 hits. */
  const NextToVisitSize: nat := 25
  /** The default `n` of get_all_pics_to_visit. */
  const DefaultPicBatch: nat := 1000

  /** The fields of a `Url` or `PicUrl` document. */
  datatype UrlDoc = UrlDoc(visited: bool, err: Option<string>)

  /** The fields of a `StoredPic` document. */
  datatype StoredPic = StoredPic(filePath: string, url: string)

  /** A document before it is sent: its `meta.id` and its fields. */
  datatype UrlDocument = UrlDocument(id: string, source: UrlDoc)

  /** One action of a `helpers.bulk` call. */
  datatype BulkAction = BulkAction(opType: string, index: string, id: string, source: UrlDoc)

  type UrlIndex = map<string, UrlDoc>

  /** The two URL indices. */
  datatype UrlKind = ContentUrls | PicUrls {
    function IndexName(): string {
      match this
      case ContentUrls => UrlIndexName
      case PicUrls => PicUrlIndexName
    }
  }

  /** A fresh document: `visited=False, err=None`. */
  const Fresh := UrlDoc(false, None)

  function NewDocuments(urlLocs: seq<string>): (docs: seq<UrlDocument>)
    ensures |docs| == |urlLocs|
  {
    seq(|urlLocs|, i requires 0 <= i < |urlLocs| => UrlDocument(urlLocs[i], Fresh))
  }

  /** `_build_bulk_create`: one `create` action per document, in order. */
  function BuildBulkCreate(indexName: string, inputObjs: seq<UrlDocument>): (actions: seq<BulkAction>)
    ensures |actions| == |inputObjs|
    ensures forall i :: 0 <= i < |actions| ==>
      actions[i].opType == "create" && actions[i].index == indexName
      && actions[i].id == inputObjs[i].id && actions[i].source == inputObjs[i].source
    decreases |inputObjs|
  {
    if inputObjs == [] then []
    else
      var last := inputObjs[|inputObjs| - 1];
      BuildBulkCreate(indexName, inputObjs[..|inputObjs| - 1]) + [BulkAction("create", indexName, last.id, last.source)]
  }

  /** A `create` whose id already exists fails with a conflict; `raise_on_error=False` drops the
      failure, so the existing document is kept. */
  function ApplyCreate(idx: UrlIndex, a: BulkAction): UrlIndex {
    if a.id in idx then idx else idx[a.id := a.source]
  }

  function ApplyBulk(idx: UrlIndex, actions: seq<BulkAction>): UrlIndex
    decreases |actions|
  {
    if actions == [] then idx
    else ApplyCreate(ApplyBulk(idx, actions[..|actions| - 1]), actions[|actions| - 1])
  }

  /** What add_to_visit_content_urls / add_to_visit_pic_urls do to their index. */
  function Enqueued(idx: UrlIndex, kind: UrlKind, urlLocs: seq<string>): UrlIndex {
    ApplyBulk(idx, BuildBulkCreate(kind.IndexName(), NewDocuments(urlLocs)))
  }

  /** `update(id, {"doc": {"visited": True, "err": err}})`; an absent id changes nothing. */
  function MarkedVisited(idx: UrlIndex, urlLoc: string, err: Option<string>): UrlIndex {
    if urlLoc in idx then idx[urlLoc := UrlDoc(true, err)] else idx
  }

  /** The documents matched by `match visited=False`. */
  function Unvisited(idx: UrlIndex): set<string> {
    set u | u in idx && !idx[u].visited
  }

  function Min(a: nat, b: nat): nat {
    if a < b then a else b
  }

  /** The ids of a bulk batch are the ids of its documents, in the same order. */
  lemma BulkIds(indexName: string, urlLocs: seq<string>)
    ensures var actions := BuildBulkCreate(indexName, NewDocuments(urlLocs));
      |actions| == |urlLocs| && forall i :: 0 <= i < |urlLocs| ==>
        actions[i] == BulkAction("create", indexName, urlLocs[i], Fresh)
  {
  }

  /** The ids a batch names. */
  function ActionIds(actions: seq<BulkAction>): set<string> {
    set i | 0 <= i < |actions| :: actions[i].id
  }

  lemma ActionIdsSnoc(actions: seq<BulkAction>)
    requires actions != []
    ensures ActionIds(actions) == ActionIds(actions[..|actions| - 1]) + {actions[|actions| - 1].id}
  {
    var init, k := actions[..|actions| - 1], |actions| - 1;
    forall i | 0 <= i < |actions| ensures actions[i].id in ActionIds(init) + {actions[k].id} {
      if i < k { assert actions[i] == init[i]; }
    }
    forall i | 0 <= i < |init| ensures init[i].id in ActionIds(actions) {
      assert init[i] == actions[i];
    }
  }

  lemma {:induction false} ApplyBulkKeys(idx: UrlIndex, actions: seq<BulkAction>)
    ensures ApplyBulk(idx, actions).Keys == idx.Keys + ActionIds(actions)
    decreases |actions|
  {
    if actions != [] {
      ApplyBulkKeys(idx, actions[..|actions| - 1]);
      ActionIdsSnoc(actions);
    }
  }

  lemma {:induction false} ApplyBulkKeeps(idx: UrlIndex, actions: seq<BulkAction>)
    ensures forall u :: u in idx ==> u in ApplyBulk(idx, actions) && ApplyBulk(idx, actions)[u] == idx[u]
    decreases |actions|
  {
    if actions != [] {
      ApplyBulkKeeps(idx, actions[..|actions| - 1]);
    }
  }

  lemma {:induction false} ApplyBulkNew(idx: UrlIndex, actions: seq<BulkAction>)
    ensures forall u :: u in ApplyBulk(idx, actions) && u !in idx ==>
      exists i :: 0 <= i < |actions| && actions[i].id == u && ApplyBulk(idx, actions)[u] == actions[i].source
    decreases |actions|
  {
    if actions != [] {
      var init, k := actions[..|actions| - 1], |actions| - 1;
      ApplyBulkNew(idx, init);
      var r := ApplyBulk(idx, actions);
      forall u | u in r && u !in idx
        ensures exists i :: 0 <= i < |actions| && actions[i].id == u && r[u] == actions[i].source
      {
        if u in ApplyBulk(idx, init) {
          var i :| 0 <= i < |init| && init[i].id == u && ApplyBulk(idx, init)[u] == init[i].source;
          assert actions[i] == init[i];
        } else {
          assert actions[k].id == u && r[u] == actions[k].source;
        }
      }
    }
  }

  /** A batch of creates adds exactly the ids it names, leaves every existing document as it
      was, and gives each new id the source of an action that names it. */
  lemma ApplyBulkDocs(idx: UrlIndex, actions: seq<BulkAction>)
    ensures ApplyBulk(idx, actions).Keys == idx.Keys + set i | 0 <= i < |actions| :: actions[i].id
    ensures forall u :: u in idx ==> ApplyBulk(idx, actions)[u] == idx[u]
    ensures forall u :: u in ApplyBulk(idx, actions) && u !in idx ==>
      exists i :: 0 <= i < |actions| && actions[i].id == u && ApplyBulk(idx, actions)[u] == actions[i].source
  {
    ApplyBulkKeys(idx, actions);
    ApplyBulkKeeps(idx, actions);
    ApplyBulkNew(idx, actions);
  }

  /** Enqueue is insert-or-ignore: every existing document keeps its `visited` and `err`, and a
      new id enters as `visited=False, err=None`. */
  lemma EnqueuedDocs(idx: UrlIndex, kind: UrlKind, urlLocs: seq<string>)
    ensures Enqueued(idx, kind, urlLocs).Keys == idx.Keys + set u | u in urlLocs
    ensures forall u :: u in idx ==> Enqueued(idx, kind, urlLocs)[u] == idx[u]
    ensures forall u :: u in Enqueued(idx, kind, urlLocs) && u !in idx ==> Enqueued(idx, kind, urlLocs)[u] == Fresh
  {
    var actions := BuildBulkCreate(kind.IndexName(), NewDocuments(urlLocs));
    BulkIds(kind.IndexName(), urlLocs);
    ApplyBulkKeys(idx, actions);
    ApplyBulkKeeps(idx, actions);
    ApplyBulkNew(idx, actions);
    assert ActionIds(actions) == set u | u in urlLocs by {
      forall u | u in urlLocs ensures u in ActionIds(actions) {
        var i :| 0 <= i < |urlLocs| && urlLocs[i] == u;
        assert actions[i].id == u;
      }
    }
  }

  /** Enqueueing the same URLs again changes nothing. */
  lemma EnqueuedIdempotent(idx: UrlIndex, kind: UrlKind, urlLocs: seq<string>)
    ensures Enqueued(Enqueued(idx, kind, urlLocs), kind, urlLocs) == Enqueued(idx, kind, urlLocs)
  {
    var once := Enqueued(idx, kind, urlLocs);
    EnqueuedDocs(idx, kind, urlLocs);
    EnqueuedDocs(once, kind, urlLocs);
  }

  /** Marking overwrites both fields of that one document: the last write wins and no other
      document changes. */
  lemma MarkedLastWriteWins(idx: UrlIndex, u: string, e1: Option<string>, e2: Option<string>)
    ensures MarkedVisited(MarkedVisited(idx, u, e1), u, e2) == MarkedVisited(idx, u, e2)
    ensures u in idx ==> MarkedVisited(idx, u, e2)[u] == UrlDoc(true, e2)
    ensures forall v :: v in idx && v != u ==> MarkedVisited(idx, u, e2)[v] == idx[v]
  {
  }

  /** Visited is never undone: a document visited in `idx` is present and visited in `idx'`. */
  predicate VisitedKept(idx: UrlIndex, idx': UrlIndex) {
    idx.Keys <= idx'.Keys && forall u :: u in idx && idx[u].visited ==> idx'[u].visited
  }

  /** Neither enqueue nor mark ever turns a visited document back into an unvisited one; the
      marked id, when present, leaves the unvisited set. */
  lemma VisitedMonotone(idx: UrlIndex, kind: UrlKind, urlLocs: seq<string>, u: string, err: Option<string>)
    ensures VisitedKept(idx, Enqueued(idx, kind, urlLocs))
    ensures VisitedKept(idx, MarkedVisited(idx, u, err))
    ensures Unvisited(MarkedVisited(idx, u, err)) == Unvisited(idx) - {u}
  {
    EnqueuedDocs(idx, kind, urlLocs);
  }

  lemma VisitedKeptTrans(a: UrlIndex, b: UrlIndex, c: UrlIndex)
    requires VisitedKept(a, b) && VisitedKept(b, c)
    ensures VisitedKept(a, c)
  {
  }

  /** A page taken from the index and marked after its links were enqueued is present and
      visited, and no visited document was reset on the way. */
  lemma {:induction false} EnqueueThenMark(idx: UrlIndex, kind: UrlKind, urlLocs: seq<string>, u: string, err: Option<string>)
    requires u in idx
    ensures var idx' := MarkedVisited(Enqueued(idx, kind, urlLocs), u, err);
      VisitedKept(idx, idx') && u in idx' && idx'[u].visited
  {
    var mid := Enqueued(idx, kind, urlLocs);
    VisitedMonotone(idx, kind, urlLocs, u, err);
    EnqueuedDocs(idx, kind, urlLocs);
    VisitedMonotone(mid, kind, [], u, err);
    VisitedKeptTrans(idx, mid, MarkedVisited(mid, u, err));
  }

  /** Enqueueing never takes a document out of the unvisited set: a page enqueued but never
      marked stays to visit. */
  lemma EnqueueKeepsUnvisited(idx: UrlIndex, kind: UrlKind, urlLocs: seq<string>)
    ensures Unvisited(idx) <= Unvisited(Enqueued(idx, kind, urlLocs))
  {
    EnqueuedDocs(idx, kind, urlLocs);
  }

  /** A poll that returns as many distinct unvisited ids as there are unvisited documents returns
      all of them. */
  lemma {:induction false} PollCoversFrontier(urls: seq<string>, pool: set<string>)
    requires forall i :: 0 <= i < |urls| ==> urls[i] in pool
    requires forall i, j :: 0 <= i < j < |urls| ==> urls[i] != urls[j]
    requires |urls| == |pool|
    ensures (set u | u in urls) == pool
    decreases |urls|
  {
    if urls != [] {
      var init, last := urls[..|urls| - 1], urls[|urls| - 1];
      forall i | 0 <= i < |init| ensures init[i] in pool - {last} {
        assert init[i] == urls[i];
      }
      PollCoversFrontier(init, pool - {last});
      assert urls == init + [last];
      assert (set u | u in urls) == (set u | u in init) + {last};
    }
  }

  /** A write of the store, in the order the store received it. */
  datatype StoreOp =
    | EnqueueContent(urlLocs: seq<string>)
    | EnqueuePics(urlLocs: seq<string>)
    | MarkContent(urlLoc: string, err: Option<string>)
    | MarkPic(urlLoc: string, err: Option<string>)
    | SaveStoredPic(urlLoc: string, filePath: string, hash: string)

  class SimpleOpenSearchDataStore {
    var urlIndex: UrlIndex
    var picUrlIndex: UrlIndex
    var storedPicIndex: map<string, StoredPic>
    /** The writes received so far. */
    ghost var log: seq<StoreOp>

    /** Connects to indices that may already hold the documents of an earlier run. */
    constructor (urls: UrlIndex, pics: UrlIndex, stored: map<string, StoredPic>)
      ensures urlIndex == urls && picUrlIndex == pics && storedPicIndex == stored && log == []
    {
      urlIndex, picUrlIndex, storedPicIndex, log := urls, pics, stored, [];
    }

    function IndexOf(kind: UrlKind): UrlIndex
      reads this
    {
      match kind
      case ContentUrls => urlIndex
      case PicUrls => picUrlIndex
    }

    /** The documents add_to_visit_*_urls build, `Url(meta={"id": url}, visited=False, err=None)`. */
    static method BuildDocuments(urlLocs: seq<string>) returns (urls: seq<UrlDocument>)
      ensures urls == NewDocuments(urlLocs)
    {
      urls := [];
      for i := 0 to |urlLocs|
        invariant urls == NewDocuments(urlLocs[..i])
      {
        urls := urls + [UrlDocument(urlLocs[i], Fresh)];
      }
      assert urlLocs[..|urlLocs|] == urlLocs;
    }

    /** add_to_visit_content_urls. */
    method AddToVisitContentUrls(urlLocs: seq<string>)
      modifies this
      ensures urlIndex == Enqueued(old(urlIndex), ContentUrls, urlLocs)
      ensures picUrlIndex == old(picUrlIndex) && storedPicIndex == old(storedPicIndex)
      ensures log == old(log) + [EnqueueContent(urlLocs)]
    {
      var urls := BuildDocuments(urlLocs);
      var actions := BuildBulkCreate(UrlIndexName, urls);
      urlIndex := ApplyBulk(urlIndex, actions);
      log := log + [EnqueueContent(urlLocs)];
    }

    /** add_to_visit_pic_urls. */
    method AddToVisitPicUrls(urlLocs: seq<string>)
      modifies this
      ensures picUrlIndex == Enqueued(old(picUrlIndex), PicUrls, urlLocs)
      ensures urlIndex == old(urlIndex) && storedPicIndex == old(storedPicIndex)
      ensures log == old(log) + [EnqueuePics(urlLocs)]
    {
      var urls := BuildDocuments(urlLocs);
      var actions := BuildBulkCreate(PicUrlIndexName, urls);
      picUrlIndex := ApplyBulk(picUrlIndex, actions);
      log := log + [EnqueuePics(urlLocs)];
    }

    /** add_visited_content_url: `visited=True` and `err` on that one document. An update of an
        id the index does not hold raises a not-found error and changes nothing. */
    method AddVisitedContentUrl(urlLoc: string, err: Option<string>) returns (notFound: bool)
      modifies this
      ensures notFound <==> urlLoc !in old(urlIndex)
      ensures urlIndex == MarkedVisited(old(urlIndex), urlLoc, err)
      ensures picUrlIndex == old(picUrlIndex) && storedPicIndex == old(storedPicIndex)
      ensures log == old(log) + [MarkContent(urlLoc, err)]
    {
      notFound := urlLoc !in urlIndex;
      urlIndex := MarkedVisited(urlIndex, urlLoc, err);
      log := log + [MarkContent(urlLoc, err)];
    }

    /** add_visited_pic_url: `visited=True` and `err` on that one document. An update of an
        id the index does not hold raises a not-found error and changes nothing. */
    method AddVisitedPicUrl(urlLoc: string, err: Option<string>) returns (notFound: bool)
      modifies this
      ensures notFound <==> urlLoc !in old(picUrlIndex)
      ensures picUrlIndex == MarkedVisited(old(picUrlIndex), urlLoc, err)
      ensures urlIndex == old(urlIndex) && storedPicIndex == old(storedPicIndex)
      ensures log == old(log) + [MarkPic(urlLoc, err)]
    {
      notFound := urlLoc !in picUrlIndex;
      picUrlIndex := MarkedVisited(picUrlIndex, urlLoc, err);
      log := log + [MarkPic(urlLoc, err)];
    }

    /** add_stored_pic_url: the `StoredPic` document is saved under the hash, replacing any
        earlier one. */
    method AddStoredPicUrl(urlLoc: string, filePath: string, shaPicHash: string)
      modifies this
      ensures storedPicIndex == old(storedPicIndex)[shaPicHash := StoredPic(filePath, urlLoc)]
      ensures urlIndex == old(urlIndex) && picUrlIndex == old(picUrlIndex)
      ensures log == old(log) + [SaveStoredPic(urlLoc, filePath, shaPicHash)]
    {
      storedPicIndex := storedPicIndex[shaPicHash := StoredPic(filePath, urlLoc)];
      log := log + [SaveStoredPic(urlLoc, filePath, shaPicHash)];
    }

    /** `Search(index).query("match", visited=False).extra(size=size).execute()`: up to `size`
        distinct unvisited ids, in an order the engine chooses. */
    method SearchUnvisited(kind: UrlKind, size: nat) returns (hits: seq<string>)
      ensures |hits| == Min(size, |Unvisited(IndexOf(kind))|)
      ensures forall i :: 0 <= i < |hits| ==> hits[i] in Unvisited(IndexOf(kind))
      ensures forall i, j :: 0 <= i < j < |hits| ==> hits[i] != hits[j]
    {
      var pool := Unvisited(IndexOf(kind));
      hits := [];
      while |hits| < size && pool != {}
        invariant pool <= Unvisited(IndexOf(kind))
        invariant |pool| + |hits| == |Unvisited(IndexOf(kind))|
        invariant forall i :: 0 <= i < |hits| ==> hits[i] in Unvisited(IndexOf(kind)) && hits[i] !in pool
        invariant forall i, j :: 0 <= i < j < |hits| ==> hits[i] != hits[j]
        invariant |hits| <= size
        decreases pool
      {
        var u :| u in pool;
        hits := hits + [u];
        pool := pool - {u};
      }
    }

    /** get_next_content_to_visit: the first hit of a 25-hit search, or None. */
    method GetNextContentToVisit() returns (r: Option<string>)
      ensures r.Some? <==> Unvisited(urlIndex) != {}
      ensures r.Some? ==> r.value in Unvisited(urlIndex)
    {
      var response := SearchUnvisited(ContentUrls, NextToVisitSize);
      if |response| > 0 {
        r := Some(response[0]);
      } else {
        r := None;
      }
    }

    /** get_next_pic_to_visit: the first hit of a 25-hit search, or None. */
    method GetNextPicToVisit() returns (r: Option<string>)
      ensures r.Some? <==> Unvisited(picUrlIndex) != {}
      ensures r.Some? ==> r.value in Unvisited(picUrlIndex)
    {
      var response := SearchUnvisited(PicUrls, NextToVisitSize);
      if |response| > 0 {
        r := Some(response[0]);
      } else {
        r := None;
      }
    }

    /** get_all_pics_to_visit(n): at most `n` distinct unvisited picture URLs; fewer only when
        fewer are unvisited. */
    method GetAllPicsToVisit(n: nat) returns (urls: seq<string>)
      ensures |urls| == Min(n, |Unvisited(picUrlIndex)|)
      ensures forall i :: 0 <= i < |urls| ==> urls[i] in Unvisited(picUrlIndex)
      ensures forall i, j :: 0 <= i < j < |urls| ==> urls[i] != urls[j]
    {
      var response := SearchUnvisited(PicUrls, n);
      urls := [];
      for i := 0 to |response|
        invariant urls == response[..i]
      {
        urls := urls + [response[i]];
      }
      assert response[..|response|] == response;
    }
  }
}
