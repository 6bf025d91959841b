/** The content crawler of scrapers/content_scraper.py: `URLScraper` walks the content frontier
    of the search-index store, fetching each page and enqueueing its in-scope links and its
    picture links. */
module ContentScraper {
  import opened Common
  import opened UrlRules
  import opened OpenSearchDatasource
  import opened Browsing

  /** The default `redriectRetries`. */
  const DefaultRedirectRetries: int := 3

  class URLScraper {
    const dataStore: SimpleOpenSearchDataStore
    const driver: Driver
    const page: PageIO
    const redriectRetries: int
    const baseUrl: string

    /** `__init__`: the driver is a fresh browser session. */
    constructor (dataStore: SimpleOpenSearchDataStore, browse: (string, nat) -> Navigation, page: PageIO,
                 baseUrl: string, redriectRetries: int)
      ensures this.dataStore == dataStore && this.page == page && this.baseUrl == baseUrl
      ensures this.redriectRetries == redriectRetries
      ensures fresh(driver) && driver.browse == browse && driver.navigations == 0
    {
      this.dataStore := dataStore;
      this.page := page;
      this.baseUrl := baseUrl;
      this.redriectRetries := redriectRetries;
      driver := new Driver(browse);
    }

    /** The body of the try block once the page is fetched: enqueue the in-scope links, then the
        picture links (img sources plus the links that name a picture file). `contentList` and
        `picList` are the orders in which the two Python sets were iterated. */
    method EnqueuePageLinks(changedUrl: string, content: string) returns (contentList: seq<string>, picList: seq<string>)
      modifies dataStore
      ensures forall u :: u in contentList <==> u in Extracted(page, content, AnchorTags, HrefAttrs, changedUrl)
      ensures Distinct(contentList)
      ensures forall u :: u in picList <==>
        u in Extracted(page, content, ImgTags, SrcAttrs, changedUrl) || u in PicRefs(contentList, ImgFileTypes)
      ensures Distinct(picList)
      ensures dataStore.urlIndex == Enqueued(old(dataStore.urlIndex), ContentUrls, InScope(contentList, baseUrl))
      ensures dataStore.picUrlIndex == Enqueued(old(dataStore.picUrlIndex), PicUrls, picList)
      ensures dataStore.storedPicIndex == old(dataStore.storedPicIndex)
      ensures dataStore.log == old(dataStore.log) + [EnqueueContent(InScope(contentList, baseUrl)), EnqueuePics(picList)]
    {
      contentList := EnqueueContentLinks(changedUrl, content);
      picList := EnqueuePicLinks(changedUrl, content, contentList);
    }

    /** "get + save content URLs": the anchors' links, of which the in-scope ones are enqueued. */
    method EnqueueContentLinks(changedUrl: string, content: string) returns (contentList: seq<string>)
      modifies dataStore
      ensures forall u :: u in contentList <==> u in Extracted(page, content, AnchorTags, HrefAttrs, changedUrl)
      ensures Distinct(contentList)
      ensures dataStore.urlIndex == Enqueued(old(dataStore.urlIndex), ContentUrls, InScope(contentList, baseUrl))
      ensures dataStore.picUrlIndex == old(dataStore.picUrlIndex)
      ensures dataStore.storedPicIndex == old(dataStore.storedPicIndex)
      ensures dataStore.log == old(dataStore.log) + [EnqueueContent(InScope(contentList, baseUrl))]
    {
      var contentUrls := ParseUrls(page, content, AnchorTags, HrefAttrs, changedUrl);
      contentList := Enumerate(contentUrls);
      var clean := CleanContentUrls(contentList, baseUrl);
      dataStore.AddToVisitContentUrls(clean);
    }

    /** "get + save image URLs": the img sources together with the anchors that name a picture
        file, enqueued as one set. */
    method EnqueuePicLinks(changedUrl: string, content: string, contentList: seq<string>) returns (picList: seq<string>)
      modifies dataStore
      ensures forall u :: u in picList <==>
        u in Extracted(page, content, ImgTags, SrcAttrs, changedUrl) || u in PicRefs(contentList, ImgFileTypes)
      ensures Distinct(picList)
      ensures dataStore.urlIndex == old(dataStore.urlIndex)
      ensures dataStore.picUrlIndex == Enqueued(old(dataStore.picUrlIndex), PicUrls, picList)
      ensures dataStore.storedPicIndex == old(dataStore.storedPicIndex)
      ensures dataStore.log == old(dataStore.log) + [EnqueuePics(picList)]
    {
      var imageUrls := ParseUrls(page, content, ImgTags, SrcAttrs, changedUrl);
      var picRefs := AppendPicContentUrls(contentList, ImgFileTypes);
      imageUrls := imageUrls + set u | u in picRefs;
      picList := Enumerate(imageUrls);
      dataStore.AddToVisitPicUrls(picList);
    }

    /** One turn of the scrape_urls loop for a dequeued URL: fetch it, enqueue its links when the
        fetch succeeded, and in every case mark the URL visited with no error. */
    method ProcessContentUrl(newUrl: string)
      returns (fetched: FetchResult, contentList: seq<string>, picList: seq<string>)
      modifies dataStore, driver
      ensures FetchSpec(driver.browse, newUrl, redriectRetries, old(driver.navigations), driver.navigations, fetched)
      ensures fetched.Fetched? ==>
        (forall u :: u in contentList <==> u in Extracted(page, fetched.content, AnchorTags, HrefAttrs, fetched.currentUrl))
        && (forall u :: u in picList <==>
              u in Extracted(page, fetched.content, ImgTags, SrcAttrs, fetched.currentUrl) || u in PicRefs(contentList, ImgFileTypes))
        && dataStore.urlIndex == MarkedVisited(Enqueued(old(dataStore.urlIndex), ContentUrls, InScope(contentList, baseUrl)), newUrl, None)
        && dataStore.picUrlIndex == Enqueued(old(dataStore.picUrlIndex), PicUrls, picList)
        && dataStore.log == old(dataStore.log)
             + [EnqueueContent(InScope(contentList, baseUrl)), EnqueuePics(picList), MarkContent(newUrl, None)]
      ensures !fetched.Fetched? ==>
        dataStore.urlIndex == MarkedVisited(old(dataStore.urlIndex), newUrl, None)
        && dataStore.picUrlIndex == old(dataStore.picUrlIndex)
        && dataStore.log == old(dataStore.log) + [MarkContent(newUrl, None)]
      ensures dataStore.storedPicIndex == old(dataStore.storedPicIndex)
      ensures newUrl in old(dataStore.urlIndex) ==>
        VisitedKept(old(dataStore.urlIndex), dataStore.urlIndex) && dataStore.urlIndex[newUrl].visited
    {
      contentList, picList := [], [];
      fetched := GetContentFromUrl(driver, newUrl, redriectRetries);
      ghost var before := dataStore.urlIndex;
      if fetched.Fetched? {
        contentList, picList := EnqueuePageLinks(fetched.currentUrl, fetched.content);
      }
      // add_visited_content_urls([newUrl]) sits after the try block
      var _ := dataStore.AddVisitedContentUrl(newUrl, None);
      if newUrl in before {
        if fetched.Fetched? {
          EnqueueThenMark(before, ContentUrls, InScope(contentList, baseUrl), newUrl, None);
        } else {
          VisitedMonotone(before, ContentUrls, [], newUrl, None);
        }
      }
    }

    /** One pass of the scrape_urls loop: take the next unvisited URL, if any, and process it.
        The URL taken was unvisited and ends visited, visited documents stay visited, and the log
        only grows. */
    method ScrapeTurn() returns (taken: Option<string>)
      modifies dataStore, driver
      ensures taken.None? ==> Unvisited(dataStore.urlIndex) == {}
      ensures taken.Some? ==>
        taken.value in Unvisited(old(dataStore.urlIndex))
        && taken.value in dataStore.urlIndex && dataStore.urlIndex[taken.value].visited
      ensures taken.None? ==> dataStore.urlIndex == old(dataStore.urlIndex) && dataStore.log == old(dataStore.log)
      ensures VisitedKept(old(dataStore.urlIndex), dataStore.urlIndex)
      ensures old(dataStore.log) <= dataStore.log
      ensures dataStore.storedPicIndex == old(dataStore.storedPicIndex)
    {
      taken := dataStore.GetNextContentToVisit();
      if taken.Some? {
        var _, _, _ := ProcessContentUrl(taken.value);
      }
    }

    /** scrape_urls, for at most `fuel` pages: seed the frontier with the base URL, then take
        unvisited URLs one at a time until the store reports none. `drained` says the loop ended
        by itself; `processed` lists the pages taken, in order. */
    method ScrapeUrls(fuel: nat) returns (drained: bool, processed: seq<string>)
      modifies dataStore, driver
      ensures |dataStore.log| > |old(dataStore.log)| && dataStore.log[|old(dataStore.log)|] == EnqueueContent([baseUrl])
      ensures drained ==> Unvisited(dataStore.urlIndex) == {}
      ensures !drained ==> |processed| == fuel
      ensures VisitedKept(old(dataStore.urlIndex), dataStore.urlIndex)
      ensures forall i :: 0 <= i < |processed| ==>
        processed[i] in dataStore.urlIndex && dataStore.urlIndex[processed[i]].visited
      ensures Distinct(processed)
      ensures dataStore.storedPicIndex == old(dataStore.storedPicIndex)
    {
      dataStore.AddToVisitContentUrls([baseUrl]);
      VisitedMonotone(old(dataStore.urlIndex), ContentUrls, [baseUrl], baseUrl, None);
      ghost var seedLen := |old(dataStore.log)|;
      drained, processed := false, [];
      while !drained && |processed| < fuel
        invariant |dataStore.log| > seedLen && dataStore.log[seedLen] == EnqueueContent([baseUrl])
        invariant drained ==> Unvisited(dataStore.urlIndex) == {}
        invariant |processed| <= fuel
        invariant VisitedKept(old(dataStore.urlIndex), dataStore.urlIndex)
        invariant forall i :: 0 <= i < |processed| ==>
          processed[i] in dataStore.urlIndex && dataStore.urlIndex[processed[i]].visited
        invariant Distinct(processed)
        invariant dataStore.storedPicIndex == old(dataStore.storedPicIndex)
        decreases fuel - |processed|, if drained then 0 else 1
      {
        ghost var before, logBefore := dataStore.urlIndex, dataStore.log;
        var taken := ScrapeTurn();
        assert logBefore[seedLen] == dataStore.log[seedLen];
        VisitedKeptTrans(old(dataStore.urlIndex), before, dataStore.urlIndex);
        if taken.None? {
          drained := true;
        } else {
          processed := processed + [taken.value];
        }
      }
    }

    /** scrape_urls as written against this store. The mark after the try block calls
        `add_visited_content_urls`, which SimpleOpenSearchDataStore does not define (it has only
        the singular `add_visited_content_url`). Nothing catches the AttributeError, so it leaves
        the `while True` loop: the first page taken has its links enqueued, is never marked and
        stays to visit, and no second page is taken. `escaped` says the error ended the run. */
    method ScrapeUrlsAsWritten() returns (first: Option<string>, escaped: bool)
      modifies dataStore, driver
      ensures |dataStore.log| > |old(dataStore.log)| && dataStore.log[|old(dataStore.log)|] == EnqueueContent([baseUrl])
      ensures escaped <==> first.Some?
      ensures first.None? ==> Unvisited(dataStore.urlIndex) == {}
      ensures first.Some? ==> first.value in Unvisited(dataStore.urlIndex)
      ensures VisitedKept(old(dataStore.urlIndex), dataStore.urlIndex)
      ensures forall i :: |old(dataStore.log)| <= i < |dataStore.log| ==> !dataStore.log[i].MarkContent?
    {
      dataStore.AddToVisitContentUrls([baseUrl]);
      VisitedMonotone(old(dataStore.urlIndex), ContentUrls, [baseUrl], baseUrl, None);
      first := dataStore.GetNextContentToVisit();
      if first.None? {
        escaped := false;
        return;
      }
      ghost var before := dataStore.urlIndex;
      var _ := FetchAndEnqueue(first.value);
      VisitedKeptTrans(old(dataStore.urlIndex), before, dataStore.urlIndex);
      // add_visited_content_urls([newUrl]): AttributeError, raised out of scrape_urls
      escaped := true;
    }

    /** The try block of scrape_urls on its own: fetch the page and, when that succeeds, enqueue
        its links. Nothing is marked, so an unvisited URL stays unvisited. */
    method FetchAndEnqueue(newUrl: string) returns (fetched: FetchResult)
      modifies dataStore, driver
      ensures FetchSpec(driver.browse, newUrl, redriectRetries, old(driver.navigations), driver.navigations, fetched)
      ensures VisitedKept(old(dataStore.urlIndex), dataStore.urlIndex)
      ensures newUrl in Unvisited(old(dataStore.urlIndex)) ==> newUrl in Unvisited(dataStore.urlIndex)
      ensures old(dataStore.log) <= dataStore.log
      ensures forall i :: |old(dataStore.log)| <= i < |dataStore.log| ==> !dataStore.log[i].MarkContent?
    {
      fetched := GetContentFromUrl(driver, newUrl, redriectRetries);
      if fetched.Fetched? {
        var contentList, _ := EnqueuePageLinks(fetched.currentUrl, fetched.content);
        EnqueueKeepsUnvisited(old(dataStore.urlIndex), ContentUrls, InScope(contentList, baseUrl));
        VisitedMonotone(old(dataStore.urlIndex), ContentUrls, InScope(contentList, baseUrl), newUrl, None);
      }
    }
  }
}
