/** The single-process crawler of scraper.py: `Scraper.run` walks the content table of the
    SQLite store, enqueues each page's in-scope links and picture links, and after every page
    downloads every picture still to visit and marks them all visited. */
module LegacyScraper {
  import opened Common
  import opened UrlRules
  import opened SqliteDatasource
  import opened Browsing
  import opened ImagePolicy

  const DefaultRedirectRetries: int := 3
  const DefaultMinWidth: nat := 512
  const DefaultMinHeight: nat := 512
  const DefaultOutputType := "png"

  class Scraper {
    const baseUrl: string
    const redriectRetries: int
    const imageMinWidth: nat
    const imageMinHeight: nat
    const outputType: string
    const dataStore: SqlLiteDataStore
    const driver: Driver
    const page: PageIO
    const io: ImageIO

    /** `__init__` with a store given: the driver is a fresh browser session. */
    constructor (baseUrl: string, redriectRetries: int, imageMinWidth: nat, imageMinHeight: nat, outputType: string,
                 dataStore: SqlLiteDataStore, browse: (string, nat) -> Navigation, page: PageIO, io: ImageIO)
      ensures this.baseUrl == baseUrl && this.redriectRetries == redriectRetries
      ensures this.imageMinWidth == imageMinWidth && this.imageMinHeight == imageMinHeight
      ensures this.outputType == outputType && this.dataStore == dataStore && this.page == page && this.io == io
      ensures fresh(driver) && driver.browse == browse && driver.navigations == 0
    {
      this.baseUrl := baseUrl;
      this.redriectRetries := redriectRetries;
      this.imageMinWidth := imageMinWidth;
      this.imageMinHeight := imageMinHeight;
      this.outputType := outputType;
      this.dataStore := dataStore;
      this.page := page;
      this.io := io;
      driver := new Driver(browse);
    }

    /** get_and_save_image_to_file: the flat file name under which the picture is saved, or
        None when it raises or is too small. It never touches the store. */
    method GetAndSaveImageToFile(imageUrl: string) returns (saved: Option<string>)
      ensures saved == LegacySave(io, imageUrl, imageMinWidth, imageMinHeight, outputType)
      ensures saved.Some? <==>
        && io.get(imageUrl).Response?
        && io.decode(io.get(imageUrl).content).Decoded?
        && LargeEnough(io.decode(io.get(imageUrl).content).width, io.decode(io.get(imageUrl).content).height,
                       imageMinWidth, imageMinHeight)
        && io.save(FileName(HashPrefix(io.sha1(io.get(imageUrl).content)), OutputExtension(outputType, imageUrl)))
      ensures saved.Some? ==>
        saved.value == FileName(HashPrefix(io.sha1(io.get(imageUrl).content)), OutputExtension(outputType, imageUrl))
    {
      saved := None;
      var response := io.get(imageUrl);
      if !response.Response? {
        return;
      }
      var imageContent := response.content;
      var image := io.decode(imageContent);
      if image.DecodeFailed? {
        return;
      }
      var width, height := image.width, image.height;
      if width >= imageMinWidth && height >= imageMinHeight {
        var urlType := if outputType != "" then outputType else GetUrlFiletype(imageUrl);
        var filename := io.sha1(imageContent)[..HashPrefixLength] + "." + urlType;
        if io.save(filename) {
          saved := Some(filename);
        }
      }
    }

    /** The first half of the try block: enqueue the in-scope links of the fetched page, then its
        picture links. `contentList` and `picList` are the orders in which the sets were iterated. */
    method EnqueuePageLinks(changedUrl: string, content: string) returns (contentList: seq<string>, picList: seq<string>)
      modifies dataStore
      ensures forall u :: u in contentList <==> u in Extracted(page, content, AnchorTags, HrefAttrs, changedUrl)
      ensures Distinct(contentList)
      ensures forall u :: u in picList <==>
        u in Extracted(page, content, ImgTags, SrcAttrs, changedUrl) || u in PicRefs(contentList, ImgFileTypes)
      ensures Distinct(picList)
      ensures dataStore.contentRows == Enqueued(old(dataStore.contentRows), InScope(contentList, baseUrl))
      ensures dataStore.picRows == Enqueued(old(dataStore.picRows), picList)
      ensures dataStore.log == old(dataStore.log)
        + [Inserted(ContentUrlTb, InScope(contentList, baseUrl)), Inserted(PicUrlTb, picList)]
    {
      contentList := EnqueueContentLinks(changedUrl, content);
      picList := EnqueuePicLinks(changedUrl, content, contentList);
    }

    /** "get + save content URLs" into the content table. */
    method EnqueueContentLinks(changedUrl: string, content: string) returns (contentList: seq<string>)
      modifies dataStore
      ensures forall u :: u in contentList <==> u in Extracted(page, content, AnchorTags, HrefAttrs, changedUrl)
      ensures Distinct(contentList)
      ensures dataStore.contentRows == Enqueued(old(dataStore.contentRows), InScope(contentList, baseUrl))
      ensures dataStore.picRows == old(dataStore.picRows)
      ensures dataStore.log == old(dataStore.log) + [Inserted(ContentUrlTb, InScope(contentList, baseUrl))]
    {
      var contentUrls := ParseUrls(page, content, AnchorTags, HrefAttrs, changedUrl);
      contentList := Enumerate(contentUrls);
      var clean := CleanContentUrls(contentList, baseUrl);
      dataStore.AddToVisitUrls(clean, ContentUrlTb);
    }

    /** "get + save image URLs" into the picture table. */
    method EnqueuePicLinks(changedUrl: string, content: string, contentList: seq<string>) returns (picList: seq<string>)
      modifies dataStore
      ensures forall u :: u in picList <==>
        u in Extracted(page, content, ImgTags, SrcAttrs, changedUrl) || u in PicRefs(contentList, ImgFileTypes)
      ensures Distinct(picList)
      ensures dataStore.contentRows == old(dataStore.contentRows)
      ensures dataStore.picRows == Enqueued(old(dataStore.picRows), picList)
      ensures dataStore.log == old(dataStore.log) + [Inserted(PicUrlTb, picList)]
    {
      var imageUrls := ParseUrls(page, content, ImgTags, SrcAttrs, changedUrl);
      var picRefs := AppendPicContentUrls(contentList, ImgFileTypes);
      imageUrls := imageUrls + set u | u in picRefs;
      picList := Enumerate(imageUrls);
      dataStore.AddToVisitUrls(picList, PicUrlTb);
    }

    /** The second half of the try block: download every picture still to visit, wait for all of
        them, then mark them all visited, so that no picture is left to visit. `outcomes` holds
        what each download did, in the order they were submitted. */
    method SweepPictures() returns (allToVisit: seq<string>, ghost outcomes: seq<Option<string>>)
      modifies dataStore
      ensures |outcomes| == |allToVisit|
      ensures forall k :: 0 <= k < |allToVisit| ==>
        outcomes[k] == LegacySave(io, allToVisit[k], imageMinWidth, imageMinHeight, outputType)
      ensures (set u | u in allToVisit) == ToVisit(old(dataStore.picRows))
      ensures dataStore.picRows == MarkedVisited(old(dataStore.picRows), allToVisit)
      ensures ToVisit(dataStore.picRows) == {}
      ensures dataStore.contentRows == old(dataStore.contentRows)
      ensures dataStore.log == old(dataStore.log) + [Visited(PicUrlTb, allToVisit)]
    {
      allToVisit := dataStore.GetAllToVisit(PicUrlTb);
      outcomes := [];
      for k := 0 to |allToVisit|
        invariant |outcomes| == k
        invariant forall j :: 0 <= j < k ==>
          outcomes[j] == LegacySave(io, allToVisit[j], imageMinWidth, imageMinHeight, outputType)
        invariant dataStore.picRows == old(dataStore.picRows) && dataStore.contentRows == old(dataStore.contentRows)
        invariant dataStore.log == old(dataStore.log)
      {
        // a failing download stays in its future
        var saved := GetAndSaveImageToFile(allToVisit[k]);
        outcomes := outcomes + [saved];
      }
      dataStore.AddVisitedUrls(allToVisit, PicUrlTb);
      MarkedNotToVisit(old(dataStore.picRows), allToVisit);
    }

    /** The try block of the run loop: fetch the page; when that succeeds, enqueue its links and
        sweep the picture table. */
    method FetchAndSweep(newUrl: string)
      returns (fetched: FetchResult, contentList: seq<string>, picList: seq<string>, allToVisit: seq<string>)
      modifies dataStore, driver
      ensures FetchSpec(driver.browse, newUrl, redriectRetries, old(driver.navigations), driver.navigations, fetched)
      ensures fetched.Fetched? ==>
        (forall u :: u in contentList <==> u in Extracted(page, fetched.content, AnchorTags, HrefAttrs, fetched.currentUrl))
        && (forall u :: u in picList <==>
              u in Extracted(page, fetched.content, ImgTags, SrcAttrs, fetched.currentUrl) || u in PicRefs(contentList, ImgFileTypes))
        && dataStore.contentRows == Enqueued(old(dataStore.contentRows), InScope(contentList, baseUrl))
        && (set u | u in allToVisit) == ToVisit(Enqueued(old(dataStore.picRows), picList))
        && dataStore.picRows == MarkedVisited(Enqueued(old(dataStore.picRows), picList), allToVisit)
        && ToVisit(dataStore.picRows) == {}
        && VisitedKept(old(dataStore.picRows), dataStore.picRows)
        && dataStore.log == old(dataStore.log)
             + [Inserted(ContentUrlTb, InScope(contentList, baseUrl)), Inserted(PicUrlTb, picList),
                Visited(PicUrlTb, allToVisit)]
      ensures !fetched.Fetched? ==>
        dataStore.contentRows == old(dataStore.contentRows)
        && dataStore.picRows == old(dataStore.picRows)
        && dataStore.log == old(dataStore.log)
    {
      contentList, picList, allToVisit := [], [], [];
      fetched := GetContentFromUrl(driver, newUrl, redriectRetries);
      if fetched.Fetched? {
        contentList, picList := EnqueuePageLinks(fetched.currentUrl, fetched.content);
        ghost var mid := dataStore.picRows;
        ghost var outcomes;
        allToVisit, outcomes := SweepPictures();
        VisitedMonotone(old(dataStore.picRows), picList);
        VisitedMonotone(mid, allToVisit);
        VisitedKeptTrans(old(dataStore.picRows), mid, dataStore.picRows);
      }
    }

    /** One turn of the run loop for a dequeued URL: the try block, then, in every case, the
        mark that sits after it. */
    method CrawlPage(newUrl: string)
      returns (fetched: FetchResult, contentList: seq<string>, picList: seq<string>, allToVisit: seq<string>)
      modifies dataStore, driver
      ensures FetchSpec(driver.browse, newUrl, redriectRetries, old(driver.navigations), driver.navigations, fetched)
      ensures fetched.Fetched? ==>
        (forall u :: u in contentList <==> u in Extracted(page, fetched.content, AnchorTags, HrefAttrs, fetched.currentUrl))
        && (forall u :: u in picList <==>
              u in Extracted(page, fetched.content, ImgTags, SrcAttrs, fetched.currentUrl) || u in PicRefs(contentList, ImgFileTypes))
        && dataStore.contentRows == MarkedVisited(Enqueued(old(dataStore.contentRows), InScope(contentList, baseUrl)), [newUrl])
        && (set u | u in allToVisit) == ToVisit(Enqueued(old(dataStore.picRows), picList))
        && dataStore.picRows == MarkedVisited(Enqueued(old(dataStore.picRows), picList), allToVisit)
        && ToVisit(dataStore.picRows) == {}
        && VisitedKept(old(dataStore.picRows), dataStore.picRows)
        && dataStore.log == old(dataStore.log)
             + [Inserted(ContentUrlTb, InScope(contentList, baseUrl)), Inserted(PicUrlTb, picList),
                Visited(PicUrlTb, allToVisit), Visited(ContentUrlTb, [newUrl])]
      ensures !fetched.Fetched? ==>
        dataStore.contentRows == MarkedVisited(old(dataStore.contentRows), [newUrl])
        && dataStore.picRows == old(dataStore.picRows)
        && dataStore.log == old(dataStore.log) + [Visited(ContentUrlTb, [newUrl])]
      ensures newUrl in old(dataStore.contentRows) ==>
        VisitedKept(old(dataStore.contentRows), dataStore.contentRows) && dataStore.contentRows[newUrl] == 1
    {
      ghost var before := dataStore.contentRows;
      fetched, contentList, picList, allToVisit := FetchAndSweep(newUrl);
      // add_visited_urls([newUrl], CONTENT_URL_TB) sits after the try block
      dataStore.AddVisitedUrls([newUrl], ContentUrlTb);
      if newUrl in before {
        if fetched.Fetched? {
          EnqueueThenMark(before, InScope(contentList, baseUrl), newUrl);
        } else {
          MarkOnly(before, newUrl);
        }
      }
    }

    /** One pass of the run loop: take a URL to visit, if any, and crawl it. The URL taken was
        to visit and ends visited, visited rows stay visited in both tables, and the log only
        grows; a taken page that was fetched leaves no picture to visit. */
    method RunTurn() returns (taken: Option<string>, swept: bool)
      modifies dataStore, driver
      ensures taken.None? ==>
        ToVisit(dataStore.contentRows) == {} && !swept && dataStore.picRows == old(dataStore.picRows)
      ensures taken.Some? ==>
        taken.value in ToVisit(old(dataStore.contentRows))
        && taken.value in dataStore.contentRows && dataStore.contentRows[taken.value] == 1
      ensures VisitedKept(old(dataStore.contentRows), dataStore.contentRows)
      ensures VisitedKept(old(dataStore.picRows), dataStore.picRows)
      ensures old(dataStore.log) <= dataStore.log
      ensures swept ==> ToVisit(dataStore.picRows) == {}
    {
      taken := dataStore.GetNextToVisit(ContentUrlTb);
      swept := false;
      if taken.Some? {
        var fetched, _, _, _ := CrawlPage(taken.value);
        swept := fetched.Fetched?;
        if !swept {
          assert dataStore.picRows == old(dataStore.picRows);
        }
      }
    }

    /** run, for at most `fuel` pages: seed the content table with the base URL, then take URLs
        to visit one at a time until none is left. `drained` says the loop ended by itself;
        `processed` lists the pages taken; `swept` says the last page taken swept the picture
        table, which then has nothing left to visit. */
    method Run(fuel: nat) returns (drained: bool, processed: seq<string>, swept: bool)
      modifies dataStore, driver
      ensures |dataStore.log| > |old(dataStore.log)| && dataStore.log[|old(dataStore.log)|] == Inserted(ContentUrlTb, [baseUrl])
      ensures drained ==> ToVisit(dataStore.contentRows) == {}
      ensures !drained ==> |processed| == fuel
      ensures VisitedKept(old(dataStore.contentRows), dataStore.contentRows)
      ensures VisitedKept(old(dataStore.picRows), dataStore.picRows)
      ensures forall i :: 0 <= i < |processed| ==>
        processed[i] in dataStore.contentRows && dataStore.contentRows[processed[i]] != 0
      ensures Distinct(processed)
      ensures swept ==> ToVisit(dataStore.picRows) == {}
    {
      dataStore.AddToVisitUrls([baseUrl], ContentUrlTb);
      VisitedMonotone(old(dataStore.contentRows), [baseUrl]);
      ghost var seedLen := |old(dataStore.log)|;
      drained, processed, swept := false, [], false;
      while !drained && |processed| < fuel
        invariant |dataStore.log| > seedLen && dataStore.log[seedLen] == Inserted(ContentUrlTb, [baseUrl])
        invariant drained ==> ToVisit(dataStore.contentRows) == {}
        invariant |processed| <= fuel
        invariant VisitedKept(old(dataStore.contentRows), dataStore.contentRows)
        invariant VisitedKept(old(dataStore.picRows), dataStore.picRows)
        invariant forall i :: 0 <= i < |processed| ==>
          processed[i] in dataStore.contentRows && dataStore.contentRows[processed[i]] != 0
        invariant Distinct(processed)
        invariant swept ==> ToVisit(dataStore.picRows) == {}
        decreases fuel - |processed|, if drained then 0 else 1
      {
        ghost var contentBefore, picBefore, logBefore := dataStore.contentRows, dataStore.picRows, dataStore.log;
        var taken, sweptNow := RunTurn();
        assert logBefore[seedLen] == dataStore.log[seedLen];
        VisitedKeptTrans(old(dataStore.contentRows), contentBefore, dataStore.contentRows);
        VisitedKeptTrans(old(dataStore.picRows), picBefore, dataStore.picRows);
        if taken.None? {
          drained := true;
        } else {
          processed := processed + [taken.value];
          swept := sweptNow;
        }
      }
    }
  }
}
