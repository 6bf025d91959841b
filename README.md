# pyImageScrape crawl coordination, modelled in Dafny

pyImageScrape crawls a website and collects the pictures it links to. Its frontier lives in a store:

- the older single-process `Scraper` keeps two SQLite tables (`urls`, `picUrls`);
- the newer workers keep three search indices (`url`, `pic_url`, `stored_pic`).

Each crawler and worker runs a loop of the same shape. It takes an unvisited URL, fetches it, enqueues what the page links to, and marks the URL visited. A picture URL is downloaded, checked for status and size, and saved under a content-addressed path, with a record of the save. A producer runs the content loop and a picture-harvest loop side by side.

This project models that core:

- **Stores.** `SqliteDatasource` and `OpenSearchDatasource` are classes over maps. Each has a ghost `log` of its mutating calls, so the order of writes can be stated.
- **Page-side steps.** `Browsing` holds the redirect-settling fetch, link extraction, the scope filter and the picture-link filter. `UrlRules` holds the string rules they use.
- **Picture decisions.** `ImagePolicy` holds the picture outcome, the error tags, the hash-sharded path and the size thresholds of the three picture workers.
- **Crawl loops.** One module per worker: `ContentScraper`, `PicScraper`, `PicGrabber`, `LegacyScraper` and `ScrapeJobProducer`.

The browser, the HTML parser, `urljoin`, HTTP, image decoding, SHA-1 and file writes are not modelled. They are parameters: the function-valued fields of `PageIO` and `ImageIO`, and the `browse` function of a `Driver`.

Both stores are proved to keep visited flags once set. Each loop is proved to preserve that and to mark every URL it takes. A loop that ends by itself is proved to leave nothing to visit, with one exception: the producer's picture loop as written (see "## Findings").

## Model

| member | source | states |
|---|---|---|
| Common.LastSegment | pyImageScrape/data_scraper/pic_scraper.py:23 | `split(sep)[-1]`: the result is the suffix after the last separator, contains no separator, and is the whole string when there is none |
| Common.FirstSegment | pyImageScrape/data_scraper/pic_scraper.py:23 | `split(sep)[0]`: the result is the prefix before the first separator, contains no separator, and is the whole string when there is none |
| Common.LastSegmentAfter | pyImageScrape/data_scraper/pic_scraper.py:23 | whatever precedes the last separator does not affect the last segment |
| Common.NatToString | pyImageScrape/data_scraper/pic_scraper.py:68 | `str(n)` is a non-empty decimal numeral with no leading zero, one digit exactly when `n < 10`, whose digits denote `n` |
| Common.NatToStringInjective | pyImageScrape/data_scraper/pic_scraper.py:68 | different status codes and sizes print differently |
| UrlRules.GetUrlFiletype | pyImageScrape/data_scraper/pic_scraper.py:22-23 | the filetype contains no `/`, `?` or `.`, and is the text after the last `.` of the query-stripped last path segment (identical copies at scraper.py:48-49 and pic_grabber.py:21-22) |
| UrlRules.InScopeMembers | pyImageScrape/scrapers/content_scraper.py:113-119 | a link is kept iff it is non-empty and starts with the base URL (both directions) |
| UrlRules.InScopeAppend | pyImageScrape/scrapers/content_scraper.py:113-119 | the filter keeps input order: filtering a concatenation concatenates the filtered parts |
| UrlRules.TypeMatchesMembers | pyImageScrape/scrapers/content_scraper.py:128-130 | a link is reported for the extension list iff its lowercased last segment ends with one of the extensions |
| UrlRules.PicRefsMembers | pyImageScrape/scrapers/content_scraper.py:121-131 | a link is reclassified as a picture iff it is non-empty, its last segment contains `.`, and the lowercased segment ends with an extension (both directions) |
| UrlRules.TwoMatchesTwoCopies | pyImageScrape/scrapers/content_scraper.py:128-130 | a link matching two extensions is appended at least twice |
| UrlRules.PjpegReportedTwice | pyImageScrape/scrapers/content_scraper.py:121-131 | a `.pjpeg` link is reported at least twice, because both `jpeg` and `pjpeg` match |
| UrlRules.RelativeHttpNameKeptVerbatim | pyImageScrape/scrapers/content_scraper.py:105-107 | the `http` test is a case-insensitive prefix test: the relative name `httpd.html` and `HTTPS://…` are kept without joining |
| Browsing.Driver.Get | pyImageScrape/scrapers/content_scraper.py:81 | one navigation: the counter advances by one and the result is what the browser shows for that navigation |
| Browsing.GetContentFromUrl | pyImageScrape/scrapers/content_scraper.py:74-91 | between 1 and `redriectRetries + 1` navigations; every one but the last showed another URL; the last one is returned, and it shows the requested URL unless the bound was reached (scraper.py:134-149 is the same loop) |
| Browsing.FetchSpecUnique | pyImageScrape/scrapers/content_scraper.py:74-91 | the fetch is determined: the navigation count and the result are unique for a session |
| Browsing.FromElementMembers | pyImageScrape/scrapers/content_scraper.py:101-109 | a value comes from an element iff a listed attribute is non-empty and the value is that attribute, absolutized; one whose join raises yields nothing |
| Browsing.TagYieldsMembers | pyImageScrape/scrapers/content_scraper.py:98-110 | the links found under one tag name are exactly the non-empty listed attributes of the tags of that name whose absolutizing succeeds, absolutized (both directions) |
| Browsing.ExtractedByTag | pyImageScrape/scrapers/content_scraper.py:93-110 | a URL is extracted iff one of the listed tag names yields it (both directions) |
| Browsing.ExtractedMembers | pyImageScrape/scrapers/content_scraper.py:93-110 | a URL is extracted iff some tag of a listed name has a non-empty listed attribute that absolutizes to the URL; a value whose join raises is skipped (both directions) |
| Browsing.ExtractedAbsoluteOrJoined | pyImageScrape/scrapers/content_scraper.py:103-109 | every extracted URL is either a verbatim `http…` value or the successful join of a non-`http` value to the resolved page URL |
| Browsing.ParseUrls | pyImageScrape/scrapers/content_scraper.py:93-110 | the loop over tags and attributes, which catches a raising join and skips that value, computes exactly the extracted set (scraper.py:151-168 is the same code) |
| Browsing.Enumerate | pyImageScrape/scrapers/content_scraper.py:116 | iterating a set yields each member exactly once, in some order |
| Browsing.CleanContentUrls | pyImageScrape/scrapers/content_scraper.py:113-119 | the loop computes the in-scope filter, so the enqueued content links are exactly the in-scope ones, in input order (scraper.py:192-198 is the same) |
| Browsing.AppendPicContentUrls | pyImageScrape/scrapers/content_scraper.py:121-131 | the nested loop computes the picture-link list, one copy per matching extension (scraper.py:200-210 is the same) |
| Browsing.AppendTypeMatches | pyImageScrape/scrapers/content_scraper.py:128-130 | the inner loop appends the link once per extension its lowercased last segment ends with |
| SqliteDatasource.EnqueuedRows | pyImageScrape/sqlliteDatasource.py:61-67 | insert-or-ignore: existing rows keep their visited value; every listed URL is present afterwards; new rows have `visited = 0` |
| SqliteDatasource.MarkedVisitedRows | pyImageScrape/sqlliteDatasource.py:69-75 | the update sets `visited = 1` on listed URLs already present, adds no row, and leaves other rows alone |
| SqliteDatasource.MarkedVisitedIdempotent | pyImageScrape/sqlliteDatasource.py:69-75 | marking the same URLs twice is the same as once |
| SqliteDatasource.VisitedMonotone | pyImageScrape/sqlliteDatasource.py:61-75 | neither enqueue nor mark removes a row or sets a visited row back to 0, and both keep the flags 0/1 |
| SqliteDatasource.VisitedKeptTrans | pyImageScrape/sqlliteDatasource.py:61-75 | keeping visited rows composes across calls |
| SqliteDatasource.MarkedNotToVisit | pyImageScrape/sqlliteDatasource.py:69-75 | after marking, the to-visit set loses exactly the listed URLs |
| SqliteDatasource.EnqueueThenMark | pyImageScrape/scraper.py:228-259 | enqueueing links and then marking the dequeued URL keeps visited rows and leaves that URL visited |
| SqliteDatasource.MarkOnly | pyImageScrape/scraper.py:259 | marking the dequeued URL alone keeps visited rows and leaves it visited |
| SqliteDatasource.SqlLiteDataStore.ExecuteInsertBatch | pyImageScrape/sqlliteDatasource.py:36-43 | the batch applies `INSERT OR IGNORE` argument tuple by argument tuple to the named table only |
| SqliteDatasource.SqlLiteDataStore.ExecuteUpdateBatch | pyImageScrape/sqlliteDatasource.py:36-43 | the batch applies `UPDATE … SET urlLoc = ?, visited = ? WHERE urlLoc = ?` tuple by tuple to the named table only |
| SqliteDatasource.SqlLiteDataStore.AddToVisitUrls | pyImageScrape/sqlliteDatasource.py:61-67 | the table becomes the insert-or-ignore of `(url, 0)` for every URL; the other table is unchanged |
| SqliteDatasource.SqlLiteDataStore.AddVisitedUrls | pyImageScrape/sqlliteDatasource.py:69-75 | the table becomes the marked table for `(url, 1, url)` tuples; the other table is unchanged |
| SqliteDatasource.SqlLiteDataStore.GetNextToVisit | pyImageScrape/sqlliteDatasource.py:77-84 | returns a URL with `visited = 0`, and None iff there is none |
| SqliteDatasource.SqlLiteDataStore.GetAllToVisit | pyImageScrape/sqlliteDatasource.py:86-93 | returns exactly the URLs with `visited = 0`, each once |
| OpenSearchDatasource.BuildBulkCreate | pyImageScrape/datasource/opensearch_datasource.py:130-139 | one `create` action per document, same order, same index, same id and source |
| OpenSearchDatasource.BulkIds | pyImageScrape/datasource/opensearch_datasource.py:72-77 | the bulk actions of an enqueue carry the listed URLs as ids, in order, each with `visited=False, err=None` |
| OpenSearchDatasource.ApplyBulkDocs | pyImageScrape/datasource/opensearch_datasource.py:77 | a bulk of creates with errors not raised keeps every existing document and adds each new id with its source |
| OpenSearchDatasource.ApplyBulkKeys | pyImageScrape/datasource/opensearch_datasource.py:77 | after a bulk of creates the index holds exactly the old ids and the ids the batch names |
| OpenSearchDatasource.ApplyBulkKeeps | pyImageScrape/datasource/opensearch_datasource.py:77 | a create on an existing id fails and the existing document stays as it was |
| OpenSearchDatasource.ApplyBulkNew | pyImageScrape/datasource/opensearch_datasource.py:77 | each new document is the source of some action in the batch that names its id |
| OpenSearchDatasource.EnqueuedDocs | pyImageScrape/datasource/opensearch_datasource.py:72-84 | an existing id keeps its visited flag and err; every listed URL is present afterwards; new ids are unvisited with no err |
| OpenSearchDatasource.EnqueueKeepsUnvisited | pyImageScrape/datasource/opensearch_datasource.py:72-84 | an enqueue removes no id from the unvisited set |
| OpenSearchDatasource.EnqueuedIdempotent | pyImageScrape/datasource/opensearch_datasource.py:72-84 | enqueueing the same URLs twice is the same as once |
| OpenSearchDatasource.MarkedLastWriteWins | pyImageScrape/datasource/opensearch_datasource.py:86-100 | marking sets `visited=True` and the given err on that id only, and the later mark's err wins |
| OpenSearchDatasource.VisitedMonotone | pyImageScrape/datasource/opensearch_datasource.py:72-100 | enqueue and mark never unset a visited flag; a mark removes exactly that id from the unvisited set |
| OpenSearchDatasource.VisitedKeptTrans | pyImageScrape/datasource/opensearch_datasource.py:72-100 | keeping visited flags composes across calls |
| OpenSearchDatasource.EnqueueThenMark | pyImageScrape/scrapers/content_scraper.py:40-64 | enqueueing a page's links and then marking the dequeued URL keeps visited documents and leaves that URL visited |
| OpenSearchDatasource.PollCoversFrontier | pyImageScrape/datasource/opensearch_datasource.py:118-128 | a poll that returns as many distinct unvisited ids as there are unvisited documents returns every one of them |
| OpenSearchDatasource.SimpleOpenSearchDataStore.BuildDocuments | pyImageScrape/datasource/opensearch_datasource.py:73-75 | the loop builds one fresh document per URL, in order |
| OpenSearchDatasource.SimpleOpenSearchDataStore.AddToVisitContentUrls | pyImageScrape/datasource/opensearch_datasource.py:72-77 | the `url` index becomes the bulk-create result; the other indices are unchanged |
| OpenSearchDatasource.SimpleOpenSearchDataStore.AddToVisitPicUrls | pyImageScrape/datasource/opensearch_datasource.py:79-84 | the `pic_url` index becomes the bulk-create result; the other indices are unchanged |
| OpenSearchDatasource.SimpleOpenSearchDataStore.AddVisitedContentUrl | pyImageScrape/datasource/opensearch_datasource.py:86-92 | marks the id visited with the given err; reports not-found iff the id was absent |
| OpenSearchDatasource.SimpleOpenSearchDataStore.AddVisitedPicUrl | pyImageScrape/datasource/opensearch_datasource.py:94-100 | the same on the `pic_url` index |
| OpenSearchDatasource.SimpleOpenSearchDataStore.AddStoredPicUrl | pyImageScrape/datasource/opensearch_datasource.py:102-104 | the record is keyed by the hash, so a second save under that hash replaces the first |
| OpenSearchDatasource.SimpleOpenSearchDataStore.SearchUnvisited | pyImageScrape/datasource/opensearch_datasource.py:141-146 | a `visited=False` search of size `n` returns `min(n, #unvisited)` distinct unvisited ids |
| OpenSearchDatasource.SimpleOpenSearchDataStore.GetNextContentToVisit | pyImageScrape/datasource/opensearch_datasource.py:112-116 | returns an unvisited content id, and None iff there is none |
| OpenSearchDatasource.SimpleOpenSearchDataStore.GetNextPicToVisit | pyImageScrape/datasource/opensearch_datasource.py:106-110 | returns an unvisited picture id, and None iff there is none |
| OpenSearchDatasource.SimpleOpenSearchDataStore.GetAllPicsToVisit | pyImageScrape/datasource/opensearch_datasource.py:118-128 | returns at most `n` distinct ids, each unvisited; fewer only when fewer are unvisited |
| ImagePolicy.NotFoundTag | pyImageScrape/data_scraper/pic_scraper.py:66-69 | a 404 is recorded as `HTTP_STATUS: 404` |
| ImagePolicy.StatusTagInjective | pyImageScrape/data_scraper/pic_scraper.py:66-69 | two statuses give the same `HTTP_STATUS: ` tag only when they are the same status |
| ImagePolicy.SizeTagInjective | pyImageScrape/data_scraper/pic_scraper.py:70-74 | two sizes give the same `IMG_TOO_SMALL` tag only when width and height both agree |
| ImagePolicy.ErrorTagInjective | pyImageScrape/data_scraper/pic_scraper.py:66-82 | different failures (status, size, timeout, redirects, request error, other) leave different tags |
| ImagePolicy.HashPrefix | pyImageScrape/data_scraper/pic_scraper.py:128 | the file hash is 15 lowercase hex characters |
| ImagePolicy.ShardPathInjective | pyImageScrape/data_scraper/pic_scraper.py:128-131 | distinct hash prefixes or extensions give distinct stored paths |
| ImagePolicy.ShardPathReadsBack | pyImageScrape/data_scraper/pic_scraper.py:127-131 | the stored path ends in the file name `h.ext`, and its filetype is `ext` |
| ImagePolicy.StoredPathKeepsUrlType | pyImageScrape/data_scraper/pic_scraper.py:127 | with no output type, the stored file keeps the URL's filetype |
| ImagePolicy.ThresholdsDisagreeAtBoundary | pyImageScrape/data_scraper/pic_scraper.py:124 | a picture exactly at the minimum size is rejected by the `<=` test here but accepted by the `>=` tests of pic_grabber.py:95 and scraper.py:177 |
| ImagePolicy.StatusCheckedBeforeDecode | pyImageScrape/data_scraper/pic_scraper.py:115-116 | a non-200 response fails with that status whatever the decoder would do |
| ImagePolicy.ScrapeStoredIff | pyImageScrape/data_scraper/pic_scraper.py:106-135 | a picture is stored iff status is 200, it decodes, both sides exceed the minimum and the file is written; the stored path is the shard path of the digest prefix |
| ImagePolicy.ScrapeSizeRule | pyImageScrape/data_scraper/pic_scraper.py:123-125 | a decoded picture fails as too small, with its own width and height, iff a side is at or below the minimum |
| ImagePolicy.SameContentSameFile | pyImageScrape/data_scraper/pic_scraper.py:127-134 | two URLs serving the same bytes map to the same file and hash |
| ImagePolicy.RecordedErr | pyImageScrape/data_scraper/pic_scraper.py:62-82 | the err recorded for a URL is None exactly when the picture was stored |
| ImagePolicy.GrabberIgnoresStatus | pyImageScrape/pic_grabber.py:88-95 | the older worker does not look at the status code |
| ImagePolicy.ScrapeStoredGrabberStored | pyImageScrape/pic_grabber.py:95-106 | whatever the newer worker stores, the older one stores under the same path and hash |
| ImagePolicy.BoundaryPictureSplitsWorkers | pyImageScrape/pic_grabber.py:95 | a picture exactly at the minimum size is kept by the older worker and rejected by the newer one |
| ImagePolicy.LegacyNameIsShardTail | pyImageScrape/scraper.py:177-181 | the flat legacy file name is the last segment of the sharded path |
| ContentScraper.URLScraper.EnqueuePageLinks | pyImageScrape/scrapers/content_scraper.py:40-58 | content links enqueued are the in-scope extracted links; picture links are the img sources plus reclassified links; content is enqueued before pictures |
| ContentScraper.URLScraper.EnqueueContentLinks | pyImageScrape/scrapers/content_scraper.py:40-49 | the links read are exactly the extracted anchor links, each once, and only their in-scope part is enqueued, into the content index alone |
| ContentScraper.URLScraper.EnqueuePicLinks | pyImageScrape/scrapers/content_scraper.py:50-58 | the picture links are exactly the img sources and the reclassified content links, each once, enqueued into the picture index alone |
| ContentScraper.URLScraper.ProcessContentUrl | pyImageScrape/scrapers/content_scraper.py:33-64 | with the mark of line 64 bound to `add_visited_content_url`, the dequeued URL is marked visited whether or not the fetch succeeded, and after both enqueues |
| ContentScraper.URLScraper.ScrapeTurn | pyImageScrape/scrapers/content_scraper.py:32-64 | one loop pass with the corrected mark: None only when nothing is unvisited, and then the store is unchanged; a taken URL was unvisited and ends visited; visited flags are kept and the log only grows |
| ContentScraper.URLScraper.ScrapeUrls | pyImageScrape/scrapers/content_scraper.py:24-72 | the crawl with the corrected mark: the seed is the first write; visited flags are kept; every URL taken ends visited and is taken once; a loop ending by itself leaves no unvisited content URL |
| ContentScraper.URLScraper.ScrapeUrlsAsWritten | pyImageScrape/scrapers/content_scraper.py:24-64 | the crawl as written: the seed is the first write; the mark at line 64 raises out of the loop exactly when a URL was taken, so at most one page is crawled, that URL is still unvisited and no content URL is marked; with nothing to visit the loop ends normally |
| ContentScraper.URLScraper.FetchAndEnqueue | pyImageScrape/scrapers/content_scraper.py:36-61 | the try block alone: the fetch meets the redirect-settling rule, visited flags are kept, an unvisited URL stays unvisited, and the log grows by enqueues only, never a content mark |
| PicScraper.ImageScraper.GetAndSaveImageToFileImpl | pyImageScrape/data_scraper/pic_scraper.py:106-136 | a failure writes nothing and raises its own kind; a stored picture writes the record (keyed by hash) before the no-error mark |
| PicScraper.ImageScraper.ScrapeUrl | pyImageScrape/data_scraper/pic_scraper.py:62-82 | the URL always ends marked, with no err iff the picture was stored and otherwise with its failure's tag; it raises iff the URL is not in the picture index |
| PicScraper.ImageScraper.SetCanStopImageScraping | pyImageScrape/data_scraper/pic_scraper.py:138-139 | clears `continueScraping` and nothing else |
| PicGrabber.ImageScraper.DoGetAndSaveImageToFile | pyImageScrape/pic_grabber.py:87-107 | always raises; writes a record under the sharded path iff the picture is at least the minimum size and is saved; never marks |
| PicGrabber.ImageScraper.GetAndSaveImageToFile | pyImageScrape/pic_grabber.py:79-85 | with the mark of line 85 bound to `add_visited_pic_url`, swallows the worker's exception and always marks the URL visited with no err, after any record |
| PicGrabber.ImageScraper.GetAndSaveImageToFileAsWritten | pyImageScrape/pic_grabber.py:79-85 | the job as written: it always raises at the mark; neither URL index changes, and only the stored-picture record may be written |
| PicGrabber.ImageScraper.DispatchBatch | pyImageScrape/pic_grabber.py:64-75 | with the corrected mark, every URL of the batch is handled before the next poll and ends visited |
| PicGrabber.ImageScraper.ScrapeImages | pyImageScrape/pic_grabber.py:51-77 | with the corrected mark: the loop ends only with `continueScraping` down; empty or raising polls only end their round; every dispatched URL ends visited |
| PicGrabber.ImageScraper.RepollAsWritten | pyImageScrape/pic_grabber.py:51-85 | one round as written and the next poll: the picture index is unchanged, every URL of the batch is still unvisited, and when the frontier fits in one batch the next poll returns exactly the same URLs |
| PicGrabber.ImageScraper.StopImageScraping | pyImageScrape/pic_grabber.py:109-110 | clears `continueScraping` |
| ScrapeJobProducer.ContentJobConsumer.ScrapeUrl | pyImageScrape/producer/scrape_job_producer.py:53 | the consumer enqueues a page's links and marks the page visited (a stand-in, see "## Left out") |
| ScrapeJobProducer.SimpleScrapeJobProducer.ProduceContentUrls | pyImageScrape/producer/scrape_job_producer.py:47-55 | hands over non-None URLs until the first None, which means no unvisited content URL is left; the log only grows; with a shared store, handed URLs end visited and are handed once, which rests on the stand-in consumer marking each page (a hypothesis about the consumer) |
| ScrapeJobProducer.SimpleScrapeJobProducer.DispatchBatch | pyImageScrape/producer/scrape_job_producer.py:73-83 | every batch URL is handed to the picture consumer and completed before the next poll, and ends visited; the consumer's log only grows |
| ScrapeJobProducer.SimpleScrapeJobProducer.ProducePicUrls | pyImageScrape/producer/scrape_job_producer.py:58-85 | the loop as written: each poll asks for at most `maxPicScrapeThreads`; `picsStillExist` is False iff some poll came back empty; it ends only with the flag down after an empty poll; a raising round does not end it; the log only grows |
| ScrapeJobProducer.SimpleScrapeJobProducer.PicRoundRechecked | pyImageScrape/producer/scrape_job_producer.py:61-71 | one corrected round ends the loop only at an empty poll made with the flag down, so nothing is left to visit |
| ScrapeJobProducer.SimpleScrapeJobProducer.ProducePicUrlsRechecked | pyImageScrape/producer/scrape_job_producer.py:58-85 | the corrected loop: whatever the schedule, an ended loop leaves no picture to visit; the log only grows |
| ScrapeJobProducer.SimpleScrapeJobProducer.RunProducer | pyImageScrape/producer/scrape_job_producer.py:32-45 | the seed `[baseUrl]` is the first write; the flag is still at its initial value when the content loop returns and is down afterwards; the picture loop run is the corrected `ProducePicUrlsRechecked`, not `produce_pic_urls` as written; when both loops end, neither frontier has anything left |
| ScrapeJobProducer.PicHarvestStopsWithPicsLeft | pyImageScrape/producer/scrape_job_producer.py:60-71 | as written, an empty first poll followed by `k > 0` new pictures and the content side finishing ends the loop with `k` pictures waiting |
| ScrapeJobProducer.PicHarvestRecheckedDrains | pyImageScrape/producer/scrape_job_producer.py:60-71 | with the corrected exit, every schedule that ends the loop ends it with no picture waiting |
| LegacyScraper.Scraper.GetAndSaveImageToFile | pyImageScrape/scraper.py:170-181 | saves iff the response arrives, decodes, both sides are at least the minimum and the write succeeds, under the flat name `h.ext` (the 15-character digest prefix, then the output type or the URL's filetype); never touches the store |
| LegacyScraper.Scraper.EnqueuePageLinks | pyImageScrape/scraper.py:222-236 | the same enqueue rules as the content crawler, on the two SQLite tables |
| LegacyScraper.Scraper.EnqueueContentLinks | pyImageScrape/scraper.py:224-229 | the links read are exactly the extracted anchor links, each once, and only their in-scope part is inserted, into the content table alone |
| LegacyScraper.Scraper.EnqueuePicLinks | pyImageScrape/scraper.py:230-236 | the picture links are exactly the img sources and the reclassified content links, each once, inserted into the picture table alone |
| LegacyScraper.Scraper.SweepPictures | pyImageScrape/scraper.py:238-253 | every picture URL to visit is downloaded once, with the outcome of the download recorded for each, then all are marked whatever their outcome, so no picture is left to visit |
| LegacyScraper.Scraper.FetchAndSweep | pyImageScrape/scraper.py:220-256 | the try block: a fetched page enqueues its links, then sweeps the picture table so nothing is left to visit there; a failed fetch changes nothing |
| LegacyScraper.Scraper.CrawlPage | pyImageScrape/scraper.py:216-259 | a fetched page has its links enqueued and the picture table swept, then it is marked; a failed fetch is only marked |
| LegacyScraper.Scraper.RunTurn | pyImageScrape/scraper.py:215-259 | one loop pass: None only when no content URL is to visit; a taken URL was to visit and ends visited; visited rows are kept in both tables and the log only grows |
| LegacyScraper.Scraper.Run | pyImageScrape/scraper.py:183-267 | the seed is the first write; visited flags are kept in both tables; every URL taken ends visited and is taken once; a loop ending by itself leaves no content URL to visit |

## Left out

- Concurrency is not modelled. Thread pools, `wait` and the producer's two threads run one step at a time. `RunProducer` runs the content loop to its end, clears the flag, then runs the picture loop. `ProducePicUrls` and `ScrapeImages` take a schedule of ticks that stands in for the other thread's writes and `stop` calls.
- Unbounded loops are bounded. The `while True` loops (`ScrapeUrls`, `ProduceContentUrls`, `Run`) take a `fuel` bound. The flag-driven loops take their tick schedule. Results say whether the loop ended by itself. Nothing is claimed about crawls longer than the bound.
- Selenium is not modelled (`build_driver`, `execute_script` scrolling, `driver.quit`, the tab-count recycling at content_scraper.py:66-69 and scraper.py:262-264). They do not touch the store.
- `build_base_url` and `strippedBaseUrl` are not modelled: the crawl loops never use them.
- Logging, `print`, `time.sleep`, directory creation and `get_current_folder` are side effects with no bearing on the store.
- Store setup is not modelled: `DatabaseConnector` and `get_sqllite_datastore`, `tableSetup.sql` (`urlLoc` is assumed to be the table's unique key), and the OpenSearch `_run_setup`. `scraperCli.py` and `file_storage/local_filestorage.py` are not part of this model.
- Store failures other than an update on an id missing from the index are not modelled.
- Search refresh and result ranking are not modelled. `get_next_*_to_visit` returns some unvisited id; which of the up-to-25 hits comes first is left open.
- ProcessContentUrl (ContentScraper.URLScraper.ProcessContentUrl): binds `add_visited_content_urls([u])` of content_scraper.py:64 to `add_visited_content_url(u)`. As written the call raises `AttributeError`, so the URL is not marked (see "## Findings" and `ScrapeUrlsAsWritten`).
- ScrapeTurn (ContentScraper.URLScraper.ScrapeTurn): the same corrected mark; as written a taken URL does not end visited, and the exception leaves the loop.
- ScrapeUrls (ContentScraper.URLScraper.ScrapeUrls): the same corrected mark; as written the crawl stops with an exception after its first page, as `ScrapeUrlsAsWritten` states.
- GetAndSaveImageToFile (PicGrabber.ImageScraper.GetAndSaveImageToFile): binds `add_visited_pic_urls([u])` of pic_grabber.py:85, which no store defines, to `add_visited_pic_url(u)`. As written the job raises there and marks nothing, as `GetAndSaveImageToFileAsWritten` states.
- DispatchBatch (PicGrabber.ImageScraper.DispatchBatch): the same corrected mark; as written no URL of the batch ends visited.
- ScrapeImages (PicGrabber.ImageScraper.ScrapeImages): the same corrected mark; as written the same batch is polled and downloaded again every round until `stop`, as `RepollAsWritten` states.
- ScrapeStoredGrabberStored, BoundaryPictureSplitsWorkers and GrabberIgnoresStatus: every worker shares one `io.get`. The workers actually send different requests: a session with at most 5 redirects and a 30-second timeout (pic_scraper.py:108-111), a plain request with a 30-second timeout (pic_grabber.py:88-90), and a plain request with no timeout (scraper.py:172). The cross-worker lemmas hold only when these requests give the same response.
- `UrlScrapeJobConsumer` is imported by the producer but not defined in shared.py, and `URLScraper` has no `scrape_url`. The content consumer is therefore `ContentJobConsumer`, a stand-in that enqueues a page's links and marks the page. The picture consumer is `PicScraper.ImageScraper`.
- PicScraper.ImageScraper: `_get_and_save_image_to_file` (pic_scraper.py:84-104) repeats `scrape_url` with the output directory passed in, and is modelled by `ScrapeUrl`.
- The `a not in results` test in `parse_urls` (content_scraper.py:100, scraper.py:158) compares a tag with a set of strings and always holds, so it is omitted.
- `Lower` folds ASCII letters only; Python's `str.lower` handles all of Unicode.
- Python set iteration order is unspecified. `Enumerate` picks some order, and every property holds for all orders.
- A negative `redriectRetries` makes the fetch return `(None, None)`, and the page-parsing step then raises. The model reports `NotNavigated`, and the page is only marked.
- A document's `to_dict` drops `err=None`. The model stores `err` as an `Option`, which records the same information.
- Where the code and the written description of the system disagree, the model follows the code:
  - the status tag has a space after the colon (`HTTP_STATUS: 404`);
  - a second mark on a URL overwrites its err (last write wins);
  - the newer picture worker rejects a side exactly at the minimum (`<=`), while the older workers accept it.

## Findings

| source | as written | input that shows it | evidently intended | confidence | as-written member | corrected member |
|---|---|---|---|---|---|---|
| pyImageScrape/producer/scrape_job_producer.py:60-71 | `picsStillExist` starts True and is set False by the first empty poll and never set back. Once `continueScrapingImages` is cleared, the next loop test fails without a new poll. | The first poll comes back empty because the content side has found nothing yet. Then the content side enqueues `k > 0` pictures and finishes before the next test. The loop ends with those `k` pictures never visited. The schedule is stated on `PicHarvest`, a model of the loop's flags and of the frontier's size; no lemma derives it from the `ProducePicUrls` method. | End the loop only at an empty poll made after the content side has finished. `ProducePicUrlsRechecked` does this, and `RunProducer` uses it. | not executed | ScrapeJobProducer.PicHarvestStopsWithPicsLeft | ScrapeJobProducer.PicHarvestRecheckedDrains |
| pyImageScrape/scrapers/content_scraper.py:64 | The page is marked with `add_visited_content_urls([newUrl])`. `SimpleOpenSearchDataStore` defines only `add_visited_content_url` (opensearch_datasource.py:86), and the call sits outside the `try`, so the `AttributeError` leaves `while True`. | Any crawl whose store has the seed to visit: the first pass enqueues the seed page's links, then raises at line 64. The seed is never marked visited and no second page is crawled. | Mark the page with `add_visited_content_url(newUrl)` and go on with the next URL. | not executed | ContentScraper.URLScraper.ScrapeUrlsAsWritten | ContentScraper.URLScraper.ScrapeUrls |
| pyImageScrape/pic_grabber.py:85 | Each job marks its URL with `add_visited_pic_urls([image_url])`, which no store defines (shared.py:29 has only `add_visited_pic_url`). The `AttributeError` stays in the job's future, and `wait` does not raise it. | A picture index with one unvisited URL: every round polls that URL, downloads it, and leaves it unvisited, so the next poll returns it again until `stop_image_scraping` is called. | Mark the URL with `add_visited_pic_url(image_url)`. | not executed | PicGrabber.ImageScraper.RepollAsWritten | PicGrabber.ImageScraper.ScrapeImages |
