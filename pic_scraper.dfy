/** The picture worker of data_scraper/pic_scraper.py: `ImageScraper.scrape_url` downloads one
    picture URL, stores it under its sharded path when it passes the checks, and marks the URL
    visited, recording why it failed otherwise. */
module PicScraper {
  import opened Common
  import opened UrlRules
  import opened OpenSearchDatasource
  import opened ImagePolicy

  const DefaultMaxThreads: nat := 8
  const DefaultMinWidth: nat := 400
  const DefaultMinHeight: nat := 300
  const DefaultOutputType := "png"

  class ImageScraper {
    const dataStore: SimpleOpenSearchDataStore
    const io: ImageIO
    const maxThreads: nat
    const imageMinWidth: nat
    const imageMinHeight: nat
    const outputType: string
    var continueScraping: bool

    /** `__init__`; the thread pool refuses a worker count of zero. */
    constructor (dataStore: SimpleOpenSearchDataStore, io: ImageIO, maxThreads: nat,
                 imageMinWidth: nat, imageMinHeight: nat, outputType: string)
      requires maxThreads > 0
      ensures this.dataStore == dataStore && this.io == io && this.maxThreads == maxThreads
      ensures this.imageMinWidth == imageMinWidth && this.imageMinHeight == imageMinHeight
      ensures this.outputType == outputType && continueScraping
    {
      this.dataStore := dataStore;
      this.io := io;
      this.maxThreads := maxThreads;
      this.imageMinWidth := imageMinWidth;
      this.imageMinHeight := imageMinHeight;
      this.outputType := outputType;
      continueScraping := true;
    }

    function Outcome(imageUrl: string): ImageOutcome
      reads this
    {
      ScrapeOutcome(io, imageUrl, imageMinWidth, imageMinHeight, outputType)
    }

    /** _get_and_save_image_to_file_impl: the exception it ends with, or None when it completes.
        Only a stored picture writes to the store: the record first, then the visited mark; a
        mark on an id the index does not hold raises, which scrape_url reports as an unknown
        failure. */
    method GetAndSaveImageToFileImpl(imageUrl: string) returns (raised: Option<Failure>)
      modifies dataStore
      ensures Outcome(imageUrl).Failed? ==>
        raised == Some(Outcome(imageUrl).failure)
        && dataStore.picUrlIndex == old(dataStore.picUrlIndex)
        && dataStore.storedPicIndex == old(dataStore.storedPicIndex)
        && dataStore.log == old(dataStore.log)
      ensures Outcome(imageUrl).Stored? ==>
        var f := Outcome(imageUrl).file;
        raised == (if imageUrl in old(dataStore.picUrlIndex) then None else Some(OtherFailure))
        && dataStore.picUrlIndex == MarkedVisited(old(dataStore.picUrlIndex), imageUrl, None)
        && dataStore.storedPicIndex == old(dataStore.storedPicIndex)[f.hash := StoredPic(f.filePath, imageUrl)]
        && dataStore.log == old(dataStore.log) + [SaveStoredPic(imageUrl, f.filePath, f.hash), MarkPic(imageUrl, None)]
      ensures dataStore.urlIndex == old(dataStore.urlIndex)
    {
      var response := io.get(imageUrl);
      match response {
        case Timeout =>
          raised := Some(RequestTimeout);
        case TooManyRedirects =>
          raised := Some(RequestTooManyRedirects);
        case OtherRequestError =>
          raised := Some(RequestFailed);
        case Response(statusCode, imageContent) =>
          if statusCode != StatusOk {
            return Some(ImgReqFailed(statusCode));
          }
          var image := io.decode(imageContent);
          if image.DecodeFailed? {
            return Some(OtherFailure);
          }
          var width, height := image.width, image.height;
          if width <= imageMinWidth || height <= imageMinHeight {
            return Some(ImgTooSmall(width, height));
          }
          var urlType := if outputType != "" then outputType else GetUrlFiletype(imageUrl);
          var digest := io.sha1(imageContent);
          var filesha := HashPrefix(digest);
          // fileRelFolder + "/" + filename, with filename = filesha + "." + urlType
          var fileRelPath := ShardPath(filesha, urlType);
          if !io.save(fileRelPath) {
            return Some(OtherFailure);
          }
          dataStore.AddStoredPicUrl(imageUrl, fileRelPath, filesha);
          var notFound := dataStore.AddVisitedPicUrl(imageUrl, None);
          raised := if notFound then Some(OtherFailure) else None;
      }
    }

    /** scrape_url: run the worker, and on any failure mark the URL visited with the failure's
        tag. The URL always ends up marked, with no error exactly when the picture was stored. The
        call itself raises only when the URL is not in the picture index. */
    method ScrapeUrl(url: string) returns (raised: bool)
      modifies dataStore
      ensures raised <==> url !in old(dataStore.picUrlIndex)
      ensures dataStore.picUrlIndex == MarkedVisited(old(dataStore.picUrlIndex), url, RecordedErr(Outcome(url)))
      ensures Outcome(url).Stored? ==>
        var f := Outcome(url).file;
        dataStore.storedPicIndex == old(dataStore.storedPicIndex)[f.hash := StoredPic(f.filePath, url)]
        && dataStore.log == old(dataStore.log) + [SaveStoredPic(url, f.filePath, f.hash), MarkPic(url, None)]
             + (if url in old(dataStore.picUrlIndex) then [] else [MarkPic(url, Some(ErrorTag(OtherFailure)))])
      ensures Outcome(url).Failed? ==>
        dataStore.storedPicIndex == old(dataStore.storedPicIndex)
        && dataStore.log == old(dataStore.log) + [MarkPic(url, Some(ErrorTag(Outcome(url).failure)))]
      ensures dataStore.urlIndex == old(dataStore.urlIndex)
      ensures VisitedKept(old(dataStore.picUrlIndex), dataStore.picUrlIndex)
      ensures url in old(dataStore.picUrlIndex) ==> dataStore.picUrlIndex[url].visited
    {
      var failure := GetAndSaveImageToFileImpl(url);
      if failure.Some? {
        raised := dataStore.AddVisitedPicUrl(url, Some(ErrorTag(failure.value)));
      } else {
        raised := false;
      }
      VisitedMonotone(old(dataStore.picUrlIndex), PicUrls, [], url, RecordedErr(Outcome(url)));
      MarkedLastWriteWins(old(dataStore.picUrlIndex), url, None, RecordedErr(Outcome(url)));
    }

    /** set_can_stop_image_scraping. */
    method SetCanStopImageScraping()
      modifies this`continueScraping
      ensures !continueScraping
    {
      continueScraping := false;
    }
  }
}
