/** The older picture worker of pic_grabber.py: `ImageScraper.scrape_images` polls the picture
    frontier in batches and hands every URL to `get_and_save_image_to_file`, which records the
    picture when it is large enough and always marks the URL visited. */
module PicGrabber {
  import opened Common
  import opened OpenSearchDatasource
  import opened ImagePolicy

  const DefaultMaxThreads: nat := 8
  const DefaultMinWidth: nat := 400
  const DefaultMinHeight: nat := 300
  const DefaultOutputType := "png"

  /** What happens around one test of the loop: whether stop_image_scraping has been called
      meanwhile, and whether that round's get_all_pics_to_visit raises. */
  datatype GrabTick = GrabTick(stopRequested: bool, pollRaises: bool)

  class ImageScraper {
    const dataStore: SimpleOpenSearchDataStore
    const io: ImageIO
    const maxThreads: nat
    const imageMinWidth: nat
    const imageMinHeight: nat
    const outputType: string
    var continueScraping: bool

    /** `__init__`; the thread pool refuses a worker count of zero. */
    constructor (dataStore: SimpleOpenSearchDataStore, io: ImageIO, maxThreads: nat,
                 imageMinWidth: nat, imageMinHeight: nat, outputType: string)
      requires maxThreads > 0
      ensures this.dataStore == dataStore && this.io == io && this.maxThreads == maxThreads
      ensures this.imageMinWidth == imageMinWidth && this.imageMinHeight == imageMinHeight
      ensures this.outputType == outputType && continueScraping
    {
      this.dataStore := dataStore;
      this.io := io;
      this.maxThreads := maxThreads;
      this.imageMinWidth := imageMinWidth;
      this.imageMinHeight := imageMinHeight;
      this.outputType := outputType;
      continueScraping := true;
    }

    function Saved(imageUrl: string): Option<StoredFile>
      reads this
    {
      GrabberSave(io, imageUrl, imageMinWidth, imageMinHeight, outputType)
    }

    /** _get_and_save_image_to_file: download and decode without looking at the status, and
        when the picture is at least the minimum size, write it under its sharded path and
        record it. It raises on every path, the successful one included. */
    method DoGetAndSaveImageToFile(imageUrl: string) returns (raised: bool)
      modifies dataStore
      ensures raised
      ensures Saved(imageUrl).Some? ==>
        var f := Saved(imageUrl).value;
        dataStore.storedPicIndex == old(dataStore.storedPicIndex)[f.hash := StoredPic(f.filePath, imageUrl)]
        && dataStore.log == old(dataStore.log) + [SaveStoredPic(imageUrl, f.filePath, f.hash)]
      ensures Saved(imageUrl).None? ==>
        dataStore.storedPicIndex == old(dataStore.storedPicIndex) && dataStore.log == old(dataStore.log)
      ensures dataStore.urlIndex == old(dataStore.urlIndex) && dataStore.picUrlIndex == old(dataStore.picUrlIndex)
    {
      raised := true;
      var response := io.get(imageUrl);
      if !response.Response? {
        return;
      }
      var imageContent := response.content;
      var image := io.decode(imageContent);
      if image.DecodeFailed? {
        return;
      }
      var width, height := image.width, image.height;
      if width >= imageMinWidth && height >= imageMinHeight {
        var urlType := if outputType != "" then outputType else UrlRules.GetUrlFiletype(imageUrl);
        var digest := io.sha1(imageContent);
        var filesha := HashPrefix(digest);
        // fileRelFolder + "/" + filename, with filename = filesha + "." + urlType
        var fileRelPath := ShardPath(filesha, urlType);
        if io.save(fileRelPath) {
          dataStore.AddStoredPicUrl(imageUrl, fileRelPath, filesha);
        }
      }
    }

    /** get_and_save_image_to_file: whatever the worker raised is swallowed, and the URL is then
        marked visited with no error, whether or not the picture was kept. */
    method GetAndSaveImageToFile(imageUrl: string)
      modifies dataStore
      ensures dataStore.picUrlIndex == MarkedVisited(old(dataStore.picUrlIndex), imageUrl, None)
      ensures Saved(imageUrl).Some? ==>
        var f := Saved(imageUrl).value;
        dataStore.storedPicIndex == old(dataStore.storedPicIndex)[f.hash := StoredPic(f.filePath, imageUrl)]
        && dataStore.log == old(dataStore.log) + [SaveStoredPic(imageUrl, f.filePath, f.hash), MarkPic(imageUrl, None)]
      ensures Saved(imageUrl).None? ==>
        dataStore.storedPicIndex == old(dataStore.storedPicIndex)
        && dataStore.log == old(dataStore.log) + [MarkPic(imageUrl, None)]
      ensures dataStore.urlIndex == old(dataStore.urlIndex)
      ensures VisitedKept(old(dataStore.picUrlIndex), dataStore.picUrlIndex)
      ensures imageUrl in old(dataStore.picUrlIndex) ==> dataStore.picUrlIndex[imageUrl].visited
    {
      var _ := DoGetAndSaveImageToFile(imageUrl);
      // add_visited_pic_urls([image_url]): one URL, marked with no error
      var _ := dataStore.AddVisitedPicUrl(imageUrl, None);
      VisitedMonotone(old(dataStore.picUrlIndex), PicUrls, [], imageUrl, None);
    }

    /** get_and_save_image_to_file as written: after the worker it calls `add_visited_pic_urls`,
        which no store defines. The AttributeError is raised inside the pool's job, where the
        future keeps it, so the URL is never marked; only the picture record may be written. */
    method GetAndSaveImageToFileAsWritten(imageUrl: string) returns (raised: bool)
      modifies dataStore
      ensures raised
      ensures dataStore.picUrlIndex == old(dataStore.picUrlIndex) && dataStore.urlIndex == old(dataStore.urlIndex)
      ensures Saved(imageUrl).Some? ==>
        var f := Saved(imageUrl).value;
        dataStore.storedPicIndex == old(dataStore.storedPicIndex)[f.hash := StoredPic(f.filePath, imageUrl)]
      ensures Saved(imageUrl).None? ==> dataStore.storedPicIndex == old(dataStore.storedPicIndex)
    {
      var _ := DoGetAndSaveImageToFile(imageUrl);
      // add_visited_pic_urls([image_url]): AttributeError, kept by the future
      raised := true;
    }

    /** One round of scrape_images as written: poll, run the as-written job on every URL, and poll
        again. Nothing is marked, so every URL of the first poll is still unvisited at the second
        poll, and when the frontier fits in one poll the second poll returns the same URLs: the
        grabber downloads the same batch round after round until it is stopped. */
    method RepollAsWritten() returns (batch: seq<string>, next: seq<string>)
      modifies dataStore
      ensures dataStore.picUrlIndex == old(dataStore.picUrlIndex)
      ensures forall i :: 0 <= i < |batch| ==> batch[i] in Unvisited(dataStore.picUrlIndex)
      ensures |Unvisited(old(dataStore.picUrlIndex))| <= DefaultPicBatch ==>
        (set u | u in next) == (set u | u in batch) == Unvisited(dataStore.picUrlIndex)
    {
      batch := dataStore.GetAllPicsToVisit(DefaultPicBatch);
      for k := 0 to |batch|
        invariant dataStore.picUrlIndex == old(dataStore.picUrlIndex)
      {
        var _ := GetAndSaveImageToFileAsWritten(batch[k]);
      }
      next := dataStore.GetAllPicsToVisit(DefaultPicBatch);
      if |Unvisited(old(dataStore.picUrlIndex))| <= DefaultPicBatch {
        PollCoversFrontier(batch, Unvisited(dataStore.picUrlIndex));
        PollCoversFrontier(next, Unvisited(dataStore.picUrlIndex));
      }
    }

    /** One round's submissions, each waited for. */
    method DispatchBatch(batch: seq<string>)
      modifies dataStore
      ensures dataStore.urlIndex == old(dataStore.urlIndex)
      ensures VisitedKept(old(dataStore.picUrlIndex), dataStore.picUrlIndex)
      ensures forall i :: 0 <= i < |batch| && batch[i] in old(dataStore.picUrlIndex) ==>
        dataStore.picUrlIndex[batch[i]].visited
    {
      for k := 0 to |batch|
        invariant dataStore.urlIndex == old(dataStore.urlIndex)
        invariant VisitedKept(old(dataStore.picUrlIndex), dataStore.picUrlIndex)
        invariant forall i :: 0 <= i < k && batch[i] in old(dataStore.picUrlIndex) ==> dataStore.picUrlIndex[batch[i]].visited
      {
        ghost var before := dataStore.picUrlIndex;
        GetAndSaveImageToFile(batch[k]);
        VisitedKeptTrans(old(dataStore.picUrlIndex), before, dataStore.picUrlIndex);
      }
    }

    /** scrape_images over the schedule `ticks`: while `continueScraping` holds, poll a batch of
        unvisited pictures and dispatch it; an empty or raising poll only ends its round. The loop
        ends only when the flag is down. Every URL dispatched ends up visited. */
    method ScrapeImages(ticks: seq<GrabTick>) returns (finished: bool, rounds: nat, dispatched: seq<string>)
      modifies this`continueScraping, dataStore
      ensures finished ==> !continueScraping
      ensures rounds <= |ticks|
      ensures !finished ==> rounds == |ticks|
      ensures VisitedKept(old(dataStore.picUrlIndex), dataStore.picUrlIndex)
      ensures forall i :: 0 <= i < |dispatched| ==>
        dispatched[i] in dataStore.picUrlIndex && dataStore.picUrlIndex[dispatched[i]].visited
      ensures dataStore.urlIndex == old(dataStore.urlIndex)
    {
      finished, rounds, dispatched := false, 0, [];
      while rounds < |ticks| && !finished
        invariant rounds <= |ticks|
        invariant finished ==> !continueScraping
        invariant VisitedKept(old(dataStore.picUrlIndex), dataStore.picUrlIndex)
        invariant forall i :: 0 <= i < |dispatched| ==>
          dispatched[i] in dataStore.picUrlIndex && dataStore.picUrlIndex[dispatched[i]].visited
        invariant dataStore.urlIndex == old(dataStore.urlIndex)
        decreases |ticks| - rounds, if finished then 0 else 1
      {
        if ticks[rounds].stopRequested {
          continueScraping := false;
        }
        if !continueScraping {
          finished := true;
        } else {
          if !ticks[rounds].pollRaises {
            var allToVisit := dataStore.GetAllPicsToVisit(DefaultPicBatch);
            if |allToVisit| > 0 {
              ghost var before := dataStore.picUrlIndex;
              DispatchBatch(allToVisit);
              VisitedKeptTrans(old(dataStore.picUrlIndex), before, dataStore.picUrlIndex);
              dispatched := dispatched + allToVisit;
            }
          }
          rounds := rounds + 1;
        }
      }
    }

    /** stop_image_scraping. */
    method StopImageScraping()
      modifies this`continueScraping
      ensures !continueScraping
    {
      continueScraping := false;
    }
  }
}
