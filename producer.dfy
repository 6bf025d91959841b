/** The job producer of producer/scrape_job_producer.py: it seeds the content frontier, hands
    content URLs one at a time to a content consumer, and hands batches of picture URLs to a
    picture consumer until the content side has finished and no picture is left. */
module ScrapeJobProducer {
  import opened Common
  import opened OpenSearchDatasource
  import opened Browsing
  import PicScraper

  /** The thread pool refuses zero workers, so a pool size is positive. */
  type PoolSize = n: nat | n > 0 witness 1

  const DefaultMaxPicScrapeThreads: PoolSize := 8

  /** The content side of the producer. The consumer type the producer names is not defined in
      the repository, so this is what every content consumer there does with a URL: enqueue the
      links its page yields (`contentLinks`, `picLinks`) and mark the URL visited. */
  class ContentJobConsumer {
    const dataStore: SimpleOpenSearchDataStore
    const contentLinks: string -> seq<string>
    const picLinks: string -> seq<string>

    constructor (dataStore: SimpleOpenSearchDataStore, contentLinks: string -> seq<string>, picLinks: string -> seq<string>)
      ensures this.dataStore == dataStore && this.contentLinks == contentLinks && this.picLinks == picLinks
    {
      this.dataStore := dataStore;
      this.contentLinks := contentLinks;
      this.picLinks := picLinks;
    }

    method ScrapeUrl(url: string)
      modifies dataStore
      ensures dataStore.urlIndex == MarkedVisited(Enqueued(old(dataStore.urlIndex), ContentUrls, contentLinks(url)), url, None)
      ensures dataStore.picUrlIndex == Enqueued(old(dataStore.picUrlIndex), PicUrls, picLinks(url))
      ensures dataStore.storedPicIndex == old(dataStore.storedPicIndex)
      ensures dataStore.log == old(dataStore.log)
        + [EnqueueContent(contentLinks(url)), EnqueuePics(picLinks(url)), MarkContent(url, None)]
      ensures url in old(dataStore.urlIndex) ==>
        VisitedKept(old(dataStore.urlIndex), dataStore.urlIndex) && dataStore.urlIndex[url].visited
    {
      dataStore.AddToVisitContentUrls(contentLinks(url));
      dataStore.AddToVisitPicUrls(picLinks(url));
      var _ := dataStore.AddVisitedContentUrl(url, None);
      if url in old(dataStore.urlIndex) {
        EnqueueThenMark(old(dataStore.urlIndex), ContentUrls, contentLinks(url), url, None);
      }
    }
  }

  /** What happens around one test of the picture loop: the content side enqueues `enqueued`
      and, when `contentFinished`, run_producer clears `continueScrapingImages`; `pollRaises`
      says that round's get_all_pics_to_visit raises. */
  datatype PicTick = PicTick(enqueued: seq<string>, contentFinished: bool, pollRaises: bool)

  class SimpleScrapeJobProducer {
    const baseUrl: string
    const dataStore: SimpleOpenSearchDataStore
    const contentJobConsumer: ContentJobConsumer
    const picJobConsumer: PicScraper.ImageScraper
    const maxPicScrapeThreads: PoolSize
    var continueScrapingImages: bool

    constructor (baseUrl: string, dataStore: SimpleOpenSearchDataStore, contentJobConsumer: ContentJobConsumer,
                 picJobConsumer: PicScraper.ImageScraper, maxPicScrapeThreads: PoolSize)
      ensures this.baseUrl == baseUrl && this.dataStore == dataStore
      ensures this.contentJobConsumer == contentJobConsumer && this.picJobConsumer == picJobConsumer
      ensures this.maxPicScrapeThreads == maxPicScrapeThreads && continueScrapingImages
    {
      this.baseUrl := baseUrl;
      this.dataStore := dataStore;
      this.contentJobConsumer := contentJobConsumer;
      this.picJobConsumer := picJobConsumer;
      this.maxPicScrapeThreads := maxPicScrapeThreads;
      continueScrapingImages := true;
    }

    /** produce_content_urls, for at most `fuel` URLs: hand each unvisited URL to the content
        consumer until the store reports none. When the consumer writes to the producer's own
        store, every URL handed over ends up visited and none is handed over twice. */
    method ProduceContentUrls(fuel: nat) returns (drained: bool, handed: seq<string>)
      modifies dataStore, contentJobConsumer.dataStore
      ensures drained ==> Unvisited(dataStore.urlIndex) == {}
      ensures !drained ==> |handed| == fuel
      ensures |handed| <= fuel
      ensures old(dataStore.log) <= dataStore.log
      ensures contentJobConsumer.dataStore == dataStore ==>
        VisitedKept(old(dataStore.urlIndex), dataStore.urlIndex)
        && (forall i :: 0 <= i < |handed| ==> handed[i] in dataStore.urlIndex && dataStore.urlIndex[handed[i]].visited)
        && Distinct(handed)
    {
      drained, handed := false, [];
      while !drained && |handed| < fuel
        invariant drained ==> Unvisited(dataStore.urlIndex) == {}
        invariant |handed| <= fuel
        invariant old(dataStore.log) <= dataStore.log
        invariant contentJobConsumer.dataStore == dataStore ==>
          VisitedKept(old(dataStore.urlIndex), dataStore.urlIndex)
          && (forall i :: 0 <= i < |handed| ==> handed[i] in dataStore.urlIndex && dataStore.urlIndex[handed[i]].visited)
          && Distinct(handed)
        decreases fuel - |handed|, if drained then 0 else 1
      {
        var newUrl := dataStore.GetNextContentToVisit();
        if newUrl.None? {
          drained := true;
        } else {
          var u := newUrl.value;
          ghost var before := dataStore.urlIndex;
          contentJobConsumer.ScrapeUrl(u);
          if contentJobConsumer.dataStore == dataStore {
            VisitedKeptTrans(old(dataStore.urlIndex), before, dataStore.urlIndex);
          }
          handed := handed + [u];
        }
      }
    }

    /** One round's submissions: every URL of the batch goes to the picture consumer, and the
        round waits for all of them. What a job raises stays in its future. */
    method DispatchBatch(batch: seq<string>)
      modifies picJobConsumer.dataStore
      ensures picJobConsumer.dataStore.urlIndex == old(picJobConsumer.dataStore.urlIndex)
      ensures VisitedKept(old(picJobConsumer.dataStore.picUrlIndex), picJobConsumer.dataStore.picUrlIndex)
      ensures forall i :: 0 <= i < |batch| && batch[i] in old(picJobConsumer.dataStore.picUrlIndex) ==>
        picJobConsumer.dataStore.picUrlIndex[batch[i]].visited
      ensures old(picJobConsumer.dataStore.log) <= picJobConsumer.dataStore.log
    {
      var store := picJobConsumer.dataStore;
      for k := 0 to |batch|
        invariant store.urlIndex == old(store.urlIndex)
        invariant old(store.log) <= store.log
        invariant VisitedKept(old(store.picUrlIndex), store.picUrlIndex)
        invariant forall i :: 0 <= i < k && batch[i] in old(store.picUrlIndex) ==> store.picUrlIndex[batch[i]].visited
      {
        ghost var before := store.picUrlIndex;
        var _ := picJobConsumer.ScrapeUrl(batch[k]);
        VisitedKeptTrans(old(store.picUrlIndex), before, store.picUrlIndex);
      }
    }

    /** produce_pic_urls as written, over the schedule `ticks`: poll a batch of at most
        `maxPicScrapeThreads` unvisited pictures and dispatch it; an empty poll clears
        `picsStillExist` for good; a raising poll only ends its round. The loop ends when the
        flag is cleared and some poll has come back empty. `polls` lists the sizes of the polls
        made. Only when the flag was already down and nothing is enqueued meanwhile does an
        ended loop leave no picture to visit. */
    method ProducePicUrls(ticks: seq<PicTick>) returns (finished: bool, picsStillExist: bool, rounds: nat, polls: seq<nat>)
      modifies this`continueScrapingImages, dataStore, picJobConsumer.dataStore
      ensures picsStillExist <==> 0 !in polls
      ensures forall i :: 0 <= i < |polls| ==> polls[i] <= maxPicScrapeThreads
      ensures finished ==> !continueScrapingImages && !picsStillExist
      ensures !old(continueScrapingImages) ==> !continueScrapingImages
      ensures rounds <= |ticks| && |polls| <= rounds
      ensures !finished ==> rounds == |ticks|
      ensures (!old(continueScrapingImages) && forall i :: 0 <= i < |ticks| ==> ticks[i].enqueued == []) ==>
        (finished ==> Unvisited(dataStore.picUrlIndex) == {})
      ensures dataStore.urlIndex == old(dataStore.urlIndex)
      ensures old(dataStore.log) <= dataStore.log
    {
      ghost var quiet := !continueScrapingImages && forall i :: 0 <= i < |ticks| ==> ticks[i].enqueued == [];
      finished, picsStillExist, rounds, polls := false, true, 0, [];
      while rounds < |ticks| && !finished
        invariant rounds <= |ticks| && |polls| <= rounds
        invariant picsStillExist <==> 0 !in polls
        invariant forall i :: 0 <= i < |polls| ==> polls[i] <= maxPicScrapeThreads
        invariant finished ==> !continueScrapingImages && !picsStillExist
        invariant !old(continueScrapingImages) ==> !continueScrapingImages
        invariant quiet ==> !continueScrapingImages && (!picsStillExist ==> Unvisited(dataStore.picUrlIndex) == {})
        invariant dataStore.urlIndex == old(dataStore.urlIndex)
        invariant old(dataStore.log) <= dataStore.log
        decreases |ticks| - rounds, if finished then 0 else 1
      {
        var t := ticks[rounds];
        if t.enqueued != [] {
          dataStore.AddToVisitPicUrls(t.enqueued);
        }
        if t.contentFinished {
          continueScrapingImages := false;
        }
        if !(continueScrapingImages || picsStillExist) {
          finished := true;
        } else {
          if !t.pollRaises {
            var allToVisit := dataStore.GetAllPicsToVisit(maxPicScrapeThreads);
            polls := polls + [|allToVisit|];
            if |allToVisit| == 0 {
              picsStillExist := false;
            } else {
              DispatchBatch(allToVisit);
            }
          }
          rounds := rounds + 1;
        }
      }
    }

    /** One round of the corrected loop: enqueue what the content side found, read the flag,
        then poll; the round ends the loop only when that poll is empty and the flag was down. */
    method PicRoundRechecked(t: PicTick) returns (finished: bool)
      modifies this`continueScrapingImages, dataStore, picJobConsumer.dataStore
      ensures finished ==> !continueScrapingImages && Unvisited(dataStore.picUrlIndex) == {}
      ensures !old(continueScrapingImages) ==> !continueScrapingImages
      ensures dataStore.urlIndex == old(dataStore.urlIndex)
      ensures old(dataStore.log) <= dataStore.log
    {
      if t.enqueued != [] {
        dataStore.AddToVisitPicUrls(t.enqueued);
      }
      if t.contentFinished {
        continueScrapingImages := false;
      }
      var contentDone := !continueScrapingImages;
      finished := false;
      if !t.pollRaises {
        var allToVisit := dataStore.GetAllPicsToVisit(maxPicScrapeThreads);
        if |allToVisit| == 0 {
          finished := contentDone;
        } else {
          DispatchBatch(allToVisit);
          assert finished == false;
        }
      }
    }

    /** produce_pic_urls with the exit it evidently intends: the loop ends only at an empty poll
        made after the content side has finished, so an ended loop leaves no picture to visit. */
    method ProducePicUrlsRechecked(ticks: seq<PicTick>) returns (finished: bool, rounds: nat)
      modifies this`continueScrapingImages, dataStore, picJobConsumer.dataStore
      ensures finished ==> !continueScrapingImages && Unvisited(dataStore.picUrlIndex) == {}
      ensures !old(continueScrapingImages) ==> !continueScrapingImages
      ensures rounds <= |ticks|
      ensures !finished ==> rounds == |ticks|
      ensures dataStore.urlIndex == old(dataStore.urlIndex)
      ensures old(dataStore.log) <= dataStore.log
    {
      finished, rounds := false, 0;
      while rounds < |ticks| && !finished
        invariant rounds <= |ticks|
        invariant finished ==> !continueScrapingImages && Unvisited(dataStore.picUrlIndex) == {}
        invariant !old(continueScrapingImages) ==> !continueScrapingImages
        invariant dataStore.urlIndex == old(dataStore.urlIndex)
        invariant old(dataStore.log) <= dataStore.log
        decreases |ticks| - rounds, if finished then 0 else 1
      {
        finished := PicRoundRechecked(ticks[rounds]);
        rounds := rounds + 1;
      }
    }

    /** run_producer with its two threads run one after the other: seed the frontier with the
        base URL, run the content loop, clear `continueScrapingImages` once it returns, then run
        the picture loop, with the corrected exit of `ProducePicUrlsRechecked`. The seed is the
        producer's first write; `flagAtContentReturn` is the flag as the content loop returns,
        still as it was at the start, and the flag is down afterwards. When both loops end by
        themselves, no content URL and no picture URL is left to visit. */
    method RunProducer(contentFuel: nat, picRounds: nat) returns (contentDrained: bool, picsFinished: bool, ghost flagAtContentReturn: bool)
      modifies this`continueScrapingImages, dataStore, contentJobConsumer.dataStore, picJobConsumer.dataStore
      ensures |dataStore.log| > |old(dataStore.log)| && dataStore.log[|old(dataStore.log)|] == EnqueueContent([baseUrl])
      ensures flagAtContentReturn == old(continueScrapingImages)
      ensures !continueScrapingImages
      ensures contentDrained && picsFinished ==>
        Unvisited(dataStore.urlIndex) == {} && Unvisited(dataStore.picUrlIndex) == {}
    {
      dataStore.AddToVisitContentUrls([baseUrl]);
      ghost var seedLen := |old(dataStore.log)|;
      ghost var seeded := dataStore.log;
      var handed;
      contentDrained, handed := ProduceContentUrls(contentFuel);
      flagAtContentReturn := continueScrapingImages;
      continueScrapingImages := false;
      var quietTicks := seq(picRounds, _ => PicTick([], false, false));
      var rounds;
      picsFinished, rounds := ProducePicUrlsRechecked(quietTicks);
      assert seeded[seedLen] == dataStore.log[seedLen];
    }
  }

  /** The bookkeeping of the picture loop on frontier sizes: the flag, `picsStillExist`, the
      number of pictures waiting, and whether the loop has ended. */
  datatype Harvest = Harvest(flag: bool, picsStillExist: bool, frontier: nat, finished: bool)

  /** What happens around one loop test, counted: `added` new pictures are enqueued. */
  datatype HarvestTick = HarvestTick(added: nat, contentFinished: bool, pollRaises: bool)

  /** One round of produce_pic_urls as written: a poll takes `Min(n, frontier)` pictures, and
      only an empty poll touches `picsStillExist`. */
  function HarvestRound(h: Harvest, t: HarvestTick, n: nat): Harvest {
    var frontier := h.frontier + t.added;
    var flag := h.flag && !t.contentFinished;
    if !(flag || h.picsStillExist) then Harvest(flag, h.picsStillExist, frontier, true)
    else if t.pollRaises then Harvest(flag, h.picsStillExist, frontier, false)
    else
      var batch := Min(n, frontier);
      if batch == 0 then Harvest(flag, false, frontier, false)
      else Harvest(flag, h.picsStillExist, frontier - batch, false)
  }

  function PicHarvest(h: Harvest, ticks: seq<HarvestTick>, n: nat): Harvest
    decreases |ticks|
  {
    if ticks == [] || h.finished then h else PicHarvest(HarvestRound(h, ticks[0], n), ticks[1..], n)
  }

  /** As written, the loop can end with pictures waiting: an empty first poll (the content side
      has found nothing yet), then the content side enqueues `k` pictures and finishes before
      the next test, and the loop stops without polling them. */
  lemma PicHarvestStopsWithPicsLeft(n: PoolSize, k: nat)
    requires k > 0
    ensures var h := PicHarvest(Harvest(true, true, 0, false),
                                [HarvestTick(0, false, false), HarvestTick(k, true, false)], n);
      h.finished && h.frontier == k
  {
    var ticks := [HarvestTick(0, false, false), HarvestTick(k, true, false)];
    var h0 := Harvest(true, true, 0, false);
    var h1 := HarvestRound(h0, ticks[0], n);
    assert h1 == Harvest(true, false, 0, false);
    var h2 := HarvestRound(h1, ticks[1], n);
    assert h2 == Harvest(false, false, k, true);
    assert PicHarvest(h1, ticks[1..], n) == PicHarvest(h2, ticks[1..][1..], n);
  }

  /** The corrected round: `picsStillExist` follows the latest poll, and the loop ends at an
      empty poll made after the content side has finished. */
  function HarvestRoundRechecked(h: Harvest, t: HarvestTick, n: nat): Harvest {
    var frontier := h.frontier + t.added;
    var flag := h.flag && !t.contentFinished;
    if t.pollRaises then Harvest(flag, h.picsStillExist, frontier, false)
    else
      var batch := Min(n, frontier);
      if batch == 0 then Harvest(flag, false, frontier, !flag)
      else Harvest(flag, true, frontier - batch, false)
  }

  function PicHarvestRechecked(h: Harvest, ticks: seq<HarvestTick>, n: nat): Harvest
    decreases |ticks|
  {
    if ticks == [] || h.finished then h else PicHarvestRechecked(HarvestRoundRechecked(h, ticks[0], n), ticks[1..], n)
  }

  /** With the corrected exit, whatever the schedule, an ended loop has no picture waiting. */
  lemma {:induction false} PicHarvestRecheckedDrains(h: Harvest, ticks: seq<HarvestTick>, n: PoolSize)
    requires h.finished ==> h.frontier == 0
    ensures PicHarvestRechecked(h, ticks, n).finished ==> PicHarvestRechecked(h, ticks, n).frontier == 0
    decreases |ticks|
  {
    if ticks != [] && !h.finished {
      var h' := HarvestRoundRechecked(h, ticks[0], n);
      assert h'.finished ==> h'.frontier == 0;
      PicHarvestRecheckedDrains(h', ticks[1..], n);
    }
  }
}
