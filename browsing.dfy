/** The page-side steps shared by both content crawlers (scrapers/content_scraper.py and the
    older scraper.py, where they are written out twice): the redirect-settling fetch, link
    extraction, the crawl-scope filter and the picture-link filter. */
module Browsing {
  import opened Common
  import opened UrlRules

  /** What the browser shows after one navigation: the URL it settled on and the page source, or
      an exception from `driver.get`. */
  datatype Navigation = Loaded(currentUrl: string, pageSource: string) | NavigationFailed

  /** A headless browser session. Navigations are numbered from 0 within the session and
      `browse(url, n)` is what the `n`-th navigation shows, so a site that redirects differently
      on each visit is covered. */
  class Driver {
    const browse: (string, nat) -> Navigation
    var navigations: nat

    constructor (browse: (string, nat) -> Navigation)
      ensures this.browse == browse && navigations == 0
    {
      this.browse := browse;
      navigations := 0;
    }

    /** `driver.get(url)` followed by reading `current_url` and `page_source`. */
    method Get(url: string) returns (nav: Navigation)
      modifies this
      ensures navigations == old(navigations) + 1
      ensures nav == browse(url, old(navigations))
    {
      nav := browse(url, navigations);
      navigations := navigations + 1;
    }
  }

  /** The result of get_content_from_url: the settled URL and the page, no navigation at all
      (a negative retry count), or the exception of a failed navigation. */
  datatype FetchResult = Fetched(currentUrl: string, content: string) | NotNavigated | FetchRaised

  /** get_content_from_url with `redriectRetries = retries`, for a session that had made `n0`
      navigations before and `n1` after: at most `retries + 1` navigations, each one except the
      last showing a different URL; the last one is returned, and it shows the requested URL
      unless the bound was reached. */
  predicate FetchSpec(browse: (string, nat) -> Navigation, url: string, retries: int, n0: nat, n1: nat, r: FetchResult) {
    if retries < 0 then r == NotNavigated && n1 == n0
    else
      n0 < n1 <= n0 + retries + 1
      && (forall k :: n0 <= k < n1 - 1 ==> browse(url, k).Loaded? && browse(url, k).currentUrl != url)
      && match browse(url, n1 - 1)
         case NavigationFailed => r == FetchRaised
         case Loaded(c, p) => r == Fetched(c, p) && (c == url || n1 == n0 + retries + 1)
  }

  /** The fetch is determined by the session: the number of navigations and the result are unique. */
  lemma FetchSpecUnique(browse: (string, nat) -> Navigation, url: string, retries: int, n0: nat,
                        n1: nat, r: FetchResult, m1: nat, q: FetchResult)
    requires FetchSpec(browse, url, retries, n0, n1, r) && FetchSpec(browse, url, retries, n0, m1, q)
    ensures n1 == m1 && r == q
  {
    if retries >= 0 {
      assert n1 == m1;
    }
  }

  /** get_content_from_url: navigate until the browser settles on the requested URL or the retry
      bound is used up. */
  method GetContentFromUrl(driver: Driver, url: string, redriectRetries: int) returns (r: FetchResult)
    modifies driver
    ensures FetchSpec(driver.browse, url, redriectRetries, old(driver.navigations), driver.navigations, r)
  {
    var tries := 0;
    var currentUrl: Option<string> := None;
    var pageContent := "";
    ghost var n0 := driver.navigations;
    while tries <= redriectRetries && currentUrl != Some(url)
      invariant driver.navigations == n0 + tries
      invariant 0 <= tries && (tries == 0 || tries <= redriectRetries + 1)
      invariant tries == 0 <==> currentUrl.None?
      invariant forall k :: n0 <= k < n0 + tries - 1 ==>
        driver.browse(url, k).Loaded? && driver.browse(url, k).currentUrl != url
      invariant tries > 0 ==> driver.browse(url, n0 + tries - 1) == Loaded(currentUrl.value, pageContent)
      decreases redriectRetries + 1 - tries
    {
      if tries > 0 {
        assert currentUrl.value != url;
      }
      var nav := driver.Get(url);
      if nav.NavigationFailed? {
        r := FetchRaised;
        return;
      }
      currentUrl := Some(nav.currentUrl);
      pageContent := nav.pageSource;
      tries := tries + 1;
    }
    if currentUrl.None? {
      r := NotNavigated;
    } else {
      assert currentUrl.value == url || tries == redriectRetries + 1;
      r := Fetched(currentUrl.value, pageContent);
      assert driver.browse(url, driver.navigations - 1) == Loaded(r.currentUrl, r.content);
    }
  }

  // ---------------------------------------------------------------------------------------------
  // parse_urls

  /** The attributes of one tag found in the page. */
  type Element = map<string, string>

  /** The HTML parser and the URL joiner: `findAll(content, tag)` lists the tags of one name in
      document order, and `urljoin(base, ref)` resolves a reference, or is None where it raises. */
  datatype PageIO = PageIO(findAll: (string, string) -> seq<Element>, urljoin: (string, string) -> Option<string>)

  const AnchorTags: seq<string> := ["a"]
  const HrefAttrs: seq<string> := ["href"]
  const ImgTags: seq<string> := ["img"]
  const SrcAttrs: seq<string> := ["src"]

  /** The link one attribute of a tag contributes: its value, absolutised, when it is present and
      non-empty and the join does not raise. */
  function FromAttr(page: PageIO, urlLoc: string, e: Element, source: string): set<string> {
    if source in e && e[source] != "" then
      match Absolutize(page.urljoin, urlLoc, e[source])
      case Some(u) => {u}
      case None => {}
    else {}
  }

  /** The links one tag contributes: each listed attribute it holds with a non-empty value,
      absolutised, except those whose join raises. */
  function FromElement(page: PageIO, urlLoc: string, e: Element, sources: seq<string>): set<string>
    decreases |sources|
  {
    if sources == [] then {}
    else
      var source := sources[|sources| - 1];
      FromElement(page, urlLoc, e, sources[..|sources| - 1])
        + FromAttr(page, urlLoc, e, source)
  }

  function FromElements(page: PageIO, urlLoc: string, es: seq<Element>, sources: seq<string>): set<string>
    decreases |es|
  {
    if es == [] then {}
    else FromElements(page, urlLoc, es[..|es| - 1], sources) + FromElement(page, urlLoc, es[|es| - 1], sources)
  }

  /** The set parse_urls returns for these tag names and attribute names. */
  function Extracted(page: PageIO, content: string, locations: seq<string>, sources: seq<string>, urlLoc: string): set<string>
    decreases |locations|
  {
    if locations == [] then {}
    else
      Extracted(page, content, locations[..|locations| - 1], sources, urlLoc)
        + FromElements(page, urlLoc, page.findAll(content, locations[|locations| - 1]), sources)
  }

  lemma {:induction false} FromElementMembers(page: PageIO, urlLoc: string, e: Element, sources: seq<string>, u: string)
    ensures u in FromElement(page, urlLoc, e, sources) <==>
      exists s :: s in sources && s in e && e[s] != "" && Absolutize(page.urljoin, urlLoc, e[s]) == Some(u)
    decreases |sources|
  {
    if sources != [] {
      var init := sources[..|sources| - 1];
      FromElementMembers(page, urlLoc, e, init, u);
      assert sources == init + [sources[|sources| - 1]];
    }
  }

  lemma {:induction false} FromElementsMembers(page: PageIO, urlLoc: string, es: seq<Element>, sources: seq<string>, u: string)
    ensures u in FromElements(page, urlLoc, es, sources) <==>
      exists e :: e in es && u in FromElement(page, urlLoc, e, sources)
    decreases |es|
  {
    if es != [] {
      var init := es[..|es| - 1];
      var last := es[|es| - 1];
      FromElementsMembers(page, urlLoc, init, sources, u);
      assert es == init + [last];
      if exists e :: e in es && u in FromElement(page, urlLoc, e, sources) {
        var e :| e in es && u in FromElement(page, urlLoc, e, sources);
        if e != last {
          assert e in init;
        }
      }
    }
  }

  /** Some tag of name `l` carries some listed attribute with a non-empty value that
      absolutises to `u`. */
  predicate TagYields(page: PageIO, content: string, l: string, sources: seq<string>, urlLoc: string, u: string)
  {
    exists e, s :: e in page.findAll(content, l) && s in sources && s in e && e[s] != ""
      && Absolutize(page.urljoin, urlLoc, e[s]) == Some(u)
  }

  lemma TagYieldsMembers(page: PageIO, content: string, l: string, sources: seq<string>, urlLoc: string, u: string)
    ensures u in FromElements(page, urlLoc, page.findAll(content, l), sources) <==> TagYields(page, content, l, sources, urlLoc, u)
  {
    var es := page.findAll(content, l);
    FromElementsMembers(page, urlLoc, es, sources, u);
    if u in FromElements(page, urlLoc, es, sources) {
      var e :| e in es && u in FromElement(page, urlLoc, e, sources);
      FromElementMembers(page, urlLoc, e, sources, u);
    }
    if TagYields(page, content, l, sources, urlLoc, u) {
      var e, s :| e in es && s in sources && s in e && e[s] != "" && Absolutize(page.urljoin, urlLoc, e[s]) == Some(u);
      FromElementMembers(page, urlLoc, e, sources, u);
    }
  }

  lemma {:induction false} ExtractedByTag(page: PageIO, content: string, locations: seq<string>, sources: seq<string>, urlLoc: string, u: string)
    ensures u in Extracted(page, content, locations, sources, urlLoc) <==>
      exists l :: l in locations && TagYields(page, content, l, sources, urlLoc, u)
    decreases |locations|
  {
    if locations != [] {
      var init, last := locations[..|locations| - 1], locations[|locations| - 1];
      ExtractedByTag(page, content, init, sources, urlLoc, u);
      TagYieldsMembers(page, content, last, sources, urlLoc, u);
      assert locations == init + [last];
      if exists l :: l in locations && TagYields(page, content, l, sources, urlLoc, u) {
        var l :| l in locations && TagYields(page, content, l, sources, urlLoc, u);
        if l != last {
          assert l in init;
        }
      }
    }
  }

  /** A URL is extracted exactly when some listed tag carries some listed attribute with a
      non-empty value that absolutises to it. */
  lemma ExtractedMembers(page: PageIO, content: string, locations: seq<string>, sources: seq<string>, urlLoc: string, u: string)
    ensures u in Extracted(page, content, locations, sources, urlLoc) <==>
      exists l, e, s :: l in locations && e in page.findAll(content, l) && s in sources && s in e && e[s] != ""
        && Absolutize(page.urljoin, urlLoc, e[s]) == Some(u)
  {
    ExtractedByTag(page, content, locations, sources, urlLoc, u);
    if u in Extracted(page, content, locations, sources, urlLoc) {
      var l :| l in locations && TagYields(page, content, l, sources, urlLoc, u);
      var e, s :| e in page.findAll(content, l) && s in sources && s in e && e[s] != ""
        && Absolutize(page.urljoin, urlLoc, e[s]) == Some(u);
    }
    if exists l, e, s :: l in locations && e in page.findAll(content, l) && s in sources && s in e && e[s] != ""
        && Absolutize(page.urljoin, urlLoc, e[s]) == Some(u) {
      var l, e, s :| l in locations && e in page.findAll(content, l) && s in sources && s in e && e[s] != ""
        && Absolutize(page.urljoin, urlLoc, e[s]) == Some(u);
      assert TagYields(page, content, l, sources, urlLoc, u);
    }
  }

  /** Every extracted URL is an attribute value that already looks absolute, or the join of the
      page URL with one that does not. */
  lemma ExtractedAbsoluteOrJoined(page: PageIO, content: string, locations: seq<string>, sources: seq<string>, urlLoc: string, u: string)
    requires u in Extracted(page, content, locations, sources, urlLoc)
    ensures exists v :: v != "" && ((LooksAbsolute(v) && u == v) || (!LooksAbsolute(v) && page.urljoin(urlLoc, v) == Some(u)))
  {
    ExtractedMembers(page, content, locations, sources, urlLoc, u);
    var l, e, s :| l in locations && e in page.findAll(content, l) && s in sources && s in e && e[s] != ""
      && Absolutize(page.urljoin, urlLoc, e[s]) == Some(u);
    assert e[s] != "";
  }

  lemma FromElementStep(page: PageIO, urlLoc: string, e: Element, sources: seq<string>, k: nat)
    requires k < |sources|
    ensures FromElement(page, urlLoc, e, sources[..k + 1]) == FromElement(page, urlLoc, e, sources[..k])
      + FromAttr(page, urlLoc, e, sources[k])
  {
    assert sources[..k + 1][..k] == sources[..k];
  }

  /** parse_urls: every listed attribute of every listed tag, absolutised, collected in a set. */
  method ParseUrls(page: PageIO, content: string, locations: seq<string>, sources: seq<string>, urlLoc: string)
    returns (results: set<string>)
    ensures results == Extracted(page, content, locations, sources, urlLoc)
  {
    results := {};
    for i := 0 to |locations|
      invariant results == Extracted(page, content, locations[..i], sources, urlLoc)
    {
      assert locations[..i + 1][..i] == locations[..i];
      var allLocations := page.findAll(content, locations[i]);
      ghost var before := results;
      for j := 0 to |allLocations|
        invariant results == before + FromElements(page, urlLoc, allLocations[..j], sources)
      {
        assert allLocations[..j + 1][..j] == allLocations[..j];
        var a := allLocations[j];
        ghost var mid := results;
        for k := 0 to |sources|
          invariant results == mid + FromElement(page, urlLoc, a, sources[..k])
        {
          FromElementStep(page, urlLoc, a, sources, k);
          var source := sources[k];
          if source in a && a[source] != "" {
            var src := a[source];
            if !LooksAbsolute(src) {
              // a join that raises is caught and the value skipped
              var joined := page.urljoin(urlLoc, src);
              if joined.Some? {
                results := results + {joined.value};
              }
            } else {
              results := results + {src};
            }
          }
        }
        assert sources[..|sources|] == sources;
      }
      assert allLocations[..|allLocations|] == allLocations;
    }
    assert locations[..|locations|] == locations;
  }

  // ---------------------------------------------------------------------------------------------
  // Iterating a set, cleanContentUrls, appendPicContentUrls

  predicate Distinct(xs: seq<string>) {
    forall i, j :: 0 <= i < j < |xs| ==> xs[i] != xs[j]
  }

  /** Iterating a Python set: each element once, in an order the set chooses. */
  method Enumerate(s: set<string>) returns (xs: seq<string>)
    ensures forall u :: u in xs <==> u in s
    ensures Distinct(xs) && |xs| == |s|
  {
    var rest := s;
    xs := [];
    while rest != {}
      invariant rest <= s
      invariant forall u :: u in xs <==> u in s && u !in rest
      invariant Distinct(xs) && |xs| + |rest| == |s|
      decreases rest
    {
      var u :| u in rest;
      xs := xs + [u];
      rest := rest - {u};
    }
  }

  /** cleanContentUrls: the non-empty links that start with the base URL, in input order. */
  method CleanContentUrls(urls: seq<string>, baseUrl: string) returns (cleanList: seq<string>)
    ensures cleanList == InScope(urls, baseUrl)
  {
    cleanList := [];
    for i := 0 to |urls|
      invariant cleanList == InScope(urls[..i], baseUrl)
    {
      assert urls[..i + 1][..i] == urls[..i];
      var url := urls[i];
      if url != "" && StartsWith(url, baseUrl) {
        cleanList := cleanList + [url];
      }
    }
    assert urls[..|urls|] == urls;
  }

  /** appendPicContentUrls: each link whose last segment has a dot, once for every listed
      extension its lower-cased last segment ends with. */
  method AppendPicContentUrls(urls: seq<string>, types: seq<string>) returns (cleanList: seq<string>)
    ensures cleanList == PicRefs(urls, types)
  {
    cleanList := [];
    for i := 0 to |urls|
      invariant cleanList == PicRefs(urls[..i], types)
    {
      PicRefsStep(urls, types, i);
      var url := urls[i];
      if url != "" {
        var urlType := LastSegment(url, '/');
        if '.' in urlType {
          var matches := AppendTypeMatches(url, urlType, types);
          cleanList := cleanList + matches;
        }
      }
    }
    assert urls[..|urls|] == urls;
  }

  /** The inner loop of appendPicContentUrls: one copy of `url` per extension that the
      lower-cased `urlType` ends with. */
  method AppendTypeMatches(url: string, urlType: string, types: seq<string>) returns (matches: seq<string>)
    requires urlType == PathTail(url)
    ensures matches == TypeMatches(url, types)
  {
    matches := [];
    var lowered := Lower(urlType);
    for k := 0 to |types|
      invariant matches == TypeMatches(url, types[..k])
    {
      TypeMatchesStep(url, types, k);
      if EndsWith(lowered, types[k]) {
        matches := matches + [url];
      }
    }
    assert types[..|types|] == types;
  }
}
