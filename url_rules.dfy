/** String rules the crawler applies to URLs: file type, crawl scope, image-link reclassification
    and the absolute/relative test applied to extracted links. */
module UrlRules {
  import opened Common

  /** IMG_FILE_TYPES: the file extensions that mark a link as a picture. */
  const ImgFileTypes: seq<string> := ["jpg", "jpeg", "jfif", "pjpeg", "pjp", "png", "webp"]

  /** The last `/`-separated segment of a URL. */
  function PathTail(url: string): string {
    LastSegment(url, '/')
  }

  /** `url.split("/")[-1].split("?")[0].split(".")[-1]`: the extension of the last path
      segment once the query is removed. */
  function GetUrlFiletype(url: string): (ext: string)
    ensures '/' !in ext && '?' !in ext && '.' !in ext
    ensures var file := FirstSegment(PathTail(url), '?');
      EndsWith(file, ext) && (|ext| == |file| || file[|file| - |ext| - 1] == '.')
  {
    LastSegment(FirstSegment(PathTail(url), '?'), '.')
  }

  // ---------------------------------------------------------------------------------------------
  // Crawl scope (cleanContentUrls)

  predicate InCrawlScope(url: string, baseUrl: string) {
    url != "" && StartsWith(url, baseUrl)
  }

  /** The links that cleanContentUrls keeps, in input order. */
  function InScope(urls: seq<string>, baseUrl: string): seq<string>
    decreases |urls|
  {
    if urls == [] then []
    else
      var last := urls[|urls| - 1];
      InScope(urls[..|urls| - 1], baseUrl) + (if InCrawlScope(last, baseUrl) then [last] else [])
  }

  /** The scope filter distributes over concatenation, so it keeps input order. */
  lemma {:induction false} InScopeAppend(a: seq<string>, b: seq<string>, baseUrl: string)
    ensures InScope(a + b, baseUrl) == InScope(a, baseUrl) + InScope(b, baseUrl)
    decreases |b|
  {
    if b == [] {
      assert a + b == a;
    } else {
      var b' := b[..|b| - 1];
      assert (a + b)[..|a + b| - 1] == a + b';
      InScopeAppend(a, b', baseUrl);
    }
  }

  /** A link is kept exactly when it is non-empty and starts with the base URL. */
  lemma {:induction false} InScopeMembers(urls: seq<string>, baseUrl: string, u: string)
    ensures u in InScope(urls, baseUrl) <==> u in urls && InCrawlScope(u, baseUrl)
    decreases |urls|
  {
    if urls != [] {
      var init := urls[..|urls| - 1];
      InScopeMembers(init, baseUrl, u);
      assert urls == init + [urls[|urls| - 1]];
    }
  }

  // ---------------------------------------------------------------------------------------------
  // Picture links among the anchors (appendPicContentUrls)

  /** One copy of `url` for every listed extension that its lower-cased last segment ends with. */
  function TypeMatches(url: string, types: seq<string>): seq<string>
    decreases |types|
  {
    if types == [] then []
    else
      var t := types[|types| - 1];
      TypeMatches(url, types[..|types| - 1]) + (if EndsWith(Lower(PathTail(url)), t) then [url] else [])
  }

  /** A link whose last segment holds a dot is checked against every extension. */
  predicate HasDottedTail(url: string) {
    url != "" && '.' in PathTail(url)
  }

  predicate IsPictureLink(url: string, types: seq<string>) {
    HasDottedTail(url) && exists t :: t in types && EndsWith(Lower(PathTail(url)), t)
  }

  function PictureMatches(url: string, types: seq<string>): seq<string> {
    if HasDottedTail(url) then TypeMatches(url, types) else []
  }

  /** What appendPicContentUrls returns for the extension list `types` (ImgFileTypes in the
      crawler): the picture links, each once per matching extension. */
  function PicRefs(urls: seq<string>, types: seq<string>): seq<string> {
    ConcatMap(urls, u => PictureMatches(u, types))
  }

  /** `f(urls[0]) + f(urls[1]) + ...`. */
  function ConcatMap(urls: seq<string>, f: string -> seq<string>): seq<string>
    decreases |urls|
  {
    if urls == [] then []
    else ConcatMap(urls[..|urls| - 1], f) + f(urls[|urls| - 1])
  }

  lemma {:induction false} TypeMatchesMembers(url: string, types: seq<string>, u: string)
    ensures u in TypeMatches(url, types) <==>
      u == url && exists t :: t in types && EndsWith(Lower(PathTail(url)), t)
    decreases |types|
  {
    if types != [] {
      var init := types[..|types| - 1];
      TypeMatchesMembers(url, init, u);
      assert types == init + [types[|types| - 1]];
      if u == url && exists t :: t in types && EndsWith(Lower(PathTail(url)), t) {
        var t :| t in types && EndsWith(Lower(PathTail(url)), t);
        if t !in init {
          assert t == types[|types| - 1];
        }
      }
    }
  }

  /** A link is reported as a picture exactly when its last segment has a dot and, lower-cased,
      ends with a listed extension. */
  lemma {:induction false} PicRefsMembers(urls: seq<string>, types: seq<string>, u: string)
    ensures u in PicRefs(urls, types) <==> u in urls && IsPictureLink(u, types)
    decreases |urls|
  {
    if urls != [] {
      var init, last := urls[..|urls| - 1], urls[|urls| - 1];
      PicRefsMembers(init, types, u);
      assert urls == init + [last];
      assert PicRefs(urls, types) == PicRefs(init, types) + PictureMatches(last, types);
      TypeMatchesMembers(last, types, u);
    }
  }

  /** A link whose tail ends with two listed extensions is reported (at least) twice. */
  lemma {:induction false} TwoMatchesTwoCopies(url: string, types: seq<string>, i: nat, j: nat)
    requires i < j < |types|
    requires EndsWith(Lower(PathTail(url)), types[i]) && EndsWith(Lower(PathTail(url)), types[j])
    ensures multiset(TypeMatches(url, types))[url] >= 2
    decreases |types|
  {
    var init := types[..|types| - 1];
    if j == |types| - 1 {
      TypeMatchesMembers(url, init, url);
      assert types[i] in init;
    } else {
      assert init[i] == types[i] && init[j] == types[j];
      TwoMatchesTwoCopies(url, init, i, j);
    }
  }

  /** `.pjpeg` ends with both `jpeg` and `pjpeg`: such a link is reported twice before the set
      merge removes the duplicate. */
  lemma PjpegReportedTwice(url: string)
    requires HasDottedTail(url) && EndsWith(Lower(PathTail(url)), "pjpeg")
    ensures multiset(PicRefs([url], ImgFileTypes))[url] >= 2
  {
    var tail := Lower(PathTail(url));
    assert tail[|tail| - 4..] == tail[|tail| - 5..][1..];
    TwoMatchesTwoCopies(url, ImgFileTypes, 1, 3);
    var f := u => PictureMatches(u, ImgFileTypes);
    assert [url][..0] == [];
    assert ConcatMap([url], f) == ConcatMap([], f) + f(url);
  }

  lemma {:induction false} ConcatMapAppend(a: seq<string>, b: seq<string>, f: string -> seq<string>)
    ensures ConcatMap(a + b, f) == ConcatMap(a, f) + ConcatMap(b, f)
    decreases |b|
  {
    if b == [] {
      assert a + b == a;
    } else {
      var b', last := b[..|b| - 1], b[|b| - 1];
      assert (a + b)[..|a + b| - 1] == a + b' && (a + b)[|a + b| - 1] == last;
      assert ConcatMap(a + b, f) == ConcatMap(a + b', f) + f(last);
      ConcatMapAppend(a, b', f);
      assert ConcatMap(b, f) == ConcatMap(b', f) + f(last);
    }
  }

  /** One more link adds its own picture matches at the end. */
  lemma PicRefsStep(urls: seq<string>, types: seq<string>, i: nat)
    requires i < |urls|
    ensures PicRefs(urls[..i + 1], types) == PicRefs(urls[..i], types) + PictureMatches(urls[i], types)
  {
    assert urls[..i + 1][..i] == urls[..i];
  }

  lemma TypeMatchesStep(url: string, types: seq<string>, k: nat)
    requires k < |types|
    ensures TypeMatches(url, types[..k + 1]) == TypeMatches(url, types[..k])
      + (if EndsWith(Lower(PathTail(url)), types[k]) then [url] else [])
  {
    assert types[..k + 1][..k] == types[..k];
  }

  // ---------------------------------------------------------------------------------------------
  // Absolute and relative links (parse_urls)

  /** `src.lower().startswith("http")`. */
  predicate LooksAbsolute(src: string) {
    StartsWith(Lower(src), "http")
  }

  /** An extracted value is kept verbatim when it looks absolute and is joined to the page URL
      otherwise; `urljoin` gives None where it raises, and that value is then skipped. */
  function Absolutize(urljoin: (string, string) -> Option<string>, pageUrl: string, src: string): Option<string> {
    if LooksAbsolute(src) then Some(src) else urljoin(pageUrl, src)
  }

  /** The test is a bare prefix test: a relative link whose name starts with "http" is not joined. */
  lemma RelativeHttpNameKeptVerbatim(urljoin: (string, string) -> Option<string>, pageUrl: string)
    ensures Absolutize(urljoin, pageUrl, "httpd.html") == Some("httpd.html")
    ensures Absolutize(urljoin, pageUrl, "HTTPS://x.test/") == Some("HTTPS://x.test/")
  {
    assert Lower("httpd.html")[..4] == "http";
    assert Lower("HTTPS://x.test/")[..4] == "http";
  }
}
