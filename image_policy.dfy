/** What happens to one picture URL: the download, decode and size checks, the name the picture is
    stored under, and the `err` text recorded when it is not stored. The three image workers of
    the crawler (data_scraper/pic_scraper.py, pic_grabber.py and scraper.py) differ in the order
    of their checks and in their size threshold, so each has its own outcome function here. */
module ImagePolicy {
  import opened Common
  import opened UrlRules

  /** `requests.codes.ok`. */
  const StatusOk: nat := 200
  /** The stored name keeps the first 15 characters of the SHA-1 hex digest. */
  const HashPrefixLength: nat := 15

  /** What the HTTP client gives back for a picture URL: a response, or one of the request
      exceptions the workers tell apart. */
  datatype HttpOutcome =
    | Response(statusCode: nat, content: Bytes)
    | Timeout
    | TooManyRedirects
    | OtherRequestError

  /** `Image.open(...).convert("RGB").size`, or a decoder exception. */
  datatype Decoded = Decoded(width: nat, height: nat) | DecodeFailed

  predicate IsHexDigit(c: char) {
    '0' <= c <= '9' || 'a' <= c <= 'f'
  }

  predicate IsHex(s: string) {
    forall i :: 0 <= i < |s| ==> IsHexDigit(s[i])
  }

  /** `hashlib.sha1(b).hexdigest()`: 40 lower-case hex characters. */
  type Digest = s: string | |s| == 40 && IsHex(s)
    witness "0000000000000000000000000000000000000000"

  const ZeroDigest: Digest := "0000000000000000000000000000000000000000"

  /** The network, the decoder, the hash and the file system, as seen by one worker:
      `save(path)` says whether writing the decoded picture to `path` succeeds. */
  datatype ImageIO = ImageIO(
    get: string -> HttpOutcome,
    decode: Bytes -> Decoded,
    sha1: Bytes -> Digest,
    save: string -> bool)

  /** Why a picture was not stored: the exception that ended the worker. */
  datatype Failure =
    | ImgReqFailed(statusCode: nat)
    | ImgTooSmall(width: nat, height: nat)
    | RequestTimeout
    | RequestTooManyRedirects
    | RequestFailed
    | OtherFailure

  /** Where a stored picture went and the hash prefix it is recorded under. */
  datatype StoredFile = StoredFile(filePath: string, hash: string)

  datatype ImageOutcome = Stored(file: StoredFile) | Failed(failure: Failure)

  /** The `err` text scrape_url records for each failure. */
  function ErrorTag(f: Failure): string {
    match f
    case ImgReqFailed(c) => "HTTP_STATUS: " + NatToString(c)
    case ImgTooSmall(w, h) => "IMG_TOO_SMALL: width=" + NatToString(w) + " height=" + NatToString(h)
    case RequestTimeout => "TIMEOUT"
    case RequestTooManyRedirects => "TOO_MANY_REDIRECT"
    case RequestFailed => "UNKNOWN_REQ_FAILURE"
    case OtherFailure => "UNKNOWN_FAILURE"
  }

  /** The status tag carries a space after the colon. */
  lemma NotFoundTag()
    ensures ErrorTag(ImgReqFailed(404)) == "HTTP_STATUS: 404"
  {
    assert NatToString(404) == NatToString(40) + ['4'];
    assert NatToString(40) == NatToString(4) + ['0'];
  }

  /** A status tag gives back its status code. */
  lemma StatusTagInjective(c1: nat, c2: nat)
    requires ErrorTag(ImgReqFailed(c1)) == ErrorTag(ImgReqFailed(c2))
    ensures c1 == c2
  {
    var p := "HTTP_STATUS: ";
    var t := ErrorTag(ImgReqFailed(c1));
    assert NatToString(c1) == t[|p|..] == NatToString(c2);
    NatToStringInjective(c1, c2);
  }

  /** A size tag gives back its width and height. */
  lemma SizeTagInjective(w1: nat, h1: nat, w2: nat, h2: nat)
    requires ErrorTag(ImgTooSmall(w1, h1)) == ErrorTag(ImgTooSmall(w2, h2))
    ensures w1 == w2 && h1 == h2
  {
    var p, q := "IMG_TOO_SMALL: width=", " height=";
    var t := ErrorTag(ImgTooSmall(w1, h1));
    var wf, hf := NatToString(w1), NatToString(h1);
    var wg, hg := NatToString(w2), NatToString(h2);
    assert t == p + (wf + (q + hf)) == p + (wg + (q + hg));
    assert wf + (q + hf) == t[|p|..] == wg + (q + hg);
    DigitRunSplit(wf, q + hf, wg, q + hg);
    assert hf == (q + hf)[|q|..] == hg;
    NatToStringInjective(w1, w2);
    NatToStringInjective(h1, h2);
  }

  /** Different failures are recorded under different tags, so the failure can be read back from
      the `err` field. */
  lemma ErrorTagInjective(f: Failure, g: Failure)
    requires ErrorTag(f) == ErrorTag(g)
    ensures f == g
  {
    var t := ErrorTag(f);
    if f.ImgReqFailed? && g.ImgReqFailed? {
      StatusTagInjective(f.statusCode, g.statusCode);
    } else if f.ImgTooSmall? && g.ImgTooSmall? {
      SizeTagInjective(f.width, f.height, g.width, g.height);
    } else {
      assert ErrorTag(f)[0] == ErrorTag(g)[0];
    }
  }

  /** The first 15 characters of the digest. */
  function HashPrefix(d: Digest): (h: string)
    ensures |h| == HashPrefixLength && IsHex(h)
  {
    d[..HashPrefixLength]
  }

  /** `outputType`, or the URL's own file type when `outputType` is empty. */
  function OutputExtension(outputType: string, url: string): string {
    if outputType != "" then outputType else GetUrlFiletype(url)
  }

  /** `filesha + "." + urlType`. */
  function FileName(h: string, ext: string): string {
    h + "." + ext
  }

  /** `h[0:2] + "/" + h[2:4] + "/" + h[4:6] + "/" + h + "." + ext`. */
  function ShardPath(h: string, ext: string): string
    requires |h| >= 6
  {
    h[0..2] + "/" + h[2..4] + "/" + h[4..6] + "/" + FileName(h, ext)
  }

  /** A hash prefix and an extension are recovered from the sharded path, so different pictures
      never share a path. */
  lemma ShardPathInjective(h1: string, e1: string, h2: string, e2: string)
    requires |h1| == HashPrefixLength && |h2| == HashPrefixLength
    requires ShardPath(h1, e1) == ShardPath(h2, e2)
    ensures h1 == h2 && e1 == e2
  {
    var p1, p2 := ShardPath(h1, e1), ShardPath(h2, e2);
    assert p1[9..24] == h1 && p2[9..24] == h2;
    assert p1[25..] == e1 && p2[25..] == e2;
  }

  /** The last path segment of the sharded path is the file name, and reading the file type back
      from it gives the extension the picture was saved with. */
  lemma ShardPathReadsBack(h: string, ext: string)
    requires |h| == HashPrefixLength && IsHex(h)
    requires '/' !in ext && '?' !in ext && '.' !in ext
    ensures PathTail(ShardPath(h, ext)) == FileName(h, ext)
    ensures GetUrlFiletype(ShardPath(h, ext)) == ext
  {
    var file := FileName(h, ext);
    assert '/' !in file && '?' !in file;
    var folder := h[0..2] + "/" + h[2..4] + "/" + h[4..6];
    assert ShardPath(h, ext) == folder + ['/'] + file;
    LastSegmentAfter(folder, '/', file);
    FirstSegmentWhole(file, '?');
    assert file == h + ['.'] + ext;
    LastSegmentAfter(h, '.', ext);
  }

  /** With an empty `outputType` the stored file keeps the URL's file type. */
  lemma StoredPathKeepsUrlType(d: Digest, url: string)
    ensures GetUrlFiletype(ShardPath(HashPrefix(d), OutputExtension("", url))) == GetUrlFiletype(url)
  {
    ShardPathReadsBack(HashPrefix(d), GetUrlFiletype(url));
  }

  // ---------------------------------------------------------------------------------------------
  // Size thresholds

  /** data_scraper/pic_scraper.py rejects a picture when either side is at most the minimum. */
  predicate TooSmall(width: nat, height: nat, minWidth: nat, minHeight: nat) {
    width <= minWidth || height <= minHeight
  }

  /** pic_grabber.py and scraper.py keep a picture when both sides reach the minimum. */
  predicate LargeEnough(width: nat, height: nat, minWidth: nat, minHeight: nat) {
    width >= minWidth && height >= minHeight
  }

  /** The two tests disagree exactly on the boundary: a picture of exactly the minimum size is
      kept by one and rejected by the other. */
  lemma ThresholdsDisagreeAtBoundary(minWidth: nat, minHeight: nat)
    ensures LargeEnough(minWidth, minHeight, minWidth, minHeight)
    ensures TooSmall(minWidth, minHeight, minWidth, minHeight)
  {
  }

  // ---------------------------------------------------------------------------------------------
  // data_scraper/pic_scraper.py: _get_and_save_image_to_file_impl

  /** The outcome of `_get_and_save_image_to_file_impl`: status check, then decode, then the size
      check, then the save under the sharded path. */
  function ScrapeOutcome(io: ImageIO, url: string, minWidth: nat, minHeight: nat, outputType: string): ImageOutcome {
    match io.get(url)
    case Timeout => Failed(RequestTimeout)
    case TooManyRedirects => Failed(RequestTooManyRedirects)
    case OtherRequestError => Failed(RequestFailed)
    case Response(status, content) =>
      if status != StatusOk then Failed(ImgReqFailed(status))
      else
        match io.decode(content)
        case DecodeFailed => Failed(OtherFailure)
        case Decoded(w, h) =>
          if TooSmall(w, h, minWidth, minHeight) then Failed(ImgTooSmall(w, h))
          else
            var filesha := HashPrefix(io.sha1(content));
            var path := ShardPath(filesha, OutputExtension(outputType, url));
            if io.save(path) then Stored(StoredFile(path, filesha)) else Failed(OtherFailure)
  }

  /** A status other than 200 fails before the body is decoded: the decoder is never consulted. */
  lemma StatusCheckedBeforeDecode(io: ImageIO, decode: Bytes -> Decoded, url: string, minWidth: nat, minHeight: nat, outputType: string)
    requires io.get(url).Response? && io.get(url).statusCode != StatusOk
    ensures ScrapeOutcome(io.(decode := decode), url, minWidth, minHeight, outputType)
      == ScrapeOutcome(io, url, minWidth, minHeight, outputType)
      == Failed(ImgReqFailed(io.get(url).statusCode))
  {
  }

  /** A picture is stored exactly when the response is 200, it decodes to a picture larger than
      the minimum on both sides and the save succeeds; it is then stored under the sharded path of
      its digest. */
  lemma ScrapeStoredIff(io: ImageIO, url: string, minWidth: nat, minHeight: nat, outputType: string)
    ensures var o := ScrapeOutcome(io, url, minWidth, minHeight, outputType);
      o.Stored? <==>
        exists content: Bytes, w: nat, h: nat ::
          io.get(url) == Response(StatusOk, content) && io.decode(content) == Decoded(w, h)
          && w > minWidth && h > minHeight
          && io.save(ShardPath(HashPrefix(io.sha1(content)), OutputExtension(outputType, url)))
    ensures var o := ScrapeOutcome(io, url, minWidth, minHeight, outputType);
      o.Stored? ==>
        o.file.hash == HashPrefix(io.sha1(io.get(url).content))
        && o.file.filePath == ShardPath(o.file.hash, OutputExtension(outputType, url))
  {
    var o := ScrapeOutcome(io, url, minWidth, minHeight, outputType);
    if o.Stored? {
      var content := io.get(url).content;
      var d := io.decode(content);
      assert io.get(url) == Response(StatusOk, content) && io.decode(content) == Decoded(d.width, d.height);
    }
  }

  /** A decoded 200 response is rejected for its size exactly when a side is at most the minimum,
      and the failure carries the decoded size. */
  lemma ScrapeSizeRule(io: ImageIO, url: string, minWidth: nat, minHeight: nat, outputType: string, content: Bytes, w: nat, h: nat)
    requires io.get(url) == Response(StatusOk, content) && io.decode(content) == Decoded(w, h)
    ensures ScrapeOutcome(io, url, minWidth, minHeight, outputType).Failed?
      && ScrapeOutcome(io, url, minWidth, minHeight, outputType).failure.ImgTooSmall?
      <==> w <= minWidth || h <= minHeight
    ensures ScrapeOutcome(io, url, minWidth, minHeight, outputType) == Failed(ImgTooSmall(w, h))
      <==> w <= minWidth || h <= minHeight
  {
  }

  /** Two URLs serving the same bytes are stored under the same path and hash when the output
      type is fixed: storage is addressed by content. */
  lemma SameContentSameFile(io: ImageIO, url1: string, url2: string, minWidth: nat, minHeight: nat, outputType: string)
    requires outputType != ""
    requires io.get(url1).Response? && io.get(url1) == io.get(url2)
    requires ScrapeOutcome(io, url1, minWidth, minHeight, outputType).Stored?
    ensures ScrapeOutcome(io, url2, minWidth, minHeight, outputType) == ScrapeOutcome(io, url1, minWidth, minHeight, outputType)
  {
  }

  /** The `err` recorded for an outcome: none when stored, the failure's tag otherwise. */
  function RecordedErr(o: ImageOutcome): (err: Option<string>)
    ensures err.None? <==> o.Stored?
  {
    if o.Stored? then None else Some(ErrorTag(o.failure))
  }

  // ---------------------------------------------------------------------------------------------
  // pic_grabber.py: _get_and_save_image_to_file

  /** The picture record `_get_and_save_image_to_file` writes before it raises: no status check,
      the non-strict size test and the sharded path. Any request exception writes nothing. */
  function GrabberSave(io: ImageIO, url: string, minWidth: nat, minHeight: nat, outputType: string): Option<StoredFile> {
    match io.get(url)
    case Response(_, content) =>
      (match io.decode(content)
       case DecodeFailed => None
       case Decoded(w, h) =>
         if LargeEnough(w, h, minWidth, minHeight) then
           var filesha := HashPrefix(io.sha1(content));
           var path := ShardPath(filesha, OutputExtension(outputType, url));
           if io.save(path) then Some(StoredFile(path, filesha)) else None
         else None)
    case _ => None
  }

  /** The grabber never looks at the status: an error page whose body decodes is treated like a
      200 response. */
  lemma GrabberIgnoresStatus(io: ImageIO, url: string, status: nat, content: Bytes, minWidth: nat, minHeight: nat, outputType: string)
    ensures GrabberSave(io.(get := u => Response(status, content)), url, minWidth, minHeight, outputType)
      == GrabberSave(io.(get := u => Response(StatusOk, content)), url, minWidth, minHeight, outputType)
  {
  }

  /** Whatever pic_scraper.py stores, pic_grabber.py stores under the same path and hash. */
  lemma ScrapeStoredGrabberStored(io: ImageIO, url: string, minWidth: nat, minHeight: nat, outputType: string)
    requires ScrapeOutcome(io, url, minWidth, minHeight, outputType).Stored?
    ensures GrabberSave(io, url, minWidth, minHeight, outputType) == Some(ScrapeOutcome(io, url, minWidth, minHeight, outputType).file)
  {
  }

  /** The converse fails: a 200 response decoding to exactly the minimum size is stored by the
      grabber and rejected as too small by pic_scraper.py. */
  lemma BoundaryPictureSplitsWorkers(minWidth: nat, minHeight: nat)
    ensures var io := ImageIO(u => Response(StatusOk, []), b => Decoded(minWidth, minHeight),
                              b => ZeroDigest, p => true);
      GrabberSave(io, "x.png", minWidth, minHeight, "png").Some?
      && ScrapeOutcome(io, "x.png", minWidth, minHeight, "png") == Failed(ImgTooSmall(minWidth, minHeight))
  {
  }

  // ---------------------------------------------------------------------------------------------
  // scraper.py: Scraper.get_and_save_image_to_file

  /** The file the legacy worker saves: no status check, the non-strict size test and a flat
      `h.ext` name in the output directory. None when it raises or skips the picture. */
  function LegacySave(io: ImageIO, url: string, minWidth: nat, minHeight: nat, outputType: string): Option<string> {
    match io.get(url)
    case Response(_, content) =>
      (match io.decode(content)
       case DecodeFailed => None
       case Decoded(w, h) =>
         if LargeEnough(w, h, minWidth, minHeight) then
           var filename := FileName(HashPrefix(io.sha1(content)), OutputExtension(outputType, url));
           if io.save(filename) then Some(filename) else None
         else None)
    case _ => None
  }

  /** The legacy flat name is the last segment of the grabber's sharded path when both save. */
  lemma LegacyNameIsShardTail(io: ImageIO, url: string, minWidth: nat, minHeight: nat, outputType: string)
    requires '/' !in outputType && '?' !in outputType && '.' !in outputType
    requires LegacySave(io, url, minWidth, minHeight, outputType).Some?
    requires GrabberSave(io, url, minWidth, minHeight, outputType).Some?
    ensures PathTail(GrabberSave(io, url, minWidth, minHeight, outputType).value.filePath)
      == LegacySave(io, url, minWidth, minHeight, outputType).value
  {
    var content := io.get(url).content;
    ShardPathReadsBack(HashPrefix(io.sha1(content)), OutputExtension(outputType, url));
  }
}
