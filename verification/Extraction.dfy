/** Bounded extraction: the page loop with its running character budget.  What
    PDFium, Pillow and Tesseract find in a file is given; the limits are settings. */
module Extraction {
  import opened Records

  datatype Limits = Limits(pages: nat, pixels: nat, chars: nat)

  datatype Engine = TextLayer | Tesseract

  datatype Scan = Recognised(text: string) | TimedOut | EngineFailed

  datatype Image = Image(width: int, height: int, scan: Scan)

  /** A page: the characters its text layer counts, the layer's stripped text
      unless reading it fails, its size, and its image unless rendering fails. */
  datatype Page =
    | Unloadable
    | Page(count: nat, layer: Option<string>, width: real, height: real, image: Option<Image>)

  datatype Reading = Got(text: string, engine: Engine) | Bad(failure: Failure)

  const DAMAGED: Failure := Failure(InvalidDocument, false)
  const TOO_MANY_PAGES: Failure := Failure(PageLimit, false)
  const TOO_LARGE: Failure := Failure(PixelLimit, false)
  const TOO_LONG: Failure := Failure(TextLimit, false)

  predicate PixelsFit(limits: Limits, width: int, height: int) {
    width > 0 && height > 0 && width * height <= limits.pixels
  }

  function Scanned(limits: Limits, image: Image): Reading {
    if !PixelsFit(limits, image.width, image.height) then Bad(TOO_LARGE)
    else
      match image.scan
      case Recognised(text) => Got(text, Tesseract)
      case TimedOut => Bad(Failure(OcrTimeout, true))
      case EngineFailed => Bad(Failure(OcrEngineUnavailable, false))
  }

  /** A page's length in pixels: scaled, truncated toward zero, plus one. */
  function Pixels(length: real): int {
    var scaled := length * 2.5;
    (if scaled >= 0.0 then scaled.Floor else -((-scaled).Floor)) + 1
  }

  function ReadPage(limits: Limits, page: Page): Reading {
    if page.Unloadable? || page.layer.None? then Bad(DAMAGED)
    else if page.layer.value != "" then Got(page.layer.value, TextLayer)
    else if !PixelsFit(limits, Pixels(page.width), Pixels(page.height)) then Bad(TOO_LARGE)
    else if page.image.None? then Bad(DAMAGED)
    else Scanned(limits, page.image.value)
  }

  function TextOn(limits: Limits, page: Page): string {
    if ReadPage(limits, page).Got? then ReadPage(limits, page).text else ""
  }

  /** What some pages use of the budget: their texts and a separator each. */
  function Used(limits: Limits, pages: seq<Page>): nat {
    if pages == [] then 0
    else Used(limits, pages[..|pages| - 1]) + |TextOn(limits, pages[|pages| - 1])| + 2
  }

  /** Why extraction stops at a page, if it does, with so much already used. */
  function Stop(limits: Limits, page: Page, used: nat): Option<Failure> {
    if page.Unloadable? then Some(DAMAGED)
    else if page.count > limits.chars - used then Some(TOO_LONG)
    else
      match ReadPage(limits, page)
      case Bad(failure) => Some(failure)
      case Got(text, _) => if used + |text| + 2 > limits.chars then Some(TOO_LONG) else None
  }

  function StopAt(limits: Limits, pages: seq<Page>, i: nat): Option<Failure>
    requires i < |pages|
  {
    Stop(limits, pages[i], Used(limits, pages[..i]))
  }

  predicate Admitted(limits: Limits, pages: seq<Page>) {
    0 < |pages| <= limits.pages && forall i: nat | i < |pages| :: StopAt(limits, pages, i) == None
  }

  function Texts(limits: Limits, pages: seq<Page>): seq<string> {
    seq(|pages|, i requires 0 <= i < |pages| => TextOn(limits, pages[i]))
  }

  function Engines(limits: Limits, pages: seq<Page>): seq<Engine> {
    seq(|pages|, i requires 0 <= i < |pages| =>
      if ReadPage(limits, pages[i]).Got? then ReadPage(limits, pages[i]).engine else Tesseract)
  }

  function Join(texts: seq<string>): string {
    if texts == [] then ""
    else if |texts| == 1 then texts[0]
    else Join(texts[..|texts| - 1]) + "\n\n" + texts[|texts| - 1]
  }

  datatype Extraction = Complete(text: string, engines: seq<Engine>) | Refused(failure: Failure)

  /** The page loop: all the pages' texts in order, or the failure of the first
      page that stops it. */
  method ExtractPdf(limits: Limits, file: Option<seq<Page>>) returns (extraction: Extraction)
    ensures extraction.Complete? <==> file.Some? && Admitted(limits, file.value)
    ensures extraction.Complete? ==>
              && extraction.text == Join(Texts(limits, file.value))
              && extraction.engines == Engines(limits, file.value)
    ensures extraction.Refused? ==>
              if file.None? then extraction.failure == DAMAGED
              else if !(0 < |file.value| <= limits.pages) then extraction.failure == TOO_MANY_PAGES
              else exists k: nat ::
                && k < |file.value|
                && StopAt(limits, file.value, k) == Some(extraction.failure)
                && forall i: nat | i < k :: StopAt(limits, file.value, i) == None
  {
    if file.None? {
      return Refused(DAMAGED);
    }
    var pages := file.value;
    if !(0 < |pages| <= limits.pages) {
      return Refused(TOO_MANY_PAGES);
    }
    var texts, engines := [], [];
    var total := 0;
    for i := 0 to |pages|
      invariant total == Used(limits, pages[..i]) <= limits.chars
      invariant texts == Texts(limits, pages)[..i]
      invariant engines == Engines(limits, pages)[..i]
      invariant forall j: nat | j < i :: StopAt(limits, pages, j) == None
    {
      assert pages[..i + 1][..i] == pages[..i];
      var page := pages[i];
      if page.Unloadable? {
        assert StopAt(limits, pages, i) == Some(DAMAGED);
        return Refused(DAMAGED);
      }
      var remaining := limits.chars - total;
      if page.count > remaining {
        assert StopAt(limits, pages, i) == Some(TOO_LONG);
        return Refused(TOO_LONG);
      }
      match ReadPage(limits, page) {
        case Bad(failure) =>
          assert StopAt(limits, pages, i) == Some(failure);
          return Refused(failure);
        case Got(text, engine) =>
          texts := texts + [text];
          engines := engines + [engine];
          total := total + |text| + 2;
          if total > limits.chars {
            assert StopAt(limits, pages, i) == Some(TOO_LONG);
            return Refused(TOO_LONG);
          }
      }
    }
    assert pages[..|pages|] == pages;
    assert Texts(limits, pages)[..|pages|] == Texts(limits, pages);
    assert Engines(limits, pages)[..|pages|] == Engines(limits, pages);
    extraction := Complete(Join(texts), engines);
  }

  /** The budget used is the joined length and one separator too many. */
  lemma {:induction false} UsedIsJoinedLength(limits: Limits, pages: seq<Page>)
    requires pages != []
    ensures Used(limits, pages) == |Join(Texts(limits, pages))| + 2
    decreases |pages|
  {
    var front := pages[..|pages| - 1];
    assert Texts(limits, pages)[..|pages| - 1] == Texts(limits, front);
    if front != [] {
      UsedIsJoinedLength(limits, front);
    }
  }

  lemma {:induction false} UsedGrows(limits: Limits, pages: seq<Page>, i: nat)
    requires i < |pages|
    ensures Used(limits, pages[..i]) + |TextOn(limits, pages[i])| + 2 <= Used(limits, pages)
    decreases |pages|
  {
    var front := pages[..|pages| - 1];
    if i < |front| {
      assert front[..i] == pages[..i];
      UsedGrows(limits, front, i);
    }
  }

  /** Exactly which files are extracted: few enough pages, each readable and its
      layer within what is left, and a joined text two short of the limit. */
  lemma AdmittedIff(limits: Limits, pages: seq<Page>)
    ensures Admitted(limits, pages) <==>
              && 0 < |pages| <= limits.pages
              && (forall i: nat | i < |pages| ::
                    && ReadPage(limits, pages[i]).Got?
                    && Used(limits, pages[..i]) + pages[i].count <= limits.chars)
              && |Join(Texts(limits, pages))| + 2 <= limits.chars
  {
    if pages != [] {
      UsedIsJoinedLength(limits, pages);
      var last := |pages| - 1;
      assert Used(limits, pages) == Used(limits, pages[..last]) + |TextOn(limits, pages[last])| + 2;
      forall i: nat | i < |pages|
        ensures StopAt(limits, pages, i) == None <==>
                  && ReadPage(limits, pages[i]).Got?
                  && Used(limits, pages[..i]) + pages[i].count <= limits.chars
                  && Used(limits, pages[..i]) + |TextOn(limits, pages[i])| + 2 <= limits.chars
      {}
      if Admitted(limits, pages) {
        assert StopAt(limits, pages, last) == None;
      }
      if Used(limits, pages) <= limits.chars {
        forall i: nat | i < |pages|
          ensures Used(limits, pages[..i]) + |TextOn(limits, pages[i])| + 2 <= limits.chars
        {
          UsedGrows(limits, pages, i);
        }
      }
    }
  }

  /** The last page's text ends the joined text. */
  lemma LastPageInPlace(limits: Limits, pages: seq<Page>)
    requires pages != []
    ensures var last := |pages| - 1;
            var start := Used(limits, pages[..last]);
            && start <= |Join(Texts(limits, pages))|
            && Join(Texts(limits, pages))[start..] == TextOn(limits, pages[last])
  {
    var front := pages[..|pages| - 1];
    assert Texts(limits, pages)[..|pages| - 1] == Texts(limits, front);
    if front != [] {
      UsedIsJoinedLength(limits, front);
    }
  }

  lemma LastPageIsParted(limits: Limits, pages: seq<Page>)
    requires |pages| > 1
    ensures var end := |Join(Texts(limits, pages[..|pages| - 1]))|;
            && end + 2 <= |Join(Texts(limits, pages))|
            && Join(Texts(limits, pages))[end..end + 2] == "\n\n"
  {
    assert Texts(limits, pages)[..|pages| - 1] == Texts(limits, pages[..|pages| - 1]);
  }

  lemma JoinExtends(limits: Limits, pages: seq<Page>)
    requires |pages| > 1
    ensures Join(Texts(limits, pages[..|pages| - 1])) <= Join(Texts(limits, pages))
  {
    assert Texts(limits, pages)[..|pages| - 1] == Texts(limits, pages[..|pages| - 1]);
  }

  /** Page order is kept: a page's text stands where the pages before it end. */
  lemma {:induction false} PageInPlace(limits: Limits, pages: seq<Page>, i: nat)
    requires i < |pages|
    ensures var start := Used(limits, pages[..i]);
            var end := start + |TextOn(limits, pages[i])|;
            && end <= |Join(Texts(limits, pages))|
            && Join(Texts(limits, pages))[start..end] == TextOn(limits, pages[i])
    decreases |pages|
  {
    var front := pages[..|pages| - 1];
    if i == |front| {
      LastPageInPlace(limits, pages);
    } else {
      assert front[..i] == pages[..i];
      PageInPlace(limits, front, i);
      JoinExtends(limits, pages);
    }
  }

  /** A blank line parts each page's text from the next page's. */
  lemma {:induction false} PagesAreParted(limits: Limits, pages: seq<Page>, i: nat)
    requires 0 < i < |pages|
    ensures var start := Used(limits, pages[..i]);
            && 2 <= start <= |Join(Texts(limits, pages))|
            && Join(Texts(limits, pages))[start - 2..start] == "\n\n"
    decreases |pages|
  {
    var front := pages[..|pages| - 1];
    if i == |front| {
      UsedIsJoinedLength(limits, front);
      LastPageIsParted(limits, pages);
    } else {
      assert front[..i] == pages[..i];
      PagesAreParted(limits, front, i);
      JoinExtends(limits, pages);
    }
  }

  /** An image file: unreadable, a decompression bomb, or decodable at least in
      its header; then its pixels load, or not. */
  datatype Picture =
    | Unidentified
    | Bomb
    | Picture(width: int, height: int, supported: bool, image: Option<Image>)

  datatype File = Pdf(pages: Option<seq<Page>>) | Single(picture: Picture)

  function ReadPicture(limits: Limits, picture: Picture): Reading {
    match picture
    case Unidentified => Bad(DAMAGED)
    case Bomb => Bad(TOO_LARGE)
    case Picture(width, height, supported, image) =>
      if !PixelsFit(limits, width, height) then Bad(TOO_LARGE)
      else if !supported || image.None? then Bad(DAMAGED)
      else Scanned(limits, image.value)
  }

  /** A text without its NUL characters, which the database cannot hold. */
  function Purged(text: string): string {
    if text == "" then ""
    else if text[0] == '\0' then Purged(text[1..])
    else [text[0]] + Purged(text[1..])
  }

  lemma {:induction false} PurgedIsClean(text: string)
    ensures '\0' !in Purged(text)
    ensures |Purged(text)| <= |text|
    ensures '\0' !in text ==> Purged(text) == text
    ensures forall c | c != '\0' :: multiset(Purged(text))[c] == multiset(text)[c]
  {
    if text != "" {
      PurgedIsClean(text[1..]);
      assert text == [text[0]] + text[1..];
    }
  }

  /** What is kept stays in order: purging a text purges its parts in place. */
  lemma {:induction false} PurgedInOrder(text: string, more: string)
    ensures Purged(text + more) == Purged(text) + Purged(more)
    decreases |text|
  {
    if text == "" {
      assert text + more == more;
    } else {
      assert (text + more)[1..] == text[1..] + more;
      PurgedInOrder(text[1..], more);
    }
  }

  /** Which files are extracted. */
  predicate Accepted(limits: Limits, file: File) {
    match file
    case Pdf(pages) => pages.Some? && Admitted(limits, pages.value)
    case Single(picture) =>
      var reading := ReadPicture(limits, picture);
      reading.Got? && |reading.text| <= limits.chars
  }

  /** A page's length in pixels covers it, by less than two. */
  lemma PixelsCover(length: real)
    requires length >= 0.0
    ensures length * 2.5 < Pixels(length) as real <= length * 2.5 + 1.0
  {}

  /** Why a page reads as it does: its text layer, if it has one that is not blank;
      else its image, if page and image are within the pixel limit. */
  lemma ReadingExplained(limits: Limits, page: Page)
    requires page.Page?
    ensures var across, down := Pixels(page.width), Pixels(page.height);
            var fits := across > 0 && down > 0 && across * down <= limits.pixels;
            match page.layer
            case None => ReadPage(limits, page) == Bad(Failure(InvalidDocument, false))
            case Some(layer) =>
              if layer != "" then ReadPage(limits, page) == Got(layer, TextLayer)
              else if !fits then ReadPage(limits, page) == Bad(Failure(PixelLimit, false))
              else
                match page.image
                case None => ReadPage(limits, page) == Bad(Failure(InvalidDocument, false))
                case Some(Image(width, height, scan)) =>
                  if width <= 0 || height <= 0 || width * height > limits.pixels
                  then ReadPage(limits, page) == Bad(Failure(PixelLimit, false))
                  else
                    match scan
                    case Recognised(text) => ReadPage(limits, page) == Got(text, Tesseract)
                    case TimedOut => ReadPage(limits, page) == Bad(Failure(OcrTimeout, true))
                    case EngineFailed => ReadPage(limits, page) == Bad(Failure(OcrEngineUnavailable, false))
  {}

  /** Why an image reads as it does: its header, its format, its pixels, and then the
      pixels as they stand upright. */
  lemma PictureExplained(limits: Limits, picture: Picture)
    ensures match picture
            case Unidentified => ReadPicture(limits, picture) == Bad(Failure(InvalidDocument, false))
            case Bomb => ReadPicture(limits, picture) == Bad(Failure(PixelLimit, false))
            case Picture(width, height, supported, image) =>
              if width <= 0 || height <= 0 || width * height > limits.pixels
              then ReadPicture(limits, picture) == Bad(Failure(PixelLimit, false))
              else if !supported || image.None?
              then ReadPicture(limits, picture) == Bad(Failure(InvalidDocument, false))
              else if || image.value.width <= 0
                      || image.value.height <= 0
                      || image.value.width * image.value.height > limits.pixels
              then ReadPicture(limits, picture) == Bad(Failure(PixelLimit, false))
              else
                match image.value.scan
                case Recognised(text) => ReadPicture(limits, picture) == Got(text, Tesseract)
                case TimedOut => ReadPicture(limits, picture) == Bad(Failure(OcrTimeout, true))
                case EngineFailed => ReadPicture(limits, picture) == Bad(Failure(OcrEngineUnavailable, false))
  {}

  /** Why the loop stops at a page: it cannot be loaded, its layer counts more than is
      left, it cannot be read, or its text and separator take more than is left. */
  lemma StopExplained(limits: Limits, page: Page, used: nat)
    ensures Stop(limits, page, used) == None <==>
              && page.Page?
              && used + page.count <= limits.chars
              && ReadPage(limits, page).Got?
              && used + |ReadPage(limits, page).text| + 2 <= limits.chars
    ensures Stop(limits, page, used) == Some(Failure(TextLimit, false)) <==>
              && page.Page?
              && (|| used + page.count > limits.chars
                  || (ReadPage(limits, page).Got? && used + |ReadPage(limits, page).text| + 2 > limits.chars))
    ensures page.Unloadable? ==> Stop(limits, page, used) == Some(Failure(InvalidDocument, false))
    ensures page.Page? && used + page.count <= limits.chars && ReadPage(limits, page).Bad? ==>
              Stop(limits, page, used) == Some(ReadPage(limits, page).failure)
  {}

  /** Why a file is refused. */
  predicate Refuses(limits: Limits, file: File, failure: Failure) {
    match file
    case Pdf(None) => failure == Failure(InvalidDocument, false)
    case Pdf(Some(pages)) =>
      if !(0 < |pages| <= limits.pages) then failure == Failure(PageLimit, false)
      else exists k: nat | k < |pages| ::
        && StopAt(limits, pages, k) == Some(failure)
        && forall i: nat | i < k :: StopAt(limits, pages, i) == None
    case Single(picture) =>
      match ReadPicture(limits, picture)
      case Bad(reason) => failure == reason
      case Got(text, _) => |text| > limits.chars && failure == Failure(TextLimit, false)
  }

  /** A refusal may pass exactly if the engine ran out of time. */
  lemma OnlyTimeoutsMayPass(limits: Limits, file: File, failure: Failure)
    requires Refuses(limits, file, failure)
    ensures failure.retryable <==> failure.code == OcrTimeout
    ensures !Accepted(limits, file)
  {}

  method Extract(limits: Limits, file: File) returns (extraction: Extraction)
    ensures extraction.Complete? <==> Accepted(limits, file)
    ensures extraction.Refused? ==> Refuses(limits, file, extraction.failure)
    ensures extraction.Complete? ==>
              && |extraction.text| <= limits.chars
              && '\0' !in extraction.text
              && match file
                 case Pdf(pages) =>
                   && extraction.text == Purged(Join(Texts(limits, pages.value)))
                   && extraction.engines == Engines(limits, pages.value)
                   && |extraction.engines| == |pages.value| <= limits.pages
                 case Single(picture) =>
                   && extraction.text == Purged(ReadPicture(limits, picture).text)
                   && extraction.engines == [Tesseract]
  {
    match file {
      case Pdf(pages) =>
        extraction := ExtractPdf(limits, pages);
        if extraction.Complete? {
          AdmittedIff(limits, pages.value);
        }
      case Single(picture) =>
        match ReadPicture(limits, picture) {
          case Bad(failure) => extraction := Refused(failure);
          case Got(text, _) => extraction := Complete(text, [Tesseract]);
        }
    }
    if extraction.Refused? {
      return;
    }
    if |extraction.text| > limits.chars {
      return Refused(TOO_LONG);
    }
    PurgedIsClean(extraction.text);
    extraction := extraction.(text := Purged(extraction.text));
  }

  function OnePage(text: string): Page {
    Page(|text|, Some(text), 1.0, 1.0, None)
  }

  function OnePicture(text: string): Picture {
    Picture(1, 1, true, Some(Image(1, 1, Recognised(text))))
  }

  /** The documented limit on the characters of a text is not the one PDFs are
      held to: the same text passes as an image up to the limit, as a text layer
      only two characters short of it. */
  lemma SameTextTwoLimits(limits: Limits, text: string)
    requires limits.pages >= 1 && limits.pixels >= 1 && text != ""
    ensures Accepted(limits, Pdf(Some([OnePage(text)]))) <==> |text| <= limits.chars - 2
    ensures Accepted(limits, Single(OnePicture(text))) <==> |text| <= limits.chars
  {
    var pages := [OnePage(text)];
    AdmittedIff(limits, pages);
    assert pages[..0] == [];
    assert Texts(limits, pages) == [text];
  }
}
