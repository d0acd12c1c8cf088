/**
 * The main review page: the analysis driver that feeds text findings and
 * image-check results into the issue list, the image-scan progress counter,
 * and the review actions.
 */
module Dashboard {
  import opened Base
  import opened Strings
  import opened Validation
  import opened IssueList

  /** The detection settings the page runs with; nothing on the page reads `watermarkThreshold`. */
  datatype Settings = Settings(
    vendorRegex: string,
    phoneRegex: string,
    watermarkThreshold: int,
    enableImageScanning: bool,
    customRegexPatterns: string)

  /** The page's fixed settings: they are a constant, never edited at run time. */
  const DefaultSettings := Settings(
    "\\b(company|vendor|store|consignor|seller)\\b",
    "(\\+\\d{1,3}[\\s-]?)?(\\(\\d{3}\\)\\s?\\d{3}-\\d{4})",
    50,
    true,
    "")

  /** What one call of the image check does: it throws, finds nothing, or returns a watermark finding. */
  datatype CheckOutcome = Throws | NoWatermark | Found(finding: IssueType)

  /** `product.imageUrl && product.imageUrl.trim() !== ''` */
  predicate HasImage(p: Product) {
    p.imageUrl.Some? && !IsBlank(p.imageUrl.value)
  }

  /** The products whose image is checked, in input order. */
  function ImageProducts(ps: seq<Product>): (r: seq<Product>)
    ensures |r| <= |ps|
  {
    if ps == [] then []
    else ImageProducts(ps[..|ps| - 1]) + if HasImage(ps[|ps| - 1]) then [ps[|ps| - 1]] else []
  }

  /** The selection keeps exactly the products with a non-blank image URL. */
  lemma {:induction false} ImageProductsMembers(ps: seq<Product>)
    ensures forall p :: p in ImageProducts(ps) <==> p in ps && HasImage(p)
  {
    if ps != [] {
      ImageProductsMembers(ps[..|ps| - 1]);
      assert ps == ps[..|ps| - 1] + [ps[|ps| - 1]];
    }
  }

  /** The selection keeps order: it distributes over concatenation. */
  lemma {:induction false} ImageProductsAppend(a: seq<Product>, b: seq<Product>)
    ensures ImageProducts(a + b) == ImageProducts(a) + ImageProducts(b)
    decreases |b|
  {
    if b == [] {
      assert a + b == a;
    } else {
      assert (a + b)[..|a + b| - 1] == a + b[..|b| - 1];
      ImageProductsAppend(a, b[..|b| - 1]);
    }
  }

  /** The products the image loop visits: none when scanning is switched off. */
  function ScanList(s: Settings, data: seq<Product>): seq<Product> {
    if s.enableImageScanning then ImageProducts(data) else []
  }

  /** The list after the text findings were reported, in order, to the upserting callback. */
  function TextPhase(l: seq<IssueRecord>, reported: seq<IssueRecord>): seq<IssueRecord> {
    if reported == [] then l
    else Upsert(TextPhase(l, reported[..|reported| - 1]), reported[|reported| - 1])
  }

  /** The text phase keeps ids unique, and every reported record ends up with its id in the list. */
  lemma {:induction false} TextPhaseUnique(l: seq<IssueRecord>, reported: seq<IssueRecord>)
    requires UniqueIds(l)
    ensures var r := TextPhase(l, reported);
            UniqueIds(r) && forall j :: 0 <= j < |reported| ==> HasId(r, reported[j].id)
  {
    if reported != [] {
      var prefix := reported[..|reported| - 1];
      var rec := reported[|reported| - 1];
      TextPhaseUnique(l, prefix);
      var prev := TextPhase(l, prefix);
      UpsertUnique(prev, rec);
      var r := Upsert(prev, rec);
      forall j | 0 <= j < |reported|
        ensures HasId(r, reported[j].id)
      {
        if j < |prefix| {
          assert reported[j] == prefix[j];
          var k :| 0 <= k < |prev| && prev[k].id == reported[j].id;
          if prev[k].id != rec.id {
            assert r[k] == prev[k];
          } else {
            var m :| 0 <= m < |r| && r[m] == rec;
          }
        } else {
          var m :| 0 <= m < |r| && r[m] == rec;
        }
      }
    }
  }

  /** The list after the image loop: each watermark found is merged in; a throw or a clean image adds nothing. */
  function ImagePhase(l: seq<IssueRecord>, ps: seq<Product>, check: nat -> CheckOutcome): seq<IssueRecord> {
    if ps == [] then l
    else
      var prev := ImagePhase(l, ps[..|ps| - 1], check);
      match check(|ps| - 1)
      case Found(f) => MergeWatermark(prev, ps[|ps| - 1], f)
      case _ => prev
  }

  /** How many of the first `n` checks found a watermark. */
  function FoundCount(n: nat, check: nat -> CheckOutcome): (c: nat)
    ensures c <= n
  {
    if n == 0 then 0 else FoundCount(n - 1, check) + if check(n - 1).Found? then 1 else 0
  }

  /**
   * The image phase keeps ids unique, keeps every earlier record at its place
   * with its id, and adds exactly one issue type per watermark found.
   */
  lemma {:induction false} ImagePhaseProps(l: seq<IssueRecord>, ps: seq<Product>, check: nat -> CheckOutcome)
    requires UniqueIds(l)
    ensures var r := ImagePhase(l, ps, check);
            && UniqueIds(r)
            && TotalCount(r) == TotalCount(l) + FoundCount(|ps|, check)
            && |l| <= |r| <= |l| + FoundCount(|ps|, check)
            && forall k :: 0 <= k < |l| ==> r[k].id == l[k].id
  {
    if ps != [] {
      var prefix := ps[..|ps| - 1];
      ImagePhaseProps(l, prefix, check);
      var prev := ImagePhase(l, prefix, check);
      match check(|ps| - 1)
      case Found(f) =>
        MergeWatermarkUnique(prev, ps[|ps| - 1], f);
        MergeWatermarkCount(prev, ps[|ps| - 1], f);
      case _ =>
    }
  }

  /** The list one whole analysis leaves behind, when the text phase does not throw. */
  function Analysis(reported: seq<IssueRecord>, scan: seq<Product>, check: nat -> CheckOutcome): seq<IssueRecord> {
    ImagePhase(TextPhase([], reported), scan, check)
  }

  /** After a whole analysis no two records share an id, and every text finding is still listed. */
  lemma AnalysisUnique(reported: seq<IssueRecord>, scan: seq<Product>, check: nat -> CheckOutcome)
    ensures var r := Analysis(reported, scan, check);
            && UniqueIds(r)
            && TotalCount(r) == TotalCount(TextPhase([], reported)) + FoundCount(|scan|, check)
            && forall j :: 0 <= j < |reported| ==> HasId(r, reported[j].id)
  {
    TextPhaseUnique([], reported);
    var t := TextPhase([], reported);
    ImagePhaseProps(t, scan, check);
    var r := Analysis(reported, scan, check);
    forall j | 0 <= j < |reported|
      ensures HasId(r, reported[j].id)
    {
      var k :| 0 <= k < |t| && t[k].id == reported[j].id;
      assert r[k].id == t[k].id;
    }
  }

  /** `getProductImages`: the non-blank image URLs of the products with this id, in order. */
  function ProductImages(products: seq<Product>, id: string): seq<string> {
    if products == [] then []
    else
      (if products[0].id == id && HasImage(products[0]) then [products[0].imageUrl.value] else [])
        + ProductImages(products[1..], id)
  }

  /** Every URL returned belongs to a product with that id, and every such product's URL is returned. */
  lemma {:induction false} ProductImagesMembers(products: seq<Product>, id: string)
    ensures forall u :: u in ProductImages(products, id) <==>
              exists p :: p in products && p.id == id && HasImage(p) && p.imageUrl.value == u
    ensures |ProductImages(products, id)| <= |ImageProducts(products)|
  {
    if products != [] {
      var rest := products[1..];
      ProductImagesMembers(rest, id);
      assert products == [products[0]] + rest;
      ImageProductsAppend([products[0]], rest);
      assert [products[0]][..0] == [];
    }
  }

  /** The gallery keeps product order: it distributes over concatenation. */
  lemma {:induction false} ProductImagesAppend(a: seq<Product>, b: seq<Product>, id: string)
    ensures ProductImages(a + b, id) == ProductImages(a, id) + ProductImages(b, id)
  {
    if a == [] {
      assert a + b == b;
    } else {
      assert (a + b)[0] == a[0];
      assert (a + b)[1..] == a[1..] + b;
      ProductImagesAppend(a[1..], b, id);
    }
  }

  /** The state of the main page. */
  class Page {
    const settings: Settings
    var activeTab: string
    var issues: seq<IssueRecord>
    var fileUploaded: bool
    var products: seq<Product>
    var isAnalyzing: bool
    var issueTypeFilter: string
    var processedImageCount: nat
    var totalImageCount: nat

    constructor()
      ensures settings == DefaultSettings && activeTab == "upload" && issues == [] && !fileUploaded
      ensures products == [] && !isAnalyzing && issueTypeFilter == AllFilter
      ensures processedImageCount == 0 && totalImageCount == 0
    {
      settings := DefaultSettings;
      activeTab := "upload";
      issues := [];
      fileUploaded := false;
      products := [];
      isAnalyzing := false;
      issueTypeFilter := AllFilter;
      processedImageCount := 0;
      totalImageCount := 0;
    }

    /** `handleIssueFound` for each reported record, in order. */
    method ReportTextFindings(reported: seq<IssueRecord>)
      modifies this
      ensures issues == TextPhase(old(issues), reported)
      ensures unchanged(this`processedImageCount, this`totalImageCount, this`activeTab, this`products)
      ensures unchanged(this`fileUploaded, this`isAnalyzing, this`issueTypeFilter)
    {
      ghost var start := issues;
      var j := 0;
      while j < |reported|
        invariant 0 <= j <= |reported|
        invariant issues == TextPhase(start, reported[..j])
        invariant unchanged(this`processedImageCount, this`totalImageCount, this`activeTab, this`products)
        invariant unchanged(this`fileUploaded, this`isAnalyzing, this`issueTypeFilter)
      {
        assert reported[..j + 1][..j] == reported[..j];
        issues := Upsert(issues, reported[j]);
        j := j + 1;
      }
      assert reported[..j] == reported;
    }

    /** The image loop: one check per product, the processed counter bumped whatever the outcome. */
    method ScanImages(scan: seq<Product>, check: nat -> CheckOutcome) returns (found: bool)
      modifies this
      ensures issues == ImagePhase(old(issues), scan, check)
      ensures processedImageCount == old(processedImageCount) + |scan|
      ensures found <==> FoundCount(|scan|, check) > 0
      ensures unchanged(this`totalImageCount, this`activeTab, this`products)
      ensures unchanged(this`fileUploaded, this`isAnalyzing, this`issueTypeFilter)
    {
      ghost var start := issues;
      ghost var count0 := processedImageCount;
      found := false;
      var i := 0;
      while i < |scan|
        invariant 0 <= i <= |scan|
        invariant issues == ImagePhase(start, scan[..i], check)
        invariant processedImageCount == count0 + i
        invariant found <==> FoundCount(i, check) > 0
        invariant unchanged(this`totalImageCount, this`activeTab, this`products)
        invariant unchanged(this`fileUploaded, this`isAnalyzing, this`issueTypeFilter)
      {
        assert scan[..i + 1][..i] == scan[..i];
        var product := scan[i];
        var outcome := check(i);
        processedImageCount := processedImageCount + 1;
        if outcome.Found? {
          found := true;
          issues := MergeWatermark(issues, product, outcome.finding);
        }
        i := i + 1;
      }
      assert scan[..i] == scan;
    }

    /**
     * `handleAnalyzeData`. The text detector reports `reported` through the
     * callback and then throws when `textThrows` holds; `check(i)` is the
     * outcome of the i-th image check.
     */
    method AnalyzeData(data: seq<Product>, reported: seq<IssueRecord>, textThrows: bool, check: nat -> CheckOutcome)
      returns (found: bool)
      modifies this
      ensures data == [] ==> unchanged(this) && !found
      ensures data != [] ==>
                && totalImageCount == |ScanList(settings, data)|
                && !isAnalyzing
                && unchanged(this`products, this`fileUploaded, this`issueTypeFilter)
      ensures data != [] && textThrows ==>
                && issues == TextPhase([], reported)
                && processedImageCount == 0
                && activeTab == old(activeTab)
                && (found <==> reported != [])
      ensures data != [] && !textThrows ==>
                && issues == Analysis(reported, ScanList(settings, data), check)
                && processedImageCount == totalImageCount
                && activeTab == "review"
                && (found <==> reported != [] || FoundCount(totalImageCount, check) > 0)
    {
      found := false;
      if |data| == 0 {
        return;
      }
      isAnalyzing := true;
      issues := [];
      var scan := ScanList(settings, data);
      totalImageCount := |scan|;
      processedImageCount := 0;
      ReportTextFindings(reported);
      found := reported != [];
      if textThrows {
        isAnalyzing := false;
        return;
      }
      if settings.enableImageScanning && |scan| > 0 {
        var foundImage := ScanImages(scan, check);
        found := found || foundImage;
      }
      activeTab := "review";
      isAnalyzing := false;
    }

    /** `handleFileUploaded`: store the parsed products, then analyse them. */
    method FileUploaded(data: seq<Product>, reported: seq<IssueRecord>, textThrows: bool, check: nat -> CheckOutcome)
      returns (found: bool)
      modifies this
      ensures products == data && fileUploaded
      ensures data != [] && !textThrows ==>
                && issues == Analysis(reported, ScanList(settings, data), check)
                && processedImageCount == totalImageCount == |ScanList(settings, data)|
                && activeTab == "review" && !isAnalyzing
      ensures data != [] && textThrows ==>
                && issues == TextPhase([], reported)
                && processedImageCount == 0 && totalImageCount == |ScanList(settings, data)|
                && activeTab == old(activeTab) && !isAnalyzing
      ensures data == [] ==> issues == old(issues) && activeTab == old(activeTab)
      ensures found <==> data != [] && (reported != [] || (!textThrows && FoundCount(|ScanList(settings, data)|, check) > 0))
    {
      products := data;
      fileUploaded := true;
      found := AnalyzeData(data, reported, textThrows, check);
    }

    /** `handleMarkResolved` */
    method MarkResolved(id: string)
      modifies this`issues
      ensures issues == ToggleResolved(old(issues), id)
    {
      issues := ToggleResolved(issues, id);
    }

    /** `handleIgnore` */
    method IgnoreIssue(id: string)
      modifies this`issues
      ensures issues == Ignore(old(issues), id)
    {
      issues := Ignore(issues, id);
    }
  }
}
