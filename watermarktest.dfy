/**
 * The batch watermark test page: image URLs pulled out of pasted CSV text,
 * one check request per URL, and the review actions on the resulting list.
 */
module WatermarkTest {
  import opened Base
  import opened Strings
  import opened Validation
  import opened IssueList

  // ---------------------------------------------------------------------------
  // parseCSVImageUrls

  /** The header names, trimmed and lower-cased. */
  function HeaderNames(line: string): (r: seq<string>)
    ensures |r| == |Split(line, ',')|
  {
    var parts := Split(line, ',');
    seq(|parts|, i requires 0 <= i < |parts| => Lower(Trim(parts[i])))
  }

  /** A header naming an image URL column. */
  predicate IsUrlHeader(h: string) {
    Contains(h, "image") || Contains(h, "img") || Contains(h, "photo") || Contains(h, "url")
  }

  /** `headers.findIndex(IsUrlHeader)`, with `None` for -1. */
  function FindUrlHeader(headers: seq<string>): Option<nat> {
    if headers == [] then None
    else if IsUrlHeader(headers[0]) then Some(0)
    else match FindUrlHeader(headers[1..])
      case None => None
      case Some(k) => Some(k + 1)
  }

  /** The index found is the first URL header, and `None` means there is none. */
  lemma {:induction false} FindUrlHeaderIsFirst(headers: seq<string>)
    ensures match FindUrlHeader(headers)
            case None => forall j :: 0 <= j < |headers| ==> !IsUrlHeader(headers[j])
            case Some(k) => k < |headers| && IsUrlHeader(headers[k]) && forall j :: 0 <= j < k ==> !IsUrlHeader(headers[j])
  {
    if headers != [] && !IsUrlHeader(headers[0]) {
      FindUrlHeaderIsFirst(headers[1..]);
      forall j | 1 <= j < |headers|
        ensures headers[j] == headers[1..][j - 1]
      {
      }
    }
  }

  /** The value of column `k` on one line, `''` when the line is shorter. */
  function ColumnValue(line: string, k: nat): string {
    var values := Cells(line);
    if k < |values| then values[k] else ""
  }

  /** The non-empty values of column `k`, line by line, in order. */
  function ColumnValues(lines: seq<string>, k: nat): (r: seq<string>)
    ensures |r| <= |lines|
  {
    if lines == [] then []
    else
      var v := ColumnValue(lines[|lines| - 1], k);
      ColumnValues(lines[..|lines| - 1], k) + if v != "" then [v] else []
  }

  /** `parseCSVImageUrls` */
  function ParseCsvImageUrls(csv: string): seq<string> {
    var lines := Split(csv, '\n');
    if |lines| < 2 then []
    else match FindUrlHeader(HeaderNames(lines[0]))
      case None => []
      case Some(k) => ColumnValues(NonBlank(lines[1..]), k)
  }

  /** A column value is already trimmed. */
  lemma ColumnValueTrimmed(line: string, k: nat)
    ensures Trim(ColumnValue(line, k)) == ColumnValue(line, k)
  {
    var parts := Split(line, ',');
    if k < |parts| {
      assert ColumnValue(line, k) == Trim(parts[k]);
      TrimIdempotent(parts[k]);
    }
  }

  /** `v` is the value of column `k` on one of the lines. */
  predicate InColumn(v: string, lines: seq<string>, k: nat) {
    exists i :: 0 <= i < |lines| && v == ColumnValue(lines[i], k)
  }

  /** Every value of a column is non-empty, already trimmed, and one line's cell. */
  lemma {:induction false} ColumnValuesShape(lines: seq<string>, k: nat)
    ensures forall j :: 0 <= j < |ColumnValues(lines, k)| ==>
              var v := ColumnValues(lines, k)[j]; v != "" && Trim(v) == v && InColumn(v, lines, k)
  {
    if lines != [] {
      var prefix := lines[..|lines| - 1];
      var last := lines[|lines| - 1];
      ColumnValuesShape(prefix, k);
      var prev := ColumnValues(prefix, k);
      var v := ColumnValue(last, k);
      var r := ColumnValues(lines, k);
      assert r == prev + if v != "" then [v] else [];
      forall j | 0 <= j < |r|
        ensures r[j] != "" && Trim(r[j]) == r[j] && InColumn(r[j], lines, k)
      {
        if j < |prev| {
          assert r[j] == prev[j];
          assert InColumn(prev[j], prefix, k);
          var i :| 0 <= i < |prefix| && prev[j] == ColumnValue(prefix[i], k);
          assert prefix[i] == lines[i];
        } else {
          assert r[j] == v;
          ColumnValueTrimmed(last, k);
          assert lines[|lines| - 1] == last;
        }
      }
    }
  }

  /** Extracting a column keeps line order: it distributes over concatenation. */
  lemma {:induction false} ColumnValuesAppend(a: seq<string>, b: seq<string>, k: nat)
    ensures ColumnValues(a + b, k) == ColumnValues(a, k) + ColumnValues(b, k)
    decreases |b|
  {
    if b == [] {
      assert a + b == a;
    } else {
      var b' := b[..|b| - 1];
      assert (a + b)[..|a + b| - 1] == a + b';
      ColumnValuesAppend(a, b', k);
    }
  }

  /** No value is lost: every line's non-empty value of column `k` is extracted. */
  lemma {:induction false} ColumnValuesComplete(lines: seq<string>, k: nat)
    ensures forall l :: l in lines && ColumnValue(l, k) != "" ==> ColumnValue(l, k) in ColumnValues(lines, k)
  {
    if lines != [] {
      var prefix := lines[..|lines| - 1];
      ColumnValuesComplete(prefix, k);
      assert lines == prefix + [lines[|lines| - 1]];
    }
  }

  /** Without a URL header, or with fewer than two lines, no URL comes out. */
  lemma ParseCsvImageUrlsEmpty(csv: string)
    ensures var lines := Split(csv, '\n');
            |lines| < 2 || FindUrlHeader(HeaderNames(lines[0])).None? ==> ParseCsvImageUrls(csv) == []
  {
  }

  /** There are fewer URLs than lines, and every URL is non-empty and trimmed. */
  lemma ParseCsvImageUrlsShape(csv: string)
    ensures var r := ParseCsvImageUrls(csv);
            && |r| < |Split(csv, '\n')|
            && forall j :: 0 <= j < |r| ==> r[j] != "" && Trim(r[j]) == r[j]
  {
    var lines := Split(csv, '\n');
    if |lines| >= 2 {
      var found := FindUrlHeader(HeaderNames(lines[0]));
      if found.Some? {
        var data := NonBlank(lines[1..]);
        assert ParseCsvImageUrls(csv) == ColumnValues(data, found.value);
        ColumnValuesShape(data, found.value);
      }
    }
  }

  /**
   * With a URL header in column `k`, the URLs are exactly the non-empty
   * values of column `k` on the non-blank data lines: each URL is such a
   * value, and each such value is a URL.
   */
  lemma ParseCsvImageUrlsExact(csv: string)
    ensures var lines := Split(csv, '\n');
            var r := ParseCsvImageUrls(csv);
            |lines| >= 2 && FindUrlHeader(HeaderNames(lines[0])).Some? ==>
              var k := FindUrlHeader(HeaderNames(lines[0])).value;
              && (forall i :: 1 <= i < |lines| && !IsBlank(lines[i]) && ColumnValue(lines[i], k) != "" ==>
                    ColumnValue(lines[i], k) in r)
              && (forall v :: v in r ==>
                    exists i :: 1 <= i < |lines| && !IsBlank(lines[i]) && v == ColumnValue(lines[i], k))
  {
    var lines := Split(csv, '\n');
    if |lines| >= 2 && FindUrlHeader(HeaderNames(lines[0])).Some? {
      var k := FindUrlHeader(HeaderNames(lines[0])).value;
      var data := NonBlank(lines[1..]);
      var r := ParseCsvImageUrls(csv);
      assert r == ColumnValues(data, k);
      NonBlankMembers(lines[1..]);
      ColumnValuesComplete(data, k);
      forall i | 1 <= i < |lines| && !IsBlank(lines[i]) && ColumnValue(lines[i], k) != ""
        ensures ColumnValue(lines[i], k) in r
      {
        assert lines[i] == lines[1..][i - 1];
        assert lines[i] in data;
      }
      ColumnValuesShape(data, k);
      forall v | v in r
        ensures exists i :: 1 <= i < |lines| && !IsBlank(lines[i]) && v == ColumnValue(lines[i], k)
      {
        var j :| 0 <= j < |r| && r[j] == v;
        assert InColumn(v, data, k);
        var d :| 0 <= d < |data| && v == ColumnValue(data[d], k);
        assert data[d] in lines[1..];
        var i :| 0 <= i < |lines[1..]| && lines[1..][i] == data[d];
        assert lines[i + 1] == data[d];
      }
    }
  }

  /**
   * The URLs keep line order: appending more lines to the text appends the
   * URLs of those lines, taken from the column the header line selects.
   */
  lemma ParseCsvImageUrlsAppend(a: string, b: string)
    ensures var header := Split(a, '\n')[0];
            var more := Split(b, '\n');
            match FindUrlHeader(HeaderNames(header))
            case None => ParseCsvImageUrls(a + ['\n'] + b) == []
            case Some(k) => ParseCsvImageUrls(a + ['\n'] + b) == ParseCsvImageUrls(a) + ColumnValues(NonBlank(more), k)
  {
    var first := Split(a, '\n');
    var more := Split(b, '\n');
    SplitAppend(a, b, '\n');
    var lines := Split(a + ['\n'] + b, '\n');
    assert lines == first + more;
    assert lines[0] == first[0];
    match FindUrlHeader(HeaderNames(first[0]))
    case None =>
    case Some(k) =>
      assert lines[1..] == first[1..] + more;
      NonBlankAppend(first[1..], more);
      ColumnValuesAppend(NonBlank(first[1..]), NonBlank(more), k);
      if |first| < 2 {
        assert first[1..] == [];
      }
  }

  /** CSV text without a line break yields no URL. */
  lemma SingleLineNoUrls(csv: string)
    requires '\n' !in csv
    ensures ParseCsvImageUrls(csv) == []
  {
    SplitSingle(csv, '\n');
  }

  // ---------------------------------------------------------------------------
  // processCSV

  /** The body of one check request. */
  datatype CheckRequest = CheckRequest(imageUrl: string, productName: string, productId: string)

  /** The JSON the check endpoint answers with, as far as the page reads it. */
  datatype CheckReply = CheckReply(hasWatermark: bool, issueType: Option<IssueType>, productId: string, productName: string)

  /** What one request does: the fetch throws, the response is not ok, or it carries a reply. */
  datatype FetchOutcome = FetchThrows | NotOk | Ok(reply: CheckReply)

  /** The request for the URL at 1-based position `n`. */
  function RequestFor(url: string, n: nat): CheckRequest {
    CheckRequest(url, "Product " + NatToString(n), "product-" + NatToString(n))
  }

  /** The requests the loop sends, one per URL, numbered from 1. */
  function Requests(urls: seq<string>): (r: seq<CheckRequest>)
    ensures |r| == |urls|
  {
    seq(|urls|, i requires 0 <= i < |urls| => RequestFor(urls[i], i + 1))
  }

  /** Distinct numbers behind the same prefix give distinct strings. */
  lemma PrefixedDistinct(prefix: string, m: nat, n: nat)
    requires m != n
    ensures prefix + NatToString(m) != prefix + NatToString(n)
  {
    if prefix + NatToString(m) == prefix + NatToString(n) {
      assert (prefix + NatToString(m))[|prefix|..] == NatToString(m);
      assert (prefix + NatToString(n))[|prefix|..] == NatToString(n);
      NatToStringInjective(m, n);
    }
  }

  /** Each request carries its URL, and no two requests share a product id or a product name. */
  lemma RequestsDistinct(urls: seq<string>)
    ensures var r := Requests(urls);
            forall i, j :: 0 <= i < |r| && 0 <= j < |r| && i != j ==>
              r[i].imageUrl == urls[i] && r[i].productId != r[j].productId && r[i].productName != r[j].productName
  {
    var r := Requests(urls);
    forall i, j | 0 <= i < |r| && 0 <= j < |r| && i != j
      ensures r[i].productId != r[j].productId && r[i].productName != r[j].productName
    {
      PrefixedDistinct("product-", i + 1, j + 1);
      PrefixedDistinct("Product ", i + 1, j + 1);
    }
  }

  /** The record a reply adds, when it reports a watermark together with an issue type. */
  function ReplyIssue(url: string, outcome: FetchOutcome): Option<IssueRecord> {
    match outcome
    case Ok(reply) =>
      if reply.hasWatermark && reply.issueType.Some? then
        Some(IssueRecord(reply.productId, reply.productId, reply.productName, [reply.issueType.value], Some(url), false))
      else None
    case _ => None
  }

  /** The issues the loop appends, in URL order, without de-duplication. */
  function ScanIssues(urls: seq<string>, respond: CheckRequest -> FetchOutcome): seq<IssueRecord> {
    if urls == [] then []
    else
      var n := |urls|;
      var prev := ScanIssues(urls[..n - 1], respond);
      match ReplyIssue(urls[n - 1], respond(RequestFor(urls[n - 1], n)))
      case Some(rec) => prev + [rec]
      case None => prev
  }

  /**
   * At most one issue per URL; each issue is unresolved, holds exactly one
   * issue type and carries one of the checked URLs as its image.
   */
  lemma {:induction false} ScanIssuesShape(urls: seq<string>, respond: CheckRequest -> FetchOutcome)
    ensures var r := ScanIssues(urls, respond);
            && |r| <= |urls|
            && forall j :: 0 <= j < |r| ==>
                 !r[j].resolved && |r[j].issueTypes| == 1 && r[j].imageUrl.Some? && r[j].imageUrl.value in urls
  {
    if urls != [] {
      var prefix := urls[..|urls| - 1];
      ScanIssuesShape(prefix, respond);
      var r := ScanIssues(urls, respond);
      var prev := ScanIssues(prefix, respond);
      forall j | 0 <= j < |r|
        ensures !r[j].resolved && |r[j].issueTypes| == 1 && r[j].imageUrl.Some? && r[j].imageUrl.value in urls
      {
        if j < |prev| {
          assert r[j] == prev[j];
          assert r[j].imageUrl.value in prefix;
        } else {
          assert r[j].imageUrl == Some(urls[|urls| - 1]);
        }
      }
    }
  }

  /** The record the reply to the request for the URL at index `i` adds, if any. */
  function ReplyAt(urls: seq<string>, respond: CheckRequest -> FetchOutcome, i: nat): Option<IssueRecord>
    requires i < |urls|
  {
    ReplyIssue(urls[i], respond(RequestFor(urls[i], i + 1)))
  }

  /** The indices of the URLs whose reply reports a watermark with an issue type, in order. */
  function PositiveIndices(urls: seq<string>, respond: CheckRequest -> FetchOutcome): seq<nat> {
    if urls == [] then []
    else
      var n := |urls|;
      PositiveIndices(urls[..n - 1], respond) + if ReplyAt(urls, respond, n - 1).Some? then [n - 1] else []
  }

  /**
   * `r` holds the records of the positive replies among the first `n` URLs, in
   * order: `ix` lists their indices, rising, and misses none.
   */
  predicate RepliesUpTo(urls: seq<string>, respond: CheckRequest -> FetchOutcome, n: nat, r: seq<IssueRecord>, ix: seq<nat>)
    requires n <= |urls|
  {
    && |r| == |ix|
    && (forall j :: 0 <= j < |ix| ==>
          ix[j] < n && ReplyAt(urls, respond, ix[j]) == Some(r[j]) && r[j].imageUrl == Some(urls[ix[j]]))
    && (forall j, j' :: 0 <= j < j' < |ix| ==> ix[j] < ix[j'])
    && (forall i :: 0 <= i < n && ReplyAt(urls, respond, i).Some? ==> i in ix)
  }

  /** One more URL adds its reply's record, when there is one, at the end. */
  lemma RepliesStep(urls: seq<string>, respond: CheckRequest -> FetchOutcome, n: nat, r: seq<IssueRecord>, ix: seq<nat>)
    requires n < |urls| && RepliesUpTo(urls, respond, n, r, ix)
    ensures var rec := ReplyAt(urls, respond, n);
            RepliesUpTo(urls, respond, n + 1, r + (if rec.Some? then [rec.value] else []), ix + (if rec.Some? then [n] else []))
  {
  }

  /** The scan of the first `n` URLs holds their positive replies' records. */
  lemma {:induction false} ScanIssuesUpTo(urls: seq<string>, respond: CheckRequest -> FetchOutcome, n: nat)
    requires n <= |urls|
    ensures RepliesUpTo(urls, respond, n, ScanIssues(urls[..n], respond), PositiveIndices(urls[..n], respond))
  {
    if n > 0 {
      ScanIssuesUpTo(urls, respond, n - 1);
      var u := urls[..n];
      assert u[..n - 1] == urls[..n - 1];
      assert u[n - 1] == urls[n - 1];
      assert ReplyAt(u, respond, n - 1) == ReplyAt(urls, respond, n - 1);
      RepliesStep(urls, respond, n - 1, ScanIssues(urls[..n - 1], respond), PositiveIndices(urls[..n - 1], respond));
    }
  }

  /**
   * The issues are exactly the records of the positive replies, in URL order:
   * the j-th issue is the record of the j-th positive reply and shows that
   * reply's own URL, and every positive reply has its issue.
   */
  lemma ScanIssuesAre(urls: seq<string>, respond: CheckRequest -> FetchOutcome)
    ensures RepliesUpTo(urls, respond, |urls|, ScanIssues(urls, respond), PositiveIndices(urls, respond))
  {
    ScanIssuesUpTo(urls, respond, |urls|);
    assert urls[..|urls|] == urls;
  }

  /** `id` is the product id of one of the first `n` requests. */
  predicate NumberedId(id: string, n: nat) {
    exists i :: 1 <= i <= n && id == "product-" + NatToString(i)
  }

  /** When the endpoint echoes the request's ids, the issues carry distinct ids, each a request's product id. */
  lemma {:induction false} EchoedScanUnique(urls: seq<string>, respond: CheckRequest -> FetchOutcome)
    requires forall q :: respond(q).Ok? ==> respond(q).reply.productId == q.productId
    ensures UniqueIds(ScanIssues(urls, respond))
    ensures forall j :: 0 <= j < |ScanIssues(urls, respond)| ==> NumberedId(ScanIssues(urls, respond)[j].id, |urls|)
  {
    if urls != [] {
      var n := |urls|;
      var prefix := urls[..n - 1];
      EchoedScanUnique(prefix, respond);
      var prev := ScanIssues(prefix, respond);
      var r := ScanIssues(urls, respond);
      var q := RequestFor(urls[n - 1], n);
      if ReplyIssue(urls[n - 1], respond(q)).Some? {
        var rec := ReplyIssue(urls[n - 1], respond(q)).value;
        assert r == prev + [rec];
        assert rec.id == "product-" + NatToString(n);
        forall j | 0 <= j < |r|
          ensures (j < |prev| ==> r[j].id != rec.id) && NumberedId(r[j].id, n)
        {
          if j < |prev| {
            assert NumberedId(prev[j].id, n - 1);
            var i :| 1 <= i <= n - 1 && prev[j].id == "product-" + NatToString(i);
            assert r[j] == prev[j];
            PrefixedDistinct("product-", i, n);
          } else {
            assert r[j] == rec;
          }
        }
        forall a, b | 0 <= a < |r| && 0 <= b < |r| && r[a].id == r[b].id
          ensures a == b
        {
          if a < |prev| && b < |prev| {
            assert r[a] == prev[a] && r[b] == prev[b];
          }
        }
      } else {
        assert r == prev;
        forall j | 0 <= j < |r|
          ensures NumberedId(r[j].id, n)
        {
          assert NumberedId(prev[j].id, n - 1);
        }
      }
    }
  }

  /** `getProductImages` on this page: the image of the first issue with that id, if it has one. */
  function FirstImage(l: seq<IssueRecord>, id: string): (r: seq<string>)
    ensures |r| <= 1
  {
    if l == [] then []
    else if l[0].id == id then
      (if l[0].imageUrl.Some? && l[0].imageUrl.value != "" then [l[0].imageUrl.value] else [])
    else FirstImage(l[1..], id)
  }

  /** At most one URL comes back, and it is the image of the first issue with that id. */
  lemma {:induction false} FirstImageIsFirst(l: seq<IssueRecord>, id: string)
    ensures var r := FirstImage(l, id);
            && (!HasId(l, id) ==> r == [])
            && forall k :: 0 <= k < |l| && l[k].id == id && (forall j :: 0 <= j < k ==> l[j].id != id) ==>
                 r == if l[k].imageUrl.Some? && l[k].imageUrl.value != "" then [l[k].imageUrl.value] else []
  {
    if l != [] {
      FirstImageIsFirst(l[1..], id);
      if l[0].id != id {
        forall k | 1 <= k < |l|
          ensures l[k] == l[1..][k - 1]
        {
        }
        if !HasId(l, id) {
          forall i | 0 <= i < |l[1..]|
            ensures l[1..][i].id != id
          {
            assert l[1..][i] == l[i + 1];
          }
        }
      }
    }
  }

  /** The state of the test page. */
  class TestPage {
    var csvData: string
    var issues: seq<IssueRecord>
    var isProcessing: bool
    var totalImages: nat
    var processedCount: nat

    constructor()
      ensures csvData == "" && issues == [] && !isProcessing && totalImages == 0 && processedCount == 0
    {
      csvData := "";
      issues := [];
      isProcessing := false;
      totalImages := 0;
      processedCount := 0;
    }

    /** The text area's change handler. */
    method SetCsvData(text: string)
      modifies this`csvData
      ensures csvData == text
    {
      csvData := text;
    }

    /** The per-URL loop: one request each, the counter bumped whatever the outcome. */
    method CheckUrls(urls: seq<string>, respond: CheckRequest -> FetchOutcome)
      modifies this`issues, this`processedCount
      ensures issues == old(issues) + ScanIssues(urls, respond)
      ensures processedCount == old(processedCount) + |urls|
    {
      ghost var start := issues;
      ghost var count0 := processedCount;
      var i := 0;
      while i < |urls|
        invariant 0 <= i <= |urls|
        invariant issues == start + ScanIssues(urls[..i], respond)
        invariant processedCount == count0 + i
      {
        assert urls[..i + 1][..i] == urls[..i];
        var url := urls[i];
        var outcome := respond(RequestFor(url, i + 1));
        match outcome {
          case NotOk =>
            processedCount := processedCount + 1;
          case FetchThrows =>
            processedCount := processedCount + 1;
          case Ok(reply) =>
            processedCount := processedCount + 1;
            if reply.hasWatermark && reply.issueType.Some? {
              var rec := IssueRecord(reply.productId, reply.productId, reply.productName, [reply.issueType.value], Some(url), false);
              issues := issues + [rec];
            }
        }
        i := i + 1;
      }
      assert urls[..i] == urls;
    }

    /** `processCSV`; `respond` gives the outcome of each request. */
    method ProcessCsv(respond: CheckRequest -> FetchOutcome)
      modifies this
      ensures IsBlank(old(csvData)) ==> unchanged(this)
      ensures !IsBlank(old(csvData)) ==>
                var urls := ParseCsvImageUrls(csvData);
                && csvData == old(csvData)
                && !isProcessing
                && issues == ScanIssues(urls, respond)
                && processedCount == |urls|
                && totalImages == if urls == [] then old(totalImages) else |urls|
    {
      if IsBlank(csvData) {
        return;
      }
      isProcessing := true;
      issues := [];
      processedCount := 0;
      var urls := ParseCsvImageUrls(csvData);
      if |urls| == 0 {
        isProcessing := false;
        return;
      }
      totalImages := |urls|;
      CheckUrls(urls, respond);
      isProcessing := false;
    }

    /** `handleMarkResolved` */
    method MarkResolved(id: string)
      modifies this`issues
      ensures issues == ToggleResolved(old(issues), id)
    {
      issues := ToggleResolved(issues, id);
    }

    /** `handleIgnore` */
    method IgnoreIssue(id: string)
      modifies this`issues
      ensures issues == Ignore(old(issues), id)
    {
      issues := Ignore(issues, id);
    }

    /** `getProductImages` */
    function ProductImages(id: string): (r: seq<string>)
      reads this
      ensures |r| <= 1
    {
      FirstImage(issues, id)
    }
  }
}
