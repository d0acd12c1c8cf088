/**
 * The image-download upload endpoint: file checks, the row loop that picks
 * the SKU and image URL of each data row, derives a file name and records
 * every image that was downloaded and written, and the summary it answers
 * with.
 */
module UploadCsv {
  import opened Base
  import opened Strings

  /** The column of the SKU and of the image URL, counted from 0. */
  const SkuCol: nat := 2
  const UrlCol: nat := 11

  const DefaultFilename := "image.jpg"
  const ImageDirectory := "/downloaded_images"

  /** The uploaded form field: its name, and the records the CSV parser returns, `None` when it throws. */
  datatype UploadFile = UploadFile(name: string, records: Option<seq<seq<string>>>)

  /** The form's `file` entry: absent, a text value, or an uploaded file. */
  datatype FormField = Missing | Text(value: string) | Attached(file: UploadFile)

  /** One entry of the summary. */
  datatype ImageRecord = ImageRecord(id: nat, sku: string, originalUrl: string, filename: string, path: string, row: nat)

  datatype Summary = Summary(totalImages: nat, images: seq<ImageRecord>)

  /** The JSON answer with its HTTP status. */
  datatype Response =
    | ErrorResponse(status: nat, error: string)
    | Downloaded(message: string, imageDirectory: string, summary: Summary)

  /** A row with both columns present and a non-blank SKU and URL. */
  predicate Eligible(row: seq<string>) {
    |row| > UrlCol && |row| > SkuCol && !IsBlank(row[SkuCol]) && !IsBlank(row[UrlCol])
  }

  /** The last `/` segment of the URL, `image.jpg` when that is empty, cut at the first `?`. */
  function BaseFilename(url: string): string {
    var last := LastSegment(url);
    StripQuery(if last == "" then DefaultFilename else last)
  }

  /** `url.split('/')`'s last piece. */
  function LastSegment(url: string): string {
    var parts := Split(url, '/');
    parts[|parts| - 1]
  }

  /** The name up to its first `?`, the whole name when there is none. */
  function StripQuery(name: string): string {
    if '?' in name then Split(name, '?')[0] else name
  }

  /** `id_<counter>_<sku>_<base>` */
  function FileName(id: nat, sku: string, base: string): string {
    "id_" + NatToString(id) + "_" + sku + "_" + base
  }

  /** The entry recorded for data row `rowNum` with counter value `id`. */
  function MakeRecord(id: nat, row: seq<string>, rowNum: nat): ImageRecord
    requires Eligible(row)
  {
    var sku := Trim(row[SkuCol]);
    var url := Trim(row[UrlCol]);
    var filename := FileName(id, sku, BaseFilename(url));
    ImageRecord(id, sku, url, filename, ImageDirectory + "/" + filename, rowNum + 2)
  }

  /**
   * The images recorded after the data rows; `transfer(i)` says whether the
   * download and the write of data row `i` succeed.
   */
  function Downloads(rows: seq<seq<string>>, transfer: nat -> bool): seq<ImageRecord> {
    if rows == [] then []
    else
      var i := |rows| - 1;
      var prev := Downloads(rows[..i], transfer);
      if Eligible(rows[i]) && transfer(i) then prev + [MakeRecord(|prev| + 1, rows[i], i)] else prev
  }

  /** The indices of the data rows a download is attempted for, in order. */
  function Attempts(rows: seq<seq<string>>): seq<nat> {
    if rows == [] then []
    else Attempts(rows[..|rows| - 1]) + if Eligible(rows[|rows| - 1]) then [|rows| - 1] else []
  }

  /** Attempts are made for exactly the eligible rows, in increasing order. */
  lemma {:induction false} AttemptsAreEligible(rows: seq<seq<string>>)
    ensures var a := Attempts(rows);
            && (forall i: nat :: i in a <==> i < |rows| && Eligible(rows[i]))
            && (forall x :: 0 <= x < |a| ==> a[x] < |rows|)
            && forall x, y :: 0 <= x < y < |a| ==> a[x] < a[y]
  {
    if rows != [] {
      var n := |rows| - 1;
      var prefix := rows[..n];
      AttemptsAreEligible(prefix);
      forall i | 0 <= i < n
        ensures prefix[i] == rows[i]
      {
      }
    }
  }

  /** `t` is the longest suffix of `s` without `c`: it starts right after the last `c`, or at the start. */
  predicate LongestFreeSuffix(s: string, t: string, c: char) {
    && |t| <= |s| && s[|s| - |t|..] == t && c !in t
    && (|t| == |s| || s[|s| - |t| - 1] == c)
  }

  /** `t` is the longest prefix of `s` without `c`: it stops right before the first `c`, or at the end. */
  predicate LongestFreePrefix(s: string, t: string, c: char) {
    && |t| <= |s| && s[..|t|] == t && c !in t
    && (|t| == |s| || s[|t|] == c)
  }

  /** The last `/` segment is everything after the last `/` of the URL. */
  lemma LastSegmentIsSuffix(url: string)
    ensures LongestFreeSuffix(url, LastSegment(url), '/')
  {
    SplitJoin(url, '/');
    SplitLastIsSuffix(url, '/');
  }

  /** Stripping the query keeps everything before the first `?`. */
  lemma StripQueryIsPrefix(name: string)
    ensures LongestFreePrefix(name, StripQuery(name), '?')
  {
    if '?' in name {
      SplitJoin(name, '?');
      SplitFirstIsPrefix(name, '?');
    }
  }

  /** There is only one longest suffix without `c`. */
  lemma LongestFreeSuffixUnique(s: string, t: string, u: string, c: char)
    requires LongestFreeSuffix(s, t, c) && LongestFreeSuffix(s, u, c)
    ensures t == u
  {
  }

  /** There is only one longest prefix without `c`. */
  lemma LongestFreePrefixUnique(s: string, t: string, u: string, c: char)
    requires LongestFreePrefix(s, t, c) && LongestFreePrefix(s, u, c)
    ensures t == u
  {
  }

  /**
   * The base file name is the part before the first `?` of the URL's part
   * after its last `/`, or of `image.jpg` when that part is empty; so it holds
   * neither `/` nor `?`, and is the default name or a piece of the URL.
   */
  lemma BaseFilenameShape(url: string)
    ensures var b := BaseFilename(url);
            && (exists last :: LongestFreeSuffix(url, last, '/') &&
                  LongestFreePrefix(if last == "" then DefaultFilename else last, b, '?'))
            && '/' !in b && '?' !in b
            && (b == DefaultFilename || Contains(url, b))
  {
    var last := LastSegment(url);
    LastSegmentIsSuffix(url);
    var name := if last == "" then DefaultFilename else last;
    var b := StripQuery(name);
    StripQueryIsPrefix(name);
    assert LongestFreeSuffix(url, last, '/') && LongestFreePrefix(name, b, '?');
    assert '/' !in name;
    assert '/' !in b by {
      forall k | 0 <= k < |b|
        ensures b[k] != '/'
      {
        assert b[k] == name[k];
      }
    }
    if last != "" {
      var start := |url| - |last|;
      assert url[start..][..|b|] == b;
      assert url[start..start + |b|] == b;
      assert OccursAt(url, b, start);
    }
  }

  /** A URL with no `/` and no `?` is its own base name. */
  lemma BaseFilenamePlain(url: string)
    requires url != "" && '/' !in url && '?' !in url
    ensures BaseFilename(url) == url
  {
    SplitSingle(url, '/');
    SplitJoin(url, '/');
  }

  /** File names with different counters differ as strings, whatever the SKU and base name. */
  lemma FileNamesDistinct(m: nat, n: nat, sku1: string, sku2: string, b1: string, b2: string)
    requires m != n
    ensures FileName(m, sku1, b1) != FileName(n, sku2, b2)
  {
    var a := NatToString(m);
    var c := NatToString(n);
    var f1 := FileName(m, sku1, b1);
    var f2 := FileName(n, sku2, b2);
    assert f1 == "id_" + a + ("_" + sku1 + "_" + b1);
    assert f2 == "id_" + c + ("_" + sku2 + "_" + b2);
    assert f1[..3] == "id_" && f2[..3] == "id_";
    if |a| < |c| {
      assert f1[3 + |a|] == '_';
      assert f2[3 + |a|] == c[|a|];
    } else if |c| < |a| {
      assert f2[3 + |c|] == '_';
      assert f1[3 + |c|] == a[|c|];
    } else {
      if a == c {
        NatToStringInjective(m, n);
      }
      assert f1[3..3 + |a|] == a;
      assert f2[3..3 + |c|] == c;
    }
  }

  /** The `k`-th recorded image comes from data row `rec.row - 2`, eligible and transferred, with counter `k + 1`. */
  predicate RecordedFrom(rec: ImageRecord, k: nat, rows: seq<seq<string>>, transfer: nat -> bool) {
    && 2 <= rec.row <= |rows| + 1
    && Eligible(rows[rec.row - 2]) && transfer(rec.row - 2)
    && rec == MakeRecord(k + 1, rows[rec.row - 2], rec.row - 2)
  }

  /** Recording a row of a longer input keeps its meaning. */
  lemma RecordedFromPrefix(rec: ImageRecord, k: nat, rows: seq<seq<string>>, transfer: nat -> bool, n: nat)
    requires n <= |rows| && RecordedFrom(rec, k, rows[..n], transfer)
    ensures RecordedFrom(rec, k, rows, transfer) && rec.row <= n + 1
  {
    assert rows[..n][rec.row - 2] == rows[rec.row - 2];
  }

  /** One more data row records at most one more image, at the end. */
  lemma DownloadsSnoc(rows: seq<seq<string>>, transfer: nat -> bool)
    requires rows != []
    ensures SnocStep(Downloads(rows, transfer), Downloads(rows[..|rows| - 1], transfer), rows, transfer)
  {
    var i := |rows| - 1;
    var prev := Downloads(rows[..i], transfer);
    var r := Downloads(rows, transfer);
    if Eligible(rows[i]) && transfer(i) {
      var rec := MakeRecord(|prev| + 1, rows[i], i);
      assert r == prev + [rec];
      assert r[..|prev|] == prev;
      assert SnocStep(prev + [rec], prev, rows, transfer);
    } else {
      assert r == prev;
      assert prev[..|prev|] == prev;
      assert SnocStep(prev, prev, rows, transfer);
    }
  }

  /**
   * The recorded images carry the counters 1, 2, … in order; each comes from
   * an eligible data row whose transfer succeeded, reported as its index + 2,
   * with the row's trimmed SKU and URL and the file name and path built from
   * them; and the rows increase.
   */
  predicate RecordsFrom(r: seq<ImageRecord>, rows: seq<seq<string>>, transfer: nat -> bool) {
    && |r| <= |rows|
    && (forall k :: 0 <= k < |r| ==> r[k].id == k + 1 && RecordedFrom(r[k], k, rows, transfer))
    && forall x, y :: 0 <= x < y < |r| ==> r[x].row < r[y].row
  }

  /** Every eligible data row whose transfer succeeds is recorded. */
  predicate RecordsAll(r: seq<ImageRecord>, rows: seq<seq<string>>, transfer: nat -> bool) {
    forall i :: 0 <= i < |rows| && Eligible(rows[i]) && transfer(i) ==>
      exists k :: 0 <= k < |r| && r[k].row == i + 2
  }

  /** What one more data row does to the recorded images, stated without the recursion. */
  predicate SnocStep(r: seq<ImageRecord>, prev: seq<ImageRecord>, rows: seq<seq<string>>, transfer: nat -> bool)
    requires rows != []
  {
    var i := |rows| - 1;
    && |prev| <= |r| <= |prev| + 1
    && r[..|prev|] == prev
    && (|r| == |prev| + 1 <==> Eligible(rows[i]) && transfer(i))
    && (|r| == |prev| + 1 ==> r[|prev|] == MakeRecord(|prev| + 1, rows[i], i))
  }

  lemma {:induction false} DownloadsShape(rows: seq<seq<string>>, transfer: nat -> bool)
    ensures RecordsFrom(Downloads(rows, transfer), rows, transfer)
  {
    if rows != [] {
      var i := |rows| - 1;
      DownloadsShape(rows[..i], transfer);
      DownloadsSnoc(rows, transfer);
      RecordsFromStep(Downloads(rows, transfer), Downloads(rows[..i], transfer), rows, transfer);
    }
  }

  lemma RecordsFromStep(r: seq<ImageRecord>, prev: seq<ImageRecord>, rows: seq<seq<string>>, transfer: nat -> bool)
    requires rows != [] && SnocStep(r, prev, rows, transfer)
    requires RecordsFrom(prev, rows[..|rows| - 1], transfer)
    ensures RecordsFrom(r, rows, transfer)
  {
    var i := |rows| - 1;
    forall k | 0 <= k < |prev|
      ensures r[k] == prev[k] && r[k].id == k + 1 && RecordedFrom(r[k], k, rows, transfer) && r[k].row < i + 2
    {
      assert r[k] == r[..|prev|][k];
      RecordedFromPrefix(prev[k], k, rows, transfer, i);
    }
    if |r| == |prev| + 1 {
      assert r[|prev|].row == i + 2;
      assert RecordedFrom(r[|prev|], |prev|, rows, transfer);
    }
    RowsIncrease(r, prev, i + 2);
  }

  /** Appending a record whose row is beyond every earlier one keeps the rows increasing. */
  lemma RowsIncrease(r: seq<ImageRecord>, prev: seq<ImageRecord>, bound: int)
    requires |prev| <= |r| <= |prev| + 1
    requires forall k :: 0 <= k < |prev| ==> r[k] == prev[k] && prev[k].row < bound
    requires forall x, y :: 0 <= x < y < |prev| ==> prev[x].row < prev[y].row
    requires |r| == |prev| + 1 ==> r[|prev|].row == bound
    ensures forall x, y :: 0 <= x < y < |r| ==> r[x].row < r[y].row
  {
  }

  lemma {:induction false} DownloadsComplete(rows: seq<seq<string>>, transfer: nat -> bool)
    ensures RecordsAll(Downloads(rows, transfer), rows, transfer)
  {
    if rows != [] {
      var n := |rows| - 1;
      DownloadsComplete(rows[..n], transfer);
      DownloadsSnoc(rows, transfer);
      RecordsAllStep(Downloads(rows, transfer), Downloads(rows[..n], transfer), rows, transfer);
    }
  }

  lemma RecordsAllStep(r: seq<ImageRecord>, prev: seq<ImageRecord>, rows: seq<seq<string>>, transfer: nat -> bool)
    requires rows != [] && SnocStep(r, prev, rows, transfer)
    requires RecordsAll(prev, rows[..|rows| - 1], transfer)
    ensures RecordsAll(r, rows, transfer)
  {
    var n := |rows| - 1;
    var prefix := rows[..n];
    forall i | 0 <= i < |rows| && Eligible(rows[i]) && transfer(i)
      ensures exists k :: 0 <= k < |r| && r[k].row == i + 2
    {
      if i < n {
        assert prefix[i] == rows[i];
        var k :| 0 <= k < |prev| && prev[k].row == i + 2;
        assert r[k] == r[..|prev|][k];
      } else {
        assert r[|prev|].row == i + 2;
      }
    }
  }

  /** The data rows: every record after the header. */
  function DataRows(records: seq<seq<string>>): seq<seq<string>> {
    if records == [] then [] else records[1..]
  }

  /** The row loop, with `idCounter` advancing only after a successful download and write. */
  method DownloadRows(rows: seq<seq<string>>, transfer: nat -> bool)
    returns (images: seq<ImageRecord>, ghost attempts: seq<nat>)
    ensures images == Downloads(rows, transfer)
    ensures attempts == Attempts(rows)
  {
    images := [];
    attempts := [];
    var idCounter := 1;
    var rowNum := 0;
    while rowNum < |rows|
      invariant 0 <= rowNum <= |rows|
      invariant images == Downloads(rows[..rowNum], transfer)
      invariant attempts == Attempts(rows[..rowNum])
      invariant idCounter == |images| + 1
    {
      images, attempts, idCounter := ProcessRow(rows, rowNum, images, attempts, idCounter, transfer);
      rowNum := rowNum + 1;
    }
    assert rows[..rowNum] == rows;
  }

  /** One pass of the row loop: a row without both columns, or with a blank SKU or URL, is skipped. */
  method ProcessRow(rows: seq<seq<string>>, rowNum: nat, images: seq<ImageRecord>, ghost attempts: seq<nat>,
                    idCounter: nat, transfer: nat -> bool)
    returns (images': seq<ImageRecord>, ghost attempts': seq<nat>, idCounter': nat)
    requires rowNum < |rows|
    requires images == Downloads(rows[..rowNum], transfer) && attempts == Attempts(rows[..rowNum])
    requires idCounter == |images| + 1
    ensures images' == Downloads(rows[..rowNum + 1], transfer) && attempts' == Attempts(rows[..rowNum + 1])
    ensures idCounter' == |images'| + 1
  {
    assert rows[..rowNum + 1][..rowNum] == rows[..rowNum];
    images', attempts', idCounter' := images, attempts, idCounter;
    var row := rows[rowNum];
    if |row| <= UrlCol || |row| <= SkuCol {
      return;
    }
    var sku := Trim(row[SkuCol]);
    var url := Trim(row[UrlCol]);
    if sku == "" || url == "" {
      return;
    }
    attempts' := attempts + [rowNum];
    if transfer(rowNum) {
      var baseFilename := BaseFilenameOf(url);
      var filename := "id_" + NatToString(idCounter) + "_" + sku + "_" + baseFilename;
      images' := images + [ImageRecord(idCounter, sku, url, filename, ImageDirectory + "/" + filename, rowNum + 2)];
      idCounter' := idCounter + 1;
    }
  }

  /** The base file name as the loop computes it, by reassigning one variable. */
  method BaseFilenameOf(url: string) returns (baseFilename: string)
    ensures baseFilename == BaseFilename(url)
  {
    var urlParts := Split(url, '/');
    baseFilename := urlParts[|urlParts| - 1];
    if baseFilename == "" {
      baseFilename := DefaultFilename;
    }
    if '?' in baseFilename {
      baseFilename := Split(baseFilename, '?')[0];
    }
  }

  /**
   * `POST`. `formOk` says whether reading the form data succeeds, `file` is
   * its `file` entry; `mkdirOk` and `summaryOk` say whether creating the output
   * directory and writing the summary file succeed; `transfer(i)` whether the
   * download and write of data row `i` do. Every exception inside the handler
   * becomes the 500 answer: a failing form read, and a text entry, whose
   * missing `name` makes the `.csv` test throw.
   */
  method Post(formOk: bool, file: FormField, mkdirOk: bool, transfer: nat -> bool, summaryOk: bool)
    returns (resp: Response)
    ensures !formOk ==> resp == ErrorResponse(500, "Failed to process CSV upload")
    ensures formOk && (file.Missing? || file == Text("")) ==> resp == ErrorResponse(400, "No CSV file provided")
    ensures formOk && file.Text? && file.value != "" ==> resp == ErrorResponse(500, "Failed to process CSV upload")
    ensures formOk && file.Attached? && !EndsWith(file.file.name, ".csv") ==> resp == ErrorResponse(400, "File must be a CSV")
    ensures formOk && file.Attached? && EndsWith(file.file.name, ".csv") ==>
              if file.file.records.None? || !mkdirOk || !summaryOk then
                resp == ErrorResponse(500, "Failed to process CSV upload")
              else
                var images := Downloads(DataRows(file.file.records.value), transfer);
                resp == Downloaded("Images downloaded successfully", ImageDirectory, Summary(|images|, images))
  {
    if !formOk {
      return ErrorResponse(500, "Failed to process CSV upload");
    }
    if file.Missing? || file == Text("") {
      return ErrorResponse(400, "No CSV file provided");
    }
    if file.Text? {
      return ErrorResponse(500, "Failed to process CSV upload");
    }
    var upload := file.file;
    if !EndsWith(upload.name, ".csv") {
      return ErrorResponse(400, "File must be a CSV");
    }
    if upload.records.None? {
      return ErrorResponse(500, "Failed to process CSV upload");
    }
    var dataRows := DataRows(upload.records.value);
    if !mkdirOk {
      return ErrorResponse(500, "Failed to process CSV upload");
    }
    var images, _ := DownloadRows(dataRows, transfer);
    var summary := Summary(|images|, images);
    if !summaryOk {
      return ErrorResponse(500, "Failed to process CSV upload");
    }
    return Downloaded("Images downloaded successfully", ImageDirectory, summary);
  }
}
