/**
 * The CSV reader and the text detectors of the quality manager
 * (lib/utils/validation.ts): `parseCSV` turns the uploaded text into
 * product records, `validateProducts` runs the vendor, phone and custom
 * patterns over every description and reports one issue per match.
 */
module Validation {
  import opened Base
  import opened Strings

  /** A non-empty identifier, as the uuid generator produces. */
  type Id = s: string | s != "" witness "0"

  /** One product row. `extra` holds the columns that have no role of their own. */
  datatype Product = Product(
    id: string,
    name: string,
    description: string,
    imageUrl: Option<string>,
    extra: map<string, string>)

  const EmptyProduct := Product("", "", "", None, map[])

  datatype IssueKind = VendorInfo | PhoneNumber | Watermark | Other

  /** One flagged finding, as `validateProducts` reports it. */
  datatype QualityIssue = QualityIssue(
    id: string,
    productId: string,
    productName: string,
    issueType: IssueKind,
    description: string,
    imageUrl: Option<string>,
    resolved: bool)

  // ---------------------------------------------------------------------
  // parseCSV
  // ---------------------------------------------------------------------

  const TooFewLinesMessage := "CSV file must contain at least a header row and one data row"

  /** The four columns parseCSV looks for in the header row. */
  datatype Role = IdRole | NameRole | DescRole | ImageRole

  /** The fixed case-insensitive patterns `/id/i`, `/name|title/i`, `/desc|description/i`, `/image|img|photo|url/i`. */
  predicate RoleMatches(role: Role, header: string) {
    var h := Lower(header);
    match role
    case IdRole => Contains(h, "id")
    case NameRole => Contains(h, "name") || Contains(h, "title")
    case DescRole => Contains(h, "desc") || Contains(h, "description")
    case ImageRole => Contains(h, "image") || Contains(h, "img") || Contains(h, "photo") || Contains(h, "url")
  }

  /** `headers.find(h => pattern.test(h))` */
  function FindHeader(headers: seq<string>, role: Role): Option<string> {
    if headers == [] then None
    else if RoleMatches(role, headers[0]) then Some(headers[0])
    else FindHeader(headers[1..], role)
  }

  /** The header found for a role is the first header matching the role's pattern; none is found when no header matches. */
  lemma {:induction false} FindHeaderIsFirst(headers: seq<string>, role: Role)
    ensures var r := FindHeader(headers, role);
            && (r.Some? ==> exists k :: 0 <= k < |headers| && headers[k] == r.value && RoleMatches(role, r.value)
                                       && forall j :: 0 <= j < k ==> !RoleMatches(role, headers[j]))
            && (r.None? ==> forall j :: 0 <= j < |headers| ==> !RoleMatches(role, headers[j]))
  {
    if headers != [] && !RoleMatches(role, headers[0]) {
      var tail := headers[1..];
      FindHeaderIsFirst(tail, role);
      var r := FindHeader(tail, role);
      if r.Some? {
        var k :| 0 <= k < |tail| && tail[k] == r.value && RoleMatches(role, r.value)
                 && forall j :: 0 <= j < k ==> !RoleMatches(role, tail[j]);
        assert headers[k + 1] == r.value;
        assert forall j :: 0 <= j < k + 1 ==> !RoleMatches(role, headers[j]) by {
          forall j | 0 <= j < k + 1 ensures !RoleMatches(role, headers[j]) {
            if j > 0 { assert headers[j] == tail[j - 1]; }
          }
        }
      } else {
        assert forall j :: 0 <= j < |headers| ==> !RoleMatches(role, headers[j]) by {
          forall j | 0 <= j < |headers| ensures !RoleMatches(role, headers[j]) {
            if j > 0 { assert headers[j] == tail[j - 1]; }
          }
        }
      }
    }
  }

  /** The header names parseCSV routes to id, name, description and image. */
  datatype Fields = Fields(id: string, name: string, desc: string, image: string)

  /** `find(...) || 'id'`, and so on: the found header, or the literal default when none matches. */
  function HeaderFields(headers: seq<string>): Fields {
    Fields(
      match FindHeader(headers, IdRole) case Some(h) => h case None => "id",
      match FindHeader(headers, NameRole) case Some(h) => h case None => "name",
      match FindHeader(headers, DescRole) case Some(h) => h case None => "description",
      match FindHeader(headers, ImageRole) case Some(h) => h case None => "image")
  }

  /**
   * A property of the product object written by one column. `Discarded` is the
   * `__proto__` key, whose inherited setter ignores a string value.
   */
  datatype Field = IdField | NameField | DescField | ImageField | ExtraField(key: string) | Discarded

  /**
   * `product[key] = v` on a plain object: the four declared properties share the
   * key space with the rest, and `__proto__` stores nothing.
   */
  function PropertyField(key: string): Field {
    if key == "__proto__" then Discarded
    else if key == "id" then IdField
    else if key == "name" then NameField
    else if key == "description" then DescField
    else if key == "imageUrl" then ImageField
    else ExtraField(key)
  }

  /** Where a column with this header goes: id before name before description before image, otherwise the header's own key. */
  function Target(header: string, f: Fields): Field {
    if header == f.id then IdField
    else if header == f.name then NameField
    else if header == f.desc then DescField
    else if header == f.image then ImageField
    else PropertyField(header)
  }

  function Assign(p: Product, field: Field, v: string): Product {
    match field
    case IdField => p.(id := v)
    case NameField => p.(name := v)
    case DescField => p.(description := v)
    case ImageField => p.(imageUrl := Some(v))
    case ExtraField(k) => p.(extra := p.extra[k := v])
    case Discarded => p
  }

  /** Reads one property back; `None` stands for a property that was never set. */
  function Get(p: Product, field: Field): Option<string> {
    match field
    case IdField => Some(p.id)
    case NameField => Some(p.name)
    case DescField => Some(p.description)
    case ImageField => p.imageUrl
    case ExtraField(k) => if k in p.extra then Some(p.extra[k]) else None
    case Discarded => None
  }

  /** The product after the first `n` columns have been assigned, in header order. */
  function Fill(headers: seq<string>, f: Fields, values: seq<string>, n: nat): Product
    requires n <= |headers|
  {
    if n == 0 then EmptyProduct
    else
      var p := Fill(headers, f, values, n - 1);
      if n - 1 < |values| then Assign(p, Target(headers[n - 1], f), values[n - 1]) else p
  }

  /** The last of the first `n` columns that has a value and is routed to `field`; none is ever stored as `Discarded`. */
  function LastColumn(headers: seq<string>, f: Fields, values: seq<string>, field: Field, n: nat): (r: Option<nat>)
    requires n <= |headers|
    ensures r.Some? ==> r.value < n && r.value < |values|
  {
    if n == 0 then None
    else if n - 1 < |values| && Target(headers[n - 1], f) == field && !field.Discarded? then Some(n - 1)
    else LastColumn(headers, f, values, field, n - 1)
  }

  /** `headers.forEach((header, index) => { if (index < values.length) ... })` */
  method AssignColumns(headers: seq<string>, f: Fields, values: seq<string>) returns (p: Product)
    ensures p == Fill(headers, f, values, |headers|)
  {
    p := EmptyProduct;
    var index := 0;
    while index < |headers|
      invariant 0 <= index <= |headers|
      invariant p == Fill(headers, f, values, index)
    {
      if index < |values| {
        p := Assign(p, Target(headers[index], f), values[index]);
      }
      index := index + 1;
    }
  }

  /**
   * Every property of a parsed row holds the value of the last column routed to
   * it, among the columns the row has a value for; id, name and description stay
   * empty and the image URL and extra fields stay unset when there is none.
   */
  lemma {:induction false} FieldValue(headers: seq<string>, f: Fields, values: seq<string>, field: Field, n: nat)
    requires n <= |headers|
    ensures Get(Fill(headers, f, values, n), field) ==
              match LastColumn(headers, f, values, field, n)
              case Some(j) => Some(values[j])
              case None => Get(EmptyProduct, field)
  {
    if n > 0 {
      FieldValue(headers, f, values, field, n - 1);
    }
  }

  /** Values beyond the header count are ignored. */
  lemma {:induction false} ExtraValuesIgnored(headers: seq<string>, f: Fields, values: seq<string>, n: nat)
    requires n <= |headers| <= |values|
    ensures Fill(headers, f, values, n) == Fill(headers, f, values[..|headers|], n)
  {
    if n > 0 {
      ExtraValuesIgnored(headers, f, values, n - 1);
    }
  }

  /** `line.split(',').map(v => v.trim())` */
  function Cells(line: string): (r: seq<string>)
    ensures |r| == |Split(line, ',')|
  {
    var parts := Split(line, ',');
    seq(|parts|, i requires 0 <= i < |parts| => Trim(parts[i]))
  }

  /** `lines.filter(line => line.trim() !== '')` */
  function NonBlank(lines: seq<string>): (r: seq<string>)
    ensures |r| <= |lines|
  {
    if lines == [] then []
    else
      var last := lines[|lines| - 1];
      NonBlank(lines[..|lines| - 1]) + if IsBlank(last) then [] else [last]
  }

  /** Filtering keeps order: it distributes over concatenation, and keeps exactly the non-blank lines. */
  lemma {:induction false} NonBlankAppend(a: seq<string>, b: seq<string>)
    ensures NonBlank(a + b) == NonBlank(a) + NonBlank(b)
    decreases |b|
  {
    if b != [] {
      var b' := b[..|b| - 1];
      assert (a + b)[..|a + b| - 1] == a + b';
      NonBlankAppend(a, b');
    } else {
      assert a + b == a;
    }
  }

  lemma {:induction false} NonBlankMembers(lines: seq<string>)
    ensures forall l :: l in NonBlank(lines) <==> l in lines && !IsBlank(l)
  {
    if lines != [] {
      NonBlankMembers(lines[..|lines| - 1]);
      assert lines == lines[..|lines| - 1] + [lines[|lines| - 1]];
    }
  }

  /** The rows built so far, and how many generated ids they used. */
  datatype Parsed = Parsed(products: seq<Product>, used: nat)

  /** One data line assigned column by column. */
  function RowProduct(headers: seq<string>, f: Fields, line: string): Product {
    Fill(headers, f, Cells(line), |headers|)
  }

  /** Each row is built from its line; the rows needing an id take the next generated one, in order. */
  function BuildRows(rows: seq<string>, headers: seq<string>, f: Fields, uuid: nat -> Id): (r: Parsed)
    ensures |r.products| == |rows|
  {
    if rows == [] then Parsed([], 0)
    else
      var prev := BuildRows(rows[..|rows| - 1], headers, f, uuid);
      var p := RowProduct(headers, f, rows[|rows| - 1]);
      if p.id == "" then Parsed(prev.products + [p.(id := uuid(prev.used))], prev.used + 1)
      else Parsed(prev.products + [p], prev.used)
  }

  /** What `parseCSV(csv)` returns or throws, with `uuid(k)` the k-th generated id. */
  function ParsedCsv(csv: string, uuid: nat -> Id): Result<seq<Product>, string> {
    var lines := Split(csv, '\n');
    if |lines| < 2 then Failure(TooFewLinesMessage)
    else
      var headers := Cells(lines[0]);
      Success(BuildRows(NonBlank(lines[1..]), headers, HeaderFields(headers), uuid).products)
  }

  lemma NonBlankSnoc(lines: seq<string>, line: string)
    ensures IsBlank(line) ==> NonBlank(lines + [line]) == NonBlank(lines)
    ensures !IsBlank(line) ==> NonBlank(lines + [line]) == NonBlank(lines) + [line]
  {
    assert (lines + [line])[..|lines|] == lines;
  }

  lemma BuildRowsSnoc(rows: seq<string>, line: string, headers: seq<string>, f: Fields, uuid: nat -> Id)
    ensures var prev := BuildRows(rows, headers, f, uuid);
            var p := RowProduct(headers, f, line);
            BuildRows(rows + [line], headers, f, uuid) ==
              if p.id == "" then Parsed(prev.products + [p.(id := uuid(prev.used))], prev.used + 1)
              else Parsed(prev.products + [p], prev.used)
  {
    assert (rows + [line])[..|rows|] == rows;
  }

  /** One data line: skipped when blank, else its product, with the next generated id when it has none. */
  method AppendLine(data: seq<string>, i: nat, products: seq<Product>, used: nat,
                    headers: seq<string>, f: Fields, uuid: nat -> Id)
    returns (products': seq<Product>, used': nat)
    requires i < |data|
    requires Parsed(products, used) == BuildRows(NonBlank(data[..i]), headers, f, uuid)
    ensures Parsed(products', used') == BuildRows(NonBlank(data[..i + 1]), headers, f, uuid)
  {
    ghost var lines := data[..i];
    var line := data[i];
    assert data[..i + 1] == lines + [line];
    NonBlankSnoc(lines, line);
    products', used' := products, used;
    if !IsBlank(line) {
      BuildRowsSnoc(NonBlank(lines), line, headers, f, uuid);
      var p := AssignColumns(headers, f, Cells(line));
      if p.id == "" {
        p := p.(id := uuid(used));
        used' := used + 1;
      }
      products' := products + [p];
    }
  }

  /** `lines.slice(1).filter(...).map(line => { ... })`: the products of the data lines, in order. */
  method BuildProducts(data: seq<string>, headers: seq<string>, f: Fields, uuid: nat -> Id) returns (products: seq<Product>)
    ensures products == BuildRows(NonBlank(data), headers, f, uuid).products
  {
    products := [];
    var used: nat := 0;
    var i := 0;
    while i < |data|
      invariant 0 <= i <= |data|
      invariant Parsed(products, used) == BuildRows(NonBlank(data[..i]), headers, f, uuid)
    {
      products, used := AppendLine(data, i, products, used, headers, f, uuid);
      i := i + 1;
    }
    assert data[..i] == data;
  }

  /** parseCSV */
  method ParseCsv(csv: string, uuid: nat -> Id) returns (r: Result<seq<Product>, string>)
    ensures r == ParsedCsv(csv, uuid)
  {
    var lines := Split(csv, '\n');
    if |lines| < 2 {
      return Failure(TooFewLinesMessage);
    }
    var headers := Cells(lines[0]);
    var products := BuildProducts(lines[1..], headers, HeaderFields(headers), uuid);
    return Success(products);
  }

  /** parseCSV throws exactly when the text has no line break, that is, fewer than two lines. */
  lemma ParseFailsIff(csv: string, uuid: nat -> Id)
    ensures ParsedCsv(csv, uuid).Failure? <==> '\n' !in csv
    ensures ParsedCsv(csv, uuid).Failure? ==> ParsedCsv(csv, uuid).error == TooFewLinesMessage
  {
    SplitSingle(csv, '\n');
  }

  /**
   * Row `k` of the result comes from the k-th non-blank data line: its fields are
   * that line's assignment, except that an empty id is replaced by a generated,
   * non-empty one; a non-empty id is kept as it is.
   */
  lemma {:induction false} BuildRowsAt(rows: seq<string>, headers: seq<string>, f: Fields, uuid: nat -> Id, k: nat)
    requires k < |rows|
    ensures var p := RowProduct(headers, f, rows[k]);
            var q := BuildRows(rows, headers, f, uuid).products[k];
            && q.id != ""
            && (p.id != "" ==> q.id == p.id)
            && q.(id := p.id) == p
  {
    var prefix := rows[..|rows| - 1];
    if k < |rows| - 1 {
      BuildRowsAt(prefix, headers, f, uuid, k);
      assert prefix[k] == rows[k];
    }
  }

  /** One product per non-blank data line, in input order, each with a non-empty id. */
  lemma ParsedRows(csv: string, uuid: nat -> Id, k: nat)
    requires '\n' in csv
    ensures var lines := Split(csv, '\n');
            var rows := NonBlank(lines[1..]);
            var headers := Cells(lines[0]);
            var ps := ParsedCsv(csv, uuid);
            && ps.Success?
            && |ps.value| == |rows|
            && (k < |rows| ==>
                  var p := RowProduct(headers, HeaderFields(headers), rows[k]);
                  ps.value[k].id != "" && (p.id != "" ==> ps.value[k].id == p.id) && ps.value[k].(id := p.id) == p)
  {
    SplitSingle(csv, '\n');
    var lines := Split(csv, '\n');
    var headers := Cells(lines[0]);
    if k < |NonBlank(lines[1..])| {
      BuildRowsAt(NonBlank(lines[1..]), headers, HeaderFields(headers), uuid, k);
    }
  }

  // ---------------------------------------------------------------------
  // validateProducts
  // ---------------------------------------------------------------------

  /**
   * The JavaScript regular-expression engine, with the `i` flag: whether a
   * pattern compiles, and the first match of a pattern in a text, if any.
   */
  datatype Engine = Engine(compiles: string -> bool, exec: (string, string) -> Option<string>)

  /** `new RegExp(p, 'i').test(s)` */
  predicate Matches(e: Engine, pattern: string, s: string) {
    e.exec(pattern, s).Some?
  }

  datatype Options = Options(vendorRegex: string, phoneRegex: string, customRegexPatterns: string)

  /** `new RegExp(p, 'i')` threw a SyntaxError. */
  datatype ValidationError = InvalidPattern(pattern: string)

  /** The custom pattern lines that survive: trimmed, non-blank, and compiling. */
  function CompiledPatterns(lines: seq<string>, e: Engine): seq<string> {
    if lines == [] then []
    else
      var p := Trim(lines[|lines| - 1]);
      CompiledPatterns(lines[..|lines| - 1], e) + if p != "" && e.compiles(p) then [p] else []
  }

  /** The custom patterns of an options text; an empty text holds none. */
  function CustomPatterns(text: string, e: Engine): seq<string> {
    if text == "" then [] else CompiledPatterns(Split(text, '\n'), e)
  }

  /** Blank lines are dropped and a pattern that does not compile is skipped; the others are kept, trimmed. */
  lemma {:induction false} CompiledPatternsSound(lines: seq<string>, e: Engine)
    ensures forall p :: p in CompiledPatterns(lines, e) ==> p != "" && e.compiles(p) && Trim(p) == p
  {
    if lines != [] {
      CompiledPatternsSound(lines[..|lines| - 1], e);
      TrimIdempotent(lines[|lines| - 1]);
    }
  }

  /** Compiling keeps line order: it distributes over concatenation. */
  lemma {:induction false} CompiledPatternsAppend(a: seq<string>, b: seq<string>, e: Engine)
    ensures CompiledPatterns(a + b, e) == CompiledPatterns(a, e) + CompiledPatterns(b, e)
    decreases |b|
  {
    if b == [] {
      assert a + b == a;
    } else {
      var b' := b[..|b| - 1];
      assert (a + b)[..|a + b| - 1] == a + b';
      CompiledPatternsAppend(a, b', e);
    }
  }

  /** A blank line or a pattern that fails to compile is skipped wherever it stands. */
  lemma CompiledPatternsSkip(a: seq<string>, bad: string, b: seq<string>, e: Engine)
    requires IsBlank(bad) || !e.compiles(Trim(bad))
    ensures CompiledPatterns(a + [bad] + b, e) == CompiledPatterns(a + b, e)
  {
    CompiledPatternsAppend(a + [bad], b, e);
    CompiledPatternsAppend(a, [bad], e);
    CompiledPatternsAppend(a, b, e);
    assert [bad][..0] == [];
  }

  /** An empty options text compiles to nothing, as its single blank line would. */
  lemma CustomPatternsOfLines(text: string, e: Engine)
    ensures CustomPatterns(text, e) == CompiledPatterns(Split(text, '\n'), e)
  {
    if text == "" {
      SplitSingle(text, '\n');
      SplitJoin(text, '\n');
      assert Split(text, '\n') == [""];
      assert Split(text, '\n')[..0] == [];
    }
  }

  /** One more pattern line adds its trimmed pattern at the end when it is non-blank and compiles, and nothing otherwise. */
  lemma CustomPatternAdded(text: string, line: string, e: Engine)
    requires '\n' !in line
    ensures CustomPatterns(text + "\n" + line, e) ==
              CustomPatterns(text, e) + if !IsBlank(line) && e.compiles(Trim(line)) then [Trim(line)] else []
  {
    CustomPatternsOfLines(text, e);
    CustomPatternsOfLines(text + "\n" + line, e);
    SplitAppend(text, line, '\n');
    SplitSingle(line, '\n');
    SplitJoin(line, '\n');
    var a := Split(text, '\n');
    var b := Split(line, '\n');
    assert b == [line];
    assert (a + b)[..|a + b| - 1] == a;
  }

  datatype Finding = Finding(kind: IssueKind, message: string)

  function VendorMessage(pattern: string): string {
    "Description contains possible vendor information matching pattern: " + pattern
  }

  function PhoneMessage(matched: string): string {
    "Description contains phone number: " + matched
  }

  function CustomMessage(position: nat): string {
    "Description matches custom pattern #" + NatToString(position)
  }

  /** The findings of the first `n` custom patterns against a description, numbered from 1. */
  function CustomFindings(desc: string, custom: seq<string>, e: Engine, n: nat): seq<Finding>
    requires n <= |custom|
  {
    if n == 0 then []
    else
      CustomFindings(desc, custom, e, n - 1)
        + if Matches(e, custom[n - 1], desc) then [Finding(Other, CustomMessage(n))] else []
  }

  /** The indices among the first `n` custom patterns that match the description. */
  function MatchingIndices(desc: string, custom: seq<string>, e: Engine, n: nat): seq<nat>
    requires n <= |custom|
  {
    if n == 0 then []
    else MatchingIndices(desc, custom, e, n - 1) + if Matches(e, custom[n - 1], desc) then [n - 1] else []
  }

  /**
   * The custom findings are, in order, one per matching pattern, each naming the
   * 1-based position of its pattern; the positions rise strictly, and every
   * matching pattern is listed.
   */
  lemma {:induction false} CustomFindingsAre(desc: string, custom: seq<string>, e: Engine, n: nat)
    requires n <= |custom|
    ensures var fs := CustomFindings(desc, custom, e, n);
            var ix := MatchingIndices(desc, custom, e, n);
            && |fs| == |ix|
            && (forall j :: 0 <= j < |ix| ==> ix[j] < n && Matches(e, custom[ix[j]], desc)
                                              && fs[j] == Finding(Other, CustomMessage(ix[j] + 1)))
            && (forall j, j' :: 0 <= j < j' < |ix| ==> ix[j] < ix[j'])
            && (forall k :: 0 <= k < n && Matches(e, custom[k], desc) ==> k in ix)
  {
    if n > 0 {
      CustomFindingsAre(desc, custom, e, n - 1);
    }
  }

  /** The vendor finding, then the phone finding, for a non-empty description. */
  function PatternFindings(desc: string, o: Options, e: Engine): seq<Finding> {
    (if Matches(e, o.vendorRegex, desc) then [Finding(VendorInfo, VendorMessage(o.vendorRegex))] else [])
      + (if Matches(e, o.phoneRegex, desc) then [Finding(PhoneNumber, PhoneMessage(e.exec(o.phoneRegex, desc).value))] else [])
  }

  function ProductFindings(p: Product, o: Options, custom: seq<string>, e: Engine): seq<Finding> {
    var desc := p.description;
    if desc == "" then []
    else PatternFindings(desc, o, e) + CustomFindings(desc, custom, e, |custom|)
  }

  /** The issue records of a run of findings for one product, the j-th taking the id `uuid(start + j)`. */
  function MakeIssues(p: Product, fs: seq<Finding>, uuid: nat -> Id, start: nat): (r: seq<QualityIssue>)
    ensures |r| == |fs|
  {
    seq(|fs|, j requires 0 <= j < |fs| =>
      QualityIssue(uuid(start + j), p.id, p.name, fs[j].kind, fs[j].message, p.imageUrl, false))
  }

  /** The issues of all products, in product order; the i-th issue takes the i-th generated id. */
  function AllIssues(ps: seq<Product>, o: Options, custom: seq<string>, e: Engine, uuid: nat -> Id): seq<QualityIssue> {
    if ps == [] then []
    else
      var prev := AllIssues(ps[..|ps| - 1], o, custom, e, uuid);
      var p := ps[|ps| - 1];
      prev + MakeIssues(p, ProductFindings(p, o, custom, e), uuid, |prev|)
  }

  /** What `validateProducts(products, options)` returns or throws. */
  function Validated(ps: seq<Product>, o: Options, e: Engine, uuid: nat -> Id): Result<seq<QualityIssue>, ValidationError> {
    if !e.compiles(o.vendorRegex) then Failure(InvalidPattern(o.vendorRegex))
    else if !e.compiles(o.phoneRegex) then Failure(InvalidPattern(o.phoneRegex))
    else Success(AllIssues(ps, o, CustomPatterns(o.customRegexPatterns, e), e, uuid))
  }

  /** `customRegexPatterns.split('\n').filter(...).forEach(... try { push } catch { log } ...)` */
  method CompileCustomPatterns(text: string, e: Engine) returns (patterns: seq<string>)
    ensures patterns == CustomPatterns(text, e)
  {
    patterns := [];
    if text != "" {
      var lines := Split(text, '\n');
      var i := 0;
      while i < |lines|
        invariant 0 <= i <= |lines|
        invariant patterns == CompiledPatterns(lines[..i], e)
      {
        assert lines[..i + 1][..i] == lines[..i];
        var p := Trim(lines[i]);
        if p != "" {
          if e.compiles(p) {
            patterns := patterns + [p];
          }
        }
        i := i + 1;
      }
      assert lines[..i] == lines;
    }
  }

  lemma MakeIssuesSnoc(p: Product, fs: seq<Finding>, f: Finding, uuid: nat -> Id, start: nat)
    ensures MakeIssues(p, fs + [f], uuid, start) ==
              MakeIssues(p, fs, uuid, start)
                + [QualityIssue(uuid(start + |fs|), p.id, p.name, f.kind, f.message, p.imageUrl, false)]
  {
  }

  lemma MakeIssuesAppend(p: Product, a: seq<Finding>, b: seq<Finding>, uuid: nat -> Id, start: nat)
    ensures MakeIssues(p, a + b, uuid, start) == MakeIssues(p, a, uuid, start) + MakeIssues(p, b, uuid, start + |a|)
  {
  }

  /** Pushing the issues of two runs of findings in turn pushes the issues of their concatenation. */
  lemma PushedInTurn(issues: seq<QualityIssue>, mid: seq<QualityIssue>, r: seq<QualityIssue>,
                     p: Product, a: seq<Finding>, b: seq<Finding>, uuid: nat -> Id)
    requires mid == issues + MakeIssues(p, a, uuid, |issues|)
    requires r == mid + MakeIssues(p, b, uuid, |mid|)
    ensures r == issues + MakeIssues(p, a + b, uuid, |issues|)
  {
    MakeIssuesAppend(p, a, b, uuid, |issues|);
  }

  /** `customPatterns.forEach((pattern, index) => { if (pattern.test(...)) issues.push(...) })` */
  method PushCustomIssues(issues: seq<QualityIssue>, p: Product, custom: seq<string>, e: Engine, uuid: nat -> Id)
    returns (r: seq<QualityIssue>)
    ensures r == issues + MakeIssues(p, CustomFindings(p.description, custom, e, |custom|), uuid, |issues|)
  {
    r := issues;
    var k := 0;
    while k < |custom|
      invariant 0 <= k <= |custom|
      invariant r == issues + MakeIssues(p, CustomFindings(p.description, custom, e, k), uuid, |issues|)
    {
      ghost var fs := CustomFindings(p.description, custom, e, k);
      if Matches(e, custom[k], p.description) {
        var f := Finding(Other, CustomMessage(k + 1));
        MakeIssuesSnoc(p, fs, f, uuid, |issues|);
        r := r + [QualityIssue(uuid(|r|), p.id, p.name, f.kind, f.message, p.imageUrl, false)];
      }
      k := k + 1;
    }
  }

  /** The vendor and phone checks of one product with a description. */
  method PushPatternIssues(issues: seq<QualityIssue>, p: Product, o: Options, e: Engine, uuid: nat -> Id)
    returns (r: seq<QualityIssue>)
    ensures r == issues + MakeIssues(p, PatternFindings(p.description, o, e), uuid, |issues|)
  {
    r := issues;
    var desc := p.description;
    ghost var fs: seq<Finding> := [];
    if Matches(e, o.vendorRegex, desc) {
      var f := Finding(VendorInfo, VendorMessage(o.vendorRegex));
      MakeIssuesSnoc(p, fs, f, uuid, |issues|);
      r := r + [QualityIssue(uuid(|r|), p.id, p.name, f.kind, f.message, p.imageUrl, false)];
      fs := fs + [f];
    }
    if Matches(e, o.phoneRegex, desc) {
      var f := Finding(PhoneNumber, PhoneMessage(e.exec(o.phoneRegex, desc).value));
      MakeIssuesSnoc(p, fs, f, uuid, |issues|);
      r := r + [QualityIssue(uuid(|r|), p.id, p.name, f.kind, f.message, p.imageUrl, false)];
      fs := fs + [f];
    }
    assert fs == PatternFindings(desc, o, e);
  }

  /** The body of `products.forEach(product => { ... })`: the issues of one product, pushed in order. */
  method PushProductIssues(issues: seq<QualityIssue>, p: Product, o: Options, custom: seq<string>, e: Engine, uuid: nat -> Id)
    returns (r: seq<QualityIssue>)
    ensures r == issues + MakeIssues(p, ProductFindings(p, o, custom, e), uuid, |issues|)
  {
    r := issues;
    if p.description == "" {
      return;
    }
    var withPatterns := PushPatternIssues(r, p, o, e, uuid);
    r := PushCustomIssues(withPatterns, p, custom, e, uuid);
    PushedInTurn(issues, withPatterns, r, p, PatternFindings(p.description, o, e),
                 CustomFindings(p.description, custom, e, |custom|), uuid);
  }

  /** validateProducts */
  method ValidateProducts(products: seq<Product>, o: Options, e: Engine, uuid: nat -> Id)
    returns (r: Result<seq<QualityIssue>, ValidationError>)
    ensures r == Validated(products, o, e, uuid)
  {
    if !e.compiles(o.vendorRegex) {
      return Failure(InvalidPattern(o.vendorRegex));
    }
    if !e.compiles(o.phoneRegex) {
      return Failure(InvalidPattern(o.phoneRegex));
    }
    var custom := CompileCustomPatterns(o.customRegexPatterns, e);
    var issues: seq<QualityIssue> := [];
    var i := 0;
    while i < |products|
      invariant 0 <= i <= |products|
      invariant issues == AllIssues(products[..i], o, custom, e, uuid)
    {
      assert products[..i + 1][..i] == products[..i];
      issues := PushProductIssues(issues, products[i], o, custom, e, uuid);
      i := i + 1;
    }
    assert products[..i] == products;
    return Success(issues);
  }

  /** validateProducts throws exactly when the vendor or the phone pattern does not compile. */
  lemma ValidateFailsIff(ps: seq<Product>, o: Options, e: Engine, uuid: nat -> Id)
    ensures Validated(ps, o, e, uuid).Failure? <==> !e.compiles(o.vendorRegex) || !e.compiles(o.phoneRegex)
  {
  }

  /** The issue was reported for this product: it copies the product's id, name and image URL. */
  predicate ReportedFor(issue: QualityIssue, p: Product) {
    p.description != "" && issue.productId == p.id && issue.productName == p.name && issue.imageUrl == p.imageUrl
  }

  lemma AllIssuesSnoc(ps: seq<Product>, o: Options, custom: seq<string>, e: Engine, uuid: nat -> Id)
    requires ps != []
    ensures var prev := AllIssues(ps[..|ps| - 1], o, custom, e, uuid);
            var p := ps[|ps| - 1];
            AllIssues(ps, o, custom, e, uuid) == prev + MakeIssues(p, ProductFindings(p, o, custom, e), uuid, |prev|)
  {
  }

  /** The issue was reported for one of the products. */
  predicate ReportedForSome(issue: QualityIssue, ps: seq<Product>) {
    exists k :: 0 <= k < |ps| && ReportedFor(issue, ps[k])
  }

  /** The i-th issue carries the i-th generated id, is unresolved and was reported for one of the products. */
  predicate IssuesWellFormed(r: seq<QualityIssue>, ps: seq<Product>, uuid: nat -> Id) {
    forall i :: 0 <= i < |r| ==> r[i].id == uuid(i) && !r[i].resolved && ReportedForSome(r[i], ps)
  }

  /** Appending one product's issues keeps the issues well formed. */
  lemma ExtendWellFormed(r: seq<QualityIssue>, prev: seq<QualityIssue>, fs: seq<Finding>, qs: seq<Product>, uuid: nat -> Id)
    requires qs != []
    requires r == prev + MakeIssues(qs[|qs| - 1], fs, uuid, |prev|)
    requires fs == [] || qs[|qs| - 1].description != ""
    requires IssuesWellFormed(prev, qs[..|qs| - 1], uuid)
    ensures IssuesWellFormed(r, qs, uuid)
  {
    var ps := qs[..|qs| - 1];
    forall i | 0 <= i < |r|
      ensures r[i].id == uuid(i) && !r[i].resolved && ReportedForSome(r[i], qs)
    {
      if i < |prev| {
        assert r[i] == prev[i];
        var k :| 0 <= k < |ps| && ReportedFor(prev[i], ps[k]);
        assert qs[k] == ps[k];
      } else {
        assert ReportedFor(r[i], qs[|ps|]);
      }
    }
  }

  /**
   * Every issue was reported for a product with a non-empty description, is
   * unresolved, and the i-th one carries the i-th generated id.
   */
  lemma {:induction false} IssuesBelongToProducts(ps: seq<Product>, o: Options, custom: seq<string>, e: Engine, uuid: nat -> Id)
    ensures IssuesWellFormed(AllIssues(ps, o, custom, e, uuid), ps, uuid)
  {
    if ps != [] {
      var prefix := ps[..|ps| - 1];
      var p := ps[|ps| - 1];
      IssuesBelongToProducts(prefix, o, custom, e, uuid);
      AllIssuesSnoc(ps, o, custom, e, uuid);
      ExtendWellFormed(AllIssues(ps, o, custom, e, uuid), AllIssues(prefix, o, custom, e, uuid),
                       ProductFindings(p, o, custom, e), ps, uuid);
    }
  }

  /** The rank that orders one product's findings: vendor, then phone, then custom. */
  function Rank(k: IssueKind): nat {
    match k
    case VendorInfo => 0
    case PhoneNumber => 1
    case Watermark => 2
    case Other => 2
  }

  /**
   * One product's findings: none for an empty description; otherwise a vendor
   * finding first exactly when the vendor pattern matches, a phone finding quoting
   * the first match exactly when the phone pattern matches, and the custom
   * findings after them.
   */
  lemma ProductFindingsShape(p: Product, o: Options, custom: seq<string>, e: Engine)
    ensures var fs := ProductFindings(p, o, custom, e);
            var desc := p.description;
            var v := desc != "" && Matches(e, o.vendorRegex, desc);
            var ph := desc != "" && Matches(e, o.phoneRegex, desc);
            && (desc == "" ==> fs == [])
            && (desc != "" ==> |fs| == (if v then 1 else 0) + (if ph then 1 else 0) + |MatchingIndices(desc, custom, e, |custom|)|)
            && (forall j :: 0 <= j < |fs| ==> (fs[j].kind == VendorInfo <==> v && j == 0))
            && (forall j :: 0 <= j < |fs| ==> (fs[j].kind == PhoneNumber <==> ph && j == (if v then 1 else 0)))
            && (ph ==> fs[if v then 1 else 0].message == PhoneMessage(e.exec(o.phoneRegex, desc).value))
            && (forall j, j' :: 0 <= j < j' < |fs| ==> Rank(fs[j].kind) <= Rank(fs[j'].kind))
  {
    var desc := p.description;
    if desc != "" {
      var pf := PatternFindings(desc, o, e);
      var cf := CustomFindings(desc, custom, e, |custom|);
      CustomFindingsAre(desc, custom, e, |custom|);
      PatternFindingsShape(desc, o, e);
      FollowedByCustom(pf, cf, Matches(e, o.vendorRegex, desc), Matches(e, o.phoneRegex, desc));
    }
  }

  /** Custom findings appended after the pattern findings keep the vendor and phone findings in front. */
  lemma FollowedByCustom(pf: seq<Finding>, cf: seq<Finding>, v: bool, ph: bool)
    requires |pf| == (if v then 1 else 0) + (if ph then 1 else 0)
    requires forall j :: 0 <= j < |pf| ==> (pf[j].kind == VendorInfo <==> v && j == 0)
    requires forall j :: 0 <= j < |pf| ==> (pf[j].kind == PhoneNumber <==> ph && j == (if v then 1 else 0))
    requires forall j, j' :: 0 <= j < j' < |pf| ==> Rank(pf[j].kind) < Rank(pf[j'].kind)
    requires forall j :: 0 <= j < |cf| ==> cf[j].kind == Other
    ensures var fs := pf + cf;
            && (forall j :: 0 <= j < |fs| ==> (fs[j].kind == VendorInfo <==> v && j == 0))
            && (forall j :: 0 <= j < |fs| ==> (fs[j].kind == PhoneNumber <==> ph && j == (if v then 1 else 0)))
            && (ph ==> fs[if v then 1 else 0] == pf[if v then 1 else 0])
            && (forall j, j' :: 0 <= j < j' < |fs| ==> Rank(fs[j].kind) <= Rank(fs[j'].kind))
  {
  }

  /** The pattern findings: the vendor finding first when the vendor pattern matches, then the phone finding. */
  lemma PatternFindingsShape(desc: string, o: Options, e: Engine)
    ensures var fs := PatternFindings(desc, o, e);
            var v := Matches(e, o.vendorRegex, desc);
            var ph := Matches(e, o.phoneRegex, desc);
            && |fs| == (if v then 1 else 0) + (if ph then 1 else 0)
            && (forall j :: 0 <= j < |fs| ==> (fs[j].kind == VendorInfo <==> v && j == 0))
            && (forall j :: 0 <= j < |fs| ==> (fs[j].kind == PhoneNumber <==> ph && j == (if v then 1 else 0)))
            && (ph ==> fs[if v then 1 else 0].message == PhoneMessage(e.exec(o.phoneRegex, desc).value))
            && (forall j, j' :: 0 <= j < j' < |fs| ==> Rank(fs[j].kind) < Rank(fs[j'].kind))
  {
  }

  /** A skipped line between two others leaves the custom patterns as they were without it. */
  lemma SkippedBetween(before: string, bad: string, after: string, e: Engine)
    requires '\n' !in bad && (IsBlank(bad) || !e.compiles(Trim(bad)))
    ensures CustomPatterns(before + "\n" + bad + "\n" + after, e) == CustomPatterns(before + "\n" + after, e)
  {
    SplitSingle(bad, '\n');
    SplitJoin(bad, '\n');
    assert Split(bad, '\n') == [bad];
    CustomPatternsOfLines(before + "\n" + bad + "\n" + after, e);
    CustomPatternsOfLines(before + "\n" + after, e);
    SplitAppend(before, bad, '\n');
    assert before + "\n" + bad + "\n" + after == (before + ['\n'] + bad) + ['\n'] + after;
    SplitAppend(before + ['\n'] + bad, after, '\n');
    SplitAppend(before, after, '\n');
    CompiledPatternsSkip(Split(before, '\n'), bad, Split(after, '\n'), e);
  }

  /** A skipped last line leaves the custom patterns as they were without it. */
  lemma SkippedLast(before: string, bad: string, e: Engine)
    requires '\n' !in bad && (IsBlank(bad) || !e.compiles(Trim(bad)))
    ensures CustomPatterns(before + "\n" + bad, e) == CustomPatterns(before, e)
  {
    CustomPatternAdded(before, bad, e);
  }

  /** A skipped first line leaves the custom patterns as they were without it. */
  lemma SkippedFirst(bad: string, after: string, e: Engine)
    requires '\n' !in bad && (IsBlank(bad) || !e.compiles(Trim(bad)))
    ensures CustomPatterns(bad + "\n" + after, e) == CustomPatterns(after, e)
  {
    SplitSingle(bad, '\n');
    SplitJoin(bad, '\n');
    assert Split(bad, '\n') == [bad];
    var y := Split(after, '\n');
    var lines := Split(bad + "\n" + after, '\n');
    SplitAppend(bad, after, '\n');
    assert lines == [bad] + y;
    CompiledPatternsAppend([bad], y, e);
    assert [bad][..0] == [];
    assert CompiledPatterns([bad], e) == [];
    CustomPatternsOfLines(bad + "\n" + after, e);
    CustomPatternsOfLines(after, e);
  }

  /**
   * A custom pattern line that is blank or fails to compile is skipped wherever
   * it stands (first, between two others, or last), without disturbing the
   * issues the other patterns report.
   */
  lemma InvalidCustomPatternHarmless(ps: seq<Product>, o: Options, e: Engine, uuid: nat -> Id, before: string, bad: string, after: string)
    requires '\n' !in bad && (IsBlank(bad) || !e.compiles(Trim(bad)))
    ensures Validated(ps, o.(customRegexPatterns := before + "\n" + bad + "\n" + after), e, uuid)
         == Validated(ps, o.(customRegexPatterns := before + "\n" + after), e, uuid)
    ensures Validated(ps, o.(customRegexPatterns := before + "\n" + bad), e, uuid)
         == Validated(ps, o.(customRegexPatterns := before), e, uuid)
    ensures Validated(ps, o.(customRegexPatterns := bad + "\n" + after), e, uuid)
         == Validated(ps, o.(customRegexPatterns := after), e, uuid)
  {
    SkippedBetween(before, bad, after, e);
    SkippedLast(before, bad, e);
    SkippedFirst(bad, after, e);
    var o1 := o.(customRegexPatterns := before + "\n" + bad + "\n" + after);
    var o2 := o.(customRegexPatterns := before + "\n" + after);
    var o3 := o.(customRegexPatterns := before + "\n" + bad);
    var o4 := o.(customRegexPatterns := before);
    var o5 := o.(customRegexPatterns := bad + "\n" + after);
    var o6 := o.(customRegexPatterns := after);
    AllIssuesIgnoresOptionsText(ps, o1, o2, CustomPatterns(o2.customRegexPatterns, e), e, uuid);
    AllIssuesIgnoresOptionsText(ps, o3, o4, CustomPatterns(o4.customRegexPatterns, e), e, uuid);
    AllIssuesIgnoresOptionsText(ps, o5, o6, CustomPatterns(o6.customRegexPatterns, e), e, uuid);
  }

  lemma {:induction false} AllIssuesIgnoresOptionsText(ps: seq<Product>, o: Options, o': Options, custom: seq<string>, e: Engine, uuid: nat -> Id)
    requires o.vendorRegex == o'.vendorRegex && o.phoneRegex == o'.phoneRegex
    ensures AllIssues(ps, o, custom, e, uuid) == AllIssues(ps, o', custom, e, uuid)
  {
    if ps != [] {
      var p := ps[|ps| - 1];
      AllIssuesIgnoresOptionsText(ps[..|ps| - 1], o, o', custom, e, uuid);
      assert PatternFindings(p.description, o, e) == PatternFindings(p.description, o', e);
      AllIssuesSnoc(ps, o, custom, e, uuid);
      AllIssuesSnoc(ps, o', custom, e, uuid);
    }
  }
}
