/**
 * The grouped issue records the review pages keep: one record per product,
 * each holding the list of issue types found for it, and the pure list
 * updaters, counts and filters both pages apply to that list.
 */
module IssueList {
  import opened Base
  import opened Validation

  /** One finding for a product: its `type` tag, a human description and the matched text. */
  datatype IssueType = IssueType(kind: string, description: string, details: string)

  /** A product's entry in the review list. */
  datatype IssueRecord = IssueRecord(
    id: string,
    productId: string,
    productName: string,
    issueTypes: seq<IssueType>,
    imageUrl: Option<string>,
    resolved: bool)

  const WatermarkTag := "watermark"
  const VendorTag := "vendor_info"
  const PhoneTag := "phone_number"
  const AllFilter := "all"

  /** No two records share an id. */
  predicate UniqueIds(l: seq<IssueRecord>) {
    forall i, j :: 0 <= i < |l| && 0 <= j < |l| && l[i].id == l[j].id ==> i == j
  }

  /** `l.find(i => i.id === id)` finds something. */
  predicate HasId(l: seq<IssueRecord>, id: string) {
    exists i | 0 <= i < |l| :: l[i].id == id
  }

  // ---------------------------------------------------------------------------
  // The text-finding upsert

  /** Records with a matching id are replaced by `rec`; without one, `rec` is appended. */
  function Upsert(l: seq<IssueRecord>, rec: IssueRecord): seq<IssueRecord> {
    if HasId(l, rec.id) then seq(|l|, i requires 0 <= i < |l| => if l[i].id == rec.id then rec else l[i])
    else l + [rec]
  }

  /**
   * After an upsert into a list with unique ids the ids stay unique, `rec` is
   * the one record with its id, every other record stays where it was, and the
   * list grows by one exactly when the id was new.
   */
  lemma UpsertUnique(l: seq<IssueRecord>, rec: IssueRecord)
    requires UniqueIds(l)
    ensures var r := Upsert(l, rec);
            && UniqueIds(r)
            && |r| == (if HasId(l, rec.id) then |l| else |l| + 1)
            && (forall k :: 0 <= k < |l| && l[k].id != rec.id ==> r[k] == l[k])
            && exists k :: 0 <= k < |r| && r[k] == rec
  {
    var r := Upsert(l, rec);
    if HasId(l, rec.id) {
      var k :| 0 <= k < |l| && l[k].id == rec.id;
      assert r[k] == rec;
    } else {
      assert r[|l|] == rec;
    }
  }

  /** Reporting the same record twice is the same as reporting it once. */
  lemma UpsertIdempotent(l: seq<IssueRecord>, rec: IssueRecord)
    ensures Upsert(Upsert(l, rec), rec) == Upsert(l, rec)
  {
    var r := Upsert(l, rec);
    if HasId(l, rec.id) {
      var k :| 0 <= k < |l| && l[k].id == rec.id;
      assert r[k].id == rec.id;
    } else {
      assert r[|l|].id == rec.id;
    }
    assert HasId(r, rec.id);
  }

  // ---------------------------------------------------------------------------
  // The watermark merge

  /** The record created for a product whose first finding is a watermark. */
  function WatermarkRecord(p: Product, f: IssueType): IssueRecord {
    IssueRecord(p.id, p.id, p.name, [f], p.imageUrl, false)
  }

  /** The finding joins the end of the matching record's list, or a new record is appended. */
  function MergeWatermark(l: seq<IssueRecord>, p: Product, f: IssueType): seq<IssueRecord> {
    if HasId(l, p.id) then
      seq(|l|, i requires 0 <= i < |l| => if l[i].id == p.id then l[i].(issueTypes := l[i].issueTypes + [f]) else l[i])
    else l + [WatermarkRecord(p, f)]
  }

  /**
   * The merge keeps ids unique; a record with another id is untouched; the
   * matching record only gains `f` at the end of its list; a new id gives a
   * new record at the end.
   */
  lemma MergeWatermarkUnique(l: seq<IssueRecord>, p: Product, f: IssueType)
    requires UniqueIds(l)
    ensures var r := MergeWatermark(l, p, f);
            && UniqueIds(r)
            && |r| == (if HasId(l, p.id) then |l| else |l| + 1)
            && (forall k :: 0 <= k < |l| ==>
                  r[k] == if l[k].id == p.id then l[k].(issueTypes := l[k].issueTypes + [f]) else l[k])
            && (!HasId(l, p.id) ==> r[|l|] == WatermarkRecord(p, f))
  {
  }

  // ---------------------------------------------------------------------------
  // Review mutations

  /** `handleMarkResolved`: flip `resolved` on the records with this id. */
  function ToggleResolved(l: seq<IssueRecord>, id: string): (r: seq<IssueRecord>)
    ensures |r| == |l|
  {
    seq(|l|, i requires 0 <= i < |l| => if l[i].id == id then l[i].(resolved := !l[i].resolved) else l[i])
  }

  /** Toggling only changes the flag of the matching records, and toggling twice restores the list. */
  lemma ToggleResolvedInvolution(l: seq<IssueRecord>, id: string)
    ensures ToggleResolved(ToggleResolved(l, id), id) == l
    ensures forall k :: 0 <= k < |l| ==>
              var r := ToggleResolved(l, id)[k];
              r.(resolved := l[k].resolved) == l[k] && (r.resolved != l[k].resolved <==> l[k].id == id)
  {
  }

  /** `handleIgnore`: drop the records with this id. */
  function Ignore(l: seq<IssueRecord>, id: string): seq<IssueRecord> {
    if l == [] then []
    else (if l[0].id == id then [] else [l[0]]) + Ignore(l[1..], id)
  }

  /** Ignoring keeps exactly the records with another id. */
  lemma {:induction false} IgnoreMembers(l: seq<IssueRecord>, id: string)
    ensures forall x :: x in Ignore(l, id) <==> x in l && x.id != id
  {
    if l != [] {
      IgnoreMembers(l[1..], id);
      assert l == [l[0]] + l[1..];
    }
  }

  /** Ignoring keeps order: it distributes over concatenation. */
  lemma {:induction false} IgnoreAppend(a: seq<IssueRecord>, b: seq<IssueRecord>, id: string)
    ensures Ignore(a + b, id) == Ignore(a, id) + Ignore(b, id)
  {
    if a != [] {
      assert (a + b)[1..] == a[1..] + b;
      IgnoreAppend(a[1..], b, id);
    } else {
      assert a + b == b;
    }
  }

  /** Ignoring the same id twice is ignoring it once. */
  lemma {:induction false} IgnoreIdempotent(l: seq<IssueRecord>, id: string)
    ensures Ignore(Ignore(l, id), id) == Ignore(l, id)
  {
    if l != [] {
      IgnoreIdempotent(l[1..], id);
      var r := Ignore(l, id);
      if l[0].id != id {
        assert r == [l[0]] + Ignore(l[1..], id);
        assert r[0] == l[0] && r[1..] == Ignore(l[1..], id);
      } else {
        assert r == Ignore(l[1..], id);
      }
    }
  }

  /** A list without the id is left as it is. */
  lemma {:induction false} IgnoreAbsent(l: seq<IssueRecord>, id: string)
    requires !HasId(l, id)
    ensures Ignore(l, id) == l
  {
    if l != [] {
      forall i | 0 <= i < |l[1..]|
        ensures l[1..][i].id != id
      {
        assert l[1..][i] == l[i + 1];
      }
      IgnoreAbsent(l[1..], id);
      assert l[0].id != id;
      assert l == [l[0]] + l[1..];
    }
  }

  // ---------------------------------------------------------------------------
  // Counts and filtering

  /** How many of the types carry this tag: `types.filter(t => t.type === tag).length`. */
  function TagCount(ts: seq<IssueType>, tag: string): (n: nat)
    ensures n <= |ts|
  {
    if ts == [] then 0 else (if ts[0].kind == tag then 1 else 0) + TagCount(ts[1..], tag)
  }

  /** `totalIssueCount`: the number of issue types over all records. */
  function TotalCount(l: seq<IssueRecord>): nat {
    if l == [] then 0 else |l[0].issueTypes| + TotalCount(l[1..])
  }

  /** `watermarkCount`, `vendorCount` and `phoneCount`, for a given tag. */
  function KindCount(l: seq<IssueRecord>, tag: string): nat {
    if l == [] then 0 else TagCount(l[0].issueTypes, tag) + KindCount(l[1..], tag)
  }

  lemma {:induction false} TagCountsBounded(ts: seq<IssueType>, a: string, b: string, c: string)
    requires a != b && b != c && a != c
    ensures TagCount(ts, a) + TagCount(ts, b) + TagCount(ts, c) <= |ts|
  {
    if ts != [] {
      TagCountsBounded(ts[1..], a, b, c);
    }
  }

  /** The counts of three distinct tags never add up to more than the total. */
  lemma {:induction false} KindCountsBounded(l: seq<IssueRecord>, a: string, b: string, c: string)
    requires a != b && b != c && a != c
    ensures KindCount(l, a) + KindCount(l, b) + KindCount(l, c) <= TotalCount(l)
  {
    if l != [] {
      TagCountsBounded(l[0].issueTypes, a, b, c);
      KindCountsBounded(l[1..], a, b, c);
    }
  }

  /** watermark + vendor + phone never exceeds the total count. */
  lemma DashboardCountsBounded(l: seq<IssueRecord>)
    ensures KindCount(l, WatermarkTag) + KindCount(l, VendorTag) + KindCount(l, PhoneTag) <= TotalCount(l)
  {
    KindCountsBounded(l, WatermarkTag, VendorTag, PhoneTag);
  }

  lemma {:induction false} TotalCountAppend(a: seq<IssueRecord>, b: seq<IssueRecord>)
    ensures TotalCount(a + b) == TotalCount(a) + TotalCount(b)
  {
    if a != [] {
      assert (a + b)[1..] == a[1..] + b;
      TotalCountAppend(a[1..], b);
    } else {
      assert a + b == b;
    }
  }

  lemma {:induction false} TotalCountOne(l: seq<IssueRecord>, k: nat, ts: seq<IssueType>)
    requires k < |l|
    ensures TotalCount(l[k := l[k].(issueTypes := ts)]) == TotalCount(l) - |l[k].issueTypes| + |ts|
  {
    if k > 0 {
      TotalCountOne(l[1..], k - 1, ts);
      assert l[k := l[k].(issueTypes := ts)][1..] == l[1..][k - 1 := l[k].(issueTypes := ts)];
    }
  }

  /** Merging a watermark into a list with unique ids adds exactly one issue type to the total. */
  lemma MergeWatermarkCount(l: seq<IssueRecord>, p: Product, f: IssueType)
    requires UniqueIds(l)
    ensures TotalCount(MergeWatermark(l, p, f)) == TotalCount(l) + 1
  {
    var r := MergeWatermark(l, p, f);
    if HasId(l, p.id) {
      var k :| 0 <= k < |l| && l[k].id == p.id;
      assert r == l[k := l[k].(issueTypes := l[k].issueTypes + [f])];
      TotalCountOne(l, k, l[k].issueTypes + [f]);
    } else {
      TotalCountAppend(l, [WatermarkRecord(p, f)]);
    }
  }

  /** Some type of the record carries this tag: `issue.issueTypes.some(t => t.type === tag)`. */
  predicate HasTag(rec: IssueRecord, tag: string) {
    exists t | t in rec.issueTypes :: t.kind == tag
  }

  /** `filteredIssues`: all of them for "all", otherwise the records with a type of that tag. */
  function Filtered(l: seq<IssueRecord>, filter: string): seq<IssueRecord> {
    if filter == AllFilter then l
    else if l == [] then []
    else (if HasTag(l[0], filter) then [l[0]] else []) + Filtered(l[1..], filter)
  }

  /** For a tag, the filter keeps exactly the records having a type with that tag. */
  lemma {:induction false} FilteredMembers(l: seq<IssueRecord>, filter: string)
    requires filter != AllFilter
    ensures forall x :: x in Filtered(l, filter) <==> x in l && HasTag(x, filter)
  {
    if l != [] {
      FilteredMembers(l[1..], filter);
      assert l == [l[0]] + l[1..];
    }
  }

  /** The filter keeps order: it distributes over concatenation. */
  lemma {:induction false} FilteredAppend(a: seq<IssueRecord>, b: seq<IssueRecord>, filter: string)
    ensures Filtered(a + b, filter) == Filtered(a, filter) + Filtered(b, filter)
  {
    if filter != AllFilter {
      if a != [] {
        assert (a + b)[1..] == a[1..] + b;
        FilteredAppend(a[1..], b, filter);
      } else {
        assert a + b == b;
      }
    }
  }

  /** The records shown under a tag never hold more issues of that tag than the list does, and never more records. */
  lemma {:induction false} FilteredShrinks(l: seq<IssueRecord>, filter: string)
    ensures |Filtered(l, filter)| <= |l|
    ensures KindCount(Filtered(l, filter), filter) == KindCount(l, filter)
  {
    if filter != AllFilter && l != [] {
      FilteredShrinks(l[1..], filter);
      var rest := Filtered(l[1..], filter);
      if HasTag(l[0], filter) {
        var r := [l[0]] + rest;
        assert r[0] == l[0] && r[1..] == rest;
      } else {
        TagCountZero(l[0].issueTypes, filter);
        assert Filtered(l, filter) == rest;
      }
    }
  }

  lemma {:induction false} TagCountZero(ts: seq<IssueType>, tag: string)
    requires forall t :: t in ts ==> t.kind != tag
    ensures TagCount(ts, tag) == 0
  {
    if ts != [] {
      TagCountZero(ts[1..], tag);
    }
  }
}
