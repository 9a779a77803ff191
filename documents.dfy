/** Stored documents and the table operations every handler and reducer shares:
    lookup by identifier, insertion order, the newest-first listing and save stamps. */
module Documents {
  import opened Wrappers

  /** A stored document: the store-assigned identifier, the two timestamps that a
      schema with `timestamps: true` carries, and the schema's own fields. */
  datatype Doc<F> = Doc(id: nat, createdAt: nat, updatedAt: nat, fields: F)

  /** A document inserted at store time `now` (identifier and timestamps from the clock). */
  function Inserted<F>(fields: F, now: nat): Doc<F> {
    Doc(now, now, now, fields)
  }

  /** Index of the first document whose identifier is `id`, or -1: `findIndex` on
      `_id` in the reducers, `findById` in the handlers. */
  function FindById<F>(s: seq<Doc<F>>, id: nat): (r: int)
    ensures -1 <= r < |s|
    ensures r >= 0 ==> s[r].id == id && forall j :: 0 <= j < r ==> s[j].id != id
    ensures r == -1 <==> forall j :: 0 <= j < |s| ==> s[j].id != id
  {
    if |s| == 0 then -1
    else if s[0].id == id then 0
    else
      var k := FindById(s[1..], id);
      if k == -1 then -1 else k + 1
  }

  /** The lookup depends on the identifiers alone. */
  lemma {:induction false} FindByIdSameIds<F>(s: seq<Doc<F>>, t: seq<Doc<F>>, id: nat)
    requires |s| == |t|
    requires forall k :: 0 <= k < |s| ==> s[k].id == t[k].id
    ensures FindById(s, id) == FindById(t, id)
  {
    if |s| > 0 && s[0].id != id {
      FindByIdSameIds(s[1..], t[1..], id);
    }
  }

  /** `s` with its first document of identifier `d.id` replaced by `d`; unchanged
      when there is none (`findIndex` followed by `list[index] = payload`). */
  function ReplaceFirst<F>(s: seq<Doc<F>>, d: Doc<F>): (r: seq<Doc<F>>)
    ensures |r| == |s|
    ensures forall k :: 0 <= k < |s| ==>
      r[k] == if s[k].id == d.id && (forall j :: 0 <= j < k ==> s[j].id != d.id) then d else s[k]
  {
    var i := FindById(s, d.id);
    if i == -1 then s else s[i := d]
  }

  /** Table invariant kept by the store: identifiers and creation times strictly
      increase in insertion order, and every stamp was handed out before `clock`. */
  ghost predicate Chronological<F>(s: seq<Doc<F>>, clock: nat) {
    && (forall i, j :: 0 <= i < j < |s| ==> s[i].id < s[j].id && s[i].createdAt < s[j].createdAt)
    && (forall i :: 0 <= i < |s| ==> s[i].id < clock && s[i].createdAt <= s[i].updatedAt < clock)
  }

  lemma ChronologicalInsert<F>(s: seq<Doc<F>>, fields: F, clock: nat)
    requires Chronological(s, clock)
    ensures Chronological(s + [Inserted(fields, clock)], clock + 1)
  {
  }

  lemma ChronologicalLater<F>(s: seq<Doc<F>>, clock: nat, later: nat)
    requires Chronological(s, clock) && clock <= later
    ensures Chronological(s, later)
  {
  }

  /** The document as `save()` leaves it after its fields were set to `fields` at
      store time `now`: the update stamp moves only when some field changed. */
  function Saved<F(==)>(d: Doc<F>, fields: F, now: nat): Doc<F> {
    if fields == d.fields then d else d.(fields := fields, updatedAt := now)
  }

  /** The store clock after such a save: it advances only when the document changed. */
  function ClockAfterSave<F(==)>(d: Doc<F>, fields: F, now: nat): nat {
    if fields == d.fields then now else now + 1
  }

  lemma ChronologicalSave<F>(s: seq<Doc<F>>, i: nat, fields: F, clock: nat)
    requires Chronological(s, clock) && i < |s|
    ensures Chronological(s[i := Saved(s[i], fields, clock)], ClockAfterSave(s[i], fields, clock))
  {
  }

  /** Newest first: strictly decreasing creation time. */
  ghost predicate Descending<F>(r: seq<Doc<F>>) {
    forall i, j :: 0 <= i < j < |r| ==> r[i].createdAt > r[j].createdAt
  }

  /** The documents of `s` whose fields satisfy `keep`, newest first: a `find(filter)`
      followed by `.sort({ createdAt: -1 })` over a table kept in insertion order. */
  function NewestFirst<F>(s: seq<Doc<F>>, keep: F -> bool): (r: seq<Doc<F>>)
    ensures |r| <= |s|
    ensures forall k :: 0 <= k < |r| ==> r[k] in s && keep(r[k].fields)
    ensures forall k :: 0 <= k < |s| && keep(s[k].fields) ==> s[k] in r
    ensures (forall k :: 0 <= k < |s| ==> keep(s[k].fields)) ==> |r| == |s|
  {
    if |s| == 0 then []
    else
      var rest := NewestFirst(s[..|s| - 1], keep);
      assert forall k :: 0 <= k < |s| - 1 ==> s[..|s| - 1][k] == s[k];
      if keep(s[|s| - 1].fields) then [s[|s| - 1]] + rest else rest
  }

  lemma {:induction false} NewestFirstDescending<F>(s: seq<Doc<F>>, keep: F -> bool, clock: nat)
    requires Chronological(s, clock)
    ensures Descending(NewestFirst(s, keep))
  {
    if |s| > 0 {
      var init, last := s[..|s| - 1], s[|s| - 1];
      assert Chronological(init, clock);
      NewestFirstDescending(init, keep, clock);
      var rest := NewestFirst(init, keep);
      if keep(last.fields) {
        forall k | 0 <= k < |rest| ensures rest[k].createdAt < last.createdAt {
          var p :| 0 <= p < |init| && init[p] == rest[k];
          assert init[p] == s[p];
        }
        DescendingCons(last, rest);
      }
    }
  }

  /** A document older than none of a newest-first list may head it. */
  lemma DescendingCons<F>(d: Doc<F>, rest: seq<Doc<F>>)
    requires Descending(rest) && forall k :: 0 <= k < |rest| ==> rest[k].createdAt < d.createdAt
    ensures Descending([d] + rest)
  {
    var r := [d] + rest;
    forall i, j | 0 <= i < j < |r| ensures r[i].createdAt > r[j].createdAt {
      assert r[j] == rest[j - 1];
      if i > 0 {
        assert r[i] == rest[i - 1];
      }
    }
  }

  /** `countDocuments(filter)`: how many documents of `s` satisfy `keep`. */
  function Count<F>(s: seq<Doc<F>>, keep: F -> bool): (r: nat)
    ensures r <= |s|
  {
    if |s| == 0 then 0
    else Count(s[..|s| - 1], keep) + (if keep(s[|s| - 1].fields) then 1 else 0)
  }

  /** A count is the length of the listing under the same filter. */
  lemma {:induction false} CountIsListingLength<F>(s: seq<Doc<F>>, keep: F -> bool)
    ensures Count(s, keep) == |NewestFirst(s, keep)|
  {
    if |s| > 0 {
      CountIsListingLength(s[..|s| - 1], keep);
    }
  }

  /** Replacing one document changes a count by the difference of the two
      documents' filter outcomes. */
  lemma {:induction false} CountUpdate<F>(s: seq<Doc<F>>, i: nat, d: Doc<F>, keep: F -> bool)
    requires i < |s|
    ensures Count(s[i := d], keep) + (if keep(s[i].fields) then 1 else 0)
         == Count(s, keep) + (if keep(d.fields) then 1 else 0)
  {
    var n := |s| - 1;
    if i < n {
      assert s[i := d][..n] == s[..n][i := d];
      CountUpdate(s[..n], i, d, keep);
    } else {
      assert s[i := d][..n] == s[..n];
    }
  }

  /** Two newest-first lists with the same documents are the same list: the
      membership and order stated for a listing determine it completely. */
  lemma {:induction false} DescendingUnique<F>(a: seq<Doc<F>>, b: seq<Doc<F>>)
    requires Descending(a) && Descending(b)
    requires forall d :: d in a <==> d in b
    ensures a == b
  {
    if a != [] {
      assert a[0] in a;
    }
    if b != [] {
      assert b[0] in b;
    }
    if a != [] && b != [] {
      assert a[0] == b[0];
      forall d ensures d in a[1..] <==> d in b[1..] {
        if d in a[1..] {
          var p :| 1 <= p < |a| && a[p] == d;
          assert d in a && d in b;
          var q :| 0 <= q < |b| && b[q] == d;
          assert b[1..][q - 1] == d;
        }
        if d in b[1..] {
          var q :| 1 <= q < |b| && b[q] == d;
          assert d in b && d in a;
          var p :| 0 <= p < |a| && a[p] == d;
          assert a[1..][p - 1] == d;
        }
      }
      DescendingUnique(a[1..], b[1..]);
    }
  }

  /** The first `n` documents of the newest-first listing of the whole table:
      `.sort({ createdAt: -1 }).limit(n)`. */
  function Latest<F>(s: seq<Doc<F>>, n: nat): seq<Doc<F>> {
    var all := NewestFirst(s, _ => true);
    all[..Min(n, |all|)]
  }

  /** What a newest-`n` view of `s` promises: at most `n` documents (fewer only when
      the table is smaller), all taken from `s`, newest first, and no document left
      out is newer than one shown. */
  ghost predicate IsLatest<F>(view: seq<Doc<F>>, s: seq<Doc<F>>, n: nat) {
    && |view| == Min(n, |s|)
    && (forall k :: 0 <= k < |view| ==> view[k] in s)
    && Descending(view)
    && (forall d, k :: d in s && d !in view && 0 <= k < |view| ==> d.createdAt < view[k].createdAt)
  }

  lemma LatestIsLatest<F>(s: seq<Doc<F>>, n: nat, clock: nat)
    requires Chronological(s, clock)
    ensures IsLatest(Latest(s, n), s, n)
  {
    var keep: F -> bool := _ => true;
    var all := NewestFirst(s, keep);
    NewestFirstDescending(s, keep, clock);
    var m := Min(n, |all|);
    var view := all[..m];
    assert view == Latest(s, n);
    forall d, k | d in s && d !in view && 0 <= k < |view|
      ensures d.createdAt < view[k].createdAt
    {
      OlderThanPrefix(all, m, d, k);
    }
  }

  lemma OlderThanPrefix<F>(all: seq<Doc<F>>, m: nat, d: Doc<F>, k: nat)
    requires Descending(all) && m <= |all| && k < m
    requires d in all && d !in all[..m]
    ensures d.createdAt < all[k].createdAt
  {
    var j :| 0 <= j < |all| && all[j] == d;
  }
}
