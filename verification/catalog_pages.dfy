/**
 Paging: pages of one cursor, each read at a later state of the catalog, put together are the list
 as it stood when the cursor was issued.
 */
module CatalogPages {
  import opened Wrappers
  import opened CatalogTables
  import opened CatalogRows
  import opened CatalogIntegrity
  import opened CatalogSnapshots
  import opened CatalogRevival

  // Lifecycle held fixed: each row of the snapshot is shown, or not, as it was.
  ghost predicate SameLifecycle(a: Catalog, b: Catalog, v: Visibility, rows: seq<DiscoveryRow>) {
    forall row :: row in rows ==> (Shows(a, v, row) <==> Shows(b, v, row))
  }

  lemma {:induction false} FilterIsStable(a: Catalog, b: Catalog, v: Visibility, rows: seq<DiscoveryRow>)
    requires SameLifecycle(a, b, v, rows)
    ensures Filter(a, v, rows) == Filter(b, v, rows)
  {
    if rows != [] {
      FilterIsStable(a, b, v, rows[1..]);
    }
  }

  // The offset of the page after the first n.
  function Offset(n: nat, limit: nat): nat {
    if n == 0 then 0 else Offset(n - 1, limit) + limit
  }

  // Pages at offsets 0, limit, 2 * limit, ..., the k-th cut from the k-th list.
  function Joined(lists: seq<seq<DiscoveryRow>>, limit: nat): seq<DiscoveryRow> {
    if lists == [] then []
    else
      var k := |lists| - 1;
      Joined(lists[..k], limit) + Slice(lists[k], Offset(k, limit), limit)
  }

  // The k-th page read at the k-th state.
  function Pages(states: seq<Catalog>, snapshot: nat, f: Filters, v: Visibility, limit: nat): seq<DiscoveryRow> {
    Joined(seq(|states|, k requires 0 <= k < |states| => Filter(states[k], v, Browse(states[k], snapshot, f))), limit)
  }

  lemma SlicesJoin(rows: seq<DiscoveryRow>, offset: nat, limit: nat)
    ensures Slice(rows, 0, offset) + Slice(rows, offset, limit) == Slice(rows, 0, offset + limit)
  {
  }

  // One page read later.
  lemma PageIsStable(a: Catalog, b: Catalog, snapshot: nat, f: Filters, v: Visibility)
    requires Later(a, b) && SameLifecycle(a, b, v, Browse(a, snapshot, f)) && snapshot <= a.watermark
    ensures Filter(b, v, Browse(b, snapshot, f)) == Filter(a, v, Browse(a, snapshot, f))
  {
    RowsAreStable(a, b, snapshot, f, |b.resources|);
    FilterIsStable(a, b, v, Browse(a, snapshot, f));
  }

  lemma {:induction false} PagesJoin(rows: seq<DiscoveryRow>, lists: seq<seq<DiscoveryRow>>, limit: nat)
    requires forall k :: 0 <= k < |lists| ==> lists[k] == rows
    ensures Joined(lists, limit) == Slice(rows, 0, Offset(|lists|, limit))
  {
    if lists != [] {
      var k := |lists| - 1;
      PagesJoin(rows, lists[..k], limit);
      SlicesJoin(rows, Offset(k, limit), limit);
    }
  }

  function StatesAfter(a: Catalog, runs: seq<seq<Commit>>): (r: seq<Catalog>)
    ensures |r| == |runs|
  {
    seq(|runs|, k requires 0 <= k < |runs| => Run(a, runs[k]))
  }

  // A cursor taken in a state whose active versions are on top pages through exactly the listing of
  // that moment, nothing repeated and nothing skipped, whatever is committed between the pages.
  lemma PagesAreTheListing(before: seq<Commit>, runs: seq<seq<Commit>>, f: Filters, v: Visibility, limit: nat)
    requires StraightRun(EMPTY, before)
    requires forall k :: 0 <= k < |runs| ==> FreshRun(Run(EMPTY, before), runs[k])
    requires var a := Run(EMPTY, before);
      forall k :: 0 <= k < |runs| ==> SameLifecycle(a, Run(a, runs[k]), v, Listing(a, f))
    requires var a := Run(EMPTY, before); |Filter(a, v, Listing(a, f))| <= Offset(|runs|, limit)
    ensures var a := Run(EMPTY, before);
      Pages(StatesAfter(a, runs), a.watermark, f, v, limit) == Filter(a, v, Listing(a, f))
  {
    var a := Run(EMPTY, before);
    RunKeeps(EMPTY, before);
    BrowseIsListing(before, f);
    var rows := Filter(a, v, Browse(a, a.watermark, f));
    forall k | 0 <= k < |runs| ensures Filter(Run(a, runs[k]), v, Browse(Run(a, runs[k]), a.watermark, f)) == rows {
      RunIsLater(a, runs[k]);
      PageIsStable(a, Run(a, runs[k]), a.watermark, f, v);
    }
    var states := StatesAfter(a, runs);
    var shown := seq(|states|, k requires 0 <= k < |states| => Filter(states[k], v, Browse(states[k], a.watermark, f)));
    PagesJoin(rows, shown, limit);
  }

  // Every resource is on at most one row, the newest resource first.
  lemma {:induction false} RowsDescend(cat: Catalog, f: Filters, n: nat)
    requires n <= |cat.resources|
    ensures forall k :: 0 <= k < |CurrentRows(cat, f, n)| ==> CurrentRows(cat, f, n)[k].resource < n
    ensures forall k, l :: 0 <= k < l < |CurrentRows(cat, f, n)| ==>
      CurrentRows(cat, f, n)[l].resource < CurrentRows(cat, f, n)[k].resource
  {
    if n > 0 { RowsDescend(cat, f, n - 1); }
  }

  // The accepted terms of a row all pay the owner, and two of them never tie in the order they are
  // listed in (network, scheme, asset, amount).
  lemma AcceptsPayTheOwner(commits: seq<Commit>, rid: nat, f: Filters)
    requires rid < |Run(EMPTY, commits).resources| && CurrentRow(Run(EMPTY, commits), rid, f).Some?
    ensures var cat := Run(EMPTY, commits); var accepts := CurrentRow(cat, rid, f).value.accepts;
      && (forall t :: t in accepts ==> t.payTo == cat.resources[rid].owner)
      && (forall t, u :: t in accepts && u in accepts && t != u ==>
            (t.network, t.scheme, t.asset) != (u.network, u.scheme, u.asset))
  {
    var cat := Run(EMPTY, commits);
    RunKeeps(EMPTY, commits);
    var vid := cat.resources[rid].active.value;
    assert ActiveOk(cat, rid);
    forall t | t in LiveTerms(cat.options, vid) ensures t.payTo == cat.resources[rid].owner {
      var k :| 0 <= k < |cat.options| && cat.options[k].version == vid && cat.options[k].retired.None?
        && cat.options[k].terms == t;
      assert OptionOk(cat, k);
    }
    forall t, u | t in LiveTerms(cat.options, vid) && u in LiveTerms(cat.options, vid) && t != u
      ensures t.Slot() != u.Slot()
    {
      var k :| 0 <= k < |cat.options| && cat.options[k].version == vid && cat.options[k].retired.None?
        && cat.options[k].terms == t;
      var l :| 0 <= l < |cat.options| && cat.options[l].version == vid && cat.options[l].retired.None?
        && cat.options[l].terms == u;
      if k < l { assert cat.options[k].terms.Slot() != cat.options[l].terms.Slot(); }
      else { assert cat.options[l].terms.Slot() != cat.options[k].terms.Slot(); }
    }
  }
}
