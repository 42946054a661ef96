/**
 What a discovery request shows, in the fields of rows and terms: which rows a snapshot has, which of them
 the filters select, and which of those the lifecycle conditions let through.
 */
module CatalogFilters {
  import opened Wrappers
  import opened CatalogTables
  import opened CatalogIntegrity
  import opened CatalogSnapshots
  import opened CatalogRows

  // The rows that have a property, in their order.
  function Those(rows: seq<DiscoveryRow>, p: DiscoveryRow -> bool): seq<DiscoveryRow> {
    if rows == [] then []
    else if p(rows[0]) then [rows[0]] + Those(rows[1..], p)
    else Those(rows[1..], p)
  }

  lemma {:induction false} ThoseAre(rows: seq<DiscoveryRow>, p: DiscoveryRow -> bool, row: DiscoveryRow)
    ensures row in Those(rows, p) <==> row in rows && p(row)
  {
    if rows != [] {
      assert rows == [rows[0]] + rows[1..];
      ThoseAre(rows[1..], p, row);
    }
  }

  /* ---- Filters ---- */

  // Every condition that was asked for is met by these one terms.
  predicate Meets(t: Terms, f: Filters) {
    && (f.network == None || f.network == Some(t.network))
    && (f.scheme == None || f.scheme == Some(t.scheme))
    && (f.payTo == None || f.payTo == Some(t.payTo))
    && (f.asset == None || f.asset == Some(t.asset))
    && (match f.maxPrice case None => true case Some(price) => !(price < t.amount))
  }

  predicate Asked(row: DiscoveryRow, f: Filters) {
    && (f.kind == None || f.kind == Some(row.kind))
    && (match f.extension case None => true case Some(name) => name in row.extensions)
    && exists t :: t in row.accepts && Meets(t, f)
  }

  lemma RowIsAsked(cat: Catalog, rid: nat, snapshot: nat, f: Filters)
    requires rid < |cat.resources|
    ensures var any := SnapshotRow(cat, rid, snapshot, ANY);
      SnapshotRow(cat, rid, snapshot, f) == if any.Some? && Asked(any.value, f) then any else None
  {
    forall t: Terms ensures Wanted(t, f) <==> Meets(t, f)
      ensures Wanted(t, ANY)
    {
    }
    var top := TopOf(cat.versions, rid, snapshot, |cat.versions|);
    if top.Some? {
      var accepts := Accepts(cat.options, top.value, snapshot);
      assert (exists t :: t in accepts && Wanted(t, f)) <==> exists t :: t in accepts && Meets(t, f);
      assert (exists t :: t in accepts && Wanted(t, f)) ==> exists t :: t in accepts && Wanted(t, ANY);
    }
  }

  lemma {:induction false} FilteredRows(cat: Catalog, snapshot: nat, f: Filters, n: nat)
    requires n <= |cat.resources|
    ensures SnapshotRows(cat, snapshot, f, n) == Those(SnapshotRows(cat, snapshot, ANY, n), row => Asked(row, f))
  {
    if n > 0 {
      FilteredRows(cat, snapshot, f, n - 1);
      RowIsAsked(cat, n - 1, snapshot, f);
      var any := SnapshotRow(cat, n - 1, snapshot, ANY);
      var rest := SnapshotRows(cat, snapshot, ANY, n - 1);
      if any.Some? { assert ([any.value] + rest)[1..] == rest; }
    }
  }

  // A filtered browse is those rows of the unfiltered one, in order, that have the kind and the extension asked
  // for and accept some terms that meet the network, scheme, payee and asset asked for at no more than the
  // maximum price.
  lemma FilteredBrowse(cat: Catalog, snapshot: nat, f: Filters)
    ensures Browse(cat, snapshot, f) == Those(Browse(cat, snapshot, ANY), row => Asked(row, f))
  {
    FilteredRows(cat, snapshot, f, |cat.resources|);
  }

  // Raising the maximum price never loses a row.
  lemma RaisingThePriceKeepsRows(cat: Catalog, snapshot: nat, f: Filters, low: nat, high: nat, row: DiscoveryRow)
    requires low <= high && row in Browse(cat, snapshot, f.(maxPrice := Some(low)))
    ensures row in Browse(cat, snapshot, f.(maxPrice := Some(high)))
  {
    var g, h := f.(maxPrice := Some(low)), f.(maxPrice := Some(high));
    FilteredBrowse(cat, snapshot, g);
    FilteredBrowse(cat, snapshot, h);
    ThoseAre(Browse(cat, snapshot, ANY), r => Asked(r, g), row);
    ThoseAre(Browse(cat, snapshot, ANY), r => Asked(r, h), row);
    var t :| t in row.accepts && Meets(t, g);
    assert Meets(t, h);
  }

  // A row with a single price is found exactly up to that price.
  lemma SinglePriceIsFoundIff(cat: Catalog, snapshot: nat, row: DiscoveryRow, t: Terms, price: nat)
    requires row in Browse(cat, snapshot, ANY) && row.accepts == {t}
    ensures row in Browse(cat, snapshot, ANY.(maxPrice := Some(price))) <==> t.amount <= price
  {
    var f := ANY.(maxPrice := Some(price));
    FilteredBrowse(cat, snapshot, f);
    ThoseAre(Browse(cat, snapshot, ANY), r => Asked(r, f), row);
    assert t in row.accepts;
  }

  /* ---- The unfiltered rows ---- */

  // Written at or before the snapshot and not retired by then.
  predicate Alive(created: nat, retired: Option<nat>, snapshot: nat) {
    !(snapshot < created) && (match retired case None => true case Some(at) => snapshot < at)
  }

  // The row is what the tables say of its resource and its version, with the terms alive at the snapshot.
  ghost predicate Pictures(cat: Catalog, snapshot: nat, row: DiscoveryRow) {
    && row.resource < |cat.resources| && row.version < |cat.versions|
    && var r, v := cat.resources[row.resource], cat.versions[row.version];
       && row.key == r.key && row.kind == r.kind
       && row.declaration == v.declaration && row.extensions == v.extensions
       && forall t :: t in row.accepts <==>
            exists k :: 0 <= k < |cat.options| && cat.options[k].version == row.version && cat.options[k].terms == t
              && Alive(cat.options[k].created, cat.options[k].retired, snapshot)
  }

  predicate PublishedBy(v: Version, rid: nat, snapshot: nat) {
    v.resource == rid && v.created <= snapshot && v.status in {Active, Superseded}
  }

  // The version with the highest number among those published by the snapshot.
  predicate Newest(cat: Catalog, snapshot: nat, rid: nat, vid: nat) {
    && vid < |cat.versions| && PublishedBy(cat.versions[vid], rid, snapshot)
    && forall i :: 0 <= i < |cat.versions| && PublishedBy(cat.versions[i], rid, snapshot) ==>
         cat.versions[i].number <= cat.versions[vid].number
  }

  // The unfiltered browse has a row for exactly the resources known at the snapshot whose newest version published
  // by then was not retired by then and has terms, and the row pictures that version.
  lemma BrowseShows(cat: Catalog, snapshot: nat, row: DiscoveryRow)
    requires Sound(cat)
    ensures row in Browse(cat, snapshot, ANY) <==>
      && Pictures(cat, snapshot, row) && row.accepts != {}
      && !(snapshot < cat.resources[row.resource].created)
      && Newest(cat, snapshot, row.resource, row.version)
      && Alive(cat.versions[row.version].created, cat.versions[row.version].retired, snapshot)
  {
    BrowseHolds(cat, snapshot, ANY, |cat.resources|, row);
    if row.resource < |cat.resources| {
      TopIsNewest(cat, snapshot, row.resource, row.version);
      var top := TopOf(cat.versions, row.resource, snapshot, |cat.versions|);
      if top == Some(row.version) {
        TopRowIs(cat, snapshot, row.resource, row.version);
        PictureIs(cat, snapshot, row);
      }
    }
  }

  lemma TopRowIs(cat: Catalog, snapshot: nat, rid: nat, vid: nat)
    requires rid < |cat.resources| && TopOf(cat.versions, rid, snapshot, |cat.versions|) == Some(vid)
    ensures var accepts := Accepts(cat.options, vid, snapshot);
      SnapshotRow(cat, rid, snapshot, ANY) ==
        if !(snapshot < cat.resources[rid].created) && accepts != {}
           && Alive(cat.versions[vid].created, cat.versions[vid].retired, snapshot)
        then Some(RowOf(cat, rid, vid, accepts)) else None
  {
    AcceptsAreEnough(Accepts(cat.options, vid, snapshot));
  }

  lemma PictureIs(cat: Catalog, snapshot: nat, row: DiscoveryRow)
    requires row.resource < |cat.resources| && row.version < |cat.versions|
    ensures Pictures(cat, snapshot, row)
            <==> row == RowOf(cat, row.resource, row.version, Accepts(cat.options, row.version, snapshot))
  {
    TermsAreAlive(cat, snapshot, row.version);
    var accepts := Accepts(cat.options, row.version, snapshot);
    if Pictures(cat, snapshot, row) {
      forall t ensures t in row.accepts <==> t in accepts { }
      assert row.accepts == accepts;
    }
  }

  lemma AcceptsAreEnough(accepts: set<Terms>)
    ensures accepts != {} <==> exists t :: t in accepts && Wanted(t, ANY)
  {
    if t :| t in accepts { assert Wanted(t, ANY); }
  }

  lemma TermsAreAlive(cat: Catalog, snapshot: nat, vid: nat)
    ensures forall t :: t in Accepts(cat.options, vid, snapshot) <==>
      exists k :: 0 <= k < |cat.options| && cat.options[k].version == vid && cat.options[k].terms == t
        && Alive(cat.options[k].created, cat.options[k].retired, snapshot)
  {
  }

  lemma TopIsNewest(cat: Catalog, snapshot: nat, rid: nat, vid: nat)
    requires Sound(cat)
    ensures TopOf(cat.versions, rid, snapshot, |cat.versions|) == Some(vid) <==> Newest(cat, snapshot, rid, vid)
  {
    var top := TopOf(cat.versions, rid, snapshot, |cat.versions|);
    forall i | 0 <= i < |cat.versions|
      ensures PublishedBy(cat.versions[i], rid, snapshot) <==> Eligible(cat.versions[i], rid, snapshot)
    {
    }
    if top.Some? && top.value != vid && vid < |cat.versions| && PublishedBy(cat.versions[vid], rid, snapshot) {
      if top.value < vid {
        NumbersRise(cat.versions, top.value, vid);
      } else {
        NumbersRise(cat.versions, vid, top.value);
      }
    }
  }

  /* ---- Lifecycle ---- */

  predicate LetThrough(cat: Catalog, v: Visibility, row: DiscoveryRow) {
    && row.resource < |cat.resources| && row.version < |cat.versions|
    && var r := cat.resources[row.resource];
       && (if v.includeStale then r.status in {Listed, Stale} else r.status == Listed && !(r.lastSeen < v.seenSince))
       && (cat.versions[row.version].verified || v.includeUnverified)
  }

  // The rows of a page and the total are cut from those rows of the snapshot whose resource is listed and was seen
  // recently, or, when stale ones are asked for, is listed or stale, and whose version is verified unless unverified
  // ones are asked for.
  lemma {:induction false} FilterLetsThrough(cat: Catalog, v: Visibility, rows: seq<DiscoveryRow>)
    ensures Filter(cat, v, rows) == Those(rows, row => LetThrough(cat, v, row))
  {
    if rows != [] { FilterLetsThrough(cat, v, rows[1..]); }
  }
}
