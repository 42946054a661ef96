/**
 The catalog store as the object it is: four tables that one transaction updates statement by
 statement and restores when it rolls back.
 */
module CatalogRows {
  import opened Wrappers
  import opened CatalogTables

  // Lifecycle conditions of a discovery request.
  datatype Visibility = Visibility(includeStale: bool, includeUnverified: bool, seenSince: nat)

  predicate Shows(cat: Catalog, v: Visibility, row: DiscoveryRow) {
    && row.resource < |cat.resources| && row.version < |cat.versions|
    && var r := cat.resources[row.resource];
       && (r.status.Listed? || (v.includeStale && r.status.Stale?))
       && (v.includeStale || r.lastSeen >= v.seenSince)
       && (v.includeUnverified || cat.versions[row.version].verified)
  }

  function Filter(cat: Catalog, v: Visibility, rows: seq<DiscoveryRow>): (r: seq<DiscoveryRow>)
    ensures |r| <= |rows|
    ensures |r| < |rows| <==> exists row :: row in rows && !Shows(cat, v, row)
  {
    if rows == [] then []
    else
      var rest := Filter(cat, v, rows[1..]);
      assert rows == [rows[0]] + rows[1..];
      if Shows(cat, v, rows[0]) then [rows[0]] + rest else rest
  }

  // LIMIT and OFFSET.
  function Slice(rows: seq<DiscoveryRow>, offset: nat, limit: nat): seq<DiscoveryRow> {
    if offset >= |rows| then [] else if offset + limit >= |rows| then rows[offset..] else rows[offset..offset + limit]
  }

  class CatalogStore {
    var watermark: nat
    var resources: seq<Resource>
    var versions: seq<Version>
    var options: seq<OptionRow>

    constructor ()
      ensures Tables() == EMPTY
    {
      watermark, resources, versions, options := 0, [], [], [];
    }

    function Tables(): Catalog
      reads this
    {
      Catalog(watermark, resources, versions, options)
    }

    method NextVersionNumber(rid: nat) returns (next: nat)
      ensures next == MaxNumber(versions, rid) + 1
    {
      var highest := 0;
      for i := 0 to |versions|
        invariant highest == MaxNumber(versions[..i], rid)
      {
        assert versions[..i + 1][..i] == versions[..i];
        if versions[i].resource == rid && versions[i].number > highest {
          highest := versions[i].number;
        }
      }
      assert versions[..|versions|] == versions;
      return highest + 1;
    }

    method AddVersion(rid: nat, number: nat, c: Candidate, status: VersionStatus) returns (vid: nat)
      modifies this`versions
      ensures Tables() == InsertVersion(old(Tables()), rid, number, c, status)
      ensures vid == |old(versions)|
    {
      vid := |versions|;
      versions := versions + [Version(rid, number, c.declaration, c.extensions, status,
                                      status.Active?, c.terms.payTo, watermark, None)];
    }

    method AddOption(rid: nat, vid: nat, terms: Terms) returns (id: nat)
      modifies this`options
      ensures Tables() == Upsert(old(Tables()), rid, vid, terms)
      ensures id < |options| && options[id].version == vid && options[id].terms == terms && options[id].retired.None?
    {
      if k :| 0 <= k < |options| && options[k].version == vid && options[k].terms == terms && options[k].retired.None? {
        return k;
      }
      assert !HasLive(options, vid, terms);
      ghost var was := options;
      var rows, at := options, watermark;
      rows := seq(|rows|, i requires 0 <= i < |rows| =>
        if rows[i].version == vid && rows[i].terms.Slot() == terms.Slot() && rows[i].retired.None?
        then rows[i].(retired := Some(at)) else rows[i]);
      if k :| 0 <= k < |rows| && rows[k].version == vid && rows[k].terms == terms {
        options := seq(|rows|, i requires 0 <= i < |rows| =>
          if rows[i].version == vid && rows[i].terms == terms then rows[i].(retired := None) else rows[i]);
        assert was[k].version == vid && was[k].terms == terms;
        id := k;
      } else {
        options := rows + [OptionRow(vid, rid, terms, at, None)];
        id := |rows|;
        forall i | 0 <= i < |was| ensures !(was[i].version == vid && was[i].terms == terms) {
          assert !(rows[i].version == vid && rows[i].terms == terms);
        }
      }
      assert options == UpsertOption(was, rid, vid, terms, at);
    }

    method Promote(rid: nat, vid: nat)
      requires rid < |resources|
      modifies this`versions, this`resources
      ensures Tables() == Activate(old(Tables()), rid, vid)
    {
      ghost var was := versions;
      var rows, at := versions, watermark;
      rows := seq(|rows|, i requires 0 <= i < |rows| =>
        if rows[i].resource == rid && i != vid && rows[i].status.Active?
        then rows[i].(status := Superseded, retired := Some(at)) else rows[i]);
      if vid < |rows| {
        rows := rows[vid := rows[vid].(status := Active, verified := true, retired := None)];
      }
      versions := rows;
      assert versions == ActivateVersion(was, rid, vid, at);
      resources := resources[rid := resources[rid].(active := Some(vid))];
    }

    method AddResource(c: Candidate, ctx: Context, now: nat) returns (outcome: Outcome)
      modifies this`resources, this`versions, this`options
      ensures (Tables(), outcome) == CreateResource(old(Tables()), c, ctx, now)
    {
      var rid := |resources|;
      resources := resources + [Resource(c.key, c.kind, c.terms.payTo, Listed, None, now, watermark)];
      var vid := AddVersion(rid, 1, c, if ctx.activate then Active else Draft);
      var _ := AddOption(rid, vid, c.terms);
      if ctx.activate {
        resources := resources[rid := resources[rid].(active := Some(vid))];
        return Indexed;
      }
      return Pending;
    }

    method FindVersion(rid: nat, declaration: string) returns (i: nat)
      ensures i == Same(versions, rid, declaration)
    {
      i := 0;
      while i < |versions| && !(versions[i].resource == rid && versions[i].declaration == declaration)
        invariant i <= |versions|
        invariant forall j :: 0 <= j < i ==> !(versions[j].resource == rid && versions[j].declaration == declaration)
      {
        i := i + 1;
      }
    }

    method FindResource(key: string) returns (i: nat)
      ensures i == Find(resources, key)
    {
      i := 0;
      while i < |resources| && resources[i].key != key
        invariant i <= |resources|
        invariant forall j :: 0 <= j < i ==> resources[j].key != key
      {
        i := i + 1;
      }
    }

    method Change(rid: nat, c: Candidate, ctx: Context, now: nat) returns (outcome: Outcome)
      requires rid < |resources|
      modifies this`resources, this`versions, this`options
      ensures (Tables(), outcome) == UpdateResource(old(Tables()), rid, c, ctx, now)
    {
      var same := FindVersion(rid, c.declaration);
      var row := resources[rid];
      if row.owner != c.terms.payTo {
        if same < |versions| {
          return DuplicateDeclaration;
        }
        var next := NextVersionNumber(rid);
        var _ := AddVersion(rid, next, c, Rival);
        return RivalQuarantined;
      }
      resources := resources[rid :=
        row.(lastSeen := now, status := if row.status.Stale? then Listed else row.status)];
      if same < |versions| {
        var status := versions[same].status;
        var _ := AddOption(rid, same, c.terms);
        if ctx.activate && !status.Active? {
          Promote(rid, same);
          return Versioned;
        }
        return if status.Active? then Refreshed else Pending;
      }
      if ctx.rejectChanged {
        return ChangeRejected;
      }
      var next := NextVersionNumber(rid);
      var vid := AddVersion(rid, next, c, if ctx.activate then Active else Draft);
      var _ := AddOption(rid, vid, c.terms);
      if ctx.activate {
        Promote(rid, vid);
        return Versioned;
      }
      return Pending;
    }

    // BEGIN keeps the tables; a unique violation rolls back to them, watermark included.
    method ObserveCandidate(c: Candidate, ctx: Context, now: nat) returns (outcome: Outcome)
      modifies this
      ensures (Tables(), outcome) == Observe(old(Tables()), c, ctx, now)
      ensures outcome.DuplicateDeclaration? ==> Tables() == old(Tables())
    {
      var began := Tables();
      watermark := watermark + 1;
      var rid := FindResource(c.key);
      if rid < |resources| {
        outcome := Change(rid, c, ctx, now);
      } else {
        outcome := AddResource(c, ctx, now);
      }
      if outcome.DuplicateDeclaration? {
        watermark, resources, versions, options := began.watermark, began.resources, began.versions, began.options;
      }
    }

    // One page of discovery. `partial` says that another page exists, or that some row of the snapshot
    // is not shown any more.
    method List(snapshot: nat, f: Filters, v: Visibility, offset: nat, limit: nat)
      returns (page: seq<DiscoveryRow>, total: nat, partial: bool)
      ensures page == Slice(Filter(Tables(), v, Browse(Tables(), snapshot, f)), offset, limit)
      ensures total == |Filter(Tables(), v, Browse(Tables(), snapshot, f))|
      ensures partial <==>
        offset + |page| < total || exists row :: row in Browse(Tables(), snapshot, f) && !Shows(Tables(), v, row)
    {
      var shown, snapshotTotal := [], 0;
      for n := 0 to |resources|
        invariant snapshotTotal == |SnapshotRows(Tables(), snapshot, f, n)|
        invariant shown == Filter(Tables(), v, SnapshotRows(Tables(), snapshot, f, n))
      {
        var row := SnapshotRow(Tables(), n, snapshot, f);
        if row.Some? {
          snapshotTotal := snapshotTotal + 1;
          ghost var rest := SnapshotRows(Tables(), snapshot, f, n);
          assert ([row.value] + rest)[1..] == rest;
          if Shows(Tables(), v, row.value) {
            shown := [row.value] + shown;
          }
        }
      }
      total := |shown|;
      page := Slice(shown, offset, limit);
      partial := offset + |page| < total || snapshotTotal > total;
    }
  }
}
