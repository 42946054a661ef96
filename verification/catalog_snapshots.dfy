/**
 Snapshot reads under concurrent writers. A read as of a snapshot returns the same rows whatever is
 committed later, as long as nothing that was retired comes back; and what it returns is the catalog
 as it stood at that commit.
 */
module CatalogSnapshots {
  import opened Wrappers
  import opened CatalogTables
  import opened CatalogIntegrity

  /* ---- Commits that bring nothing back ---- */

  // The guard of the two statements that un-retire a row: activating a version that is already in the
  // table, and inserting terms that conflict with a retired option.
  predicate Revives(cat: Catalog, c: Candidate, ctx: Context) {
    var rid := Find(cat.resources, c.key);
    && rid < |cat.resources| && cat.resources[rid].owner == c.terms.payTo
    && var vid := Same(cat.versions, rid, c.declaration);
       && vid < |cat.versions|
       && ((ctx.activate && !cat.versions[vid].status.Active?)
           || (HasRow(cat.options, vid, c.terms) && !HasLive(cat.options, vid, c.terms)))
  }

  predicate Fresh(cat: Catalog, commit: Commit) {
    commit.Observation? ==> !Revives(cat, commit.candidate, commit.context)
  }

  predicate FreshRun(cat: Catalog, commits: seq<Commit>)
    decreases |commits|
  {
    commits == [] || (Fresh(cat, commits[0]) && FreshRun(Apply(cat, commits[0]), commits[1..]))
  }

  /* ---- What a later state keeps for readers of older snapshots ---- */

  // Retired only after `mark`, or as it was.
  predicate RetiredLater(a: Option<nat>, b: Option<nat>, mark: nat) {
    b == a || (a.None? && b.Some? && b.value > mark)
  }

  predicate VersionLater(a: Version, b: Version, mark: nat) {
    && b.resource == a.resource && b.number == a.number && b.declaration == a.declaration
    && b.extensions == a.extensions && b.created == a.created && (b.Published() <==> a.Published())
    && RetiredLater(a.retired, b.retired, mark)
  }

  predicate OptionLater(a: OptionRow, b: OptionRow, mark: nat) {
    b.version == a.version && b.terms == a.terms && b.created == a.created && RetiredLater(a.retired, b.retired, mark)
  }

  ghost predicate VersionsLater(a: seq<Version>, b: seq<Version>, mark: nat) {
    && |a| <= |b|
    && (forall i :: 0 <= i < |a| ==> VersionLater(a[i], b[i], mark))
    && (forall i :: |a| <= i < |b| ==> b[i].created > mark)
  }

  ghost predicate OptionsLater(a: seq<OptionRow>, b: seq<OptionRow>, mark: nat) {
    && |a| <= |b|
    && (forall k :: 0 <= k < |a| ==> OptionLater(a[k], b[k], mark))
    && (forall k :: |a| <= k < |b| ==> b[k].created > mark)
  }

  ghost predicate ResourcesLater(a: seq<Resource>, b: seq<Resource>, mark: nat) {
    && ResourcesGrow(a, b)
    && (forall i :: |a| <= i < |b| ==> b[i].created > mark)
  }

  // `b` differs from `a` only by what was written after `a`.
  ghost predicate Later(a: Catalog, b: Catalog) {
    && a.watermark <= b.watermark
    && ResourcesLater(a.resources, b.resources, a.watermark)
    && VersionsLater(a.versions, b.versions, a.watermark)
    && OptionsLater(a.options, b.options, a.watermark)
  }

  lemma ActivateNewIsLater(versions: seq<Version>, v: Version, rid: nat, at: nat, mark: nat)
    requires at > mark && v.created > mark
    requires forall i :: 0 <= i < |versions| && versions[i].status.Active? ==> versions[i].retired.None?
    ensures VersionsLater(versions, ActivateVersion(versions + [v], rid, |versions|, at), mark)
  {
  }

  lemma UpsertIsLater(options: seq<OptionRow>, rid: nat, vid: nat, terms: Terms, at: nat, mark: nat)
    requires at > mark
    requires HasRow(options, vid, terms) ==> HasLive(options, vid, terms)
    ensures OptionsLater(options, UpsertOption(options, rid, vid, terms, at), mark)
  {
  }

  lemma NoOptionsYet(cat: Catalog, terms: Terms)
    requires Sound(cat)
    ensures !HasRow(cat.options, |cat.versions|, terms)
  {
    forall k | 0 <= k < |cat.options| ensures cat.options[k].version != |cat.versions| { assert OptionOk(cat, k); }
  }

  lemma CreateIsLater(cat: Catalog, drawn: Catalog, c: Candidate, ctx: Context, now: nat)
    requires Sound(cat) && drawn == cat.(watermark := cat.watermark + 1)
    ensures Later(cat, CreateResource(drawn, c, ctx, now).0)
  {
    NoOptionsYet(cat, c.terms);
    UpsertIsLater(cat.options, |cat.resources|, |cat.versions|, c.terms, drawn.watermark, cat.watermark);
  }

  lemma ShowNewIsLater(cat: Catalog, drawn: Catalog, rid: nat, c: Candidate, ctx: Context)
    requires Sound(cat) && drawn.watermark == cat.watermark + 1 && rid < |cat.resources|
    requires drawn.versions == cat.versions && drawn.options == cat.options
    requires SameIdentity(cat.resources, drawn.resources)
    ensures Later(cat, ShowNew(drawn, rid, c, ctx).0)
  {
    NoOptionsYet(cat, c.terms);
    UpsertIsLater(cat.options, rid, |cat.versions|, c.terms, drawn.watermark, cat.watermark);
    ShownVersionIsLater(cat, drawn, rid, c, ctx);
  }

  lemma ShownVersionIsLater(cat: Catalog, drawn: Catalog, rid: nat, c: Candidate, ctx: Context)
    requires Sound(cat) && drawn.watermark == cat.watermark + 1 && rid < |drawn.resources|
    requires drawn.versions == cat.versions
    ensures VersionsLater(cat.versions, ShowNew(drawn, rid, c, ctx).0.versions, cat.watermark)
  {
    if ctx.activate {
      var v := NewVersion(rid, MaxNumber(cat.versions, rid) + 1, c, Active, drawn.watermark);
      forall i | 0 <= i < |cat.versions| && cat.versions[i].status.Active? ensures cat.versions[i].retired.None? {
        assert VersionOk(cat, i) && StatusOk(cat, i);
      }
      ActivateNewIsLater(cat.versions, v, rid, drawn.watermark, cat.watermark);
    }
  }

  lemma ShowAgainIsLater(cat: Catalog, drawn: Catalog, rid: nat, vid: nat, c: Candidate, ctx: Context)
    requires Later(cat, drawn) && drawn.watermark > cat.watermark && rid < |cat.resources| && vid < |cat.versions|
    requires drawn.versions == cat.versions && drawn.options == cat.options
    requires ctx.activate ==> cat.versions[vid].status.Active?
    requires HasRow(cat.options, vid, c.terms) ==> HasLive(cat.options, vid, c.terms)
    ensures Later(cat, ShowAgain(drawn, rid, vid, c, ctx).0)
  {
    UpsertIsLater(cat.options, rid, vid, c.terms, drawn.watermark, cat.watermark);
  }

  lemma RivalIsLater(cat: Catalog, drawn: Catalog, rid: nat, number: nat, c: Candidate)
    requires drawn == cat.(watermark := cat.watermark + 1)
    ensures Later(cat, InsertVersion(drawn, rid, number, c, Rival))
  {
  }

  lemma UpdateIsLater(cat: Catalog, drawn: Catalog, rid: nat, c: Candidate, ctx: Context, now: nat)
    requires Sound(cat) && drawn == cat.(watermark := cat.watermark + 1)
    requires rid == Find(cat.resources, c.key) < |cat.resources| && !Revives(cat, c, ctx)
    ensures Later(cat, UpdateResource(drawn, rid, c, ctx, now).0)
  {
    var same := Same(cat.versions, rid, c.declaration);
    if cat.resources[rid].owner != c.terms.payTo {
      RivalIsLater(cat, drawn, rid, MaxNumber(cat.versions, rid) + 1, c);
    } else if same < |cat.versions| {
      ShowAgainIsLater(cat, Seen(drawn, rid, now), rid, same, c, ctx);
    } else if !ctx.rejectChanged {
      ShowNewIsLater(cat, Seen(drawn, rid, now), rid, c, ctx);
    }
  }

  lemma LaterReflexive(cat: Catalog)
    ensures Later(cat, cat)
  {
  }

  lemma ObserveIsLater(cat: Catalog, c: Candidate, ctx: Context, now: nat)
    requires Sound(cat) && !Revives(cat, c, ctx)
    ensures Later(cat, Observe(cat, c, ctx, now).0)
  {
    ObserveIs(cat, c, ctx, now);
    LaterReflexive(cat);
    var drawn := cat.(watermark := cat.watermark + 1);
    var rid := Find(cat.resources, c.key);
    if rid < |cat.resources| {
      UpdateIsLater(cat, drawn, rid, c, ctx, now);
    } else {
      CreateIsLater(cat, drawn, c, ctx, now);
    }
  }

  lemma ApplyIsLater(cat: Catalog, commit: Commit)
    requires Sound(cat) && Fresh(cat, commit)
    ensures Later(cat, Apply(cat, commit))
  {
    if commit.Observation? {
      ObserveIsLater(cat, commit.candidate, commit.context, commit.now);
    }
  }

  lemma LaterTransitive(a: Catalog, b: Catalog, c: Catalog)
    requires Later(a, b) && Later(b, c)
    ensures Later(a, c)
  {
    forall i | 0 <= i < |a.versions| ensures VersionLater(a.versions[i], c.versions[i], a.watermark) {
      assert VersionLater(a.versions[i], b.versions[i], a.watermark)
        && VersionLater(b.versions[i], c.versions[i], b.watermark);
    }
    forall k | 0 <= k < |a.options| ensures OptionLater(a.options[k], c.options[k], a.watermark) {
      assert OptionLater(a.options[k], b.options[k], a.watermark)
        && OptionLater(b.options[k], c.options[k], b.watermark);
    }
  }

  lemma RunIsLater(cat: Catalog, commits: seq<Commit>)
    requires Sound(cat) && FreshRun(cat, commits)
    ensures Later(cat, Run(cat, commits))
    decreases |commits|
  {
    if commits == [] {
      LaterReflexive(cat);
    } else {
      var next := Apply(cat, commits[0]);
      ApplyKeeps(cat, commits[0]);
      ApplyIsLater(cat, commits[0]);
      RunIsLater(next, commits[1..]);
      LaterTransitive(cat, next, Run(next, commits[1..]));
    }
  }

  /* ---- Old snapshots read the same ---- */

  lemma {:induction false} TopIsStable(a: seq<Version>, b: seq<Version>, mark: nat, rid: nat, snapshot: nat, n: nat)
    requires VersionsLater(a, b, mark) && snapshot <= mark && n <= |b|
    ensures TopOf(b, rid, snapshot, n) == TopOf(a, rid, snapshot, if n <= |a| then n else |a|)
  {
    if n > 0 {
      TopIsStable(a, b, mark, rid, snapshot, n - 1);
      if n <= |a| { assert VersionLater(a[n - 1], b[n - 1], mark); }
    }
  }

  lemma AcceptsAreStable(a: seq<OptionRow>, b: seq<OptionRow>, mark: nat, vid: nat, snapshot: nat)
    requires OptionsLater(a, b, mark) && snapshot <= mark
    ensures Accepts(b, vid, snapshot) == Accepts(a, vid, snapshot)
  {
    forall k | 0 <= k < |a|
      ensures VisibleAt(b[k].created, b[k].retired, snapshot) <==> VisibleAt(a[k].created, a[k].retired, snapshot)
      ensures b[k].version == a[k].version && b[k].terms == a[k].terms
    {
      assert OptionLater(a[k], b[k], mark);
    }
    forall t | t in Accepts(a, vid, snapshot) ensures t in Accepts(b, vid, snapshot) {
      var k :| 0 <= k < |a| && a[k].version == vid && VisibleAt(a[k].created, a[k].retired, snapshot)
        && a[k].terms == t;
      assert b[k].version == vid && b[k].terms == t;
    }
  }

  lemma RowIsStable(a: Catalog, b: Catalog, rid: nat, snapshot: nat, f: Filters)
    requires Later(a, b) && snapshot <= a.watermark && rid < |b.resources|
    ensures SnapshotRow(b, rid, snapshot, f) == if rid < |a.resources| then SnapshotRow(a, rid, snapshot, f) else None
  {
    TopIsStable(a.versions, b.versions, a.watermark, rid, snapshot, |b.versions|);
    if rid < |a.resources| {
      assert b.resources[..|a.resources|][rid] == b.resources[rid];
      var top := TopOf(a.versions, rid, snapshot, |a.versions|);
      if top.Some? {
        assert VersionLater(a.versions[top.value], b.versions[top.value], a.watermark);
        AcceptsAreStable(a.options, b.options, a.watermark, top.value, snapshot);
      }
    }
  }

  lemma {:induction false} RowsAreStable(a: Catalog, b: Catalog, snapshot: nat, f: Filters, n: nat)
    requires Later(a, b) && snapshot <= a.watermark && n <= |b.resources|
    ensures SnapshotRows(b, snapshot, f, n)
            == SnapshotRows(a, snapshot, f, if n <= |a.resources| then n else |a.resources|)
  {
    if n > 0 {
      RowsAreStable(a, b, snapshot, f, n - 1);
      RowIsStable(a, b, n - 1, snapshot, f);
    }
  }

  // From any reachable state and for every snapshot already taken, the filtered rows and their accepts
  // are the same after any number of later commits that revive nothing.
  lemma SnapshotsAreStable(before: seq<Commit>, after: seq<Commit>, snapshot: nat, f: Filters)
    requires FreshRun(Run(EMPTY, before), after)
    requires snapshot <= Run(EMPTY, before).watermark
    ensures Browse(Run(Run(EMPTY, before), after), snapshot, f) == Browse(Run(EMPTY, before), snapshot, f)
  {
    var a := Run(EMPTY, before);
    RunKeeps(EMPTY, before);
    RunIsLater(a, after);
    RowsAreStable(a, Run(a, after), snapshot, f, |Run(a, after).resources|);
  }

  /* ---- A snapshot taken now reads the catalog of now ---- */

  // What shadows the active version of one resource.
  predicate Outnumbered(cat: Catalog, rid: nat)
    requires rid < |cat.resources|
  {
    cat.resources[rid].active.Some? && cat.resources[rid].active.value < |cat.versions|
    && exists i :: 0 <= i < |cat.versions| && cat.versions[i].resource == rid && cat.versions[i].Published()
                   && cat.versions[i].number > cat.versions[cat.resources[rid].active.value].number
  }

  predicate Clear(cat: Catalog) {
    forall rid :: 0 <= rid < |cat.resources| ==> !Outnumbered(cat, rid)
  }

  lemma LiveIsVisible(cat: Catalog, vid: nat)
    requires Sound(cat)
    ensures Accepts(cat.options, vid, cat.watermark) == LiveTerms(cat.options, vid)
  {
    forall k | 0 <= k < |cat.options|
      ensures VisibleAt(cat.options[k].created, cat.options[k].retired, cat.watermark) <==> cat.options[k].retired.None?
    {
      assert OptionOk(cat, k);
    }
  }

  lemma TopIsActive(cat: Catalog, rid: nat)
    requires Sound(cat) && rid < |cat.resources| && cat.resources[rid].active.Some?
    ensures cat.resources[rid].active.value < |cat.versions|
    ensures !Outnumbered(cat, rid) <==>
      TopOf(cat.versions, rid, cat.watermark, |cat.versions|) == cat.resources[rid].active
  {
    assert ActiveOk(cat, rid);
    var vid := cat.resources[rid].active.value;
    assert VersionOk(cat, vid) && StatusOk(cat, vid);
    var top := TopOf(cat.versions, rid, cat.watermark, |cat.versions|);
    assert Eligible(cat.versions[vid], rid, cat.watermark);
    if top.value != vid {
      if top.value < vid {
        NumbersRise(cat.versions, top.value, vid);
      } else {
        NumbersRise(cat.versions, vid, top.value);
      }
      assert cat.versions[top.value].Published();
    } else {
      forall i | 0 <= i < |cat.versions| && cat.versions[i].resource == rid && cat.versions[i].Published()
        ensures cat.versions[i].number <= cat.versions[vid].number
      {
        assert VersionOk(cat, i) && Eligible(cat.versions[i], rid, cat.watermark);
      }
    }
  }

  lemma ActiveIsListed(cat: Catalog, rid: nat)
    requires Sound(cat) && rid < |cat.resources| && cat.resources[rid].active.Some?
    ensures CurrentRow(cat, rid, ANY).Some?
  {
    assert ActiveOk(cat, rid);
    var vid := cat.resources[rid].active.value;
    assert VersionOk(cat, vid) && StatusOk(cat, vid);
    assert HasPrice(cat.options, vid);
    var k :| 0 <= k < |cat.options| && cat.options[k].version == vid && cat.options[k].retired.None?;
    assert cat.options[k].terms in LiveTerms(cat.options, vid) && Wanted(cat.options[k].terms, ANY);
  }

  lemma NothingPublished(cat: Catalog, rid: nat)
    requires Sound(cat) && rid < |cat.resources| && cat.resources[rid].active.None?
    ensures TopOf(cat.versions, rid, cat.watermark, |cat.versions|).None?
  {
    forall i | 0 <= i < |cat.versions| ensures !Eligible(cat.versions[i], rid, cat.watermark) {
      assert VersionOk(cat, i) && StatusOk(cat, i);
    }
  }

  lemma ShadowIsHidden(cat: Catalog, rid: nat)
    requires Sound(cat) && rid < |cat.resources| && Outnumbered(cat, rid)
    ensures SnapshotRow(cat, rid, cat.watermark, ANY).None?
  {
    TopIsActive(cat, rid);
    assert ActiveOk(cat, rid);
    var top := TopOf(cat.versions, rid, cat.watermark, |cat.versions|);
    if top.Some? { assert VersionOk(cat, top.value) && StatusOk(cat, top.value); }
  }

  // A resource is read as it stands when nothing outnumbers its active version.
  lemma RowIsCurrent(cat: Catalog, rid: nat, f: Filters)
    requires Sound(cat) && rid < |cat.resources| && !Outnumbered(cat, rid)
    ensures SnapshotRow(cat, rid, cat.watermark, f) == CurrentRow(cat, rid, f)
  {
    var active := cat.resources[rid].active;
    if active.None? {
      NothingPublished(cat, rid);
    } else {
      TopIsActive(cat, rid);
      LiveIsVisible(cat, active.value);
      assert ActiveOk(cat, rid) && VersionOk(cat, active.value) && StatusOk(cat, active.value);
    }
  }

  lemma {:induction false} RowsAreCurrent(cat: Catalog, f: Filters, n: nat)
    requires Sound(cat) && Clear(cat) && n <= |cat.resources|
    ensures SnapshotRows(cat, cat.watermark, f, n) == CurrentRows(cat, f, n)
  {
    if n > 0 {
      RowsAreCurrent(cat, f, n - 1);
      RowIsCurrent(cat, n - 1, f);
    }
  }

  // The rows of a browse, and nothing else, are in its list.
  lemma {:induction false} BrowseHolds(cat: Catalog, snapshot: nat, f: Filters, n: nat, row: DiscoveryRow)
    requires n <= |cat.resources|
    ensures row in SnapshotRows(cat, snapshot, f, n)
            <==> row.resource < n && SnapshotRow(cat, row.resource, snapshot, f) == Some(row)
  {
    if n > 0 { BrowseHolds(cat, snapshot, f, n - 1, row); }
  }

  lemma {:induction false} ListingHolds(cat: Catalog, f: Filters, n: nat, row: DiscoveryRow)
    requires n <= |cat.resources|
    ensures row in CurrentRows(cat, f, n) <==> row.resource < n && CurrentRow(cat, row.resource, f) == Some(row)
  {
    if n > 0 { ListingHolds(cat, f, n - 1, row); }
  }

  // A snapshot taken now reads the current listing, for every filter, if and only if no superseded
  // version outnumbers the active version of its resource.
  lemma BrowseIsListingIff(cat: Catalog)
    requires Sound(cat)
    ensures Clear(cat) ==> forall f :: Browse(cat, cat.watermark, f) == Listing(cat, f)
    ensures !Clear(cat) ==> Browse(cat, cat.watermark, ANY) != Listing(cat, ANY)
  {
    if Clear(cat) {
      forall f ensures Browse(cat, cat.watermark, f) == Listing(cat, f) {
        RowsAreCurrent(cat, f, |cat.resources|);
      }
    } else {
      var rid :| 0 <= rid < |cat.resources| && Outnumbered(cat, rid);
      ShadowIsHidden(cat, rid);
      ActiveIsListed(cat, rid);
      var row := CurrentRow(cat, rid, ANY).value;
      BrowseHolds(cat, cat.watermark, ANY, |cat.resources|, row);
      ListingHolds(cat, ANY, |cat.resources|, row);
    }
  }
}
