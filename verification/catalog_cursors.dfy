/**
 The cursor issued just before an observation: exactly when the observation changes what it reads.
 */
module CatalogCursors {
  import opened Wrappers
  import opened CatalogTables
  import opened CatalogIntegrity
  import opened CatalogSnapshots
  import opened CatalogRevival

  // Options a version could be listed with at the current snapshot once these terms are shown.
  predicate WouldBePriced(cat: Catalog, vid: nat, terms: Terms) {
    HasPrice(cat.options, vid) || HasRow(cat.options, vid, terms)
  }

  // The owner revives terms of the active version, or activates a stored declaration that then comes
  // out on top: one newer than the active version, or any that can be paid when nothing is active.
  predicate Disturbs(cat: Catalog, c: Candidate, ctx: Context) {
    var rid := Find(cat.resources, c.key);
    && rid < |cat.resources| && cat.resources[rid].owner == c.terms.payTo
    && var vid := Same(cat.versions, rid, c.declaration);
       && vid < |cat.versions|
       && (if cat.versions[vid].status.Active?
           then HasRow(cat.options, vid, c.terms) && !HasLive(cat.options, vid, c.terms)
           else ctx.activate && (if cat.resources[rid].active.Some? then !Behind(cat, rid, vid)
                                 else WouldBePriced(cat, vid, c.terms)))
  }

  // The state after the owner showed a stored declaration again.
  function Shown(cat: Catalog, rid: nat, vid: nat, c: Candidate, ctx: Context, now: nat): Catalog
    requires rid < |cat.resources| && vid < |cat.versions|
  {
    ShowAgain(Seen(cat.(watermark := cat.watermark + 1), rid, now), rid, vid, c, ctx).0
  }

  lemma ObserveIsShown(cat: Catalog, c: Candidate, ctx: Context, now: nat)
    requires var rid := Find(cat.resources, c.key);
      rid < |cat.resources| && cat.resources[rid].owner == c.terms.payTo
        && Same(cat.versions, rid, c.declaration) < |cat.versions|
    ensures var rid := Find(cat.resources, c.key);
      Observe(cat, c, ctx, now).0 == Shown(cat, rid, Same(cat.versions, rid, c.declaration), c, ctx, now)
  {
    ObserveIs(cat, c, ctx, now);
  }

  lemma ShownKeepsIdentity(cat: Catalog, rid: nat, vid: nat, c: Candidate, ctx: Context, now: nat)
    requires rid < |cat.resources| && vid < |cat.versions|
    ensures SameIdentity(cat.resources, Shown(cat, rid, vid, c, ctx, now).resources)
    ensures Shown(cat, rid, vid, c, ctx, now).options == UpsertOption(cat.options, rid, vid, c.terms, cat.watermark + 1)
    ensures Shown(cat, rid, vid, c, ctx, now).versions ==
      if ctx.activate && !cat.versions[vid].status.Active?
      then ActivateVersion(cat.versions, rid, vid, cat.watermark + 1) else cat.versions
  {
  }

  // Showing terms of one version leaves the options of the others.
  lemma OtherAccepts(options: seq<OptionRow>, rid: nat, vid: nat, terms: Terms, at: nat, other: nat, snapshot: nat)
    requires other != vid
    ensures Accepts(UpsertOption(options, rid, vid, terms, at), other, snapshot) == Accepts(options, other, snapshot)
  {
    var after := UpsertOption(options, rid, vid, terms, at);
    forall t | t in Accepts(options, other, snapshot) ensures t in Accepts(after, other, snapshot) {
      var k :| 0 <= k < |options| && options[k].version == other
               && VisibleAt(options[k].created, options[k].retired, snapshot) && options[k].terms == t;
      assert after[k] == options[k];
    }
  }

  // What the snapshot just before sees of one row of the version whose terms are shown.
  lemma OwnRow(cat: Catalog, rid: nat, vid: nat, terms: Terms, k: nat)
    requires Sound(cat) && k < |cat.options| && cat.options[k].version == vid
    ensures var o := UpsertOption(cat.options, rid, vid, terms, cat.watermark + 1)[k];
      && o.version == vid && o.terms == cat.options[k].terms
      && (VisibleAt(o.created, o.retired, cat.watermark)
          <==> cat.options[k].retired.None? || (cat.options[k].terms == terms && !HasLive(cat.options, vid, terms)))
  {
    assert OptionOk(cat, k);
  }

  lemma LiveTermsStayVisible(cat: Catalog, rid: nat, vid: nat, terms: Terms, t: Terms)
    requires Sound(cat) && t in LiveTerms(cat.options, vid)
    ensures t in Accepts(UpsertOption(cat.options, rid, vid, terms, cat.watermark + 1), vid, cat.watermark)
  {
    var k :| 0 <= k < |cat.options| && cat.options[k].version == vid && cat.options[k].retired.None?
      && cat.options[k].terms == t;
    OwnRow(cat, rid, vid, terms, k);
  }

  lemma KnownTermsBecomeVisible(cat: Catalog, rid: nat, vid: nat, terms: Terms)
    requires Sound(cat) && HasRow(cat.options, vid, terms)
    ensures terms in Accepts(UpsertOption(cat.options, rid, vid, terms, cat.watermark + 1), vid, cat.watermark)
  {
    var k :| 0 <= k < |cat.options| && cat.options[k].version == vid && cat.options[k].terms == terms
             && (HasLive(cat.options, vid, terms) ==> cat.options[k].retired.None?);
    OwnRow(cat, rid, vid, terms, k);
  }

  lemma VisibleTermsWereKnown(cat: Catalog, rid: nat, vid: nat, terms: Terms, t: Terms)
    requires Sound(cat)
    requires t in Accepts(UpsertOption(cat.options, rid, vid, terms, cat.watermark + 1), vid, cat.watermark)
    ensures t in LiveTerms(cat.options, vid) || (t == terms && HasRow(cat.options, vid, terms))
  {
    var after := UpsertOption(cat.options, rid, vid, terms, cat.watermark + 1);
    var k :| 0 <= k < |after| && after[k].version == vid && VisibleAt(after[k].created, after[k].retired, cat.watermark)
             && after[k].terms == t;
    if k < |cat.options| { OwnRow(cat, rid, vid, terms, k); }
  }

  // What the snapshot just before sees of the version whose terms are shown.
  lemma OwnAccepts(cat: Catalog, rid: nat, vid: nat, terms: Terms)
    requires Sound(cat)
    ensures var after := UpsertOption(cat.options, rid, vid, terms, cat.watermark + 1);
      && (terms in Accepts(after, vid, cat.watermark) <==> HasRow(cat.options, vid, terms))
      && (forall t :: t in LiveTerms(cat.options, vid) ==> t in Accepts(after, vid, cat.watermark))
      && (forall t :: t in Accepts(after, vid, cat.watermark) ==> t in LiveTerms(cat.options, vid) || t == terms)
  {
    var after := UpsertOption(cat.options, rid, vid, terms, cat.watermark + 1);
    if HasRow(cat.options, vid, terms) { KnownTermsBecomeVisible(cat, rid, vid, terms); }
    forall t | t in LiveTerms(cat.options, vid) ensures t in Accepts(after, vid, cat.watermark) {
      LiveTermsStayVisible(cat, rid, vid, terms, t);
    }
    forall t | t in Accepts(after, vid, cat.watermark)
      ensures t in LiveTerms(cat.options, vid) || (t == terms && HasRow(cat.options, vid, terms))
    {
      VisibleTermsWereKnown(cat, rid, vid, terms, t);
    }
  }

  // The top a cursor sees, for a resource that nothing outnumbers.
  lemma TopWas(cat: Catalog, r: nat)
    requires Sound(cat) && Clear(cat) && r < |cat.resources|
    ensures TopOf(cat.versions, r, cat.watermark, |cat.versions|) == cat.resources[r].active
  {
    assert !Outnumbered(cat, r);
    if cat.resources[r].active.None? { NothingPublished(cat, r); } else { TopIsActive(cat, r); }
  }

  // Activation publishes one version and leaves the others published as they were.
  lemma EligibleAfterActivation(cat: Catalog, rid: nat, vid: nat, r: nat, i: nat)
    requires Sound(cat) && rid < |cat.resources| && i < |cat.versions|
    requires vid < |cat.versions| && cat.versions[vid].resource == rid
    ensures var v := ActivateVersion(cat.versions, rid, vid, cat.watermark + 1)[i];
      && v.number == cat.versions[i].number && v.resource == cat.versions[i].resource
      && (Eligible(v, r, cat.watermark)
          <==> if i == vid then r == rid else Eligible(cat.versions[i], r, cat.watermark))
  {
    assert VersionOk(cat, i) && StatusOk(cat, i);
  }

  // Published versions other than the active one are below it.
  lemma BelowActive(cat: Catalog, r: nat, i: nat)
    requires Sound(cat) && Clear(cat) && r < |cat.resources| && i < |cat.versions|
    requires Eligible(cat.versions[i], r, cat.watermark)
    ensures cat.resources[r].active.Some? && cat.resources[r].active.value < |cat.versions|
    ensures cat.versions[cat.resources[r].active.value].resource == r
    ensures i != cat.resources[r].active.value ==>
      cat.versions[i].number < cat.versions[cat.resources[r].active.value].number
  {
    assert VersionOk(cat, i) && StatusOk(cat, i) && ActiveOk(cat, r) && !Outnumbered(cat, r);
    var av := cat.resources[r].active.value;
    if i < av { NumbersRise(cat.versions, i, av); } else if av < i { NumbersRise(cat.versions, av, i); }
  }

  lemma TopIs(versions: seq<Version>, rid: nat, snapshot: nat, i: nat)
    requires i < |versions| && Eligible(versions[i], rid, snapshot)
    requires forall j :: 0 <= j < |versions| && j != i && Eligible(versions[j], rid, snapshot) ==>
      versions[j].number < versions[i].number
    ensures TopOf(versions, rid, snapshot, |versions|) == Some(i)
  {
  }

  lemma TopAfterActivation(cat: Catalog, rid: nat, vid: nat, r: nat)
    requires Sound(cat) && Clear(cat) && rid < |cat.resources| && r < |cat.resources|
    requires vid < |cat.versions| && cat.versions[vid].resource == rid && !cat.versions[vid].status.Active?
    ensures TopOf(ActivateVersion(cat.versions, rid, vid, cat.watermark + 1), r, cat.watermark, |cat.versions|) ==
      if r == rid && !Behind(cat, rid, vid) then Some(vid) else cat.resources[r].active
  {
    var after := ActivateVersion(cat.versions, rid, vid, cat.watermark + 1);
    var active := cat.resources[r].active;
    var top := if r == rid && !Behind(cat, rid, vid) then Some(vid) else active;
    assert VersionOk(cat, vid) && StatusOk(cat, vid) && ActiveOk(cat, r);
    if active.Some? {
      assert VersionOk(cat, active.value) && StatusOk(cat, active.value);
      if r == rid { DistinctNumbers(cat, vid, active.value); }
    }
    forall j | 0 <= j < |after| && Eligible(after[j], r, cat.watermark)
      ensures top.Some? && (j != top.value ==> after[j].number < cat.versions[top.value].number)
    {
      EligibleAfterActivation(cat, rid, vid, r, j);
      if j != vid { BelowActive(cat, r, j); }
    }
    if top.Some? {
      EligibleAfterActivation(cat, rid, vid, r, top.value);
      TopIs(after, r, cat.watermark, top.value);
    }
  }

  lemma DistinctNumbers(cat: Catalog, i: nat, j: nat)
    requires Sound(cat) && i < |cat.versions| && j < |cat.versions| && i != j
    requires cat.versions[i].resource == cat.versions[j].resource
    ensures cat.versions[i].number != cat.versions[j].number
  {
    if i < j { NumbersRise(cat.versions, i, j); } else { NumbersRise(cat.versions, j, i); }
  }

  /* ---- Undisturbed ---- */

  // Rows agree when the top version and what it shows do.
  lemma SameTopSameRow(a: Catalog, b: Catalog, r: nat, snapshot: nat, f: Filters, t: nat)
    requires SameIdentity(a.resources, b.resources) && r < |a.resources| && t < |a.versions| == |b.versions|
    requires TopOf(a.versions, r, snapshot, |a.versions|) == Some(t) == TopOf(b.versions, r, snapshot, |b.versions|)
    requires VersionLater(a.versions[t], b.versions[t], snapshot)
    requires Accepts(a.options, t, snapshot) == Accepts(b.options, t, snapshot)
    ensures SnapshotRow(b, r, snapshot, f) == SnapshotRow(a, r, snapshot, f)
  {
  }

  lemma UndisturbedActiveRow(cat: Catalog, c: Candidate, ctx: Context, after: Catalog, rid: nat, vid: nat, now: nat,
      r: nat, f: Filters)
    requires Sound(cat) && Clear(cat) && Revives(cat, c, ctx) && !Disturbs(cat, c, ctx)
    requires rid == Find(cat.resources, c.key) && vid == Same(cat.versions, rid, c.declaration)
    requires after == Shown(cat, rid, vid, c, ctx, now)
    requires r < |cat.resources| && cat.resources[r].active.Some?
    ensures |after.resources| == |cat.resources|
      && SnapshotRow(after, r, cat.watermark, f) == SnapshotRow(cat, r, cat.watermark, f)
  {
    var t := cat.resources[r].active.value;
    ShownKeepsIdentity(cat, rid, vid, c, ctx, now);
    TopWas(cat, r);
    assert ActiveOk(cat, r) && VersionOk(cat, t) && StatusOk(cat, t);
    assert VersionOk(cat, vid) && StatusOk(cat, vid);
    assert t != vid;
    OtherAccepts(cat.options, rid, vid, c.terms, cat.watermark + 1, t, cat.watermark);
    if ctx.activate && !cat.versions[vid].status.Active? {
      TopAfterActivation(cat, rid, vid, r);
    }
    SameTopSameRow(cat, after, r, cat.watermark, f, t);
  }

  lemma UndisturbedIdleRow(cat: Catalog, c: Candidate, ctx: Context, after: Catalog, rid: nat, vid: nat, now: nat,
      r: nat, f: Filters)
    requires Sound(cat) && Clear(cat) && Revives(cat, c, ctx) && !Disturbs(cat, c, ctx)
    requires rid == Find(cat.resources, c.key) && vid == Same(cat.versions, rid, c.declaration)
    requires after == Shown(cat, rid, vid, c, ctx, now)
    requires r < |cat.resources| && cat.resources[r].active.None?
    ensures |after.resources| == |cat.resources|
    ensures SnapshotRow(after, r, cat.watermark, f).None? && SnapshotRow(cat, r, cat.watermark, f).None?
  {
    ShownKeepsIdentity(cat, rid, vid, c, ctx, now);
    TopWas(cat, r);
    if ctx.activate && !cat.versions[vid].status.Active? {
      TopAfterActivation(cat, rid, vid, r);
      OwnAccepts(cat, rid, vid, c.terms);
      NoLiveTerms(cat.options, vid);
    }
  }

  lemma UndisturbedRow(cat: Catalog, c: Candidate, ctx: Context, now: nat, r: nat, f: Filters)
    requires Sound(cat) && Clear(cat) && Revives(cat, c, ctx) && !Disturbs(cat, c, ctx) && r < |cat.resources|
    ensures var after := Observe(cat, c, ctx, now).0;
      |after.resources| == |cat.resources|
        && SnapshotRow(after, r, cat.watermark, f) == SnapshotRow(cat, r, cat.watermark, f)
  {
    var rid := Find(cat.resources, c.key);
    var vid := Same(cat.versions, rid, c.declaration);
    ObserveIsShown(cat, c, ctx, now);
    if cat.resources[r].active.Some? {
      UndisturbedActiveRow(cat, c, ctx, Shown(cat, rid, vid, c, ctx, now), rid, vid, now, r, f);
    } else {
      UndisturbedIdleRow(cat, c, ctx, Shown(cat, rid, vid, c, ctx, now), rid, vid, now, r, f);
    }
  }

  lemma NoLiveTerms(options: seq<OptionRow>, vid: nat)
    ensures !HasPrice(options, vid) ==> LiveTerms(options, vid) == {}
  {
  }

  lemma {:induction false} SameRows(a: Catalog, b: Catalog, snapshot: nat, f: Filters, n: nat)
    requires n <= |a.resources| == |b.resources|
    requires forall r :: 0 <= r < n ==> SnapshotRow(b, r, snapshot, f) == SnapshotRow(a, r, snapshot, f)
    ensures SnapshotRows(b, snapshot, f, n) == SnapshotRows(a, snapshot, f, n)
  {
    if n > 0 { SameRows(a, b, snapshot, f, n - 1); }
  }

  lemma UndisturbedRows(cat: Catalog, c: Candidate, ctx: Context, now: nat, f: Filters)
    requires Sound(cat) && Clear(cat) && Revives(cat, c, ctx) && !Disturbs(cat, c, ctx)
    ensures Browse(Observe(cat, c, ctx, now).0, cat.watermark, f) == Browse(cat, cat.watermark, f)
  {
    var after := Observe(cat, c, ctx, now).0;
    UndisturbedRow(cat, c, ctx, now, Find(cat.resources, c.key), f);
    forall r | 0 <= r < |cat.resources|
      ensures SnapshotRow(after, r, cat.watermark, f) == SnapshotRow(cat, r, cat.watermark, f)
    {
      UndisturbedRow(cat, c, ctx, now, r, f);
    }
    SameRows(cat, after, cat.watermark, f, |cat.resources|);
  }

  /* ---- Disturbed ---- */

  // The owner revives terms of the active version: they are in the row after, and were not before.
  lemma RevivedTermsShow(cat: Catalog, after: Catalog, rid: nat, vid: nat, c: Candidate, ctx: Context, now: nat)
    requires Sound(cat) && Clear(cat) && rid < |cat.resources| && vid < |cat.versions|
      && cat.versions[vid].resource == rid
    requires after == Shown(cat, rid, vid, c, ctx, now) && cat.versions[vid].status.Active?
    requires HasRow(cat.options, vid, c.terms) && !HasLive(cat.options, vid, c.terms)
    ensures |after.resources| == |cat.resources|
    ensures SnapshotRow(after, rid, cat.watermark, ANY) != SnapshotRow(cat, rid, cat.watermark, ANY)
  {
    ShownKeepsIdentity(cat, rid, vid, c, ctx, now);
    TopWas(cat, rid);
    assert VersionOk(cat, vid) && StatusOk(cat, vid);
    OwnAccepts(cat, rid, vid, c.terms);
    LiveIsVisible(cat, vid);
    assert c.terms in Accepts(after.options, vid, cat.watermark) && Wanted(c.terms, ANY);
    assert c.terms !in LiveTerms(cat.options, vid);
  }

  // The owner activates a stored declaration that comes out on top: the row shows it, or vanishes.
  lemma NewTopShows(cat: Catalog, after: Catalog, rid: nat, vid: nat, c: Candidate, ctx: Context, now: nat)
    requires Sound(cat) && Clear(cat) && rid < |cat.resources| && vid < |cat.versions|
      && cat.versions[vid].resource == rid
    requires after == Shown(cat, rid, vid, c, ctx, now) && ctx.activate && !cat.versions[vid].status.Active?
    requires cat.resources[rid].active.Some? && !Behind(cat, rid, vid)
    ensures |after.resources| == |cat.resources|
    ensures SnapshotRow(after, rid, cat.watermark, ANY) != SnapshotRow(cat, rid, cat.watermark, ANY)
  {
    ShownKeepsIdentity(cat, rid, vid, c, ctx, now);
    TopWas(cat, rid);
    assert ActiveOk(cat, rid) && !Outnumbered(cat, rid) && VersionOk(cat, vid) && StatusOk(cat, vid);
    TopAfterActivation(cat, rid, vid, rid);
    RowIsCurrent(cat, rid, ANY);
    ActiveIsListed(cat, rid);
  }

  // The owner activates a first declaration that can be paid: a row appears.
  lemma FirstTopShows(cat: Catalog, after: Catalog, rid: nat, vid: nat, c: Candidate, ctx: Context, now: nat)
    requires Sound(cat) && Clear(cat) && rid < |cat.resources| && vid < |cat.versions|
      && cat.versions[vid].resource == rid
    requires after == Shown(cat, rid, vid, c, ctx, now) && ctx.activate && !cat.versions[vid].status.Active?
    requires cat.resources[rid].active.None? && WouldBePriced(cat, vid, c.terms)
    ensures |after.resources| == |cat.resources|
    ensures SnapshotRow(after, rid, cat.watermark, ANY) != SnapshotRow(cat, rid, cat.watermark, ANY)
  {
    ShownKeepsIdentity(cat, rid, vid, c, ctx, now);
    TopWas(cat, rid);
    assert VersionOk(cat, vid) && StatusOk(cat, vid);
    TopAfterActivation(cat, rid, vid, rid);
    OwnAccepts(cat, rid, vid, c.terms);
    PricedIsListable(cat, vid, c.terms, Accepts(after.options, vid, cat.watermark));
  }

  lemma DisturbedRow(cat: Catalog, c: Candidate, ctx: Context, now: nat)
    requires Sound(cat) && Clear(cat) && Disturbs(cat, c, ctx)
    ensures var after := Observe(cat, c, ctx, now).0; var rid := Find(cat.resources, c.key);
      |after.resources| == |cat.resources|
        && SnapshotRow(after, rid, cat.watermark, ANY) != SnapshotRow(cat, rid, cat.watermark, ANY)
  {
    var rid := Find(cat.resources, c.key);
    var vid := Same(cat.versions, rid, c.declaration);
    var after := Shown(cat, rid, vid, c, ctx, now);
    ObserveIsShown(cat, c, ctx, now);
    if cat.versions[vid].status.Active? {
      RevivedTermsShow(cat, after, rid, vid, c, ctx, now);
    } else if cat.resources[rid].active.Some? {
      NewTopShows(cat, after, rid, vid, c, ctx, now);
    } else {
      FirstTopShows(cat, after, rid, vid, c, ctx, now);
    }
  }

  lemma PricedIsListable(cat: Catalog, vid: nat, terms: Terms, accepts: set<Terms>)
    requires WouldBePriced(cat, vid, terms)
    requires HasRow(cat.options, vid, terms) ==> terms in accepts
    requires forall t :: t in LiveTerms(cat.options, vid) ==> t in accepts
    ensures exists t :: t in accepts && Wanted(t, ANY)
  {
    if HasRow(cat.options, vid, terms) {
      assert Wanted(terms, ANY);
    } else {
      var k :| 0 <= k < |cat.options| && cat.options[k].version == vid && cat.options[k].retired.None?;
      assert cat.options[k].terms in LiveTerms(cat.options, vid) && Wanted(cat.options[k].terms, ANY);
    }
  }

  // A browse at the snapshot taken just before an observation reads the same after it, for every
  // filter, if and only if the observation does not disturb; when it does, the unfiltered browse differs.
  lemma CursorSurvivesIff(cat: Catalog, c: Candidate, ctx: Context, now: nat)
    requires Sound(cat) && Clear(cat)
    ensures !Disturbs(cat, c, ctx) ==>
      forall f :: Browse(Observe(cat, c, ctx, now).0, cat.watermark, f) == Browse(cat, cat.watermark, f)
    ensures Disturbs(cat, c, ctx) ==>
      Browse(Observe(cat, c, ctx, now).0, cat.watermark, ANY) != Browse(cat, cat.watermark, ANY)
  {
    var after := Observe(cat, c, ctx, now).0;
    if Disturbs(cat, c, ctx) {
      DisturbedRow(cat, c, ctx, now);
      var rid := Find(cat.resources, c.key);
      var before, since := SnapshotRow(cat, rid, cat.watermark, ANY), SnapshotRow(after, rid, cat.watermark, ANY);
      var row := if before.Some? then before.value else since.value;
      BrowseHolds(cat, cat.watermark, ANY, |cat.resources|, row);
      BrowseHolds(after, cat.watermark, ANY, |after.resources|, row);
    } else {
      forall f ensures Browse(after, cat.watermark, f) == Browse(cat, cat.watermark, f) {
        if Revives(cat, c, ctx) {
          UndisturbedRows(cat, c, ctx, now, f);
        } else {
          ObserveIsLater(cat, c, ctx, now);
          RowsAreStable(cat, after, cat.watermark, f, |after.resources|);
        }
      }
    }
  }
}
