/**
 What happens when something retired comes back: exactly when a cursor that was just issued is
 disturbed, exactly when the active version ends up shadowed, and a history in which the listing
 loses a resource that its owner has just shown again.
 */
module CatalogRevival {
  import opened Wrappers
  import opened CatalogTables
  import opened CatalogIntegrity
  import opened CatalogSnapshots

  /* ---- Shadowing ---- */

  // An inactive version that is older than the active one of its resource.
  predicate Behind(cat: Catalog, rid: nat, vid: nat) {
    && rid < |cat.resources| && vid < |cat.versions| && !cat.versions[vid].status.Active?
    && cat.resources[rid].active.Some? && cat.resources[rid].active.value < |cat.versions|
    && cat.versions[vid].number < cat.versions[cat.resources[rid].active.value].number
  }

  // The owner goes back to a declaration older than the active one.
  predicate GoesBack(cat: Catalog, c: Candidate, ctx: Context) {
    var rid := Find(cat.resources, c.key);
    && rid < |cat.resources| && cat.resources[rid].owner == c.terms.payTo && ctx.activate
    && Behind(cat, rid, Same(cat.versions, rid, c.declaration))
  }

  // Published versions and active pointers of other resources are as they were.
  ghost predicate OthersStand(a: Catalog, b: Catalog, rid: nat) {
    && |a.resources| <= |b.resources| && |a.versions| <= |b.versions|
    && (forall r :: 0 <= r < |a.resources| && r != rid ==> b.resources[r].active == a.resources[r].active)
    && (forall r :: |a.resources| <= r < |b.resources| && r != rid ==> b.resources[r].active.None?)
    && (forall i :: 0 <= i < |a.versions| && a.versions[i].resource != rid ==> b.versions[i] == a.versions[i])
    && (forall i :: 0 <= i < |a.versions| && a.versions[i].resource == rid ==>
          b.versions[i].resource == rid && b.versions[i].number == a.versions[i].number)
    && (forall i :: |a.versions| <= i < |b.versions| ==> b.versions[i].resource == rid)
  }

  lemma OthersStayClear(a: Catalog, b: Catalog, rid: nat)
    requires Sound(a) && Clear(a) && OthersStand(a, b, rid)
    requires rid < |b.resources| ==> !Outnumbered(b, rid)
    ensures Clear(b)
  {
    forall r | 0 <= r < |b.resources| && r != rid ensures !Outnumbered(b, r) {
      if r < |a.resources| {
        assert !Outnumbered(a, r) && ActiveOk(a, r);
        forall i | 0 <= i < |b.versions| && b.versions[i].resource == r ensures b.versions[i] == a.versions[i] {}
      }
    }
  }

  // After activating `vid`, its resource is clear exactly when nothing published outnumbers `vid`.
  lemma ActivatedIsClearIff(cat: Catalog, rid: nat, vid: nat)
    requires rid < |cat.resources| && vid < |cat.versions| && cat.versions[vid].resource == rid
    ensures Outnumbered(Activate(cat, rid, vid), rid) <==>
      exists i :: 0 <= i < |cat.versions| && cat.versions[i].resource == rid && cat.versions[i].Published()
                  && cat.versions[i].number > cat.versions[vid].number
  {
    var d := Activate(cat, rid, vid);
    forall i | 0 <= i < |cat.versions|
      ensures d.versions[i].resource == cat.versions[i].resource && d.versions[i].number == cat.versions[i].number
      ensures i != vid ==> (d.versions[i].Published() <==> cat.versions[i].Published())
    {
    }
    if exists i :: 0 <= i < |cat.versions| && cat.versions[i].resource == rid && cat.versions[i].Published()
                   && cat.versions[i].number > cat.versions[vid].number {
      var i :| 0 <= i < |cat.versions| && cat.versions[i].resource == rid && cat.versions[i].Published()
               && cat.versions[i].number > cat.versions[vid].number;
      assert d.versions[i].Published();
    }
  }

  lemma NewNumberIsHighest(cat: Catalog, rid: nat, c: Candidate, ctx: Context)
    requires Sound(cat) && Clear(cat) && rid < |cat.resources|
    ensures Clear(ShowNew(cat, rid, c, ctx).0)
  {
    var vid := |cat.versions|;
    var status := if ctx.activate then Active else Draft;
    var p := Upsert(InsertVersion(cat, rid, MaxNumber(cat.versions, rid) + 1, c, status), rid, vid, c.terms);
    var d := ShowNew(cat, rid, c, ctx).0;
    if ctx.activate {
      ActivatedIsClearIff(p, rid, vid);
    } else {
      assert !Outnumbered(cat, rid) && ActiveOk(cat, rid);
      if cat.resources[rid].active.Some? {
        var av := cat.resources[rid].active.value;
        forall i | 0 <= i < |d.versions| && d.versions[i].resource == rid && d.versions[i].Published()
          ensures d.versions[i].number <= d.versions[av].number
        {
          assert i < |cat.versions| && cat.versions[i] == d.versions[i];
        }
      }
    }
    OthersStayClear(cat, d, rid);
  }

  lemma BackIsOutnumberedIff(cat: Catalog, rid: nat, vid: nat, c: Candidate, ctx: Context)
    requires Sound(cat) && Clear(cat) && rid < |cat.resources|
    requires vid < |cat.versions| && cat.versions[vid].resource == rid
    ensures Clear(ShowAgain(cat, rid, vid, c, ctx).0) <==> !(ctx.activate && Behind(cat, rid, vid))
  {
    assert !Outnumbered(cat, rid) && ActiveOk(cat, rid);
    var p := Upsert(cat, rid, vid, c.terms);
    if ctx.activate && !cat.versions[vid].status.Active? {
      var d := Activate(p, rid, vid);
      ActivatedIsClearIff(p, rid, vid);
      assert VersionOk(cat, vid) && StatusOk(cat, vid);
      if cat.resources[rid].active.Some? {
        var av := cat.resources[rid].active.value;
        assert VersionOk(cat, av) && StatusOk(cat, av);
        if vid < av { NumbersRise(cat.versions, vid, av); } else { NumbersRise(cat.versions, av, vid); }
      } else {
        NothingPublishedHere(cat, rid);
      }
      if !Outnumbered(d, rid) { OthersStayClear(cat, d, rid); }
    } else {
      ClearReads(cat, p);
    }
  }

  lemma NothingPublishedHere(cat: Catalog, rid: nat)
    requires Sound(cat) && rid < |cat.resources| && cat.resources[rid].active.None?
    ensures forall i :: 0 <= i < |cat.versions| && cat.versions[i].resource == rid ==> !cat.versions[i].Published()
  {
    forall i | 0 <= i < |cat.versions| && cat.versions[i].resource == rid ensures !cat.versions[i].Published() {
      assert VersionOk(cat, i) && StatusOk(cat, i);
    }
  }

  // Clear looks at versions and active pointers only.
  lemma ClearReads(a: Catalog, b: Catalog)
    requires a.versions == b.versions && |a.resources| == |b.resources|
    requires forall r :: 0 <= r < |a.resources| ==> b.resources[r].active == a.resources[r].active
    ensures Clear(a) <==> Clear(b)
  {
    forall r | 0 <= r < |a.resources| ensures Outnumbered(a, r) <==> Outnumbered(b, r) {}
  }

  lemma CreateIsClear(cat: Catalog, c: Candidate, ctx: Context, now: nat)
    requires Sound(cat) && Clear(cat) && Find(cat.resources, c.key) == |cat.resources|
    ensures Clear(CreateResource(cat, c, ctx, now).0)
  {
    var rid := |cat.resources|;
    var d := CreateResource(cat, c, ctx, now).0;
    forall i | 0 <= i < |cat.versions| ensures cat.versions[i].resource != rid { assert VersionOk(cat, i); }
    OthersStayClear(cat, d, rid);
  }

  lemma RivalIsClear(cat: Catalog, rid: nat, number: nat, c: Candidate)
    requires Sound(cat) && Clear(cat) && rid < |cat.resources|
    ensures Clear(InsertVersion(cat, rid, number, c, Rival))
  {
    var d := InsertVersion(cat, rid, number, c, Rival);
    assert !Outnumbered(cat, rid) && ActiveOk(cat, rid);
    forall i | 0 <= i < |d.versions| && d.versions[i].Published()
      ensures i < |cat.versions| && d.versions[i] == cat.versions[i]
    {
    }
    OthersStayClear(cat, d, rid);
  }

  lemma OwnerUpdateIsClearIff(cat: Catalog, rid: nat, c: Candidate, ctx: Context)
    requires Sound(cat) && Clear(cat) && rid < |cat.resources|
    ensures var same := Same(cat.versions, rid, c.declaration);
      Clear(if same < |cat.versions| then ShowAgain(cat, rid, same, c, ctx).0 else ShowNew(cat, rid, c, ctx).0)
      <==> !(ctx.activate && Behind(cat, rid, same))
  {
    var same := Same(cat.versions, rid, c.declaration);
    if same < |cat.versions| {
      BackIsOutnumberedIff(cat, rid, same, c, ctx);
    } else {
      NewNumberIsHighest(cat, rid, c, ctx);
    }
  }

  lemma SeenIsClear(cat: Catalog, rid: nat, now: nat)
    requires Sound(cat) && Clear(cat) && rid < |cat.resources|
    ensures var d := Seen(cat, rid, now);
      Sound(d) && Clear(d) && d.versions == cat.versions && forall vid :: Behind(d, rid, vid) <==> Behind(cat, rid, vid)
  {
    SeenKeeps(cat, rid, now);
    ClearReads(cat, Seen(cat, rid, now));
  }

  lemma UpdateIsClearIff(cat: Catalog, rid: nat, c: Candidate, ctx: Context, now: nat)
    requires Sound(cat) && Clear(cat) && rid == Find(cat.resources, c.key) < |cat.resources|
    ensures Clear(UpdateResource(cat, rid, c, ctx, now).0) <==> !GoesBack(cat, c, ctx)
  {
    UpdateIs(cat, rid, c, ctx, now);
    if cat.resources[rid].owner == c.terms.payTo {
      SeenIsClear(cat, rid, now);
      OwnerUpdateIsClearIff(Seen(cat, rid, now), rid, c, ctx);
    } else {
      RivalIsClear(cat, rid, MaxNumber(cat.versions, rid) + 1, c);
    }
  }

  // From a state in which the active versions are on top, an observation shadows one if and only if
  // the owner goes back to an older declaration.
  lemma ObserveIsClearIff(cat: Catalog, c: Candidate, ctx: Context, now: nat)
    requires Sound(cat) && Clear(cat)
    ensures Clear(Observe(cat, c, ctx, now).0) <==> !GoesBack(cat, c, ctx)
  {
    ObserveIs(cat, c, ctx, now);
    var drawn := cat.(watermark := cat.watermark + 1);
    var rid := Find(cat.resources, c.key);
    DrawKeeps(cat, 1);
    ClearReads(cat, drawn);
    if rid < |cat.resources| {
      UpdateIsClearIff(drawn, rid, c, ctx, now);
      assert GoesBack(drawn, c, ctx) <==> GoesBack(cat, c, ctx);
    } else {
      CreateIsClear(drawn, c, ctx, now);
    }
  }

  predicate StraightRun(cat: Catalog, commits: seq<Commit>)
    decreases |commits|
  {
    commits == []
    || ((commits[0].Observation? ==> !GoesBack(cat, commits[0].candidate, commits[0].context))
        && StraightRun(Apply(cat, commits[0]), commits[1..]))
  }

  lemma RunIsClear(cat: Catalog, commits: seq<Commit>)
    requires Sound(cat) && Clear(cat) && StraightRun(cat, commits)
    ensures Clear(Run(cat, commits))
    decreases |commits|
  {
    if commits != [] {
      ApplyKeeps(cat, commits[0]);
      if commits[0].Observation? {
        ObserveIsClearIff(cat, commits[0].candidate, commits[0].context, commits[0].now);
      } else {
        ClearReads(cat, Apply(cat, commits[0]));
      }
      RunIsClear(Apply(cat, commits[0]), commits[1..]);
    }
  }

  // As long as no owner goes back, every browse at the watermark is the listing: the active version of
  // each resource with its live options, whatever drafts, rivals and status changes come between.
  lemma BrowseIsListing(commits: seq<Commit>, f: Filters)
    requires StraightRun(EMPTY, commits)
    ensures var cat := Run(EMPTY, commits); Browse(cat, cat.watermark, f) == Listing(cat, f)
  {
    RunKeeps(EMPTY, commits);
    RunIsClear(EMPTY, commits);
    BrowseIsListingIff(Run(EMPTY, commits));
  }

  // Reads stay what they were: a browse as of S, made after any commits that revive nothing, is the
  // listing as it stood at commit S.
  lemma SnapshotIsThePast(before: seq<Commit>, after: seq<Commit>, f: Filters)
    requires StraightRun(EMPTY, before) && FreshRun(Run(EMPTY, before), after)
    ensures var a := Run(EMPTY, before); Browse(Run(a, after), a.watermark, f) == Listing(a, f)
  {
    SnapshotsAreStable(before, after, Run(EMPTY, before).watermark, f);
    BrowseIsListing(before, f);
  }

  /* ---- Rivals ---- */

  // A second seller never changes the listing.
  lemma RivalChangesNothing(cat: Catalog, c: Candidate, ctx: Context, now: nat, f: Filters)
    requires Sound(cat)
    requires var rid := Find(cat.resources, c.key); rid < |cat.resources| && cat.resources[rid].owner != c.terms.payTo
    ensures Listing(Observe(cat, c, ctx, now).0, f) == Listing(cat, f)
    ensures Observe(cat, c, ctx, now).0.options == cat.options
  {
    RivalLeavesRows(cat, Observe(cat, c, ctx, now).0, f, |cat.resources|);
  }

  lemma {:induction false} RivalLeavesRows(a: Catalog, b: Catalog, f: Filters, n: nat)
    requires Sound(a) && b.resources == a.resources && b.options == a.options && a.versions <= b.versions
    requires n <= |a.resources|
    ensures CurrentRows(b, f, n) == CurrentRows(a, f, n)
  {
    if n > 0 {
      RivalLeavesRows(a, b, f, n - 1);
      assert ActiveOk(a, n - 1);
    }
  }

  /* ---- A history that loses a resource ---- */

  function Show(declaration: string): Commit {
    Observation(Candidate("http|shop|/price|GET", Http, declaration, {},
        Terms("exact", "stellar:testnet", "USDC", 100, "SELLER", 60, "{}")),
                Context(true, false), 0)
  }

  // First one declaration, then another, then the first again: the resource is listed and priced, and
  // browsing does not find it.
  lemma GoingBackHidesTheResource()
    ensures var cat := Run(EMPTY, [Show("first"), Show("second"), Show("first")]);
      Listing(cat, ANY) != [] && Browse(cat, cat.watermark, ANY) == []
  {
    var one := Apply(EMPTY, Show("first"));
    var two := Apply(one, Show("second"));
    assert Run(EMPTY, [Show("first"), Show("second")]) == two by {
      assert [Show("first"), Show("second")][1..] == [Show("second")];
      assert Run(one, [Show("second")]) == Run(two, []);
    }
    RunKeeps(EMPTY, [Show("first"), Show("second")]);
    var three := Apply(two, Show("first"));
    ApplyKeeps(two, Show("first"));
    assert Run(EMPTY, [Show("first"), Show("second"), Show("first")]) == three by {
      assert [Show("first"), Show("second"), Show("first")][1..] == [Show("second"), Show("first")];
      assert [Show("second"), Show("first")][1..] == [Show("first")];
      assert Run(two, [Show("first")]) == Run(three, []);
    }
    FirstState(one);
    SecondState(one, two);
    ThirdState(two, three);
    ShadowIsHidden(three, 0);
    ActiveIsListed(three, 0);
    ListingHolds(three, ANY, 1, CurrentRow(three, 0, ANY).value);
    assert SnapshotRows(three, three.watermark, ANY, 1) == SnapshotRows(three, three.watermark, ANY, 0);
  }

  lemma FirstState(one: Catalog)
    requires one == Apply(EMPTY, Show("first"))
    ensures |one.resources| == 1 && one.resources[0].key == "http|shop|/price|GET" && one.resources[0].owner == "SELLER"
    ensures one.resources[0].active == Some(0)
    ensures |one.versions| == 1 && one.versions[0].declaration == "first" && one.versions[0].resource == 0
    ensures one.versions[0].status.Active? && one.versions[0].number == 1
  {
  }

  lemma SecondState(one: Catalog, two: Catalog)
    requires one == Apply(EMPTY, Show("first")) && two == Apply(one, Show("second"))
    ensures |two.resources| == 1 && two.resources[0].key == "http|shop|/price|GET" && two.resources[0].owner == "SELLER"
    ensures two.resources[0].active == Some(1)
    ensures |two.versions| == 2 && two.versions[0].declaration == "first"
    ensures two.versions[0].resource == 0 && two.versions[1].resource == 0
    ensures two.versions[0].status.Superseded? && two.versions[0].number == 1
    ensures two.versions[1].status.Active? && two.versions[1].number == 2
  {
    FirstState(one);
    assert Find(one.resources, "http|shop|/price|GET") == 0;
    assert Same(one.versions, 0, "second") == 1;
    assert MaxNumber(one.versions, 0) == 1;
  }

  lemma ThirdState(two: Catalog, three: Catalog)
    requires |two.resources| == 1 && two.resources[0].key == "http|shop|/price|GET"
      && two.resources[0].owner == "SELLER"
    requires |two.versions| == 2 && two.versions[0].declaration == "first"
    requires two.versions[0].resource == 0 && two.versions[1].resource == 0
    requires two.versions[0].status.Superseded? && two.versions[0].number == 1
    requires two.versions[1].status.Active? && two.versions[1].number == 2
    requires three == Apply(two, Show("first"))
    ensures |three.resources| == 1 && three.resources[0].active == Some(0) && Outnumbered(three, 0)
  {
    assert Find(two.resources, "http|shop|/price|GET") == 0;
    assert Same(two.versions, 0, "first") == 0;
    assert |three.versions| == 2 && three.versions[1].status.Superseded? && three.versions[1].number == 2;
    assert three.versions[1].Published() && three.versions[0].number == 1;
  }
}
