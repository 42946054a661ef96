/**
 What the catalog keeps through any sequence of observations and status changes: every option pays
 the first owner, one active version per resource, versions numbered 1 to n, one live option per slot.
 */
module CatalogIntegrity {
  import opened Wrappers
  import opened CatalogTables

  // Versions of a resource.
  function CountOf(versions: seq<Version>, rid: nat): nat {
    if versions == [] then 0
    else CountOf(versions[..|versions| - 1], rid) + if versions[|versions| - 1].resource == rid then 1 else 0
  }

  predicate ResourcesOk(cat: Catalog) {
    && (forall i, j :: 0 <= i < j < |cat.resources| ==> cat.resources[i].key != cat.resources[j].key)
    && (forall i :: 0 <= i < |cat.resources| ==> cat.resources[i].created <= cat.watermark)
  }

  predicate VersionOk(cat: Catalog, i: nat)
    requires i < |cat.versions|
  {
    var v := cat.versions[i];
    && v.resource < |cat.resources|
    && cat.resources[v.resource].created <= v.created <= cat.watermark
    && (v.retired.Some? ==> v.retired.value <= cat.watermark)
  }

  // The k-th version of a resource has number k.
  predicate Numbered(versions: seq<Version>) {
    forall i :: 0 <= i < |versions| ==> versions[i].number == CountOf(versions[..i], versions[i].resource) + 1
  }

  predicate Declared(versions: seq<Version>) {
    forall i, j :: 0 <= i < j < |versions| && versions[i].resource == versions[j].resource ==>
      versions[i].declaration != versions[j].declaration
  }

  predicate OptionOk(cat: Catalog, k: nat)
    requires k < |cat.options|
  {
    var o := cat.options[k];
    && o.version < |cat.versions| && o.resource == cat.versions[o.version].resource < |cat.resources|
    && o.terms.payTo == cat.resources[o.resource].owner
    && o.created <= cat.watermark && (o.retired.Some? ==> o.retired.value <= cat.watermark)
  }

  predicate OnePerTerms(options: seq<OptionRow>) {
    forall k, l :: 0 <= k < l < |options| && options[k].version == options[l].version ==>
      options[k].terms != options[l].terms
  }

  predicate OneLivePerSlot(options: seq<OptionRow>) {
    forall k, l :: 0 <= k < l < |options| && options[k].version == options[l].version
      && options[k].retired.None? && options[l].retired.None?
      ==> options[k].terms.Slot() != options[l].terms.Slot()
  }

  ghost predicate Shape(cat: Catalog) {
    && ResourcesOk(cat)
    && (forall i :: 0 <= i < |cat.versions| ==> VersionOk(cat, i))
    && Numbered(cat.versions) && Declared(cat.versions)
    && (forall k :: 0 <= k < |cat.options| ==> OptionOk(cat, k))
    && OnePerTerms(cat.options) && OneLivePerSlot(cat.options)
  }

  predicate StatusOk(cat: Catalog, i: nat)
    requires i < |cat.versions| && cat.versions[i].resource < |cat.resources|
  {
    var v := cat.versions[i];
    && (v.status.Active? <==> cat.resources[v.resource].active == Some(i))
    && (v.status.Active? ==> v.retired.None?) && (v.status.Superseded? ==> v.retired.Some?)
    && (v.Published() ==> v.verified && cat.resources[v.resource].active.Some?)
  }

  predicate ActiveOk(cat: Catalog, rid: nat)
    requires rid < |cat.resources|
  {
    cat.resources[rid].active.Some? ==>
      cat.resources[rid].active.value < |cat.versions| && cat.versions[cat.resources[rid].active.value].resource == rid
  }

  predicate HasPrice(options: seq<OptionRow>, vid: nat) {
    exists k :: 0 <= k < |options| && options[k].version == vid && options[k].retired.None?
  }

  // Everything but a rival's declaration can be paid.
  predicate Priced(cat: Catalog) {
    forall i :: 0 <= i < |cat.versions| && !cat.versions[i].status.Rival? ==> HasPrice(cat.options, i)
  }

  ghost predicate Statuses(cat: Catalog)
    requires Shape(cat)
  {
    && (forall i :: 0 <= i < |cat.versions| ==> VersionOk(cat, i) && StatusOk(cat, i))
    && (forall rid :: 0 <= rid < |cat.resources| ==> ActiveOk(cat, rid))
  }

  ghost predicate Sound(cat: Catalog) { Shape(cat) && Statuses(cat) && Priced(cat) }

  lemma SoundIs(a: Catalog, b: Catalog)
    requires Sound(a) && a == b
    ensures Sound(b)
  {
  }

  /* ---- Numbers ---- */

  lemma {:induction false} MaxIsCount(versions: seq<Version>, rid: nat)
    requires Numbered(versions)
    ensures MaxNumber(versions, rid) == CountOf(versions, rid)
  {
    if versions != [] {
      var init := versions[..|versions| - 1];
      assert forall i | 0 <= i < |init| :: init[..i] == versions[..i];
      assert init == versions[..|versions| - 1];
      MaxIsCount(init, rid);
    }
  }

  lemma {:induction false} SameCounts(a: seq<Version>, b: seq<Version>, rid: nat)
    requires |a| == |b| && forall i :: 0 <= i < |a| ==> a[i].resource == b[i].resource
    ensures CountOf(a, rid) == CountOf(b, rid)
  {
    if a != [] {
      SameCounts(a[..|a| - 1], b[..|b| - 1], rid);
    }
  }

  lemma NumberedAppend(versions: seq<Version>, v: Version)
    requires Numbered(versions) && v.number == CountOf(versions, v.resource) + 1
    ensures Numbered(versions + [v])
  {
    var all := versions + [v];
    forall i | 0 <= i < |all| ensures all[i].number == CountOf(all[..i], all[i].resource) + 1 {
      assert all[..i] == versions[..i];
      assert versions[..|versions|] == versions;
    }
  }

  lemma NumberedAgain(a: seq<Version>, b: seq<Version>)
    requires Numbered(a) && |a| == |b|
    requires forall i :: 0 <= i < |a| ==> a[i].resource == b[i].resource && a[i].number == b[i].number
    ensures Numbered(b)
  {
    forall i | 0 <= i < |b| ensures b[i].number == CountOf(b[..i], b[i].resource) + 1 {
      SameCounts(a[..i], b[..i], b[i].resource);
    }
  }

  lemma {:induction false} NothingCounted(versions: seq<Version>, rid: nat)
    requires forall i :: 0 <= i < |versions| ==> versions[i].resource != rid
    ensures CountOf(versions, rid) == 0
  {
    if versions != [] { NothingCounted(versions[..|versions| - 1], rid); }
  }

  lemma {:induction false} CountRises(versions: seq<Version>, rid: nat, i: nat, j: nat)
    requires i <= j <= |versions|
    ensures CountOf(versions[..i], rid) <= CountOf(versions[..j], rid)
  {
    if i < j {
      CountRises(versions, rid, i, j - 1);
      assert versions[..j][..j - 1] == versions[..j - 1];
    }
  }

  // Numbers of one resource rise with the order of insertion, so they are distinct.
  lemma NumbersRise(versions: seq<Version>, i: nat, j: nat)
    requires Numbered(versions) && i < j < |versions| && versions[i].resource == versions[j].resource
    ensures versions[i].number < versions[j].number
  {
    assert versions[..i + 1][..i] == versions[..i];
    CountRises(versions, versions[i].resource, i + 1, j);
  }

  lemma NumberIsInRange(versions: seq<Version>, i: nat)
    requires Numbered(versions) && i < |versions|
    ensures 1 <= versions[i].number <= CountOf(versions, versions[i].resource)
  {
    assert versions[..i + 1][..i] == versions[..i] && versions[..|versions|] == versions;
    CountRises(versions, versions[i].resource, i + 1, |versions|);
  }

  // The numbers of a resource are exactly 1 to n, each used once.
  lemma NumbersAreOneToN(cat: Catalog, rid: nat, number: nat)
    requires Sound(cat)
    ensures (exists i :: 0 <= i < |cat.versions| && cat.versions[i].resource == rid && cat.versions[i].number == number)
            <==> 1 <= number <= CountOf(cat.versions, rid)
    ensures forall i, j ::
      0 <= i < j < |cat.versions| && cat.versions[i].resource == rid && cat.versions[j].resource == rid ==>
        cat.versions[i].number < cat.versions[j].number
  {
    if 1 <= number <= CountOf(cat.versions, rid) {
      assert cat.versions[..|cat.versions|] == cat.versions;
      var i := NumberIsUsed(cat.versions, rid, number, |cat.versions|);
    }
    if i :| 0 <= i < |cat.versions| && cat.versions[i].resource == rid && cat.versions[i].number == number {
      NumberIsInRange(cat.versions, i);
    }
    forall i, j | 0 <= i < j < |cat.versions| && cat.versions[i].resource == rid && cat.versions[j].resource == rid
      ensures cat.versions[i].number < cat.versions[j].number
    {
      NumbersRise(cat.versions, i, j);
    }
  }

  lemma {:induction false} NumberIsUsed(versions: seq<Version>, rid: nat, number: nat, n: nat) returns (i: nat)
    requires Numbered(versions) && n <= |versions| && 1 <= number <= CountOf(versions[..n], rid)
    ensures i < n && versions[i].resource == rid && versions[i].number == number
  {
    assert versions[..n][..n - 1] == versions[..n - 1];
    if number <= CountOf(versions[..n - 1], rid) {
      i := NumberIsUsed(versions, rid, number, n - 1);
    } else {
      i := n - 1;
    }
  }

  /* ---- What each statement keeps ---- */

  lemma DrawKeeps(cat: Catalog, more: nat)
    requires Sound(cat)
    ensures Sound(cat.(watermark := cat.watermark + more))
  {
    var d := cat.(watermark := cat.watermark + more);
    forall i | 0 <= i < |d.versions|
      ensures VersionOk(d, i) && StatusOk(d, i)
    {
      assert VersionOk(cat, i) && StatusOk(cat, i);
    }
    forall k | 0 <= k < |d.options| ensures OptionOk(d, k) { assert OptionOk(cat, k); }
    forall rid | 0 <= rid < |d.resources| ensures ActiveOk(d, rid) { assert ActiveOk(cat, rid); }
  }

  // Writing lifecycle columns only.
  predicate SameIdentity(a: seq<Resource>, b: seq<Resource>) {
    |a| == |b| && forall i :: 0 <= i < |a| ==>
      a[i].key == b[i].key && a[i].owner == b[i].owner && a[i].created == b[i].created
      && a[i].kind == b[i].kind
  }

  lemma RewriteKeepsShape(cat: Catalog, resources: seq<Resource>)
    requires Shape(cat) && SameIdentity(cat.resources, resources)
    ensures Shape(cat.(resources := resources))
  {
    var d := cat.(resources := resources);
    forall i | 0 <= i < |d.versions| ensures VersionOk(d, i) { assert VersionOk(cat, i); }
    forall k | 0 <= k < |d.options| ensures OptionOk(d, k) { assert OptionOk(cat, k); }
  }

  lemma LifecycleKeeps(cat: Catalog, resources: seq<Resource>)
    requires Sound(cat) && SameIdentity(cat.resources, resources)
    requires forall i :: 0 <= i < |resources| ==> resources[i].active == cat.resources[i].active
    ensures Sound(cat.(resources := resources))
  {
    var d := cat.(resources := resources);
    RewriteKeepsShape(cat, resources);
    forall i | 0 <= i < |d.versions|
      ensures VersionOk(d, i) && StatusOk(d, i)
    {
      assert VersionOk(cat, i) && StatusOk(cat, i);
    }
    forall rid | 0 <= rid < |d.resources| ensures ActiveOk(d, rid) { assert ActiveOk(cat, rid); }
  }

  lemma UpsertKeepsUnique(options: seq<OptionRow>, rid: nat, vid: nat, terms: Terms, at: nat)
    requires OnePerTerms(options) && OneLivePerSlot(options)
    ensures OnePerTerms(UpsertOption(options, rid, vid, terms, at))
    ensures OneLivePerSlot(UpsertOption(options, rid, vid, terms, at))
  {
  }

  lemma UpsertKeepsShape(cat: Catalog, rid: nat, vid: nat, terms: Terms)
    requires Shape(cat) && vid < |cat.versions| && cat.versions[vid].resource == rid
    requires rid < |cat.resources| && cat.resources[rid].owner == terms.payTo
    ensures Shape(Upsert(cat, rid, vid, terms))
  {
    var d := Upsert(cat, rid, vid, terms);
    UpsertKeepsUnique(cat.options, rid, vid, terms, cat.watermark);
    forall i | 0 <= i < |d.versions| ensures VersionOk(d, i) { assert VersionOk(cat, i); }
    forall k | 0 <= k < |d.options| ensures OptionOk(d, k) {
      if k < |cat.options| { assert OptionOk(cat, k); }
    }
  }

  lemma UpsertPrices(options: seq<OptionRow>, rid: nat, vid: nat, terms: Terms, at: nat)
    ensures HasPrice(UpsertOption(options, rid, vid, terms, at), vid)
    ensures forall i :: HasPrice(options, i) ==> HasPrice(UpsertOption(options, rid, vid, terms, at), i)
  {
    var after := UpsertOption(options, rid, vid, terms, at);
    if HasRow(options, vid, terms) {
      var k :| 0 <= k < |options| && options[k].version == vid && options[k].terms == terms
               && (HasLive(options, vid, terms) ==> options[k].retired.None?);
      assert after[k].version == vid && after[k].retired.None?;
    } else {
      assert after[|options|].version == vid;
    }
    forall i | HasPrice(options, i) && i != vid ensures HasPrice(after, i) {
      var k :| 0 <= k < |options| && options[k].version == i && options[k].retired.None?;
      assert after[k] == options[k];
    }
  }

  lemma InsertKeepsShape(cat: Catalog, rid: nat, number: nat, c: Candidate, status: VersionStatus)
    requires Shape(cat) && rid < |cat.resources| && number == CountOf(cat.versions, rid) + 1
    requires Same(cat.versions, rid, c.declaration) == |cat.versions|
    ensures Shape(InsertVersion(cat, rid, number, c, status))
  {
    var d := InsertVersion(cat, rid, number, c, status);
    NumberedAppend(cat.versions, d.versions[|cat.versions|]);
    forall i | 0 <= i < |d.versions| ensures VersionOk(d, i) {
      if i < |cat.versions| { assert VersionOk(cat, i); }
    }
    forall k | 0 <= k < |d.options| ensures OptionOk(d, k) { assert OptionOk(cat, k); }
  }

  lemma ActivateKeepsShape(cat: Catalog, rid: nat, vid: nat)
    requires Shape(cat) && rid < |cat.resources|
    ensures Shape(Activate(cat, rid, vid))
  {
    var d := cat.(versions := ActivateVersion(cat.versions, rid, vid, cat.watermark));
    forall i | 0 <= i < |d.versions|
      ensures VersionOk(d, i) && d.versions[i].resource == cat.versions[i].resource
      ensures d.versions[i].number == cat.versions[i].number && d.versions[i].declaration == cat.versions[i].declaration
    {
      assert VersionOk(cat, i);
    }
    NumberedAgain(cat.versions, d.versions);
    forall k | 0 <= k < |d.options| ensures OptionOk(d, k) { assert OptionOk(cat, k); }
    RewriteKeepsShape(d, SetActive(cat, rid, vid));
  }

  // Sound but for the status of one version.
  ghost predicate SoundBut(cat: Catalog, vid: nat) {
    && Shape(cat)
    && (forall i :: 0 <= i < |cat.versions| && i != vid ==> VersionOk(cat, i) && StatusOk(cat, i))
    && (forall r :: 0 <= r < |cat.resources| ==> ActiveOk(cat, r))
    && (forall i :: 0 <= i < |cat.versions| && i != vid && !cat.versions[i].status.Rival? ==> HasPrice(cat.options, i))
  }

  lemma UpsertKeepsSoundBut(cat: Catalog, rid: nat, vid: nat, terms: Terms)
    requires SoundBut(cat, vid) && vid < |cat.versions| && cat.versions[vid].resource == rid
    requires rid < |cat.resources| && cat.resources[rid].owner == terms.payTo
    ensures var p := Upsert(cat, rid, vid, terms);
      SoundBut(p, vid) && HasPrice(p.options, vid)
    ensures VersionOk(cat, vid) && StatusOk(cat, vid) ==> Sound(Upsert(cat, rid, vid, terms))
  {
    var p := Upsert(cat, rid, vid, terms);
    UpsertKeepsShape(cat, rid, vid, terms);
    UpsertPrices(cat.options, rid, vid, terms, cat.watermark);
    forall j | 0 <= j < |p.versions| && j != vid ensures VersionOk(p, j) && StatusOk(p, j) {
      assert VersionOk(cat, j) && StatusOk(cat, j);
    }
    forall r | 0 <= r < |p.resources| ensures ActiveOk(p, r) { assert ActiveOk(cat, r); }
  }

  // Activation repairs whatever was true of the activated version before.
  lemma ActivateSettles(cat: Catalog, rid: nat, vid: nat)
    requires SoundBut(cat, vid) && HasPrice(cat.options, vid)
    requires rid < |cat.resources| && vid < |cat.versions| && cat.versions[vid].resource == rid
    ensures Sound(Activate(cat, rid, vid))
  {
    var d := Activate(cat, rid, vid);
    ActivateKeepsShape(cat, rid, vid);
    forall i | 0 <= i < |d.versions| ensures VersionOk(d, i) && StatusOk(d, i) {
      assert VersionOk(cat, i);
      if i != vid { assert StatusOk(cat, i); }
    }
    forall r | 0 <= r < |d.resources| ensures ActiveOk(d, r) { assert ActiveOk(cat, r); }
  }

  /* ---- What an observation keeps ---- */

  lemma InsertKeeps(cat: Catalog, rid: nat, number: nat, c: Candidate, status: VersionStatus)
    requires Sound(cat) && rid < |cat.resources| && Same(cat.versions, rid, c.declaration) == |cat.versions|
    requires number == CountOf(cat.versions, rid) + 1
    ensures SoundBut(InsertVersion(cat, rid, number, c, status), |cat.versions|)
    ensures status.Draft? || status.Rival? ==>
      var d := InsertVersion(cat, rid, number, c, status); VersionOk(d, |cat.versions|) && StatusOk(d, |cat.versions|)
  {
    var d := InsertVersion(cat, rid, number, c, status);
    InsertKeepsShape(cat, rid, number, c, status);
    forall i | 0 <= i < |cat.versions|
      ensures VersionOk(d, i) && StatusOk(d, i)
    {
      assert VersionOk(cat, i) && StatusOk(cat, i);
    }
    forall r | 0 <= r < |d.resources| ensures ActiveOk(d, r) { assert ActiveOk(cat, r); }
    assert ActiveOk(cat, rid) && VersionOk(d, |cat.versions|);
  }

  lemma NewResourceKeeps(cat: Catalog, c: Candidate, now: nat)
    requires Sound(cat) && Find(cat.resources, c.key) == |cat.resources|
    ensures Sound(Inserted(cat, c, now)) && CountOf(cat.versions, |cat.resources|) == 0
    ensures Same(cat.versions, |cat.resources|, c.declaration) == |cat.versions|
  {
    var r := Inserted(cat, c, now);
    forall i | 0 <= i < |r.versions|
      ensures VersionOk(r, i) && StatusOk(r, i)
    {
      assert VersionOk(cat, i) && StatusOk(cat, i);
    }
    forall k | 0 <= k < |r.options| ensures OptionOk(r, k) { assert OptionOk(cat, k); }
    forall j | 0 <= j < |r.resources| ensures ActiveOk(r, j) {
      if j < |cat.resources| { assert ActiveOk(cat, j); }
    }
    forall i | 0 <= i < |cat.versions| ensures cat.versions[i].resource != |cat.resources| { assert VersionOk(cat, i); }
    NothingCounted(cat.versions, |cat.resources|);
  }

  // Pointing at a version that is already marked active, when nothing else of its resource is.
  lemma PointSettles(cat: Catalog, rid: nat, vid: nat)
    requires SoundBut(cat, vid) && HasPrice(cat.options, vid)
    requires rid < |cat.resources| && vid < |cat.versions| && cat.versions[vid].resource == rid
    requires cat.versions[vid].status.Active? && cat.versions[vid].verified && cat.versions[vid].retired.None?
    requires forall i :: 0 <= i < |cat.versions| && i != vid ==> cat.versions[i].resource != rid
    ensures Sound(cat.(resources := SetActive(cat, rid, vid)))
  {
    var d := cat.(resources := SetActive(cat, rid, vid));
    RewriteKeepsShape(cat, d.resources);
    forall i | 0 <= i < |d.versions| ensures VersionOk(d, i) && StatusOk(d, i) {
      assert VersionOk(cat, i);
      if i != vid { assert StatusOk(cat, i); }
    }
    forall r | 0 <= r < |d.resources| ensures ActiveOk(d, r) { assert ActiveOk(cat, r); }
  }

  lemma CreateKeeps(cat: Catalog, c: Candidate, ctx: Context, now: nat)
    requires Sound(cat) && Find(cat.resources, c.key) == |cat.resources|
    ensures Sound(CreateResource(cat, c, ctx, now).0)
  {
    var rid, vid := |cat.resources|, |cat.versions|;
    var status := if ctx.activate then Active else Draft;
    var r := Inserted(cat, c, now);
    NewResourceKeeps(cat, c, now);
    InsertKeeps(r, rid, 1, c, status);
    var i := InsertVersion(r, rid, 1, c, status);
    UpsertKeepsSoundBut(i, rid, vid, c.terms);
    if ctx.activate {
      forall j | 0 <= j < |i.versions| && j != vid ensures i.versions[j].resource != rid { assert VersionOk(cat, j); }
      PointSettles(Upsert(i, rid, vid, c.terms), rid, vid);
    }
  }

  lemma RivalKeeps(cat: Catalog, rid: nat, c: Candidate)
    requires Sound(cat) && rid < |cat.resources| && Same(cat.versions, rid, c.declaration) == |cat.versions|
    ensures Sound(InsertVersion(cat, rid, MaxNumber(cat.versions, rid) + 1, c, Rival))
  {
    MaxIsCount(cat.versions, rid);
    InsertKeeps(cat, rid, MaxNumber(cat.versions, rid) + 1, c, Rival);
  }

  // A new declaration with its terms, before it is activated.
  function Declare(cat: Catalog, rid: nat, c: Candidate, status: VersionStatus): Catalog {
    Upsert(InsertVersion(cat, rid, MaxNumber(cat.versions, rid) + 1, c, status), rid, |cat.versions|, c.terms)
  }

  lemma DeclareIs(cat: Catalog, rid: nat, c: Candidate, status: VersionStatus)
    ensures var i := InsertVersion(cat, rid, MaxNumber(cat.versions, rid) + 1, c, status);
      var p := Declare(cat, rid, c, status);
      && p == Upsert(i, rid, |cat.versions|, c.terms) && p.resources == cat.resources
      && |p.versions| == |cat.versions| + 1 && p.versions[|cat.versions|].resource == rid
  {
  }

  lemma PricedKeeps(i: Catalog, rid: nat, vid: nat, terms: Terms, p: Catalog)
    requires p == Upsert(i, rid, vid, terms)
    requires SoundBut(i, vid) && vid < |i.versions| && i.versions[vid].resource == rid
    requires rid < |i.resources| && i.resources[rid].owner == terms.payTo
    ensures SoundBut(p, vid) && HasPrice(p.options, vid)
  {
    UpsertKeepsSoundBut(i, rid, vid, terms);
  }

  lemma NextVersionKeeps(cat: Catalog, rid: nat, c: Candidate, status: VersionStatus)
    requires Sound(cat) && rid < |cat.resources| && Same(cat.versions, rid, c.declaration) == |cat.versions|
    ensures var i := InsertVersion(cat, rid, MaxNumber(cat.versions, rid) + 1, c, status);
      && SoundBut(i, |cat.versions|) && |i.versions| == |cat.versions| + 1
      && i.versions[|cat.versions|].resource == rid && i.resources == cat.resources
  {
    MaxIsCount(cat.versions, rid);
    InsertKeeps(cat, rid, MaxNumber(cat.versions, rid) + 1, c, status);
  }

  lemma AddKeeps(cat: Catalog, rid: nat, c: Candidate, status: VersionStatus)
    requires Sound(cat) && rid < |cat.resources| && cat.resources[rid].owner == c.terms.payTo
    requires Same(cat.versions, rid, c.declaration) == |cat.versions|
    ensures var p := Declare(cat, rid, c, status);
      SoundBut(p, |cat.versions|) && HasPrice(p.options, |cat.versions|)
  {
    var i := InsertVersion(cat, rid, MaxNumber(cat.versions, rid) + 1, c, status);
    DeclareIs(cat, rid, c, status);
    NextVersionKeeps(cat, rid, c, status);
    PricedKeeps(i, rid, |cat.versions|, c.terms, Declare(cat, rid, c, status));
  }

  lemma DraftIsOk(cat: Catalog, rid: nat, c: Candidate)
    requires Sound(cat) && rid < |cat.resources|
    ensures var p := Declare(cat, rid, c, Draft);
      |p.versions| == |cat.versions| + 1 && p.versions[|cat.versions|].resource < |p.resources|
        && StatusOk(p, |cat.versions|)
  {
    assert ActiveOk(cat, rid);
  }

  lemma AddDraftKeeps(cat: Catalog, rid: nat, c: Candidate)
    requires Sound(cat) && rid < |cat.resources| && cat.resources[rid].owner == c.terms.payTo
    requires Same(cat.versions, rid, c.declaration) == |cat.versions|
    ensures Sound(Declare(cat, rid, c, Draft))
  {
    var p := Declare(cat, rid, c, Draft);
    AddKeeps(cat, rid, c, Draft);
    DraftIsOk(cat, rid, c);
    assert VersionOk(p, |cat.versions|);
  }

  lemma ShowNewIs(cat: Catalog, rid: nat, c: Candidate, ctx: Context)
    requires rid < |cat.resources|
    ensures ShowNew(cat, rid, c, ctx).0 ==
      if ctx.activate then Activate(Declare(cat, rid, c, Active), rid, |cat.versions|) else Declare(cat, rid, c, Draft)
  {
  }

  lemma ShowNewKeeps(cat: Catalog, rid: nat, c: Candidate, ctx: Context)
    requires Sound(cat) && rid < |cat.resources| && cat.resources[rid].owner == c.terms.payTo
    requires Same(cat.versions, rid, c.declaration) == |cat.versions|
    ensures Sound(ShowNew(cat, rid, c, ctx).0)
  {
    ShowNewIs(cat, rid, c, ctx);
    if ctx.activate {
      DeclareIs(cat, rid, c, Active);
      AddKeeps(cat, rid, c, Active);
      ActivateSettles(Declare(cat, rid, c, Active), rid, |cat.versions|);
      SoundIs(Activate(Declare(cat, rid, c, Active), rid, |cat.versions|), ShowNew(cat, rid, c, ctx).0);
    } else {
      AddDraftKeeps(cat, rid, c);
      SoundIs(Declare(cat, rid, c, Draft), ShowNew(cat, rid, c, ctx).0);
    }
  }

  lemma ShowAgainKeeps(cat: Catalog, rid: nat, vid: nat, c: Candidate, ctx: Context)
    requires Sound(cat) && rid < |cat.resources| && cat.resources[rid].owner == c.terms.payTo
    requires vid < |cat.versions| && cat.versions[vid].resource == rid
    ensures Sound(ShowAgain(cat, rid, vid, c, ctx).0)
  {
    UpsertKeepsSoundBut(cat, rid, vid, c.terms);
    if !cat.versions[vid].status.Active? && ctx.activate {
      ActivateSettles(Upsert(cat, rid, vid, c.terms), rid, vid);
    }
  }

  lemma SeenKeeps(cat: Catalog, rid: nat, now: nat)
    requires Sound(cat) && rid < |cat.resources|
    ensures Sound(Seen(cat, rid, now))
  {
    LifecycleKeeps(cat, Seen(cat, rid, now).resources);
  }

  lemma OwnerUpdateKeeps(cat: Catalog, rid: nat, c: Candidate, ctx: Context)
    requires Sound(cat) && rid < |cat.resources| && cat.resources[rid].owner == c.terms.payTo
    ensures var same := Same(cat.versions, rid, c.declaration);
      Sound(if same < |cat.versions| then ShowAgain(cat, rid, same, c, ctx).0 else ShowNew(cat, rid, c, ctx).0)
  {
    var same := Same(cat.versions, rid, c.declaration);
    if same < |cat.versions| { ShowAgainKeeps(cat, rid, same, c, ctx); } else { ShowNewKeeps(cat, rid, c, ctx); }
  }

  lemma UpdateIs(cat: Catalog, rid: nat, c: Candidate, ctx: Context, now: nat)
    requires rid < |cat.resources|
    ensures var same := Same(cat.versions, rid, c.declaration); var seen := Seen(cat, rid, now);
      UpdateResource(cat, rid, c, ctx, now).0 == (
        if cat.resources[rid].owner != c.terms.payTo
        then (
          if same < |cat.versions| then cat
          else InsertVersion(cat, rid, MaxNumber(cat.versions, rid) + 1, c, Rival))
        else if same < |cat.versions| then ShowAgain(seen, rid, same, c, ctx).0
        else if ctx.rejectChanged then seen
        else ShowNew(seen, rid, c, ctx).0)
  {
  }

  lemma UpdateKeeps(cat: Catalog, rid: nat, c: Candidate, ctx: Context, now: nat)
    requires Sound(cat) && rid < |cat.resources|
    ensures Sound(UpdateResource(cat, rid, c, ctx, now).0)
  {
    var same := Same(cat.versions, rid, c.declaration);
    var after := UpdateResource(cat, rid, c, ctx, now).0;
    UpdateIs(cat, rid, c, ctx, now);
    if cat.resources[rid].owner != c.terms.payTo {
      if same == |cat.versions| {
        RivalKeeps(cat, rid, c);
        SoundIs(InsertVersion(cat, rid, MaxNumber(cat.versions, rid) + 1, c, Rival), after);
      } else {
        SoundIs(cat, after);
      }
    } else {
      SeenKeeps(cat, rid, now);
      OwnerUpdateKeeps(Seen(cat, rid, now), rid, c, ctx);
      if same < |cat.versions| {
        SoundIs(ShowAgain(Seen(cat, rid, now), rid, same, c, ctx).0, after);
      } else if ctx.rejectChanged {
        SoundIs(Seen(cat, rid, now), after);
      } else {
        SoundIs(ShowNew(Seen(cat, rid, now), rid, c, ctx).0, after);
      }
    }
  }

  lemma ObserveIs(cat: Catalog, c: Candidate, ctx: Context, now: nat)
    ensures var drawn := cat.(watermark := cat.watermark + 1);
      var rid := Find(cat.resources, c.key);
      Observe(cat, c, ctx, now).0 == (
        if rid < |cat.resources| && UpdateResource(drawn, rid, c, ctx, now).1.DuplicateDeclaration? then cat
        else if rid < |cat.resources| then UpdateResource(drawn, rid, c, ctx, now).0
        else CreateResource(drawn, c, ctx, now).0)
  {
  }

  lemma ObserveKeeps(cat: Catalog, c: Candidate, ctx: Context, now: nat)
    requires Sound(cat)
    ensures Sound(Observe(cat, c, ctx, now).0)
  {
    DrawKeeps(cat, 1);
    ObserveIs(cat, c, ctx, now);
    var drawn := cat.(watermark := cat.watermark + 1);
    var rid := Find(cat.resources, c.key);
    if rid < |cat.resources| { UpdateKeeps(drawn, rid, c, ctx, now); } else { CreateKeeps(drawn, c, ctx, now); }
  }

  lemma StatusIs(cat: Catalog, key: string, status: Lifecycle)
    ensures var d := SetResourceStatus(cat, key, status);
      && SameIdentity(cat.resources, d.resources)
      && (forall i :: 0 <= i < |cat.resources| ==> d.resources[i].active == cat.resources[i].active)
      && (d == cat || d == cat.(watermark := cat.watermark + 1).(resources := d.resources))
  {
  }

  lemma StatusKeeps(cat: Catalog, key: string, status: Lifecycle)
    requires Sound(cat)
    ensures Sound(SetResourceStatus(cat, key, status))
  {
    StatusIs(cat, key, status);
    DrawKeeps(cat, 1);
    LifecycleKeeps(cat.(watermark := cat.watermark + 1), SetResourceStatus(cat, key, status).resources);
  }

  lemma SweepKeeps(cat: Catalog, cutoff: nat)
    requires Sound(cat)
    ensures Sound(SweepStale(cat, cutoff))
  {
    DrawKeeps(cat, CountOverdue(cat.resources, cutoff));
    LifecycleKeeps(cat.(watermark := cat.watermark + CountOverdue(cat.resources, cutoff)),
        SweepStale(cat, cutoff).resources);
  }

  lemma ApplyKeeps(cat: Catalog, commit: Commit)
    requires Sound(cat)
    ensures Sound(Apply(cat, commit))
  {
    match commit
    case Observation(c, ctx, now) => ObserveKeeps(cat, c, ctx, now);
    case Status(key, status) => StatusKeeps(cat, key, status);
    case Sweep(cutoff) => SweepKeeps(cat, cutoff);
  }

  lemma RunKeeps(cat: Catalog, commits: seq<Commit>)
    requires Sound(cat)
    ensures Sound(Run(cat, commits))
    decreases |commits|
  {
    if commits != [] {
      ApplyKeeps(cat, commits[0]);
      RunKeeps(Apply(cat, commits[0]), commits[1..]);
    }
  }

  /* ---- What that means for every history ---- */

  predicate ResourcesGrow(a: seq<Resource>, b: seq<Resource>) {
    |a| <= |b| && SameIdentity(a, b[..|a|])
  }

  lemma UpdateGrows(cat: Catalog, rid: nat, c: Candidate, ctx: Context, now: nat)
    requires rid < |cat.resources|
    ensures SameIdentity(cat.resources, UpdateResource(cat, rid, c, ctx, now).0.resources)
  {
    UpdateIs(cat, rid, c, ctx, now);
  }

  lemma CreateGrows(cat: Catalog, c: Candidate, ctx: Context, now: nat)
    ensures ResourcesGrow(cat.resources, CreateResource(cat, c, ctx, now).0.resources)
  {
  }

  lemma ObserveGrows(cat: Catalog, c: Candidate, ctx: Context, now: nat)
    ensures ResourcesGrow(cat.resources, Observe(cat, c, ctx, now).0.resources)
  {
    var drawn := cat.(watermark := cat.watermark + 1);
    var rid := Find(cat.resources, c.key);
    ObserveIs(cat, c, ctx, now);
    if rid < |cat.resources| { UpdateGrows(drawn, rid, c, ctx, now); } else { CreateGrows(drawn, c, ctx, now); }
  }

  // Whatever is observed, a resource keeps its key, its kind and its owner.
  lemma OwnersNeverChange(cat: Catalog, commits: seq<Commit>)
    ensures ResourcesGrow(cat.resources, Run(cat, commits).resources)
    decreases |commits|
  {
    if commits != [] {
      var next := Apply(cat, commits[0]);
      if commits[0].Observation? {
        ObserveGrows(cat, commits[0].candidate, commits[0].context, commits[0].now);
      }
      assert ResourcesGrow(cat.resources, next.resources);
      OwnersNeverChange(next, commits[1..]);
    }
  }

  // From an empty catalog, through any observations, rival ones included: every option pays the owner
  // of its resource, who was the first to show it; a resource has at most one active version and it is
  // the one the resource points at; its versions are numbered 1 to n; and in every slot of a version at
  // most one option is live.
  lemma CatalogIsSound(commits: seq<Commit>)
    ensures var cat := Run(EMPTY, commits);
      && Sound(cat)
      && (forall k :: 0 <= k < |cat.options| ==>
            && cat.options[k].version < |cat.versions|
            && cat.versions[cat.options[k].version].resource == cat.options[k].resource < |cat.resources|
            && cat.options[k].terms.payTo == cat.resources[cat.options[k].resource].owner)
      && (forall i :: 0 <= i < |cat.versions| ==>
            && cat.versions[i].resource < |cat.resources|
            && (cat.versions[i].status.Active? <==> cat.resources[cat.versions[i].resource].active == Some(i)))
      && (forall i, j :: 0 <= i < j < |cat.versions| && cat.versions[i].resource == cat.versions[j].resource ==>
            !(cat.versions[i].status.Active? && cat.versions[j].status.Active?))
      && (forall k, l :: 0 <= k < l < |cat.options| && cat.options[k].version == cat.options[l].version
            && cat.options[k].retired.None? && cat.options[l].retired.None?
            ==> cat.options[k].terms.Slot() != cat.options[l].terms.Slot())
  {
    RunKeeps(EMPTY, commits);
    var cat := Run(EMPTY, commits);
    forall i | 0 <= i < |cat.versions|
      ensures cat.versions[i].resource < |cat.resources|
      ensures cat.versions[i].status.Active? <==> cat.resources[cat.versions[i].resource].active == Some(i)
    {
      assert VersionOk(cat, i) && StatusOk(cat, i);
    }
    forall k | 0 <= k < |cat.options|
      ensures cat.options[k].version < |cat.versions|
      ensures cat.versions[cat.options[k].version].resource == cat.options[k].resource < |cat.resources|
      ensures cat.options[k].terms.payTo == cat.resources[cat.options[k].resource].owner
    {
      assert OptionOk(cat, k);
    }
  }
}
