/**
 The versioned catalog as values: resources, their declared versions, their payment options and the
 watermark, what one committed transaction does to them, and what a discovery request reads as of a
 snapshot. Row ids are positions in the tables.
 */
module CatalogTables {
  import opened Wrappers

  datatype Kind = Http | Mcp

  // The option hash covers every field of the terms, so it is modelled as the terms themselves.
  datatype Terms = Terms(
    scheme: string, network: string, asset: string, amount: nat, payTo: string, timeout: nat, extra: string)
  {
    function Slot(): (string, string, string, string) { (scheme, network, asset, payTo) }
  }

  // The declaration hash covers the declaration, so it is modelled as the declaration.
  datatype Candidate = Candidate(
    key: string, kind: Kind, declaration: string, extensions: set<string>, terms: Terms)

  datatype Context = Context(activate: bool, rejectChanged: bool)

  datatype Lifecycle = Listed | Stale | Quarantined | Disabled | Tombstoned
  datatype Resource = Resource(
    key: string, kind: Kind, owner: string, status: Lifecycle, active: Option<nat>, lastSeen: nat, created: nat)

  datatype VersionStatus = Draft | Active | Superseded | Rival
  datatype Version = Version(
    resource: nat, number: nat, declaration: string, extensions: set<string>, status: VersionStatus,
    verified: bool, declaredPayTo: string, created: nat, retired: Option<nat>)
  {
    predicate Published() { status.Active? || status.Superseded? }
  }

  datatype OptionRow = OptionRow(version: nat, resource: nat, terms: Terms, created: nat, retired: Option<nat>)

  datatype Catalog = Catalog(
    watermark: nat, resources: seq<Resource>, versions: seq<Version>, options: seq<OptionRow>)

  const EMPTY := Catalog(0, [], [], [])

  // `DuplicateDeclaration` is the thrown unique violation on (resource_id, declaration_hash).
  datatype Outcome =
    | Indexed | Refreshed | Versioned | Pending | ChangeRejected | RivalQuarantined | DuplicateDeclaration

  datatype Commit =
    | Observation(candidate: Candidate, context: Context, now: nat)
    | Status(key: string, status: Lifecycle)
    | Sweep(cutoff: nat)

  /* ---- Lookups ---- */

  function Find(resources: seq<Resource>, key: string): (i: nat)
    ensures i <= |resources| && (i < |resources| ==> resources[i].key == key)
    ensures forall j :: 0 <= j < i ==> resources[j].key != key
  {
    if resources == [] then 0 else if resources[0].key == key then 0 else 1 + Find(resources[1..], key)
  }

  function Same(versions: seq<Version>, rid: nat, declaration: string): (i: nat)
    ensures i <= |versions|
    ensures i < |versions| ==> versions[i].resource == rid && versions[i].declaration == declaration
    ensures forall j :: 0 <= j < i ==> !(versions[j].resource == rid && versions[j].declaration == declaration)
  {
    if versions == [] then 0
    else if versions[0].resource == rid && versions[0].declaration == declaration then 0
    else 1 + Same(versions[1..], rid, declaration)
  }

  // COALESCE(max(version), 0).
  function MaxNumber(versions: seq<Version>, rid: nat): (m: nat)
    ensures forall i :: 0 <= i < |versions| && versions[i].resource == rid ==> versions[i].number <= m
    ensures m > 0 ==> exists i :: 0 <= i < |versions| && versions[i].resource == rid && versions[i].number == m
  {
    if versions == [] then 0
    else
      var rest := MaxNumber(versions[..|versions| - 1], rid);
      var last := versions[|versions| - 1];
      if last.resource == rid && last.number > rest then last.number else rest
  }

  predicate HasRow(options: seq<OptionRow>, vid: nat, terms: Terms) {
    exists i :: 0 <= i < |options| && options[i].version == vid && options[i].terms == terms
  }

  predicate HasLive(options: seq<OptionRow>, vid: nat, terms: Terms) {
    exists i :: 0 <= i < |options| && options[i].version == vid && options[i].terms == terms && options[i].retired.None?
  }

  /* ---- What a transaction writes ---- */

  function NewVersion(rid: nat, number: nat, c: Candidate, status: VersionStatus, at: nat): Version {
    Version(rid, number, c.declaration, c.extensions, status, status.Active?, c.terms.payTo, at, None)
  }

  function ActivatedVersion(v: Version, i: nat, rid: nat, vid: nat, at: nat): Version {
    if i == vid then v.(status := Active, verified := true, retired := None)
    else if v.resource == rid && v.status.Active? then v.(status := Superseded, retired := Some(at))
    else v
  }

  // The active version is superseded and retired, then the given one becomes active.
  function ActivateVersion(versions: seq<Version>, rid: nat, vid: nat, at: nat): (r: seq<Version>)
    ensures |r| == |versions|
  {
    seq(|versions|, i requires 0 <= i < |versions| => ActivatedVersion(versions[i], i, rid, vid, at))
  }

  function UpsertedRow(o: OptionRow, vid: nat, terms: Terms, at: nat): OptionRow {
    if o.version == vid && o.terms == terms then o.(retired := None)
    else if o.version == vid && o.terms.Slot() == terms.Slot() && o.retired.None? then o.(retired := Some(at))
    else o
  }

  // A live row of the same terms stays; otherwise the live row of the same slot is retired and the
  // terms are appended, or, on conflict with a retired row of the same terms, that row is revived.
  function UpsertOption(options: seq<OptionRow>, rid: nat, vid: nat, terms: Terms, at: nat): (r: seq<OptionRow>)
    ensures |options| <= |r| <= |options| + 1
  {
    if HasLive(options, vid, terms) then options
    else
      var kept := seq(|options|, i requires 0 <= i < |options| => UpsertedRow(options[i], vid, terms, at));
      if HasRow(options, vid, terms) then kept else kept + [OptionRow(vid, rid, terms, at, None)]
  }

  function SetActive(cat: Catalog, rid: nat, vid: nat): seq<Resource>
    requires rid < |cat.resources|
  {
    cat.resources[rid := cat.resources[rid].(active := Some(vid))]
  }

  function Activate(cat: Catalog, rid: nat, vid: nat): Catalog
    requires rid < |cat.resources|
  {
    cat.(versions := ActivateVersion(cat.versions, rid, vid, cat.watermark), resources := SetActive(cat, rid, vid))
  }

  function Upsert(cat: Catalog, rid: nat, vid: nat, terms: Terms): Catalog {
    cat.(options := UpsertOption(cat.options, rid, vid, terms, cat.watermark))
  }

  function InsertVersion(cat: Catalog, rid: nat, number: nat, c: Candidate, status: VersionStatus): Catalog {
    cat.(versions := cat.versions + [NewVersion(rid, number, c, status, cat.watermark)])
  }

  function Inserted(cat: Catalog, c: Candidate, now: nat): Catalog {
    cat.(resources := cat.resources + [Resource(c.key, c.kind, c.terms.payTo, Listed, None, now, cat.watermark)])
  }

  // `cat` is the state after the watermark was drawn.
  function CreateResource(cat: Catalog, c: Candidate, ctx: Context, now: nat): (Catalog, Outcome) {
    var rid, vid := |cat.resources|, |cat.versions|;
    var inserted := InsertVersion(Inserted(cat, c, now), rid, 1, c, if ctx.activate then Active else Draft);
    var priced := Upsert(inserted, rid, vid, c.terms);
    if ctx.activate then (priced.(resources := SetActive(priced, rid, vid)), Indexed) else (priced, Pending)
  }

  function Seen(cat: Catalog, rid: nat, now: nat): Catalog
    requires rid < |cat.resources|
  {
    var r := cat.resources[rid];
    cat.(resources := cat.resources[rid := r.(lastSeen := now, status := if r.status.Stale? then Listed else r.status)])
  }

  // The owner shows a declaration that the resource already has.
  function ShowAgain(cat: Catalog, rid: nat, vid: nat, c: Candidate, ctx: Context): (Catalog, Outcome)
    requires rid < |cat.resources| && vid < |cat.versions|
  {
    var priced := Upsert(cat, rid, vid, c.terms);
    if cat.versions[vid].status.Active? then (priced, Refreshed)
    else if ctx.activate then (Activate(priced, rid, vid), Versioned)
    else (priced, Pending)
  }

  // The owner shows a new declaration.
  function ShowNew(cat: Catalog, rid: nat, c: Candidate, ctx: Context): (Catalog, Outcome)
    requires rid < |cat.resources|
  {
    var vid := |cat.versions|;
    var inserted :=
      InsertVersion(cat, rid, MaxNumber(cat.versions, rid) + 1, c, if ctx.activate then Active else Draft);
    var priced := Upsert(inserted, rid, vid, c.terms);
    if ctx.activate then (Activate(priced, rid, vid), Versioned) else (priced, Pending)
  }

  function UpdateResource(cat: Catalog, rid: nat, c: Candidate, ctx: Context, now: nat): (Catalog, Outcome)
    requires rid < |cat.resources|
  {
    var same := Same(cat.versions, rid, c.declaration);
    if cat.resources[rid].owner != c.terms.payTo then
      if same < |cat.versions| then (cat, DuplicateDeclaration)
      else (InsertVersion(cat, rid, MaxNumber(cat.versions, rid) + 1, c, Rival), RivalQuarantined)
    else if same < |cat.versions| then ShowAgain(Seen(cat, rid, now), rid, same, c, ctx)
    else if ctx.rejectChanged then (Seen(cat, rid, now), ChangeRejected)
    else ShowNew(Seen(cat, rid, now), rid, c, ctx)
  }

  // One transaction: the watermark is drawn first and given back when it rolls back.
  function Observe(cat: Catalog, c: Candidate, ctx: Context, now: nat): (Catalog, Outcome) {
    var drawn := cat.(watermark := cat.watermark + 1);
    var rid := Find(cat.resources, c.key);
    var result := if rid < |cat.resources| then UpdateResource(drawn, rid, c, ctx, now)
                  else CreateResource(drawn, c, ctx, now);
    if result.1.DuplicateDeclaration? then (cat, DuplicateDeclaration) else result
  }

  function SetResourceStatus(cat: Catalog, key: string, status: Lifecycle): Catalog {
    var rid := Find(cat.resources, key);
    if rid < |cat.resources|
    then cat.(watermark := cat.watermark + 1, resources := cat.resources[rid := cat.resources[rid].(status := status)])
    else cat
  }

  predicate Overdue(r: Resource, cutoff: nat) { r.status.Listed? && r.lastSeen < cutoff }

  function CountOverdue(resources: seq<Resource>, cutoff: nat): nat {
    if resources == [] then 0
    else
      CountOverdue(resources[..|resources| - 1], cutoff)
      + if Overdue(resources[|resources| - 1], cutoff) then 1 else 0
  }

  // The version function is called once per demoted row.
  function SweepStale(cat: Catalog, cutoff: nat): Catalog {
    cat.(watermark := cat.watermark + CountOverdue(cat.resources, cutoff),
         resources := seq(|cat.resources|, i requires 0 <= i < |cat.resources| =>
           if Overdue(cat.resources[i], cutoff) then cat.resources[i].(status := Stale) else cat.resources[i]))
  }

  function Apply(cat: Catalog, commit: Commit): Catalog {
    match commit
    case Observation(c, ctx, now) => Observe(cat, c, ctx, now).0
    case Status(key, status) => SetResourceStatus(cat, key, status)
    case Sweep(cutoff) => SweepStale(cat, cutoff)
  }

  function Run(cat: Catalog, commits: seq<Commit>): Catalog
    decreases |commits|
  {
    if commits == [] then cat else Run(Apply(cat, commits[0]), commits[1..])
  }

  /* ---- What a discovery request reads ---- */

  datatype Filters = Filters(
    kind: Option<Kind>, extension: Option<string>, network: Option<string>, scheme: Option<string>,
    payTo: Option<string>, asset: Option<string>, maxPrice: Option<nat>)

  const ANY := Filters(None, None, None, None, None, None, None)

  datatype DiscoveryRow = DiscoveryRow(
    resource: nat, version: nat, key: string, kind: Kind, declaration: string, extensions: set<string>,
    accepts: set<Terms>)

  predicate VisibleAt(created: nat, retired: Option<nat>, snapshot: nat) {
    created <= snapshot && (retired.None? || retired.value > snapshot)
  }

  predicate Is(filter: Option<string>, value: string) { filter.None? || filter.value == value }

  predicate Wanted(t: Terms, f: Filters) {
    && Is(f.network, t.network) && Is(f.scheme, t.scheme) && Is(f.payTo, t.payTo) && Is(f.asset, t.asset)
    && (f.maxPrice.Some? ==> t.amount <= f.maxPrice.value)
  }

  predicate Eligible(v: Version, rid: nat, snapshot: nat) {
    v.resource == rid && v.created <= snapshot && v.Published()
  }

  // The published version with the highest number among the first n that the snapshot knows.
  function TopOf(versions: seq<Version>, rid: nat, snapshot: nat, n: nat): (top: Option<nat>)
    requires n <= |versions|
    ensures top.Some? ==> top.value < n && Eligible(versions[top.value], rid, snapshot)
    ensures top.Some? ==> forall i :: 0 <= i < n && Eligible(versions[i], rid, snapshot) ==>
      versions[i].number <= versions[top.value].number
    ensures top.None? ==> forall i :: 0 <= i < n ==> !Eligible(versions[i], rid, snapshot)
  {
    if n == 0 then None
    else
      var rest := TopOf(versions, rid, snapshot, n - 1);
      if Eligible(versions[n - 1], rid, snapshot)
        && (rest.None? || versions[n - 1].number > versions[rest.value].number)
      then Some(n - 1) else rest
  }

  function Accepts(options: seq<OptionRow>, vid: nat, snapshot: nat): set<Terms> {
    set i | 0 <= i < |options| && options[i].version == vid
      && VisibleAt(options[i].created, options[i].retired, snapshot)
      :: options[i].terms
  }

  predicate Listable(r: Resource, v: Version, accepts: set<Terms>, f: Filters) {
    && (f.kind.Some? ==> r.kind == f.kind.value)
    && (f.extension.Some? ==> f.extension.value in v.extensions)
    && exists t :: t in accepts && Wanted(t, f)
  }

  function RowOf(cat: Catalog, rid: nat, vid: nat, accepts: set<Terms>): DiscoveryRow
    requires rid < |cat.resources| && vid < |cat.versions|
  {
    var r, v := cat.resources[rid], cat.versions[vid];
    DiscoveryRow(rid, vid, r.key, r.kind, v.declaration, v.extensions, accepts)
  }

  function SnapshotRow(cat: Catalog, rid: nat, snapshot: nat, f: Filters): Option<DiscoveryRow>
    requires rid < |cat.resources|
  {
    if cat.resources[rid].created > snapshot then None
    else
      match TopOf(cat.versions, rid, snapshot, |cat.versions|)
      case None => None
      case Some(vid) =>
        var accepts := Accepts(cat.options, vid, snapshot);
        if VisibleAt(cat.versions[vid].created, cat.versions[vid].retired, snapshot)
           && Listable(cat.resources[rid], cat.versions[vid], accepts, f)
        then Some(RowOf(cat, rid, vid, accepts)) else None
  }

  // Rows of the first n resources, the newest resource first.
  function SnapshotRows(cat: Catalog, snapshot: nat, f: Filters, n: nat): seq<DiscoveryRow>
    requires n <= |cat.resources|
  {
    if n == 0 then []
    else
      var rest := SnapshotRows(cat, snapshot, f, n - 1);
      match SnapshotRow(cat, n - 1, snapshot, f)
      case None => rest
      case Some(row) => [row] + rest
  }

  function Browse(cat: Catalog, snapshot: nat, f: Filters): seq<DiscoveryRow> {
    SnapshotRows(cat, snapshot, f, |cat.resources|)
  }

  /* ---- The catalog right now ---- */

  function LiveTerms(options: seq<OptionRow>, vid: nat): set<Terms> {
    set i | 0 <= i < |options| && options[i].version == vid && options[i].retired.None? :: options[i].terms
  }

  function CurrentRow(cat: Catalog, rid: nat, f: Filters): Option<DiscoveryRow>
    requires rid < |cat.resources|
  {
    match cat.resources[rid].active
    case None => None
    case Some(vid) =>
      if vid < |cat.versions| && Listable(cat.resources[rid], cat.versions[vid], LiveTerms(cat.options, vid), f)
      then Some(RowOf(cat, rid, vid, LiveTerms(cat.options, vid))) else None
  }

  function CurrentRows(cat: Catalog, f: Filters, n: nat): seq<DiscoveryRow>
    requires n <= |cat.resources|
  {
    if n == 0 then []
    else
      var rest := CurrentRows(cat, f, n - 1);
      match CurrentRow(cat, n - 1, f)
      case None => rest
      case Some(row) => [row] + rest
  }

  function Listing(cat: Catalog, f: Filters): seq<DiscoveryRow> { CurrentRows(cat, f, |cat.resources|) }
}
