/**
 Listed, stale, quarantined, disabled: what observations, sweeps and operators do to the status of a
 resource over any history.
 */
module CatalogLifecycle {
  import opened Wrappers
  import opened CatalogTables
  import opened CatalogIntegrity

  predicate Blocked(status: Lifecycle) { status in {Quarantined, Disabled, Tombstoned} }

  // The owner of the key shows it.
  predicate Shown(commit: Commit, key: string, owner: string) {
    commit.Observation? && commit.candidate.key == key && commit.candidate.terms.payTo == owner
  }

  predicate Ordered(commit: Commit, key: string) { commit.Status? && commit.key == key }

  lemma KeysFind(cat: Catalog, rid: nat)
    requires Sound(cat) && rid < |cat.resources|
    ensures Find(cat.resources, cat.resources[rid].key) == rid
  {
    assert forall i | 0 <= i < rid :: cat.resources[i].key != cat.resources[rid].key;
  }

  /* ---- One commit ---- */

  // An owner who shows a resource is seen now; a stale resource is listed again, any other keeps its status, and
  // no other resource is touched.
  lemma ShowingIsSeen(cat: Catalog, commit: Commit, rid: nat)
    requires Sound(cat) && rid < |cat.resources|
    requires Shown(commit, cat.resources[rid].key, cat.resources[rid].owner)
    ensures var after := Apply(cat, commit).resources;
      && rid < |after| == |cat.resources| && after[rid].lastSeen == commit.now
      && (cat.resources[rid].status == Stale ==> after[rid].status == Listed)
      && (cat.resources[rid].status != Stale ==> after[rid].status == cat.resources[rid].status)
      && forall i :: 0 <= i < |after| && i != rid ==> after[i] == cat.resources[i]
  {
    KeysFind(cat, rid);
  }

  // Whatever else is observed leaves every known resource alone.
  lemma OthersAreNotSeen(cat: Catalog, commit: Commit, rid: nat)
    requires Sound(cat) && rid < |cat.resources| && commit.Observation?
    requires !Shown(commit, cat.resources[rid].key, cat.resources[rid].owner)
    ensures var after := Apply(cat, commit).resources;
      |cat.resources| <= |after| && after[rid] == cat.resources[rid]
  {
    KeysFind(cat, rid);
  }

  // A key that was not known gets a listed resource, owned by the payee of the terms and seen now.
  lemma FirstShowingLists(cat: Catalog, commit: Commit)
    requires commit.Observation?
    requires forall i :: 0 <= i < |cat.resources| ==> cat.resources[i].key != commit.candidate.key
    ensures var after, c := Apply(cat, commit).resources, commit.candidate;
      && |after| == |cat.resources| + 1 && after[..|cat.resources|] == cat.resources
      && var r := after[|cat.resources|];
         && r.key == c.key && r.kind == c.kind && r.owner == c.terms.payTo
         && r.status == Listed && r.lastSeen == commit.now
  {
  }

  // An operator's order sets the status of the key and touches nothing else.
  lemma OrderIsObeyed(cat: Catalog, commit: Commit, rid: nat)
    requires Sound(cat) && rid < |cat.resources| && Ordered(commit, cat.resources[rid].key)
    ensures var after := Apply(cat, commit).resources;
      && |after| == |cat.resources| && after[rid] == cat.resources[rid].(status := commit.status)
      && forall i :: 0 <= i < |after| && i != rid ==> after[i] == cat.resources[i]
  {
    KeysFind(cat, rid);
  }

  // A sweep makes exactly the listed resources stale that were last seen before its cutoff.
  lemma SweepDemotes(cat: Catalog, commit: Commit, rid: nat)
    requires rid < |cat.resources| && commit.Sweep?
    ensures var was, after := cat.resources[rid], Apply(cat, commit).resources;
      && |after| == |cat.resources|
      && (was.status == Listed && was.lastSeen < commit.cutoff ==> after[rid] == was.(status := Stale))
      && (was.status != Listed || was.lastSeen >= commit.cutoff ==> after[rid] == was)
  {
  }

  // Listed, and last seen before the cutoff.
  function Late(resources: seq<Resource>, cutoff: nat): set<nat> {
    set i: nat | 0 <= i < |resources| && resources[i].status == Listed && resources[i].lastSeen < cutoff
  }

  lemma {:induction false} LateAreCounted(resources: seq<Resource>, cutoff: nat)
    ensures CountOverdue(resources, cutoff) == |Late(resources, cutoff)|
  {
    if resources == [] {
      assert Late(resources, cutoff) == {};
    } else {
      var last: nat := |resources| - 1;
      LateAreCounted(resources[..last], cutoff);
      OneMoreLate(resources, cutoff);
    }
  }

  lemma OneMoreLate(resources: seq<Resource>, cutoff: nat)
    requires resources != []
    ensures var last := |resources| - 1;
      |Late(resources, cutoff)| == |Late(resources[..last], cutoff)|
        + if resources[last].status == Listed && resources[last].lastSeen < cutoff then 1 else 0
  {
    var last: nat := |resources| - 1;
    var before := Late(resources[..last], cutoff);
    assert forall i | 0 <= i < last :: resources[..last][i] == resources[i];
    if resources[last].status == Listed && resources[last].lastSeen < cutoff {
      assert Late(resources, cutoff) == before + {last};
      assert last !in before;
    } else {
      assert Late(resources, cutoff) == before;
    }
  }

  // The watermark rises once for every resource a sweep demotes, by one for every observation that is not rolled back
  // and for every order about a known key.
  lemma WatermarkRises(cat: Catalog, commit: Commit)
    ensures commit.Sweep? ==>
      Apply(cat, commit).watermark == cat.watermark + |Late(cat.resources, commit.cutoff)|
    ensures commit.Observation? ==>
      Apply(cat, commit).watermark == cat.watermark + 1 || Apply(cat, commit) == cat
    ensures commit.Status? ==>
      Apply(cat, commit).watermark
      == cat.watermark + if exists r :: r in cat.resources && r.key == commit.key then 1 else 0
  {
    match commit
    case Observation(_, _, _) =>
    case Status(key, _) =>
      var rid := Find(cat.resources, key);
      assert rid < |cat.resources| ==> cat.resources[rid] in cat.resources;
    case Sweep(cutoff) => LateAreCounted(cat.resources, cutoff);
  }

  /* ---- Every history ---- */

  predicate Unordered(commits: seq<Commit>, key: string) {
    forall i :: 0 <= i < |commits| ==> !Ordered(commits[i], key)
  }

  predicate Unshown(commits: seq<Commit>, key: string, owner: string) {
    forall i :: 0 <= i < |commits| ==> !Shown(commits[i], key, owner)
  }

  lemma CommitKeepsIdentity(cat: Catalog, commit: Commit, rid: nat)
    requires Sound(cat) && rid < |cat.resources|
    ensures var after := Apply(cat, commit).resources;
      rid < |after| && after[rid].key == cat.resources[rid].key && after[rid].owner == cat.resources[rid].owner
  {
    match commit
    case Observation(_, _, _) =>
      if Shown(commit, cat.resources[rid].key, cat.resources[rid].owner) {
        ShowingKeepsIdentity(cat, commit, rid);
      } else {
        OthersAreNotSeen(cat, commit, rid);
      }
    case Status(_, _) =>
    case Sweep(_) => SweepDemotes(cat, commit, rid);
  }

  lemma ShowingKeepsIdentity(cat: Catalog, commit: Commit, rid: nat)
    requires Sound(cat) && rid < |cat.resources|
    requires Shown(commit, cat.resources[rid].key, cat.resources[rid].owner)
    ensures var after := Apply(cat, commit).resources;
      rid < |after| && after[rid].key == cat.resources[rid].key && after[rid].owner == cat.resources[rid].owner
  {
    KeysFind(cat, rid);
  }

  // A quarantined, disabled or tombstoned resource stays so through any observations and sweeps: only an
  // operator's order changes it.
  lemma {:induction false} BlockedStaysBlocked(cat: Catalog, commits: seq<Commit>, rid: nat)
    requires Sound(cat) && rid < |cat.resources| && Blocked(cat.resources[rid].status)
    requires Unordered(commits, cat.resources[rid].key)
    ensures var after := Run(cat, commits).resources;
      rid < |after| && after[rid].status == cat.resources[rid].status
    decreases |commits|
  {
    if commits != [] {
      var b := Apply(cat, commits[0]);
      ApplyKeeps(cat, commits[0]);
      CommitKeepsIdentity(cat, commits[0], rid);
      BlockedSurvives(cat, commits[0], rid);
      assert forall i | 0 <= i < |commits[1..]| :: commits[1..][i] == commits[i + 1];
      BlockedStaysBlocked(b, commits[1..], rid);
    }
  }

  lemma BlockedSurvives(cat: Catalog, commit: Commit, rid: nat)
    requires Sound(cat) && rid < |cat.resources| && Blocked(cat.resources[rid].status)
    requires !Ordered(commit, cat.resources[rid].key)
    ensures var after := Apply(cat, commit).resources;
      rid < |after| && after[rid].status == cat.resources[rid].status
  {
    match commit
    case Observation(_, _, _) =>
      if Shown(commit, cat.resources[rid].key, cat.resources[rid].owner) {
        ShowingIsSeen(cat, commit, rid);
      } else {
        OthersAreNotSeen(cat, commit, rid);
      }
    case Status(_, _) => KeysFind(cat, rid);
    case Sweep(_) => SweepDemotes(cat, commit, rid);
  }

  predicate Swept(commits: seq<Commit>, lastSeen: nat) {
    exists i :: 0 <= i < |commits| && commits[i].Sweep? && lastSeen < commits[i].cutoff
  }

  // A listed or stale resource whose owner shows it no more, and that nobody gives orders about, is stale in the end
  // if and only if it was stale or some sweep's cutoff was after it was last seen.
  lemma {:induction false} UnseenGoesStale(cat: Catalog, commits: seq<Commit>, rid: nat)
    requires Sound(cat) && rid < |cat.resources| && cat.resources[rid].status in {Listed, Stale}
    requires Unordered(commits, cat.resources[rid].key)
    requires Unshown(commits, cat.resources[rid].key, cat.resources[rid].owner)
    ensures var was, after := cat.resources[rid], Run(cat, commits).resources;
      && rid < |after| && after[rid].lastSeen == was.lastSeen && after[rid].status in {Listed, Stale}
      && (after[rid].status == Stale <==> was.status == Stale || Swept(commits, was.lastSeen))
    decreases |commits|
  {
    if commits != [] {
      var b, rest := Apply(cat, commits[0]), commits[1..];
      ApplyKeeps(cat, commits[0]);
      CommitKeepsIdentity(cat, commits[0], rid);
      UnseenCommit(cat, commits[0], rid);
      assert forall i | 0 <= i < |rest| :: rest[i] == commits[i + 1];
      UnseenGoesStale(b, rest, rid);
      SweptFirst(commits, cat.resources[rid].lastSeen);
    }
  }

  lemma SweptFirst(commits: seq<Commit>, lastSeen: nat)
    requires commits != []
    ensures Swept(commits, lastSeen)
            <==> (commits[0].Sweep? && lastSeen < commits[0].cutoff) || Swept(commits[1..], lastSeen)
  {
    if i :| 0 <= i < |commits[1..]| && commits[1..][i].Sweep? && lastSeen < commits[1..][i].cutoff {
      assert commits[i + 1].Sweep? && lastSeen < commits[i + 1].cutoff;
    }
    if i :| 0 <= i < |commits| && commits[i].Sweep? && lastSeen < commits[i].cutoff {
      if i > 0 { assert commits[1..][i - 1].Sweep? && lastSeen < commits[1..][i - 1].cutoff; }
    }
  }

  lemma UnseenCommit(cat: Catalog, commit: Commit, rid: nat)
    requires Sound(cat) && rid < |cat.resources| && cat.resources[rid].status in {Listed, Stale}
    requires !Ordered(commit, cat.resources[rid].key)
    requires !Shown(commit, cat.resources[rid].key, cat.resources[rid].owner)
    ensures var was, after := cat.resources[rid], Apply(cat, commit).resources;
      && rid < |after| && after[rid].lastSeen == was.lastSeen && after[rid].status in {Listed, Stale}
      && (after[rid].status == Stale <==> was.status == Stale || (commit.Sweep? && was.lastSeen < commit.cutoff))
  {
    match commit
    case Observation(_, _, _) => OthersAreNotSeen(cat, commit, rid);
    case Status(_, _) => KeysFind(cat, rid);
    case Sweep(_) => SweepDemotes(cat, commit, rid);
  }
}
