/**
 A retired generation is activated again: its jobs and claims may be for texts the documents had in
 between, and then it serves the vector of one text for another, reports complete coverage while it does,
 and can forget documents. The conditions at the activation are those of VectorsAgreeIff and
 NothingForgottenIff.
 */
module EmbeddingReactivation {
  import opened Wrappers
  import opened EmbeddingTables
  import opened EmbeddingProtocol
  import opened EmbeddingVectors
  import opened EmbeddingCoverage

  const A := Source("a", "")
  const B := Source("b", "")
  const FIRST := Slot(0, 1)
  const SECOND := Slot(0, 2)

  // One document whose text goes from A to B while generation 1 is active and back to A under
  // generation 2; then generation 1 is prepared again.
  const INDEXES: seq<Step> := [] + [Activate(1)] + [Index(0, A, {})] + [Take({FIRST}, "w", 0, 10)]
  const SWITCHES: seq<Step> := INDEXES + [Store([EARLY], 0)] + [Index(0, B, {})] + [Activate(2)] + [Index(0, A, {})]
  const PREPARES: seq<Step> :=
    SWITCHES + [Activate(1)] + [Stale(1)] + [AdoptJobs(1, 0)] + [DropJobs] + [Insert(1, 0)]
  const SERVES: seq<Step> := PREPARES + [Take({FIRST}, "w", 0, 10)] + [Index(0, B, {})] + [Store([LATE], 0)]

  const EARLY := Claim(FIRST, HashOf(A), "a", 1, 0)
  const LATE := Claim(FIRST, HashOf(B), "a", 2, 0)

  const NEW := Job(HashOf(A), Pending, 0, 0, None, None, 0)
  const TAKEN := Job(HashOf(A), Leased, 1, 0, Some("w"), Some(10), 0)
  const FINISHED := Job(HashOf(A), Done, 1, 0, None, None, 0)
  const CHANGED := Job(HashOf(B), Pending, 1, 0, None, None, 0)
  const RETAKEN := Job(HashOf(B), Leased, 2, 0, Some("w"), Some(10), 0)
  const REFINISHED := Job(HashOf(B), Done, 2, 0, None, None, 0)

  function Before(doc: Source, job: Job, vectors: map<Slot, Vector>, claims: set<Claim>): Sys {
    Sys(Tables(map[0 := doc], {0}, map[FIRST := job], vectors, Some(1)), claims, {1})
  }

  function After(doc: Source, jobs: map<Slot, Job>, vector: Vector, active: nat, claims: set<Claim>): Sys {
    Sys(Tables(map[0 := doc], {0}, jobs, map[FIRST := vector], Some(active)), claims, {1, 2})
  }

  function Both(first: Job): map<Slot, Job> { map[FIRST := first, SECOND := NEW] }

  function Good(embed: string -> Embedding): Vector { Vector(HashOf(A), embed("a"), true) }
  function Bad(embed: string -> Embedding): Vector { Vector(HashOf(B), embed("a"), true) }

  function Prepared(embed: string -> Embedding): Sys { After(A, Both(CHANGED), Good(embed), 1, {EARLY}) }
  function Stored(embed: string -> Embedding): Sys { After(B, Both(REFINISHED), Bad(embed), 1, {EARLY, LATE}) }

  ghost predicate Reaches(embed: string -> Embedding, steps: seq<Step>, s: Sys) {
    ValidRun(embed, EMPTY, steps) && Final(embed, EMPTY, steps) == s
  }

  lemma Then(embed: string -> Embedding, steps: seq<Step>, s: Sys, step: Step, b: Sys)
    requires Reaches(embed, steps, s) && Enabled(s, step) && Exec(embed, s, step) == b
    ensures Reaches(embed, steps + [step], b)
  {
    RunGrows(embed, EMPTY, steps, step);
  }

  lemma FirstIndexes(embed: string -> Embedding)
    ensures Reaches(embed, INDEXES, Before(A, TAKEN, map[], {EARLY}))
  {
    var made := Sys(Tables(map[], {}, map[], map[], Some(1)), {}, {1});
    var indexed := Before(A, NEW, map[], {});
    assert Reaches(embed, [], EMPTY) && {} + {1} == {1};
    Then(embed, [], EMPTY, Activate(1), made);
    assert {} - {} + {0} == {0};
    Then(embed, [] + [Activate(1)], made, Index(0, A, {}), indexed);
    assert ClaimOf(indexed.t, FIRST) == EARLY;
    assert NewClaims(indexed.t, {FIRST}) == {EARLY};
    assert ClaimJobs(indexed.t, {FIRST}, "w", 10).jobs == map[FIRST := TAKEN];
    Then(embed, [] + [Activate(1)] + [Index(0, A, {})], indexed, Take({FIRST}, "w", 0, 10),
      Before(A, TAKEN, map[], {EARLY}));
  }

  lemma TextSwitches(embed: string -> Embedding)
    ensures Reaches(embed, SWITCHES, After(A, Both(CHANGED), Good(embed), 2, {EARLY}))
  {
    var stored := Before(A, FINISHED, map[FIRST := Good(embed)], {EARLY});
    var changed := Before(B, CHANGED, map[FIRST := Good(embed)], {EARLY});
    var switched := After(B, map[FIRST := CHANGED], Good(embed), 2, {EARLY});
    FirstIndexes(embed);
    StoreSingle(embed, Before(A, TAKEN, map[], {EARLY}).t, EARLY);
    assert {0} - {} + {0} == {0} && {1} + {2} == {1, 2};
    Then(embed, INDEXES, Before(A, TAKEN, map[], {EARLY}), Store([EARLY], 0), stored);
    Then(embed, INDEXES + [Store([EARLY], 0)], stored, Index(0, B, {}), changed);
    Then(embed, INDEXES + [Store([EARLY], 0)] + [Index(0, B, {})], changed, Activate(2), switched);
    Then(embed, INDEXES + [Store([EARLY], 0)] + [Index(0, B, {})] + [Activate(2)], switched, Index(0, A, {}),
      After(A, Both(CHANGED), Good(embed), 2, {EARLY}));
  }

  // Everything the worker does at a boot leaves these tables as they are: the vector is current.
  lemma PreparingChangesNothing(embed: string -> Embedding)
    ensures var t := Prepared(embed).t;
      MarkStale(t, 1) == t && Adopt(t, 1, 0) == t && DropUnassigned(t) == t && InsertMissing(t, 1, 0) == t
  {
    var t := Prepared(embed).t;
    assert MarkStale(t, 1).vectors == t.vectors;
    assert Adopt(t, 1, 0).jobs == t.jobs;
    assert DropUnassigned(t).jobs == t.jobs;
    NothingIsMissing(embed);
  }

  lemma NothingIsMissing(embed: string -> Embedding)
    ensures InsertMissing(Prepared(embed).t, 1, 0) == Prepared(embed).t
  {
    var t := Prepared(embed).t;
    assert Current(t, 1, 0);
    assert InsertMissing(t, 1, 0).jobs == t.jobs;
  }

  lemma GenerationReturns(embed: string -> Embedding)
    ensures Reaches(embed, PREPARES, Prepared(embed))
  {
    var s := Prepared(embed);
    TextSwitches(embed);
    PreparingChangesNothing(embed);
    assert {1, 2} + {1} == {1, 2};
    Then(embed, SWITCHES, After(A, Both(CHANGED), Good(embed), 2, {EARLY}), Activate(1), s);
    Then(embed, SWITCHES + [Activate(1)], s, Stale(1), s);
    Then(embed, SWITCHES + [Activate(1)] + [Stale(1)], s, AdoptJobs(1, 0), s);
    Then(embed, SWITCHES + [Activate(1)] + [Stale(1)] + [AdoptJobs(1, 0)], s, DropJobs, s);
    Then(embed, SWITCHES + [Activate(1)] + [Stale(1)] + [AdoptJobs(1, 0)] + [DropJobs], s, Insert(1, 0), s);
  }

  function Retaken(embed: string -> Embedding, doc: Source): Sys {
    After(doc, Both(RETAKEN), Good(embed), 1, {EARLY, LATE})
  }

  lemma WrongTextIsTaken(embed: string -> Embedding)
    ensures Reaches(embed, PREPARES + [Take({FIRST}, "w", 0, 10)], Retaken(embed, A))
  {
    var s := Prepared(embed);
    GenerationReturns(embed);
    assert ClaimOf(s.t, FIRST) == LATE;
    assert NewClaims(s.t, {FIRST}) == {LATE} && {EARLY} + {LATE} == {EARLY, LATE};
    assert ClaimJobs(s.t, {FIRST}, "w", 10).jobs == Both(RETAKEN);
    Then(embed, PREPARES, s, Take({FIRST}, "w", 0, 10), Retaken(embed, A));
  }

  lemma WrongTextIsStored(embed: string -> Embedding)
    ensures Reaches(embed, SERVES, Stored(embed))
  {
    var taken := PREPARES + [Take({FIRST}, "w", 0, 10)];
    WrongTextIsTaken(embed);
    StoreSingle(embed, Retaken(embed, B).t, LATE);
    assert {0} - {} + {0} == {0};
    Then(embed, taken, Retaken(embed, A), Index(0, B, {}), Retaken(embed, B));
    Then(embed, taken + [Index(0, B, {})], Retaken(embed, B), Store([LATE], 0), Stored(embed));
  }

  // Three steps after a generation was prepared again it serves the embedding of "a" as the current vector
  // of a document that says "b", and reports complete coverage.
  lemma ReactivationServesAnotherText(embed: string -> Embedding)
    ensures ValidRun(embed, EMPTY, SERVES) && PREPARES <= SERVES
    ensures var t := Final(embed, EMPTY, SERVES).t;
      && Current(t, 1, 0) && t.docs[0].document == "b" && t.vectors[FIRST].embedding == embed("a")
      && IndexCoverage(t, 1).complete
  {
    WrongTextIsStored(embed);
    var t := Stored(embed).t;
    assert Current(t, 1, 0);
    assert ExpectedVersions(t) == {0} && IndexedVersions(t, 1) == {0};
    assert InState(t, 1, {Pending, Leased}) == {} && InState(t, 1, {Dead}) == {};
  }

  // The same preparation can also forget the document, and neither condition of the two theorems holds.
  lemma ReactivationForgets(embed: string -> Embedding)
    requires embed("a") != embed("b")
    ensures ValidRun(embed, EMPTY, PREPARES)
    ensures var s := Final(embed, EMPTY, PREPARES);
      && s.t.generation == Some(1) && !Truthful(embed, s.t, s.claims, 1) && !Accounted(s.t, s.claims, 1)
      && !NeverForgets(embed, s, 1)
  {
    GenerationReturns(embed);
    var s := Prepared(embed);
    assert !JobTrue(embed, s.t, Slot(0, 1));
    assert Fenced(s.t, EARLY) && Unchanged(s.t, EARLY);
    assert !JobAccounted(s.t, s.claims, Slot(0, 1));
    NothingForgottenIff(embed, PREPARES, 1);
  }
}
