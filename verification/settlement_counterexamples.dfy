/**
 Three runs of the code as it is, each breaking a promise where one guard fails: a second store, a late
 refusal, and an expiry answer given too early.
 */
module SettlementCounterexamples {
  import opened Wrappers
  import opened SettlementTables
  import opened SettlementProtocol
  import opened SettlementQuarantine
  import opened SettlementInvariant
  import opened SettlementOwners

  const KEY := Key(PaymentScope("net", "sponsor", "shop"), "payment")
  const REQ := Request(KEY, "fingerprint", Exact, 5)
  const A := ChannelId("net", "A")
  const B := ChannelId("net", "B")
  const LIMITS := Limits(1000, 1000)
  const HELD := Channel(Leased, Some("replica"), Some(10), 1, None, None)
  const QUARANTINED := Channel(Unresolved, Some("replica"), Some(10), 1, Some(0), None)
  const USED := Channel(Idle, None, None, 1, None, Some(1))
  const RETURNED := Channel(Idle, None, None, 1, None, None)
  const OWNED := Record(KEY, "fingerprint", Exact, Preparing, Some(5), Some("replica"), Some(10),
                        None, None, None, None, None, None, None, None)
  const BID_A := Prepared("payer", Envelope("a", Some(100)), 1, 1)
  const BID_B := Prepared("payer", Envelope("b", Some(100)), 1, 1)
  const HASH_A := HashOf(Envelope("a", Some(100)))

  // The record once the first envelope is stored.
  function OnA(status: RecordStatus, response: Option<Outcome>): Record {
    Record(KEY, "fingerprint", Exact, status, Some(5), Some("replica"), Some(10), Some("payer"), Some("A"),
           Some(1), Some(1), Some(Envelope("a", Some(100))), Some(HASH_A), Some(1), response)
  }

  const ON_A := OnA(Submitting, None)
  const STORE_A := StoreEvent(Lease(A, 1), 0, HASH_A, 1, 0, "payer", 1)
  const SPENT := map[UsageKey(0, Principal("payer")) := 1, UsageKey(0, Global) := 1]
  const QUIET := Ledger(map[], {}, {}, 0)
  const SENT := Ledger(map[], {HASH_A}, {}, 0)
  const APPLIED := Ledger(map[HASH_A := true], {HASH_A}, {}, 0)

  function Tables(records: seq<Record>, a: Channel, b: Channel, usage: map<UsageKey, nat>): Db {
    Db(records, map[A := a, B := b], usage)
  }

  /* ---- Runs ---- */

  ghost predicate Reaches(steps: seq<Step>, s: Sys) {
    ValidRun(EMPTY, steps) && Final(EMPTY, steps) == s && AllPlaced(s)
  }

  lemma Then(steps: seq<Step>, s: Sys, step: Step, t: Sys)
    requires Reaches(steps, s) && Enabled(s, step) && Exec(s, step) == t
    ensures Reaches(steps + [step], t)
  {
    RunGrows(EMPTY, steps, step);
    StepKeepsPlaced(s, step);
  }

  const IN_ONE := Claimed(REQ, 0)
  const ON_LEASE_A := Holding(REQ, 0, Lease(A, 1))
  const ON_LEASE_B := Holding(REQ, 0, Lease(B, 1))

  const EMPTY := Sys(Db([], map[], map[]), QUIET, map[], [])
  const BOOTED := Sys(Tables([], FRESH_CHANNEL, FRESH_CHANNEL, map[]), QUIET, map[], [])
  const ONE := Sys(Tables([OWNED], FRESH_CHANNEL, FRESH_CHANNEL, map[]), QUIET, map[1 := IN_ONE], [])
  const TWO := Sys(Tables([OWNED], FRESH_CHANNEL, FRESH_CHANNEL, map[]), QUIET, map[1 := IN_ONE, 2 := IN_ONE], [])
  const ONE_LEASE :=
    Sys(Tables([OWNED], HELD, FRESH_CHANNEL, map[]), QUIET, map[1 := ON_LEASE_A, 2 := IN_ONE], [])
  // Two requests of one replica own the same record and hold one channel each.
  const TWO_OWNERS := Sys(Tables([OWNED], HELD, HELD, map[]), QUIET, map[1 := ON_LEASE_A, 2 := ON_LEASE_B], [])
  const READY :=
    Sys(Tables([OWNED], HELD, HELD, map[]), QUIET, map[1 := Ready(REQ, 0, Lease(A, 1), BID_A), 2 := ON_LEASE_B], [])

  // After the first store: the second owner still holds its lease.
  function Stored(rec: Record, a: Channel, ledger: Ledger, first: Proc): Sys {
    Sys(Tables([rec], a, HELD, SPENT), ledger, map[1 := first, 2 := ON_LEASE_B], [STORE_A])
  }

  const STORED := Stored(ON_A, QUARANTINED, QUIET, StoredIt(REQ, 0))

  // One replica claims a record twice, leases two channels and stores the first envelope.
  const CLAIMS: seq<Step> :=
    [] + [Boot("net", ["A", "B"])] + [Start(1, REQ, "replica", 0, 10)] + [Start(2, REQ, "replica", 0, 10)]
  const LEASES: seq<Step> := CLAIMS + [TakeLease(1, A, "replica", 0, 10)] + [TakeLease(2, B, "replica", 0, 10)]
  const STORES: seq<Step> := LEASES + [Prepare(1, Built(BID_A))] + [Store(1, 0, "payer", LIMITS)]

  lemma Booting()
    ensures Exec(EMPTY, Boot("net", ["A", "B"])) == BOOTED
  {
    var db := SyncChannels(EMPTY.db, "net", ["A", "B"]);
    assert "A" in ["A", "B"] && "B" in ["A", "B"];
    assert forall a :: a in ["A", "B"] ==> a == "A" || a == "B";
    assert forall cid :: cid in db.channels <==> cid == A || cid == B;
    assert db.channels == map[A := FRESH_CHANNEL, B := FRESH_CHANNEL];
  }

  lemma TwoClaims()
    ensures Reaches(CLAIMS, TWO)
  {
    Booting();
    assert Reaches([], EMPTY);
    assert [OWNED][0].key == KEY;
    Then([], EMPTY, Boot("net", ["A", "B"]), BOOTED);
    Then([] + [Boot("net", ["A", "B"])], BOOTED, Start(1, REQ, "replica", 0, 10), ONE);
    Then([] + [Boot("net", ["A", "B"])] + [Start(1, REQ, "replica", 0, 10)], ONE, Start(2, REQ, "replica", 0, 10), TWO);
  }

  lemma FirstLease()
    ensures Reaches(CLAIMS + [TakeLease(1, A, "replica", 0, 10)], ONE_LEASE)
  {
    TwoClaims();
    Then(CLAIMS, TWO, TakeLease(1, A, "replica", 0, 10), ONE_LEASE);
  }

  lemma TwoLeases()
    ensures Reaches(LEASES, TWO_OWNERS)
  {
    FirstLease();
    Then(CLAIMS + [TakeLease(1, A, "replica", 0, 10)], ONE_LEASE, TakeLease(2, B, "replica", 0, 10), TWO_OWNERS);
  }

  lemma Storing()
    ensures Enabled(READY, Store(1, 0, "payer", LIMITS)) && Exec(READY, Store(1, 0, "payer", LIMITS)) == STORED
  {
    assert StorePrepared(READY.db, 0, Lease(A, 1), BID_A, 0, "payer", LIMITS).channels
      == map[A := QUARANTINED, B := HELD];
  }

  lemma FirstStores()
    ensures Reaches(STORES, STORED)
  {
    TwoLeases();
    Storing();
    Then(LEASES, TWO_OWNERS, Prepare(1, Built(BID_A)), READY);
    Then(LEASES + [Prepare(1, Built(BID_A))], READY, Store(1, 0, "payer", LIMITS), STORED);
  }

  /* ---- Two owners, one orphaned channel ---- */

  const BOTH_STORE: seq<Step> := STORES + [Prepare(2, Built(BID_B))] + [Store(2, 0, "payer", LIMITS)]

  const BOTH_READY := Sys(Tables([ON_A], QUARANTINED, HELD, SPENT), QUIET,
    map[1 := StoredIt(REQ, 0), 2 := Ready(REQ, 0, Lease(B, 1), BID_B)], [STORE_A])

  lemma SecondStore()
    ensures Enabled(BOTH_READY, Store(2, 0, "payer", LIMITS))
    ensures var db := Exec(BOTH_READY, Store(2, 0, "payer", LIMITS)).db; Orphaned(db, A) && !Agree(db)
  {
    var db := Exec(BOTH_READY, Store(2, 0, "payer", LIMITS)).db;
    assert db.records == [Envelop(ON_A, Lease(B, 1), BID_B)];
    assert db.channels[A] == QUARANTINED;
    assert !ChannelOk(db, A);
  }

  // Both owners store: the first channel stays quarantined for a record that names the second one, and
  // whatever happens afterwards it is never released.
  lemma TwoOwnersOrphanAChannel()
    ensures Init(EMPTY) && ValidRun(EMPTY, BOTH_STORE)
    ensures Orphaned(Final(EMPTY, BOTH_STORE).db, A) && !Agree(Final(EMPTY, BOTH_STORE).db)
    ensures forall after :: ValidRun(Final(EMPTY, BOTH_STORE), after) ==>
      Orphaned(Final(Final(EMPTY, BOTH_STORE), after).db, A)
  {
    FirstStores();
    Then(STORES, STORED, Prepare(2, Built(BID_B)), BOTH_READY);
    SecondStore();
    var end := Exec(BOTH_READY, Store(2, 0, "payer", LIMITS));
    Then(STORES + [Prepare(2, Built(BID_B))], BOTH_READY, Store(2, 0, "payer", LIMITS), end);
    forall after | ValidRun(end, after) ensures Orphaned(Final(end, after).db, A) {
      OrphanIsForever(end, after, A);
    }
  }

  /* ---- A late owner overwrites a success ---- */

  const SENDS: seq<Step> := STORES + [ReadBack(1)] + [Send(1, Accepted, true)] + [Apply(HASH_A, true)]
  const SETTLES: seq<Step> := SENDS + [Mark(1)] + [PollFound(1)] + [Finish(1)]
  const OVERWRITES: seq<Step> :=
    SETTLES + [Prepare(2, Declined(VerificationFailed))] + [Release(2)] + [Refuse(2)]

  const SUCCESS := Succeeded(HASH_A, None)
  const READ := Stored(ON_A, QUARANTINED, QUIET, Submit(REQ, Row(0, ON_A)))
  const SENDING := Stored(ON_A, QUARANTINED, SENT, Marking(REQ, Row(0, ON_A), true))
  const LANDED := Stored(ON_A, QUARANTINED, APPLIED, Marking(REQ, Row(0, ON_A), true))
  const PENDING := Stored(OnA(Pending, None), QUARANTINED, APPLIED, Polling(REQ, Row(0, ON_A)))
  const FOUND := Stored(OnA(Pending, None), QUARANTINED, APPLIED, Finishing(0, SUCCESS, true))

  // After the success is stored: only the second owner is left.
  function Settled(b: Channel, second: Proc): Sys {
    Sys(Tables([OnA(Success, Some(SUCCESS))], USED, b, SPENT), APPLIED, map[2 := second], [STORE_A])
  }

  const SETTLED := Settled(HELD, ON_LEASE_B)
  const DECLINED := Settled(HELD, Releasing(REQ, 0, Lease(B, 1), Some(VerificationFailed)))
  const RELEASED := Settled(RETURNED, Refusing(REQ, 0, VerificationFailed))
  const OVERWRITTEN := Sys(Tables([OnA(Failed, Some(Refused(None, VerificationFailed)))], USED, RETURNED, SPENT),
    APPLIED, map[], [STORE_A])

  lemma FirstReadsBack()
    ensures Reaches(STORES + [ReadBack(1)], READ)
  {
    FirstStores();
    Then(STORES, STORED, ReadBack(1), READ);
  }

  lemma FirstLands()
    ensures Reaches(SENDS, LANDED)
  {
    FirstReadsBack();
    assert {} + {HASH_A} == {HASH_A};
    Then(STORES + [ReadBack(1)], READ, Send(1, Accepted, true), SENDING);
    Then(STORES + [ReadBack(1)] + [Send(1, Accepted, true)], SENDING, Apply(HASH_A, true), LANDED);
  }

  lemma FirstIsFound()
    ensures Reaches(SENDS + [Mark(1)] + [PollFound(1)], FOUND)
  {
    FirstLands();
    Then(SENDS, LANDED, Mark(1), PENDING);
    Then(SENDS + [Mark(1)], PENDING, PollFound(1), FOUND);
  }

  lemma FirstSettles()
    ensures Reaches(SETTLES, SETTLED)
  {
    FirstIsFound();
    assert Complete(FOUND.db, 0, SUCCESS, true).channels == map[A := USED, B := HELD];
    assert Exec(FOUND, Finish(1)).procs == map[2 := ON_LEASE_B];
    Then(SENDS + [Mark(1)] + [PollFound(1)], FOUND, Finish(1), SETTLED);
  }

  // One owner settles the payment and stores the success, the other is declined late: three steps later
  // the stored answer is a refusal although the ledger applied the stored hash.
  lemma LateOwnerOverwritesSuccess()
    ensures Init(EMPTY) && ValidRun(EMPTY, SETTLES) && ValidRun(EMPTY, OVERWRITES) && SETTLES <= OVERWRITES
    ensures var m := Final(EMPTY, SETTLES);
      |m.db.records| == 1 && m.db.records[0].response == Some(SUCCESS) && m.db.records[0].hash == Some(HASH_A)
    ensures var f := Final(EMPTY, OVERWRITES);
      && |f.db.records| == 1 && f.db.records[0].hash == Some(HASH_A)
      && HASH_A in f.ledger.applied && f.ledger.applied[HASH_A]
      && f.db.records[0].response == Some(Refused(None, VerificationFailed))
  {
    FirstSettles();
    LateOwnerReleases();
    LateOwnerRefuses();
  }

  lemma LateOwnerReleases()
    requires Reaches(SETTLES, SETTLED)
    ensures Reaches(SETTLES + [Prepare(2, Declined(VerificationFailed))] + [Release(2)], RELEASED)
  {
    assert ReleaseChannel(DECLINED.db, Lease(B, 1)).channels == map[A := USED, B := RETURNED];
    Then(SETTLES, SETTLED, Prepare(2, Declined(VerificationFailed)), DECLINED);
    Then(SETTLES + [Prepare(2, Declined(VerificationFailed))], DECLINED, Release(2), RELEASED);
  }

  lemma LateOwnerRefuses()
    requires Reaches(SETTLES + [Prepare(2, Declined(VerificationFailed))] + [Release(2)], RELEASED)
    ensures Reaches(OVERWRITES, OVERWRITTEN)
  {
    assert Complete(RELEASED.db, 0, Refused(None, VerificationFailed), false).channels == RELEASED.db.channels;
    assert Exec(RELEASED, Refuse(2)).procs == map[];
    Then(SETTLES + [Prepare(2, Declined(VerificationFailed))] + [Release(2)], RELEASED, Refuse(2), OVERWRITTEN);
  }

  /* ---- The archive race ---- */

  const LOOKS: seq<Step> := STORES + [ReadBack(1)] + [Send(1, Lost, true)] + [Recover(3, {"net"}, [0])]
  const MISSES: seq<Step> := LOOKS + [Ask(3, false)] + [AskArchive(3, NotFound)]
  const RACES: seq<Step> := MISSES + [Apply(HASH_A, true)] + [CloseLedger(101)]
  const EXPIRES: seq<Step> := RACES + [ReadExpiry(3, true)] + [WriteVerdict(3)]

  const LOST := Stored(ON_A, QUARANTINED, SENT, Marking(REQ, Row(0, ON_A), false))

  // A recovery pass at its only row, beside the two requests.
  function Pass(stage: Stage, ledger: Ledger): Sys {
    Sys(Tables([ON_A], QUARANTINED, HELD, SPENT), ledger,
      map[1 := Marking(REQ, Row(0, ON_A), false), 2 := ON_LEASE_B, 3 := Recovering({"net"}, [Row(0, ON_A)], stage)],
      [STORE_A])
  }

  const CLOSED := Ledger(map[HASH_A := true], {HASH_A}, {}, 101)
  const EXPIRED := Refused(Some(HASH_A), ExpiredUnconfirmed)
  const RECOVERED := Sys(
    Tables([OnA(Failed, Some(EXPIRED))], RETURNED, HELD, SPENT), CLOSED,
    map[1 := Marking(REQ, Row(0, ON_A), false), 2 := ON_LEASE_B, 3 := Recovering({"net"}, [], Asking)], [STORE_A])

  lemma FirstIsLost()
    ensures Reaches(STORES + [ReadBack(1)] + [Send(1, Lost, true)], LOST)
  {
    FirstReadsBack();
    assert {} + {HASH_A} == {HASH_A};
    Then(STORES + [ReadBack(1)], READ, Send(1, Lost, true), LOST);
  }

  lemma PassLooks()
    ensures Reaches(LOOKS, Pass(Asking, SENT))
  {
    FirstIsLost();
    assert Rows(LOST.db, [0]) == [Row(0, ON_A)];
    Then(STORES + [ReadBack(1)] + [Send(1, Lost, true)], LOST, Recover(3, {"net"}, [0]), Pass(Asking, SENT));
  }

  lemma ArchiveMisses()
    ensures Reaches(MISSES, Pass(Expiry, SENT))
  {
    PassLooks();
    Then(LOOKS, Pass(Asking, SENT), Ask(3, false), Pass(Archive, SENT));
    Then(LOOKS + [Ask(3, false)], Pass(Archive, SENT), AskArchive(3, NotFound), Pass(Expiry, SENT));
  }

  lemma LedgerMovesOn()
    ensures Reaches(RACES, Pass(Expiry, CLOSED))
  {
    ArchiveMisses();
    Then(MISSES, Pass(Expiry, SENT), Apply(HASH_A, true), Pass(Expiry, APPLIED));
    Then(MISSES + [Apply(HASH_A, true)], Pass(Expiry, APPLIED), CloseLedger(101), Pass(Expiry, CLOSED));
  }

  lemma PassReadsExpiry()
    ensures Reaches(RACES + [ReadExpiry(3, true)], Pass(Writing(EXPIRED, false), CLOSED))
  {
    LedgerMovesOn();
    Then(RACES, Pass(Expiry, CLOSED), ReadExpiry(3, true), Pass(Writing(EXPIRED, false), CLOSED));
  }

  lemma ExpiryFreesChannel()
    ensures Complete(Pass(Asking, CLOSED).db, 0, EXPIRED, false).channels == map[A := RETURNED, B := HELD]
  {
  }

  lemma PassWritesExpired()
    requires Reaches(RACES + [ReadExpiry(3, true)], Pass(Writing(EXPIRED, false), CLOSED))
    ensures Reaches(EXPIRES, RECOVERED)
  {
    assert [Row(0, ON_A)][1..] == [];
    ExpiryFreesChannel();
    Then(RACES + [ReadExpiry(3, true)], Pass(Writing(EXPIRED, false), CLOSED), WriteVerdict(3), RECOVERED);
  }

  // The archive misses the hash, the ledger applies it, the ledger closes past the maximum time: the
  // stored answer says expired although the transaction succeeded.
  lemma ArchiveRaceWritesExpired()
    ensures Init(EMPTY) && ValidRun(EMPTY, EXPIRES)
    ensures var f := Final(EMPTY, EXPIRES);
      && |f.db.records| == 1 && HASH_A in f.ledger.applied && f.ledger.applied[HASH_A]
      && f.db.records[0].response == Some(Refused(Some(HASH_A), ExpiredUnconfirmed))
  {
    PassReadsExpiry();
    PassWritesExpired();
  }
}
