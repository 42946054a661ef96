/**
 The orchestrator as the imperative code it is, for a caller that runs alone: what it writes through the
 store is, statement by statement, a run of one process of the protocol, and what is proved of runs holds
 of it. Steps of other callers in between are the protocol's, not this module's. Answers from outside are
 arguments.
 */
module SettlementCore {
  import opened Wrappers
  import opened SettlementTables
  import opened SettlementProtocol
  import opened SettlementQuarantine
  import opened SettlementInvariant
  import opened SettlementSafety
  import opened SettlementSingleOwner
  import opened SettlementRecovery
  import opened SettlementStore

  // What the network answers to one attempt to send a transaction.
  datatype SendStatus = PendingStatus | TryAgainLater | ErrorStatus | Throws

  // What the world answers to one settlement request: the channels another transaction has locked,
  // the preparation, the two send attempts, whether the envelope reached the network, whether the
  // database takes the write that follows, whether the ledger takes the envelope up (and how it ends),
  // and which polls get an answer.
  datatype Outside = Outside(
    locked: set<ChannelId>, prepared: PrepareAnswer, first: SendStatus, second: SendStatus,
    reached: bool, writes: bool, lands: Option<bool>, answers: nat -> bool)
  {
    predicate Plausible() {
      prepared.Declined? ==> prepared.reason.UnexpectedError? || prepared.reason.VerificationFailed?
    }

    // The answer that stands after at most one retry, and what is left of it when it cannot be written.
    function Sent(): SendAnswer {
      var last := if first.TryAgainLater? then second else first;
      if last.Throws? then Lost
      else if last.ErrorStatus? then (if writes then Error else UnwrittenError)
      else if writes then Accepted
      else Lost
    }

    predicate Rejected() { Sent().Error? || Sent().UnwrittenError? }
  }

  // What the world answers to a recovery pass about each record.
  datatype Lookups = Lookups(
    answers: (nat, nat) -> bool, archive: nat -> bool, closeTime: nat -> bool)
  {
    ghost predicate Complete() { forall id: nat :: archive(id) && closeTime(id) }
  }

  // What a caller was given to do and what the world answers to it: the steps that heed it are the ones the code
  // takes, and no other.
  datatype Script =
    | Settling(req: Request, worker: string, now: nat, until: nat, known: set<string>, attempts: nat,
               day: nat, scope: string, limits: Limits, world: Outside)
    | Passing(networks: set<string>, tries: nat, lookups: Lookups)
  {
    ghost predicate Polled()
      requires Settling?
    {
      exists k :: 0 <= k < attempts && world.answers(k)
    }

    ghost predicate Asked(id: nat)
      requires Passing?
    {
      exists k :: 0 <= k < tries && lookups.answers(id, k)
    }

    ghost predicate Heeds(s: Sys, step: Step) {
      if Settling? then SettlingHeeds(s, step) else PassingHeeds(s, step)
    }

    ghost predicate SettlingHeeds(s: Sys, step: Step)
      requires Settling?
    {
      match step
      case Start(pid, r, w, n, u) => pid == 0 && r == req && w == worker && n == now && u == until
      case NoChannel(_) =>
        forall id :: id in s.db.channels && MayLease(id) ==> !Leasable(s.db.channels[id], now)
      case TakeLease(_, id, w, n, u) => MayLease(id) && w == worker && n == now && u == until
      case Prepare(_, answer) => answer == world.prepared
      case Store(_, d, p, l) => d == day && p == scope && l == limits
      case Send(_, sent, reached) => sent == world.Sent() && reached == world.reached
      case Apply(_, succeeded) => world.lands == Some(succeeded)
      case PollFound(_) => Polled()
      case PollTimeout(pid) => At(s, pid) && HasHash(s.procs[pid]) && !(OnLedger(s, s.procs[pid].row) && Polled())
      case _ => step.Release? || step.Refuse? || step.ReadBack? || step.Mark? || step.Finish?
    }

    // A channel of the network that this replica has the key of and nobody else is leasing.
    predicate MayLease(id: ChannelId)
      requires Settling?
    {
      id.network == req.key.scope.network && id.address in known && id !in world.locked
    }

    ghost predicate PassingHeeds(s: Sys, step: Step)
      requires Passing?
    {
      match step
      case Recover(pid, served, _) => pid == 0 && served == networks
      case Ask(pid, found) =>
        Visiting(s, pid) && (found <==> OnLedger(s, s.procs[pid].todo[0]) && Asked(s.procs[pid].todo[0].id))
      case AskArchive(pid, answer) =>
        Visiting(s, pid) && answer == (
          if !lookups.archive(s.procs[pid].todo[0].id) then NoAnswer
          else if OnLedger(s, s.procs[pid].todo[0]) then Found else NotFound)
      case ReadExpiry(pid, answered) =>
        Visiting(s, pid) && answered == lookups.closeTime(s.procs[pid].todo[0].id)
      case _ => step.SkipForeign? || step.WriteVerdict?
    }
  }

  predicate OnLedger(s: Sys, row: Row) { row.rec.hash.Some? && row.rec.hash.value in s.ledger.applied }

  ghost predicate AllExpired(db: Db, ledger: Ledger) {
    forall id :: 0 <= id < |db.records| && db.records[id].Listed() ==> Expired(db.records[id], ledger)
  }

  datatype Reply =
    | Replied(outcome: Outcome) | StatusUnknown(hash: Hash) | KeyUnavailable | Busy | Conflict

  ghost predicate Follows(script: Script, s: Sys, steps: seq<Step>)
    requires ValidRun(s, steps)
    decreases |steps|
  {
    steps == [] || (script.Heeds(s, steps[0]) && Follows(script, Exec(s, steps[0]), steps[1..]))
  }

  // The steps lead from one state to the other, and each is the one the script asks for.
  ghost predicate Ran(script: Script, s: Sys, steps: seq<Step>, t: Sys) {
    ValidRun(s, steps) && Final(s, steps) == t && DisciplinedRun(s, steps) && Follows(script, s, steps)
  }

  lemma FollowsOn(script: Script, s: Sys, steps: seq<Step>, step: Step)
    requires ValidRun(s, steps) && Follows(script, s, steps)
    requires Enabled(Final(s, steps), step) && script.Heeds(Final(s, steps), step)
    ensures ValidRun(s, steps + [step]) && Follows(script, s, steps + [step])
    decreases |steps|
  {
    if steps == [] {
      assert (steps + [step])[1..] == [];
    } else {
      assert (steps + [step])[1..] == steps[1..] + [step];
      FollowsOn(script, Exec(s, steps[0]), steps[1..], step);
    }
  }

  lemma Extend(script: Script, s: Sys, steps: seq<Step>, t: Sys, step: Step)
    requires Ran(script, s, steps, t) && Enabled(t, step) && SingleOwner(t, step) && OneLedger(t, step)
    requires script.Heeds(t, step)
    ensures Ran(script, s, steps + [step], Exec(t, step))
  {
    RunGrows(s, steps, step);
    FollowsOn(script, s, steps, step);
  }

  // What visiting one row does to the tables; `found` says whether a poll was answered with a verdict.
  function Visit(db: Db, row: Row, ledger: Ledger, found: bool, archive: bool, closeTime: bool): Db
    requires row.rec.hash.Some? && (found ==> row.rec.hash.value in ledger.applied)
  {
    var h := row.rec.hash.value;
    if h in ledger.applied && (found || archive)
    then Complete(db, row.id, Verdict(h, ledger, row.rec.scheme, row.rec.amount), true)
    else if h !in ledger.applied && archive && closeTime && Expired(row.rec, ledger)
    then Complete(db, row.id, Refused(Some(h), ExpiredUnconfirmed), false)
    else db
  }

  // A pass about to look at its first row, which it serves.
  predicate Looking(s: Sys) { Visiting(s, 0) && s.procs[0].stage.Asking? }

  function NextRow(s: Sys): Proc
    requires InPass(s, 0) && s.procs[0].todo != []
  {
    s.procs[0].(todo := s.procs[0].todo[1..], stage := Asking)
  }

  lemma AskStep(s: Sys, found: bool)
    requires Looking(s) && (found ==> s.procs[0].todo[0].rec.hash.value in s.ledger.applied)
    ensures Enabled(s, Ask(0, found))
    ensures var rec := s.procs[0].todo[0].rec;
      Exec(s, Ask(0, found)) == Put(s, 0, s.procs[0].(stage :=
        if found then Writing(Verdict(rec.hash.value, s.ledger, rec.scheme, rec.amount), true) else Archive))
  {
  }

  lemma WriteStep(s: Sys)
    requires Visiting(s, 0) && s.procs[0].stage.Writing?
    ensures Enabled(s, WriteVerdict(0))
    ensures Exec(s, WriteVerdict(0)) == Put(s, 0, NextRow(s)).(
      db := Complete(s.db, s.procs[0].todo[0].id, s.procs[0].stage.outcome, s.procs[0].stage.ledgerApplied))
  {
  }

  // What the lookups of the row say.
  ghost predicate Says(script: Script, s: Sys, found: bool, archive: bool, closeTime: bool)
    requires script.Passing? && Visiting(s, 0)
  {
    && (found <==> OnLedger(s, s.procs[0].todo[0]) && script.Asked(s.procs[0].todo[0].id))
    && archive == script.lookups.archive(s.procs[0].todo[0].id)
    && closeTime == script.lookups.closeTime(s.procs[0].todo[0].id)
  }

  lemma AskIsRun(script: Script, s0: Sys, before: seq<Step>, s: Sys, found: bool)
    requires Ran(script, s0, before, s) && script.Passing? && Looking(s)
    requires found <==> OnLedger(s, s.procs[0].todo[0]) && script.Asked(s.procs[0].todo[0].id)
    ensures Enabled(s, Ask(0, found)) && Ran(script, s0, before + [Ask(0, found)], Exec(s, Ask(0, found)))
  {
    AskStep(s, found);
    Extend(script, s0, before, s, Ask(0, found));
  }

  // Visiting a row is a run of the pass, calm when the archive and the close time answer.
  lemma VisitIsRun(script: Script, s0: Sys, before: seq<Step>, s: Sys, found: bool, archive: bool, closeTime: bool)
    returns (steps: seq<Step>, t: Sys)
    requires Ran(script, s0, before, s) && Looking(s)
    requires script.Passing? && Says(script, s, found, archive, closeTime)
    ensures before <= steps && Ran(script, s0, steps, t)
    ensures t == Put(s, 0, NextRow(s)).(db := Visit(s.db, s.procs[0].todo[0], s.ledger, found, archive, closeTime))
    ensures CalmRun(before, 0) && archive && closeTime ==> CalmRun(steps, 0)
  {
    var applied := s.procs[0].todo[0].rec.hash.value in s.ledger.applied;
    AskStep(s, found);
    AskIsRun(script, s0, before, s, found);
    steps, t := before + [Ask(0, found)], Exec(s, Ask(0, found));
    if !found {
      steps, t := VisitUnanswered(script, s0, steps, t, archive, closeTime);
    }
    if t.procs[0].stage.Writing? {
      steps, t := VisitWrites(script, s0, steps, t);
    }
  }

  lemma VisitWrites(script: Script, s0: Sys, before: seq<Step>, s: Sys) returns (steps: seq<Step>, t: Sys)
    requires Ran(script, s0, before, s) && script.Passing? && Visiting(s, 0) && s.procs[0].stage.Writing?
    ensures before <= steps && Ran(script, s0, steps, t) && (CalmRun(before, 0) ==> CalmRun(steps, 0))
    ensures t == Put(s, 0, NextRow(s)).(
      db := Complete(s.db, s.procs[0].todo[0].id, s.procs[0].stage.outcome, s.procs[0].stage.ledgerApplied))
  {
    WriteStep(s);
    Extend(script, s0, before, s, WriteVerdict(0));
    steps, t := before + [WriteVerdict(0)], Exec(s, WriteVerdict(0));
  }

  lemma ArchiveStep(s: Sys, answer: ArchiveAnswer)
    requires Visiting(s, 0) && s.procs[0].stage.Archive?
    requires answer.Found? ==> OnLedger(s, s.procs[0].todo[0])
    requires answer.NotFound? ==> !OnLedger(s, s.procs[0].todo[0])
    ensures Enabled(s, AskArchive(0, answer))
    ensures var rec := s.procs[0].todo[0].rec;
      Exec(s, AskArchive(0, answer)) == Put(s, 0,
        match answer
        case Found => s.procs[0].(stage := Writing(Verdict(rec.hash.value, s.ledger, rec.scheme, rec.amount), true))
        case NotFound => s.procs[0].(stage := Expiry)
        case NoAnswer => NextRow(s))
  {
  }

  lemma ExpiryStep(s: Sys, answered: bool)
    requires Visiting(s, 0) && s.procs[0].stage.Expiry?
    ensures Enabled(s, ReadExpiry(0, answered))
    ensures Exec(s, ReadExpiry(0, answered)) == Put(s, 0,
        if answered && Expired(s.procs[0].todo[0].rec, s.ledger)
        then s.procs[0].(stage := Writing(Refused(s.procs[0].todo[0].rec.hash, ExpiredUnconfirmed), false))
        else NextRow(s))
  {
  }

  lemma ArchiveIsRun(script: Script, s0: Sys, before: seq<Step>, s: Sys, answer: ArchiveAnswer)
    requires Ran(script, s0, before, s) && script.Passing? && Visiting(s, 0) && s.procs[0].stage.Archive?
    requires answer == (
      if !script.lookups.archive(s.procs[0].todo[0].id) then NoAnswer
      else if OnLedger(s, s.procs[0].todo[0]) then Found else NotFound)
    ensures Enabled(s, AskArchive(0, answer))
    ensures Ran(script, s0, before + [AskArchive(0, answer)], Exec(s, AskArchive(0, answer)))
  {
    ArchiveStep(s, answer);
    Extend(script, s0, before, s, AskArchive(0, answer));
  }

  lemma ExpiryIsRun(script: Script, s0: Sys, before: seq<Step>, s: Sys, answered: bool)
    requires Ran(script, s0, before, s) && script.Passing? && Visiting(s, 0) && s.procs[0].stage.Expiry?
    requires !OnLedger(s, s.procs[0].todo[0]) && answered == script.lookups.closeTime(s.procs[0].todo[0].id)
    ensures Enabled(s, ReadExpiry(0, answered))
    ensures Ran(script, s0, before + [ReadExpiry(0, answered)], Exec(s, ReadExpiry(0, answered)))
  {
    ExpiryStep(s, answered);
    Extend(script, s0, before, s, ReadExpiry(0, answered));
  }

  lemma VisitUnanswered(script: Script, s0: Sys, before: seq<Step>, s: Sys, archive: bool, closeTime: bool)
    returns (steps: seq<Step>, t: Sys)
    requires Ran(script, s0, before, s) && script.Passing? && Visiting(s, 0) && s.procs[0].stage.Archive?
    requires archive == script.lookups.archive(s.procs[0].todo[0].id)
    requires closeTime == script.lookups.closeTime(s.procs[0].todo[0].id)
    ensures before <= steps && Ran(script, s0, steps, t)
    ensures var rec := s.procs[0].todo[0].rec; var applied := rec.hash.value in s.ledger.applied;
      t == Put(s, 0,
        if archive && applied
        then s.procs[0].(stage := Writing(Verdict(rec.hash.value, s.ledger, rec.scheme, rec.amount), true))
        else if archive && closeTime && Expired(rec, s.ledger)
        then s.procs[0].(stage := Writing(Refused(rec.hash, ExpiredUnconfirmed), false))
        else NextRow(s))
    ensures CalmRun(before, 0) && archive && closeTime ==> CalmRun(steps, 0)
  {
    var applied := s.procs[0].todo[0].rec.hash.value in s.ledger.applied;
    var answer := if !archive then NoAnswer else if applied then Found else NotFound;
    ArchiveStep(s, answer);
    ArchiveIsRun(script, s0, before, s, answer);
    steps, t := before + [AskArchive(0, answer)], Exec(s, AskArchive(0, answer));
    if archive && !applied {
      ExpiryStep(t, closeTime);
      ExpiryIsRun(script, s0, steps, t, closeTime);
      steps, t := steps + [ReadExpiry(0, closeTime)], Exec(t, ReadExpiry(0, closeTime));
    }
  }

  // One caller, nobody else running.
  function Alone(db: Db, ledger: Ledger): Sys { Sys(db, ledger, map[], []) }

  // A lone pass about to look at row k of its list.
  function PassAt(db: Db, ledger: Ledger, networks: set<string>, rows: seq<Row>, k: nat): Sys
    requires k <= |rows|
  {
    Sys(db, ledger, map[0 := Recovering(networks, rows[k..], Asking)], [])
  }

  lemma StartIsRun(script: Script, db: Db, ledger: Ledger, start: Step)
    requires start.Recover? && start.pid == 0 && Enabled(Alone(db, ledger), start)
    requires script.Passing? && script.networks == start.networks
    ensures Ran(script, Alone(db, ledger), [start], PassAt(db, ledger, start.networks, Rows(db, start.ids), 0))
  {
    var s0 := Alone(db, ledger);
    var rows := Rows(db, start.ids);
    assert rows[0..] == rows;
    assert Ran(script, s0, [], s0);
    Extend(script, s0, [], s0, start);
    assert [] + [start] == [start];
  }

  function RowDone(db: Db, row: Row, ledger: Ledger, networks: set<string>, found: bool, archive: bool,
      closeTime: bool): Db
    requires row.rec.hash.Some? && (found ==> row.rec.hash.value in ledger.applied)
  {
    if row.rec.Network() in networks then Visit(db, row, ledger, found, archive, closeTime) else db
  }

  lemma SkipStep(s: Sys)
    requires InPass(s, 0) && s.procs[0].todo != [] && s.procs[0].stage.Asking?
    requires s.procs[0].todo[0].rec.Network() !in s.procs[0].networks
    ensures Enabled(s, SkipForeign(0)) && Exec(s, SkipForeign(0)) == Put(s, 0, NextRow(s))
  {
  }

  // The row a lone pass is at, and what is left when it is done.
  lemma RowIsNext(db: Db, done: Db, ledger: Ledger, networks: set<string>, rows: seq<Row>, k: nat)
    requires k < |rows| && rows[k].rec.hash.Some?
    ensures var s := PassAt(db, ledger, networks, rows, k);
      && InPass(s, 0) && s.procs[0].todo != [] && s.procs[0].todo[0] == rows[k]
      && (rows[k].rec.Network() in networks ==> Looking(s))
      && Put(s, 0, NextRow(s)).(db := done) == PassAt(done, ledger, networks, rows, k + 1)
  {
    var s := PassAt(db, ledger, networks, rows, k);
    assert rows[k..][0] == rows[k] && rows[k..][1..] == rows[k + 1..];
    assert Put(s, 0, NextRow(s)).procs == PassAt(done, ledger, networks, rows, k + 1).procs;
  }

  // One row of a lone pass, served or skipped.
  lemma RowIsRun(script: Script, s0: Sys, before: seq<Step>, db: Db, ledger: Ledger, networks: set<string>,
      rows: seq<Row>, k: nat, found: bool, archive: bool, closeTime: bool)
    returns (steps: seq<Step>)
    requires k < |rows| && rows[k].rec.hash.Some? && (found ==> rows[k].rec.hash.value in ledger.applied)
    requires Ran(script, s0, before, PassAt(db, ledger, networks, rows, k)) && script.Passing?
    requires archive == script.lookups.archive(rows[k].id) && closeTime == script.lookups.closeTime(rows[k].id)
    requires rows[k].rec.Network() in networks ==>
      (found <==> rows[k].rec.hash.value in ledger.applied && script.Asked(rows[k].id))
    ensures before <= steps
    ensures var done := RowDone(db, rows[k], ledger, networks, found, archive, closeTime);
      Ran(script, s0, steps, PassAt(done, ledger, networks, rows, k + 1))
    ensures CalmRun(before, 0) && archive && closeTime ==> CalmRun(steps, 0)
  {
    var s := PassAt(db, ledger, networks, rows, k);
    RowIsNext(db, RowDone(db, rows[k], ledger, networks, found, archive, closeTime), ledger, networks, rows, k);
    var t;
    if rows[k].rec.Network() in networks {
      steps, t := VisitIsRun(script, s0, before, s, found, archive, closeTime);
    } else {
      SkipStep(s);
      Extend(script, s0, before, s, SkipForeign(0));
      steps, t := before + [SkipForeign(0)], Exec(s, SkipForeign(0));
    }
  }

  // Truthful network: an envelope it answers ERROR to is not on the ledger already.
  predicate Truthful(ledger: Ledger, world: Outside) {
    world.prepared.Built? && world.Rejected() ==> HashOf(world.prepared.prepared.envelope) !in ledger.applied
  }

  // What a claim says of the record of its key: it conflicts exactly on another fingerprint or another amount, and
  // otherwise names that record, with its answer or, if there is none, perhaps its envelope.
  predicate Claims(rec: Record, id: nat, req: Request, result: ClaimResult) {
    && rec.key == req.key
    && (result.FingerprintConflict? <==> rec.fingerprint != req.fingerprint)
    && (result.AmountConflict? <==>
          rec.fingerprint == req.fingerprint && rec.amount.Some? && rec.amount.value != req.amount)
    && (result.FingerprintConflict? || result.AmountConflict? || result.id == id)
    && (result.Owner? || result.Wait? || result.Resume? ==> rec.response.None?)
    && (result.Cached? ==> rec.response == Some(result.response))
    && (result.Resume? ==> rec.hash.Some?)
  }

  // A claim leaves a record of its key, and says what stands there.
  lemma ClaimNames(db: Db, req: Request, workerId: string, now: nat, leaseUntil: nat)
    ensures var (claimed, result) := Claim(db, req, workerId, now, leaseUntil);
      var id := IndexOf(claimed.records, req.key);
      && id < |claimed.records| && Claims(claimed.records[id], id, req, result)
      && (result.FingerprintConflict? || result.AmountConflict? ==> claimed == Register(db, req))
  {
    var registered := Register(db, req);
    var id := IndexOf(registered.records, req.key);
    var claimed := Claim(db, req, workerId, now, leaseUntil).0;
    assert claimed.records[id].key == req.key;
    assert forall j | 0 <= j < id :: claimed.records[j].key == registered.records[j].key;
  }

  // The record keeps its request. A reply carries exactly the answer that was stored meanwhile.
  predicate Told(db: Db, id: nat, was: Record, reply: Reply) {
    && id < |db.records| && db.records[id].key == was.key
    && db.records[id].fingerprint == was.fingerprint && db.records[id].amount == was.amount
    && db.records[id].response == (if reply.Replied? then Some(reply.outcome) else was.response)
    && (reply.StatusUnknown? ==> db.records[id].hash == Some(reply.hash))
    && !reply.Conflict?
  }

  predicate EndsWith(steps: seq<Step>, last: Step) { steps != [] && steps[|steps| - 1] == last }

  // The reply that goes with the last step of a request.
  predicate Closes(steps: seq<Step>, reply: Reply, prepared: PrepareAnswer) {
    steps != [] && match steps[|steps| - 1]
      case Start(_, _, _, _, _) => reply.Conflict? || reply.Replied? || reply.Busy?
      case NoChannel(_) => reply.Busy?
      case Release(_) => if prepared.KeyMissing? then reply.KeyUnavailable? else reply.Busy?
      case PollTimeout(_) => reply.StatusUnknown?
      case _ => reply.Replied?
  }

  // A conflict is replied exactly for another fingerprint or amount. Any other reply carries an answer exactly if the
  // record has one, and the same one.
  predicate Concluded(rec: Record, req: Request, reply: Reply) {
    && rec.key == req.key
    && (reply.Conflict? <==>
          rec.fingerprint != req.fingerprint || (rec.amount.Some? && rec.amount.value != req.amount))
    && (!reply.Conflict? ==> rec.response == if reply.Replied? then Some(reply.outcome) else None)
    && (reply.StatusUnknown? ==> rec.hash == Some(reply.hash))
  }

  /* ---- A settlement request as a run ---- */

  function Lone(db: Db, ledger: Ledger, p: Proc, history: seq<StoreEvent>): Sys {
    Sys(db, ledger, map[0 := p], history)
  }

  function Over(db: Db, ledger: Ledger, history: seq<StoreEvent>): Sys { Sys(db, ledger, map[], history) }

  lemma Take(script: Script, s0: Sys, before: seq<Step>, s: Sys, step: Step, t: Sys)
    requires Ran(script, s0, before, s) && Enabled(s, step) && SingleOwner(s, step) && !step.ReadExpiry?
    requires script.Heeds(s, step)
    requires Exec(s, step) == t
    ensures Ran(script, s0, before + [step], t)
  {
    Extend(script, s0, before, s, step);
  }

  // The ledger after an envelope may have reached it.
  function AfterSend(ledger: Ledger, h: Hash, sent: SendAnswer, reached: bool): Ledger {
    var l := if reached then ledger.(submitted := ledger.submitted + {h}) else ledger;
    if sent.Error? || sent.UnwrittenError? then l.(rejected := l.rejected + {h}) else l
  }

  predicate CanLand(ledger: Ledger, h: Hash) {
    && h in ledger.submitted && h !in ledger.rejected && h !in ledger.applied
    && (h.envelope.maxTime.Some? ==> ledger.closeTime <= h.envelope.maxTime.value)
  }

  function Landed(ledger: Ledger, h: Hash, lands: Option<bool>): Ledger {
    if lands.Some? && CanLand(ledger, h) then ledger.(applied := ledger.applied[h := lands.value]) else ledger
  }

  lemma LandsIsRun(script: Script, s0: Sys, before: seq<Step>, db: Db, ledger: Ledger, p: Proc,
      history: seq<StoreEvent>, h: Hash, lands: Option<bool>)
    returns (steps: seq<Step>)
    requires Ran(script, s0, before, Lone(db, ledger, p, history)) && script.Settling? && script.world.lands == lands
    ensures Ran(script, s0, steps, Lone(db, Landed(ledger, h, lands), p, history))
  {
    steps := before;
    if lands.Some? && CanLand(ledger, h) {
      Take(script, s0, steps, Lone(db, ledger, p, history), Apply(h, lands.value),
          Lone(db, Landed(ledger, h, lands), p, history));
      steps := steps + [Apply(h, lands.value)];
    }
  }

  lemma StartClaimIsRun(script: Script, db: Db, ledger: Ledger, req: Request, workerId: string, now: nat,
      leaseUntil: nat)
    requires script.Settling? && script.req == req && script.worker == workerId
    requires script.now == now && script.until == leaseUntil
    ensures var (claimed, result) := Claim(db, req, workerId, now, leaseUntil);
      Ran(script, Alone(db, ledger), [Start(0, req, workerId, now, leaseUntil)],
        match result
        case Owner(id) => Lone(claimed, ledger, Claimed(req, id), [])
        case Resume(id) => Lone(claimed, ledger, Polling(req, Row(id, claimed.records[id])), [])
        case _ => Over(claimed, ledger, []))
  {
    var s0 := Alone(db, ledger);
    var step := Start(0, req, workerId, now, leaseUntil);
    assert Ran(script, s0, [], s0);
    Extend(script, s0, [], s0, step);
    assert [] + [step] == [step];
  }

  // A request after its claim.
  function Begun(db: Db, ledger: Ledger, req: Request, id: nat, claim: ClaimResult): Sys
    requires id < |db.records|
  {
    if claim.Owner? then Lone(db, ledger, Claimed(req, id), [])
    else if claim.Resume? then Lone(db, ledger, Polling(req, Row(id, db.records[id])), [])
    else Over(db, ledger, [])
  }

  lemma BeginIsRun(script: Script, db: Db, ledger: Ledger, req: Request, workerId: string, now: nat, leaseUntil: nat)
    requires script.Settling? && script.req == req && script.worker == workerId
    requires script.now == now && script.until == leaseUntil
    ensures var (claimed, result) := Claim(db, req, workerId, now, leaseUntil);
      var id := IndexOf(claimed.records, req.key);
      && id < |claimed.records| && Claims(claimed.records[id], id, req, result)
      && (result.FingerprintConflict? || result.AmountConflict? ==> claimed == Register(db, req))
      && Ran(script, Alone(db, ledger), [Start(0, req, workerId, now, leaseUntil)],
           Begun(claimed, ledger, req, id, result))
  {
    StartClaimIsRun(script, db, ledger, req, workerId, now, leaseUntil);
    ClaimNames(db, req, workerId, now, leaseUntil);
  }

  lemma LeaseIsRun(script: Script, s0: Sys, before: seq<Step>, db: Db, ledger: Ledger, req: Request, id: nat,
    cid: ChannelId, workerId: string, now: nat, leaseUntil: nat)
    requires Ran(script, s0, before, Lone(db, ledger, Claimed(req, id), []))
    requires script.Settling? && script.MayLease(cid) && script.worker == workerId
    requires script.now == now && script.until == leaseUntil
    requires cid in db.channels && cid.network == req.key.scope.network && Leasable(db.channels[cid], now)
    ensures Ran(script, s0, before + [TakeLease(0, cid, workerId, now, leaseUntil)],
      Lone(LeaseChannel(db, cid, workerId, leaseUntil), ledger,
          Holding(req, id, Lease(cid, db.channels[cid].token + 1)), []))
  {
    Take(script, s0, before, Lone(db, ledger, Claimed(req, id), []), TakeLease(0, cid, workerId, now, leaseUntil),
      Lone(LeaseChannel(db, cid, workerId, leaseUntil), ledger,
          Holding(req, id, Lease(cid, db.channels[cid].token + 1)), []));
  }

  lemma NoChannelIsRun(script: Script, s0: Sys, before: seq<Step>, db: Db, ledger: Ledger, req: Request, id: nat)
    requires Ran(script, s0, before, Lone(db, ledger, Claimed(req, id), [])) && script.Settling?
    requires forall cid :: cid in db.channels && script.MayLease(cid) ==> !Leasable(db.channels[cid], script.now)
    ensures Ran(script, s0, before + [NoChannel(0)], Over(db, ledger, []))
  {
    var s := Lone(db, ledger, Claimed(req, id), []);
    assert Exec(s, NoChannel(0)).procs == map[];
    Take(script, s0, before, s, NoChannel(0), Over(db, ledger, []));
  }

  // From the lease to the prepared envelope, or to the release of the lease.
  function AfterPrepare(req: Request, id: nat, lease: Lease, answer: PrepareAnswer): Proc {
    match answer
    case KeyMissing => Releasing(req, id, lease, None)
    case Declined(reason) => Releasing(req, id, lease, Some(reason))
    case Built(prepared) => Ready(req, id, lease, prepared)
  }

  lemma PrepareIsRun(script: Script, s0: Sys, before: seq<Step>, db: Db, ledger: Ledger, req: Request, id: nat,
      lease: Lease, answer: PrepareAnswer)
    requires Ran(script, s0, before, Lone(db, ledger, Holding(req, id, lease), []))
    requires script.Settling? && script.world.prepared == answer
    requires answer.Declined? ==> answer.reason.UnexpectedError? || answer.reason.VerificationFailed?
    ensures Ran(script, s0, before + [Prepare(0, answer)], Lone(db, ledger, AfterPrepare(req, id, lease, answer), []))
  {
    Take(script, s0, before, Lone(db, ledger, Holding(req, id, lease), []), Prepare(0, answer),
      Lone(db, ledger, AfterPrepare(req, id, lease, answer), []));
  }

  // Giving the lease back, and writing the refusal if there is one.
  function GivenUp(db: Db, id: nat, lease: Lease, refusal: Option<Reason>): Db {
    var freed := ReleaseChannel(db, lease);
    if refusal.Some? then Complete(freed, id, Refused(None, refusal.value), false) else freed
  }

  lemma ReleaseIs(db: Db, ledger: Ledger, req: Request, id: nat, lease: Lease, refusal: Option<Reason>)
    ensures var s := Lone(db, ledger, Releasing(req, id, lease, refusal), []);
      && Enabled(s, Release(0))
      && Exec(s, Release(0)) == (
        if refusal.Some? then Lone(ReleaseChannel(db, lease), ledger, Refusing(req, id, refusal.value), [])
        else Over(ReleaseChannel(db, lease), ledger, []))
  {
    assert Exec(Lone(db, ledger, Releasing(req, id, lease, None), []), Release(0)).procs == map[];
  }

  lemma RefuseIs(db: Db, ledger: Ledger, req: Request, id: nat, reason: Reason)
    ensures var s := Lone(db, ledger, Refusing(req, id, reason), []);
      Enabled(s, Refuse(0)) && Exec(s, Refuse(0)) == Over(Complete(db, id, Refused(None, reason), false), ledger, [])
  {
    assert Exec(Lone(db, ledger, Refusing(req, id, reason), []), Refuse(0)).procs == map[];
  }

  lemma GiveUpIsRun(script: Script, s0: Sys, before: seq<Step>, db: Db, ledger: Ledger, req: Request, id: nat,
      lease: Lease, refusal: Option<Reason>)
    returns (steps: seq<Step>)
    requires Ran(script, s0, before, Lone(db, ledger, Releasing(req, id, lease, refusal), [])) && script.Settling?
    ensures Ran(script, s0, steps, Over(GivenUp(db, id, lease, refusal), ledger, []))
    ensures EndsWith(steps, if refusal.Some? then Refuse(0) else Release(0))
  {
    var s := Lone(db, ledger, Releasing(req, id, lease, refusal), []);
    var freed := ReleaseChannel(db, lease);
    steps := before + [Release(0)];
    ReleaseIs(db, ledger, req, id, lease, refusal);
    if refusal.None? {
      Take(script, s0, before, s, Release(0), Over(freed, ledger, []));
    } else {
      var r := Lone(freed, ledger, Refusing(req, id, refusal.value), []);
      Take(script, s0, before, s, Release(0), r);
      RefuseIs(freed, ledger, req, id, refusal.value);
      Take(script, s0, steps, r, Refuse(0), Over(GivenUp(db, id, lease, refusal), ledger, []));
      steps := steps + [Refuse(0)];
    }
  }

  lemma StoreStepIs(db: Db, ledger: Ledger, req: Request, id: nat, lease: Lease, p: Prepared,
    day: nat, scope: string, limits: Limits)
    requires id < |db.records|
    ensures var s := Lone(db, ledger, Ready(req, id, lease, p), []);
      var t := Exec(s, Store(0, day, scope, limits));
      var result := StoreDecision(db, id, lease, p, day, scope, limits);
      && t.procs == map[0 := if result.Stored? then StoredIt(req, id) else Releasing(req, id, lease, Refusal(result))]
      && t.db == StorePrepared(db, id, lease, p, day, scope, limits) && t.ledger == ledger
      && (!result.Stored? ==> t.history == [])
  {
  }

  lemma StoreIsRun(script: Script, s0: Sys, before: seq<Step>, db: Db, ledger: Ledger, req: Request, id: nat,
      lease: Lease, p: Prepared, day: nat, scope: string, limits: Limits)
    returns (history: seq<StoreEvent>)
    requires script.Settling? && script.day == day && script.scope == scope && script.limits == limits
    requires Ran(script, s0, before, Lone(db, ledger, Ready(req, id, lease, p), [])) && id < |db.records|
    ensures var result := StoreDecision(db, id, lease, p, day, scope, limits);
      var stored := StorePrepared(db, id, lease, p, day, scope, limits);
      Ran(script, s0, before + [Store(0, day, scope, limits)],
        if result.Stored? then Lone(stored, ledger, StoredIt(req, id), history)
        else Lone(db, ledger, Releasing(req, id, lease, Refusal(result)), []))
  {
    var s := Lone(db, ledger, Ready(req, id, lease, p), []);
    var t := Exec(s, Store(0, day, scope, limits));
    history := t.history;
    StoreStepIs(db, ledger, req, id, lease, p, day, scope, limits);
    Take(script, s0, before, s, Store(0, day, scope, limits), t);
  }

  function Sending(req: Request, row: Row, sent: SendAnswer): Proc
    requires row.rec.hash.Some?
  {
    if sent.Error? then Finishing(row.id, Refused(row.rec.hash, SubmissionFailed), false)
    else Marking(req, row, sent.Accepted?)
  }

  lemma SendIs(db: Db, ledger: Ledger, req: Request, row: Row, history: seq<StoreEvent>, sent: SendAnswer,
      reached: bool)
    requires row.rec.hash.Some?
    requires sent.Error? || sent.UnwrittenError? ==> row.rec.hash.value !in ledger.applied
    ensures var s := Lone(db, ledger, Submit(req, row), history);
      Enabled(s, Send(0, sent, reached)) && Exec(s, Send(0, sent, reached))
        == Lone(db, AfterSend(ledger, row.rec.hash.value, sent, reached), Sending(req, row, sent), history)
  {
  }

  lemma SendOnlyIsRun(script: Script, s0: Sys, before: seq<Step>, db: Db, ledger: Ledger, req: Request, row: Row,
    history: seq<StoreEvent>, sent: SendAnswer, reached: bool)
    requires script.Settling? && script.world.Sent() == sent && script.world.reached == reached
    requires Ran(script, s0, before, Lone(db, ledger, Submit(req, row), history)) && row.rec.hash.Some?
    requires sent.Error? || sent.UnwrittenError? ==> row.rec.hash.value !in ledger.applied
    ensures Ran(script, s0, before + [Send(0, sent, reached)],
      Lone(db, AfterSend(ledger, row.rec.hash.value, sent, reached), Sending(req, row, sent), history))
  {
    SendIs(db, ledger, req, row, history, sent, reached);
    Take(script, s0, before, Lone(db, ledger, Submit(req, row), history), Send(0, sent, reached),
      Lone(db, AfterSend(ledger, row.rec.hash.value, sent, reached), Sending(req, row, sent), history));
  }

  lemma MarkIsRun(script: Script, s0: Sys, before: seq<Step>, db: Db, ledger: Ledger, req: Request, row: Row,
      pending: bool, history: seq<StoreEvent>)
    requires Ran(script, s0, before, Lone(db, ledger, Marking(req, row, pending), history)) && script.Settling?
    ensures Ran(script, s0, before + [Mark(0)],
      Lone(if pending then MarkPending(db, row.id) else MarkUnknown(db, row.id), ledger, Polling(req, row), history))
  {
    Take(script, s0, before, Lone(db, ledger, Marking(req, row, pending), history), Mark(0),
      Lone(if pending then MarkPending(db, row.id) else MarkUnknown(db, row.id), ledger, Polling(req, row), history));
  }

  lemma SendIsRun(script: Script, s0: Sys, before: seq<Step>, db: Db, ledger: Ledger, req: Request, row: Row,
      history: seq<StoreEvent>, sent: SendAnswer, reached: bool)
    returns (steps: seq<Step>)
    requires script.Settling? && script.world.Sent() == sent && script.world.reached == reached
    requires Ran(script, s0, before, Lone(db, ledger, Submit(req, row), history)) && row.rec.hash.Some?
    requires sent.Error? || sent.UnwrittenError? ==> row.rec.hash.value !in ledger.applied
    ensures sent.Error? ==> EndsWith(steps, Finish(0))
    ensures var l := AfterSend(ledger, row.rec.hash.value, sent, reached);
      Ran(script, s0, steps,
        if sent.Error? then Over(Complete(db, row.id, Refused(row.rec.hash, SubmissionFailed), false), l, history)
        else
          var marked := if sent.Accepted? then MarkPending(db, row.id) else MarkUnknown(db, row.id);
          Lone(marked, l, Polling(req, row), history))
  {
    var l := AfterSend(ledger, row.rec.hash.value, sent, reached);
    var sending := before + [Send(0, sent, reached)];
    SendOnlyIsRun(script, s0, before, db, ledger, req, row, history, sent, reached);
    if sent.Error? {
      FinishIsRun(script, s0, sending, db, l, Sending(req, row, sent), history);
      steps := sending + [Finish(0)];
    } else {
      MarkIsRun(script, s0, sending, db, l, req, row, sent.Accepted?, history);
      steps := sending + [Mark(0)];
    }
  }

  lemma FinishIsRun(script: Script, s0: Sys, before: seq<Step>, db: Db, ledger: Ledger, p: Proc,
      history: seq<StoreEvent>)
    requires p.Finishing? && Ran(script, s0, before, Lone(db, ledger, p, history)) && script.Settling?
    ensures Ran(script, s0, before + [Finish(0)], Over(Complete(db, p.id, p.outcome, p.ledgerApplied), ledger, history))
  {
    var s := Lone(db, ledger, p, history);
    assert Exec(s, Finish(0)).procs == map[];
    Take(script, s0, before, s, Finish(0), Over(Complete(db, p.id, p.outcome, p.ledgerApplied), ledger, history));
  }

  lemma PollIsRun(script: Script, s0: Sys, before: seq<Step>, db: Db, ledger: Ledger, req: Request, row: Row,
      history: seq<StoreEvent>, found: bool)
    returns (steps: seq<Step>)
    requires Ran(script, s0, before, Lone(db, ledger, Polling(req, row), history))
    requires script.Settling? && row.rec.hash.Some?
    requires found <==> row.rec.hash.value in ledger.applied && script.Polled()
    ensures EndsWith(steps, if found then Finish(0) else PollTimeout(0))
    ensures Ran(script, s0, steps, Over(
      if found
      then Complete(db, row.id, Verdict(row.rec.hash.value, ledger, req.scheme, Some(req.amount)), true)
      else MarkUnknown(db, row.id), ledger, history))
  {
    var s := Lone(db, ledger, Polling(req, row), history);
    if found {
      var m := Finishing(row.id, Verdict(row.rec.hash.value, ledger, req.scheme, Some(req.amount)), true);
      Take(script, s0, before, s, PollFound(0), Lone(db, ledger, m, history));
      FinishIsRun(script, s0, before + [PollFound(0)], db, ledger, m, history);
      steps := before + [PollFound(0)] + [Finish(0)];
    } else {
      assert Exec(s, PollTimeout(0)).procs == map[];
      Take(script, s0, before, s, PollTimeout(0), Over(MarkUnknown(db, row.id), ledger, history));
      steps := before + [PollTimeout(0)];
    }
  }

  class FacilitatorCore {
    const store: StateStore
    const instanceId: string
    // The networks this replica serves, and the channel keys it holds for each.
    const networks: set<string>
    const channels: map<string, set<string>>
    const attempts: nat
    const leaseMs: nat
    const limits: Limits

    constructor (store: StateStore, instanceId: string, networks: set<string>, channels: map<string, set<string>>,
                 attempts: nat, leaseMs: nat, limits: Limits)
      ensures this.store == store && this.instanceId == instanceId
      ensures this.networks == networks && this.channels == channels
      ensures this.attempts == attempts && this.leaseMs == leaseMs && this.limits == limits
    {
      this.store, this.instanceId, this.networks, this.channels := store, instanceId, networks, channels;
      this.attempts, this.leaseMs, this.limits := attempts, leaseMs, limits;
    }

    // What this replica does with a request, and what the world answers to it.
    ghost function ScriptOf(req: Request, now: nat, day: nat, scope: string, world: Outside): Script {
      Settling(req, instanceId, now, now + leaseMs, Known(req.key.scope.network), attempts, day, scope, limits, world)
    }

    function Known(network: string): set<string> { if network in channels then channels[network] else {} }

    // Polls until an answer or the deadline.
    method Poll(h: Hash, ledger: Ledger, answers: nat -> bool) returns (found: bool)
      ensures found <==> h in ledger.applied && exists k :: 0 <= k < attempts && answers(k)
    {
      for k := 0 to attempts
        invariant forall j :: 0 <= j < k ==> !(h in ledger.applied && answers(j))
      {
        if answers(k) && h in ledger.applied {
          return true;
        }
      }
      return false;
    }

    /* ---- A settlement request ---- */

    method PollKnown(req: Request, row: Row, ledger: Ledger, world: Outside,
                     ghost script: Script, ghost s0: Sys, ghost before: seq<Step>, ghost history: seq<StoreEvent>)
      returns (reply: Reply, ghost steps: seq<Step>)
      requires row.rec.hash.Some? && row.id < |store.records| && store.records[row.id].hash == row.rec.hash
      requires Ran(script, s0, before, Lone(store.Tables(), ledger, Polling(req, row), history))
      requires script.Settling? && script.world == world && script.attempts == attempts
      modifies store
      ensures Ran(script, s0, steps, Over(store.Tables(), ledger, history))
      ensures Told(store.Tables(), row.id, old(store.records[row.id]), reply)
      ensures Closes(steps, reply, world.prepared)
      ensures reply == (
        if row.rec.hash.value in ledger.applied && exists k :: 0 <= k < attempts && world.answers(k)
        then Replied(Verdict(row.rec.hash.value, ledger, req.scheme, Some(req.amount)))
        else StatusUnknown(row.rec.hash.value))
    {
      var h := row.rec.hash.value;
      var found := Poll(h, ledger, world.answers);
      steps := PollIsRun(script, s0, before, store.Tables(), ledger, req, row, history, found);
      if found {
        var outcome := Verdict(h, ledger, req.scheme, Some(req.amount));
        store.CompleteSettlement(row.id, outcome, true);
        return Replied(outcome), steps;
      }
      store.SetUnknown(row.id);
      return StatusUnknown(h), steps;
    }

    method SubmitPersisted(req: Request, row: Row, ledger: Ledger, world: Outside,
                           ghost script: Script, ghost s0: Sys, ghost before: seq<Step>, ghost history: seq<StoreEvent>)
      returns (reply: Reply, after: Ledger, ghost steps: seq<Step>)
      requires row.rec.hash.Some? && row.id < |store.records| && store.records[row.id].hash == row.rec.hash
      requires Ran(script, s0, before, Lone(store.Tables(), ledger, Submit(req, row), history))
      requires world.Rejected() ==> row.rec.hash.value !in ledger.applied
      requires script.Settling? && script.world == world && script.attempts == attempts
      modifies store
      ensures Ran(script, s0, steps, Over(store.Tables(), after, history))
      ensures Told(store.Tables(), row.id, old(store.records[row.id]), reply)
      ensures Closes(steps, reply, world.prepared)
    {
      var h := row.rec.hash.value;
      steps := SendIsRun(script, s0, before, store.Tables(), ledger, req, row, history, world.Sent(), world.reached);
      after := AfterSend(ledger, h, world.Sent(), world.reached);
      var status := world.first;
      if status.TryAgainLater? {
        status := world.second;
      }
      if status.ErrorStatus? && world.writes {
        var outcome := Refused(Some(h), SubmissionFailed);
        store.CompleteSettlement(row.id, outcome, false);
        return Replied(outcome), after, steps;
      }
      if status.Throws? || !world.writes {
        store.SetUnknown(row.id);
      } else {
        store.SetPending(row.id);
      }
      steps := LandsIsRun(script, s0, steps, store.Tables(), after, Polling(req, row), history, h, world.lands);
      after := Landed(after, h, world.lands);
      reply, steps := PollKnown(req, row, after, world, script, s0, steps, history);
    }

    // Gives the lease back and writes the refusal, if the attempt failed for a reason that is final.
    method GiveUp(req: Request, id: nat, lease: Lease, refusal: Option<Reason>, otherwise: Reply, ledger: Ledger,
                  ghost script: Script, ghost s0: Sys, ghost before: seq<Step>)
      returns (reply: Reply, ghost steps: seq<Step>)
      requires id < |store.records| && (otherwise.KeyUnavailable? || otherwise.Busy?)
      requires Ran(script, s0, before, Lone(store.Tables(), ledger, Releasing(req, id, lease, refusal), []))
      requires script.Settling?
      modifies store
      ensures Ran(script, s0, steps, Over(store.Tables(), ledger, []))
      ensures EndsWith(steps, if refusal.Some? then Refuse(0) else Release(0))
      ensures reply == if refusal.Some? then Replied(Refused(None, refusal.value)) else otherwise
      ensures Told(store.Tables(), id, old(store.records[id]), reply)
    {
      steps := GiveUpIsRun(script, s0, before, store.Tables(), ledger, req, id, lease, refusal);
      store.Release(lease);
      if refusal.None? {
        return otherwise, steps;
      }
      store.CompleteSettlement(id, Refused(None, refusal.value), false);
      return Replied(Refused(None, refusal.value)), steps;
    }

    // From the lease of a channel to the reply of an owner.
    method SettleOwned(req: Request, id: nat, now: nat, day: nat, scope: string, ledger: Ledger, world: Outside,
                       ghost script: Script, ghost s0: Sys, ghost before: seq<Step>)
      returns (reply: Reply, after: Ledger, ghost steps: seq<Step>, ghost history: seq<StoreEvent>)
      requires id < |store.records| && world.Plausible() && Truthful(ledger, world)
      requires Ran(script, s0, before, Lone(store.Tables(), ledger, Claimed(req, id), []))
      requires script == ScriptOf(req, now, day, scope, world)
      modifies store
      ensures Ran(script, s0, steps, Over(store.Tables(), after, history))
      ensures Told(store.Tables(), id, old(store.records[id]), reply)
      ensures Closes(steps, reply, world.prepared)
    {
      var lease;
      lease, steps := LeaseFor(req, id, now, world, ledger, script, s0, before);
      after, history := ledger, [];
      if lease.None? {
        return Busy, after, steps, history;
      }
      PrepareIsRun(script, s0, steps, store.Tables(), ledger, req, id, lease.value, world.prepared);
      steps := steps + [Prepare(0, world.prepared)];
      match world.prepared {
        case KeyMissing =>
          reply, steps := GiveUp(req, id, lease.value, None, KeyUnavailable, ledger, script, s0, steps);
        case Declined(reason) =>
          reply, steps := GiveUp(req, id, lease.value, Some(reason), Busy, ledger, script, s0, steps);
        case Built(prepared) =>
          reply, after, steps, history :=
            StoreAndSubmit(req, id, lease.value, prepared, day, scope, ledger, world, script, s0, steps);
      }
    }

    method LeaseFor(req: Request, id: nat, now: nat, world: Outside, ledger: Ledger,
                    ghost script: Script, ghost s0: Sys, ghost before: seq<Step>)
      returns (lease: Option<Lease>, ghost steps: seq<Step>)
      requires Ran(script, s0, before, Lone(store.Tables(), ledger, Claimed(req, id), []))
      requires script.Settling? && script == ScriptOf(req, now, script.day, script.scope, world)
      modifies store
      ensures lease.None? ==> EndsWith(steps, NoChannel(0))
      ensures Ran(script, s0, steps,
        if lease.Some? then Lone(store.Tables(), ledger, Holding(req, id, lease.value), [])
        else Over(store.Tables(), ledger, []))
      ensures store.records == old(store.records)
    {
      var network := req.key.scope.network;
      ghost var db := store.Tables();
      lease := store.Lease(network, instanceId, now, now + leaseMs, Known(network), world.locked);
      if lease.None? {
        NoChannelIsRun(script, s0, before, db, ledger, req, id);
        steps := before + [NoChannel(0)];
      } else {
        LeaseIsRun(script, s0, before, db, ledger, req, id, lease.value.id, instanceId, now, now + leaseMs);
        steps := before + [TakeLease(0, lease.value.id, instanceId, now, now + leaseMs)];
      }
    }

    method StoreAndSubmit(req: Request, id: nat, lease: Lease, prepared: Prepared, day: nat, scope: string,
                          ledger: Ledger, world: Outside, ghost script: Script, ghost s0: Sys, ghost before: seq<Step>)
      returns (reply: Reply, after: Ledger, ghost steps: seq<Step>, ghost history: seq<StoreEvent>)
      requires id < |store.records| && world.prepared == Built(prepared) && Truthful(ledger, world)
      requires Ran(script, s0, before, Lone(store.Tables(), ledger, Ready(req, id, lease, prepared), []))
      requires script.Settling? && script == ScriptOf(req, script.now, day, scope, world)
      modifies store
      ensures Ran(script, s0, steps, Over(store.Tables(), after, history))
      ensures Told(store.Tables(), id, old(store.records[id]), reply)
      ensures Closes(steps, reply, world.prepared)
    {
      history := StoreIsRun(script, s0, before, store.Tables(), ledger, req, id, lease, prepared, day, scope, limits);
      var stored := store.StorePreparedAndReserve(id, lease, prepared, day, scope, limits);
      steps := before + [Store(0, day, scope, limits)];
      if stored.Stored? {
        reply, after, steps := SubmitStored(req, id, ledger, world, script, s0, steps, history);
      } else {
        // A stale sequence leaves the claim open for a later attempt.
        reply, steps := GiveUp(req, id, lease, Refusal(stored), Busy, ledger, script, s0, steps);
        after, history := ledger, [];
      }
    }

    // Reads the stored record back and submits what it holds.
    method SubmitStored(req: Request, id: nat, ledger: Ledger, world: Outside,
                        ghost script: Script, ghost s0: Sys, ghost before: seq<Step>, ghost history: seq<StoreEvent>)
      returns (reply: Reply, after: Ledger, ghost steps: seq<Step>)
      requires id < |store.records| && store.records[id].hash.Some?
      requires world.Rejected() ==> store.records[id].hash.value !in ledger.applied
      requires Ran(script, s0, before, Lone(store.Tables(), ledger, StoredIt(req, id), history))
      requires script.Settling? && script.world == world && script.attempts == attempts
      modifies store
      ensures Ran(script, s0, steps, Over(store.Tables(), after, history))
      ensures Told(store.Tables(), id, old(store.records[id]), reply)
      ensures Closes(steps, reply, world.prepared)
    {
      var row := Row(id, store.records[id]);
      Take(script, s0, before, Lone(store.Tables(), ledger, StoredIt(req, id), history), ReadBack(0),
        Lone(store.Tables(), ledger, Submit(req, row), history));
      reply, after, steps := SubmitPersisted(req, row, ledger, world, script, s0, before + [ReadBack(0)], history);
    }

    // Polls what another attempt stored, or settles what was claimed.
    method Proceed(claim: ClaimResult, req: Request, now: nat, day: nat, scope: string, ledger: Ledger, world: Outside,
                   ghost script: Script, ghost s0: Sys, ghost before: seq<Step>)
      returns (reply: Reply, after: Ledger, ghost steps: seq<Step>, ghost history: seq<StoreEvent>)
      requires (claim.Owner? || claim.Resume?) && claim.id < |store.records|
      requires claim.Resume? ==> store.records[claim.id].hash.Some?
      requires world.Plausible() && Truthful(ledger, world) && script == ScriptOf(req, now, day, scope, world)
      requires Ran(script, s0, before, Lone(store.Tables(), ledger,
        if claim.Owner? then Claimed(req, claim.id) else Polling(req, Row(claim.id, store.records[claim.id])), []))
      modifies store
      ensures Ran(script, s0, steps, Over(store.Tables(), after, history))
      ensures Told(store.Tables(), claim.id, old(store.records[claim.id]), reply)
      ensures Closes(steps, reply, world.prepared)
    {
      if claim.Resume? {
        after, history := ledger, [];
        reply, steps := PollKnown(req, Row(claim.id, store.records[claim.id]), ledger, world, script, s0, before, []);
      } else {
        reply, after, steps, history := SettleOwned(req, claim.id, now, day, scope, ledger, world, script, s0, before);
      }
    }

    // The claim as the first step of a run, with what it says of the record.
    method Begin(req: Request, now: nat, ledger: Ledger, ghost script: Script)
      returns (claim: ClaimResult, ghost id: nat, ghost first: seq<Step>)
      requires script.Settling? && script == ScriptOf(req, now, script.day, script.scope, script.world)
      modifies store
      ensures id < |store.records| && Claims(store.records[id], id, req, claim)
      ensures claim.FingerprintConflict? || claim.AmountConflict? ==>
        store.Tables() == Register(old(store.Tables()), req)
      ensures first == [Start(0, req, instanceId, now, now + leaseMs)]
      ensures Ran(script, Alone(old(store.Tables()), ledger), first, Begun(store.Tables(), ledger, req, id, claim))
    {
      BeginIsRun(script, store.Tables(), ledger, req, instanceId, now, now + leaseMs);
      claim := store.ClaimSettlement(req, instanceId, now, now + leaseMs);
      id, first := IndexOf(store.records, req.key), [Start(0, req, instanceId, now, now + leaseMs)];
    }

    // The claim, and what it leads to.
    method Attempt(req: Request, now: nat, day: nat, scope: string, ledger: Ledger, world: Outside)
      returns (reply: Reply, after: Ledger, ghost id: nat, ghost steps: seq<Step>, ghost history: seq<StoreEvent>)
      requires world.Plausible() && Truthful(ledger, world)
      modifies store
      ensures Ran(ScriptOf(req, now, day, scope, world), Alone(old(store.Tables()), ledger), steps,
        Over(store.Tables(), after, history))
      ensures id < |store.records| && Concluded(store.records[id], req, reply)
      ensures reply.Conflict? ==> store.Tables() == Register(old(store.Tables()), req) && after == ledger
      ensures Closes(steps, reply, world.prepared)
    {
      ghost var s0 := Alone(store.Tables(), ledger);
      ghost var script := ScriptOf(req, now, day, scope, world);
      var claim;
      after, history := ledger, [];
      claim, id, steps := Begin(req, now, ledger, script);
      match claim {
        case FingerprintConflict => reply := Conflict;
        case AmountConflict => reply := Conflict;
        case Cached(_, response) => reply := Replied(response);
        case Wait(_) => reply := Busy;
        case _ =>
          reply, after, steps, history :=
            Proceed(claim, req, now, day, scope, ledger, world, script, s0, steps);
      }
    }

    // The whole request. What it does to tables and ledger is the run of one process that heeds what the world
    // answers, to its end: no other step, no crash, no step left out. The reply fits that end; it is a conflict
    // exactly for another fingerprint or amount, and otherwise carries an answer exactly if the record has one,
    // the same one, and a true one.
    method RunSettle(req: Request, now: nat, day: nat, scope: string, ledger: Ledger, world: Outside)
      returns (reply: Reply, after: Ledger, ghost id: nat, ghost steps: seq<Step>, ghost history: seq<StoreEvent>)
      requires Inv(Alone(store.Tables(), ledger)) && world.Plausible() && Truthful(ledger, world)
      modifies store
      ensures Ran(ScriptOf(req, now, day, scope, world), Alone(old(store.Tables()), ledger), steps,
        Over(store.Tables(), after, history))
      ensures Inv(Over(store.Tables(), after, history))
      ensures id < |store.records| && Concluded(store.records[id], req, reply)
      ensures reply.Replied? ==> Truth(store.records[id], reply.outcome, after)
      ensures reply.Conflict? ==> store.Tables() == Register(old(store.Tables()), req) && after == ledger
      ensures Closes(steps, reply, world.prepared)
    {
      ghost var db0, script := store.Tables(), ScriptOf(req, now, day, scope, world);
      reply, after, id, steps, history := Attempt(req, now, day, scope, ledger, world);
      EndsTrue(script, db0, ledger, steps, store.Tables(), after, history, id);
    }

    // What is stored at the end of a lone request is true of the ledger.
    static lemma EndsTrue(script: Script, db0: Db, ledger: Ledger, steps: seq<Step>, db: Db, after: Ledger,
        history: seq<StoreEvent>, id: nat)
      requires Inv(Alone(db0, ledger)) && Ran(script, Alone(db0, ledger), steps, Over(db, after, history))
      requires id < |db.records|
      ensures Inv(Over(db, after, history))
      ensures db.records[id].response.Some? ==> Truth(db.records[id], db.records[id].response.value, after)
    {
      SingleOwnerIsGuarded(Alone(db0, ledger), steps);
      RunKeeps(Alone(db0, ledger), steps);
      assert AnswerOk(db, after, id);
    }

    /* ---- Recovery ---- */

    // One record of a pass.
    method PollRecordWithoutRequest(row: Row, ledger: Ledger, lookups: Lookups) returns (found: bool)
      requires row.rec.hash.Some?
      modifies store
      ensures found <==>
        row.rec.hash.value in ledger.applied && exists k :: 0 <= k < attempts && lookups.answers(row.id, k)
      ensures store.Tables() ==
        Visit(old(store.Tables()), row, ledger, found, lookups.archive(row.id), lookups.closeTime(row.id))
    {
      var h := row.rec.hash.value;
      var answers := (k: nat) => lookups.answers(row.id, k);
      found := Poll(h, ledger, answers);
      assert forall k: nat :: answers(k) == lookups.answers(row.id, k);
      if !found {
        if !lookups.archive(row.id) {
          return;
        }
        if h !in ledger.applied {
          if lookups.closeTime(row.id) && Expired(row.rec, ledger) {
            store.CompleteSettlement(row.id, Refused(Some(h), ExpiredUnconfirmed), false);
          }
          return;
        }
      }
      store.CompleteSettlement(row.id, Verdict(h, ledger, row.rec.scheme, row.rec.amount), true);
    }

    // One pass over everything unresolved. When every lookup answers and every stored envelope is
    // past its maximum time, nothing of a served network is left waiting or quarantined.
    method RecoverUnresolved(ledger: Ledger, lookups: Lookups) returns (ghost steps: seq<Step>, ghost t: Sys)
      requires Agree(store.Tables()) && Answers(store.Tables(), ledger) && Amounts(store.Tables()) && LedgerOk(ledger)
      modifies store
      ensures Ran(Passing(networks, attempts, lookups), Alone(old(store.Tables()), ledger), steps, t)
      ensures InPass(t, 0) && t.procs[0].todo == [] && t.db == store.Tables() && Inv(t)
      ensures lookups.Complete() && AllExpired(old(store.Tables()), ledger) ==> Drained(store.Tables(), networks)
    {
      ghost var db0 := store.Tables();
      var ids := store.ListUnresolved();
      assert forall k | 0 <= k < |ids| :: ids[k] in ids;
      var rows := Rows(store.Tables(), ids);
      ghost var start := Recover(0, networks, ids);
      ghost var script := Passing(networks, attempts, lookups);
      RowsHaveHashes(db0, ids);
      StartIsRun(script, db0, ledger, start);
      steps := [start];
      for k := 0 to |rows|
        invariant Ran(script, Alone(db0, ledger), steps, PassAt(store.Tables(), ledger, networks, rows, k))
        invariant [start] <= steps
        invariant lookups.Complete() ==> CalmRun(steps, 0)
      {
        var row := rows[k];
        var found := false;
        ghost var db := store.Tables();
        if row.rec.hash.Some? && row.rec.Network() in networks {
          found := PollRecordWithoutRequest(row, ledger, lookups);
        }
        steps := RowIsRun(script, Alone(db0, ledger), steps, db, ledger, networks, rows, k,
          found, lookups.archive(row.id), lookups.closeTime(row.id));
      }
      t := PassAt(store.Tables(), ledger, networks, rows, |rows|);
      PassEnds(script, db0, ledger, start, steps, t, lookups);
    }

    static lemma RowsHaveHashes(db: Db, ids: seq<nat>)
      requires Agree(db)
      requires forall k :: 0 <= k < |ids| ==> ids[k] < |db.records| && db.records[ids[k]].Listed()
      ensures forall k :: 0 <= k < |ids| ==> Rows(db, ids)[k].rec.hash.Some?
    {
      forall k | 0 <= k < |ids| ensures Rows(db, ids)[k].rec.hash.Some? {
        assert RecordOk(db, ids[k]);
      }
    }

    static lemma PassEnds(script: Script, db0: Db, ledger: Ledger, start: Step, steps: seq<Step>, t: Sys,
        lookups: Lookups)
      requires Inv(Alone(db0, ledger)) && start.Recover? && start.pid == 0 && Enabled(Alone(db0, ledger), start)
      requires Ran(script, Alone(db0, ledger), steps, t) && [start] <= steps
      requires InPass(t, 0) && t.procs[0].todo == []
      requires lookups.Complete() ==> CalmRun(steps, 0)
      ensures Inv(t)
      ensures lookups.Complete() && AllExpired(db0, ledger) ==> Drained(t.db, start.networks)
    {
      var s0 := Alone(db0, ledger);
      SingleOwnerIsGuarded(s0, steps);
      RunKeeps(s0, steps);
      if lookups.Complete() && AllExpired(db0, ledger) {
        assert steps[0] == start && forall k | 0 <= k < |steps| - 1 :: steps[1..][k] == steps[k + 1];
        forall k | 0 <= k < |start.ids| ensures Expired(Rows(db0, start.ids)[k].rec, ledger) {
          assert db0.records[start.ids[k]].Listed();
        }
        GuardedIsGuardedBeside(Exec(s0, start), steps[1..], 0);
        PassDrainsFrom(s0, start, steps[1..]);
      }
    }
  }
}
