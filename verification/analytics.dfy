/**
 Payment events and the daily totals that are kept beside them, one call at a time: when the totals
 are what a recount of the events would give.
 */
module Analytics {
  import opened Wrappers

  datatype Stage = Verified | Settled
  datatype Status = Valid | Invalid | Success | Failed | Unknown
  datatype Group = Group(network: string, scheme: string, asset: string, payTo: string)

  datatype Event = Event(
    settlement: Option<nat>, stage: Stage, status: Status, group: Group, amount: Option<nat>, fee: Option<nat>)

  // A fact keeps the day it was first recorded on.
  datatype Fact = Fact(event: Event, day: nat)

  datatype Cell = Cell(day: nat, group: Group, status: Status)
  datatype Total = Total(transactions: int, amount: int, fee: int)

  const NOTHING := Total(0, 0, 0)

  datatype Books = Books(facts: seq<Fact>, totals: map<Cell, Total>)

  function Plus(a: Total, b: Total): Total {
    Total(a.transactions + b.transactions, a.amount + b.amount, a.fee + b.fee)
  }

  function Minus(a: Total, b: Total): Total {
    Total(a.transactions - b.transactions, a.amount - b.amount, a.fee - b.fee)
  }

  function Share(e: Event): Total { Total(1, e.amount.GetOr(0), e.fee.GetOr(0)) }

  function CellOf(f: Fact): Cell { Cell(f.day, f.event.group, f.event.status) }

  /* ---- The recount ---- */

  function Part(f: Fact, cell: Cell): Total {
    if f.event.stage.Settled? && CellOf(f) == cell then Share(f.event) else NOTHING
  }

  function Recount(facts: seq<Fact>, cell: Cell): Total {
    if facts == [] then NOTHING
    else Plus(Recount(facts[..|facts| - 1], cell), Part(facts[|facts| - 1], cell))
  }

  function Kept(totals: map<Cell, Total>, cell: Cell): Total {
    if cell in totals then totals[cell] else NOTHING
  }

  ghost predicate Agree(b: Books) {
    forall cell :: Kept(b.totals, cell) == Recount(b.facts, cell)
  }

  predicate OneFactEach(facts: seq<Fact>) {
    forall i, j :: 0 <= i < j < |facts| && facts[i].event.settlement.Some? ==>
      (facts[i].event.settlement, facts[i].event.stage) != (facts[j].event.settlement, facts[j].event.stage)
  }

  /* ---- One call ---- */

  // The fact of the same settlement and stage, or the number of facts.
  function Find(facts: seq<Fact>, e: Event): (i: nat)
    ensures i <= |facts|
    ensures i < |facts| ==>
      e.settlement.Some? && facts[i].event.settlement == e.settlement && facts[i].event.stage == e.stage
    ensures e.settlement.Some? ==>
      forall j :: 0 <= j < i ==> (facts[j].event.settlement, facts[j].event.stage) != (e.settlement, e.stage)
  {
    if facts == [] then 0
    else if e.settlement.Some? && facts[0].event.settlement == e.settlement && facts[0].event.stage == e.stage then 0
    else 1 + Find(facts[1..], e)
  }

  // On conflict only the outcome is rewritten; day and group stay.
  function Rewritten(f: Fact, e: Event): Fact {
    f.(event := f.event.(status := e.status, amount := e.amount, fee := e.fee))
  }

  function Taken(totals: map<Cell, Total>, f: Fact): map<Cell, Total> {
    var cell := CellOf(f);
    if cell in totals then totals[cell := Minus(totals[cell], Share(f.event))] else totals
  }

  function Added(totals: map<Cell, Total>, e: Event, today: nat): map<Cell, Total> {
    var cell := Cell(today, e.group, e.status);
    totals[cell := Plus(Kept(totals, cell), Share(e))]
  }

  function Record(b: Books, e: Event, today: nat): Books {
    var i := Find(b.facts, e);
    var facts := if i < |b.facts| then b.facts[i := Rewritten(b.facts[i], e)] else b.facts + [Fact(e, today)];
    if e.stage.Verified? then b.(facts := facts)
    else
      var totals := if i < |b.facts| then Taken(b.totals, b.facts[i]) else b.totals;
      Books(facts, Added(totals, e, today))
  }

  // A settled fact is rewritten on its own day and in its own group.
  predicate InPlace(b: Books, e: Event, today: nat) {
    var i := Find(b.facts, e);
    e.stage.Settled? && i < |b.facts| ==> b.facts[i].day == today && b.facts[i].event.group == e.group
  }

  /* ---- Recounting after a write ---- */

  lemma RecountAppend(facts: seq<Fact>, f: Fact, cell: Cell)
    ensures Recount(facts + [f], cell) == Plus(Recount(facts, cell), Part(f, cell))
  {
    assert (facts + [f])[..|facts|] == facts;
  }

  lemma {:induction false} RecountUpdate(facts: seq<Fact>, i: nat, f: Fact, cell: Cell)
    requires i < |facts|
    ensures Plus(Recount(facts[i := f], cell), Part(facts[i], cell)) == Plus(Recount(facts, cell), Part(f, cell))
  {
    var last, after := |facts| - 1, facts[i := f];
    assert Recount(after, cell) == Plus(Recount(after[..last], cell), Part(after[last], cell));
    assert Recount(facts, cell) == Plus(Recount(facts[..last], cell), Part(facts[last], cell));
    if i < last {
      RecountUpdate(facts[..last], i, f, cell);
      assert after[..last] == facts[..last][i := f];
    } else {
      assert after[..last] == facts[..last];
    }
  }

  lemma {:induction false} RecountCounts(facts: seq<Fact>, i: nat)
    requires i < |facts| && facts[i].event.stage.Settled?
    ensures Recount(facts, CellOf(facts[i])).transactions >= 1
    ensures forall cell :: Recount(facts, cell).transactions >= 0
  {
    RecountIsPositive(facts[..|facts| - 1]);
    RecountIsPositive(facts);
    if i < |facts| - 1 { RecountCounts(facts[..|facts| - 1], i); }
  }

  lemma {:induction false} RecountIsPositive(facts: seq<Fact>)
    ensures forall cell :: Recount(facts, cell).transactions >= 0
  {
    if facts != [] { RecountIsPositive(facts[..|facts| - 1]); }
  }

  lemma NothingIsNeutral(a: Total)
    ensures Plus(NOTHING, a) == a == Plus(a, NOTHING)
  {
  }

  lemma TakenKept(totals: map<Cell, Total>, f: Fact, cell: Cell)
    requires f.event.stage.Settled? && CellOf(f) in totals
    ensures Plus(Kept(Taken(totals, f), cell), Part(f, cell)) == Kept(totals, cell)
  {
    if CellOf(f) == cell {
      assert Kept(Taken(totals, f), cell) == Minus(totals[cell], Share(f.event)) && Part(f, cell) == Share(f.event);
    } else {
      assert Kept(Taken(totals, f), cell) == Kept(totals, cell) && Part(f, cell) == NOTHING;
      NothingIsNeutral(Kept(totals, cell));
    }
  }

  lemma AddedKept(totals: map<Cell, Total>, e: Event, today: nat, cell: Cell)
    requires e.stage.Settled?
    ensures Kept(Added(totals, e, today), cell) == Plus(Kept(totals, cell), Part(Fact(e, today), cell))
  {
    var f := Fact(e, today);
    if CellOf(f) == cell {
      assert Kept(Added(totals, e, today), cell) == Plus(Kept(totals, cell), Share(e)) && Part(f, cell) == Share(e);
    } else {
      assert Kept(Added(totals, e, today), cell) == Kept(totals, cell) && Part(f, cell) == NOTHING;
      NothingIsNeutral(Kept(totals, cell));
    }
  }

  // What the fact found before the call counted for in a cell.
  function Before(b: Books, e: Event, cell: Cell): Total {
    var i := Find(b.facts, e);
    if i < |b.facts| then Part(b.facts[i], cell) else NOTHING
  }

  // What it counts for after the call.
  function After(b: Books, e: Event, today: nat, cell: Cell): Total {
    var i := Find(b.facts, e);
    Part(if i < |b.facts| then Rewritten(b.facts[i], e) else Fact(e, today), cell)
  }

  lemma TakenThenAdded(left: Total, taken: Total, added: Total)
    ensures Plus(Plus(left, added), taken) == Plus(Plus(left, taken), added)
  {
  }

  lemma KeptAfter(b: Books, e: Event, today: nat, cell: Cell)
    requires Agree(b) && e.stage.Settled?
    ensures Plus(Kept(Record(b, e, today).totals, cell), Before(b, e, cell))
            == Plus(Kept(b.totals, cell), Part(Fact(e, today), cell))
  {
    var i := Find(b.facts, e);
    if i < |b.facts| {
      RecountCounts(b.facts, i);
      assert Kept(b.totals, CellOf(b.facts[i])) == Recount(b.facts, CellOf(b.facts[i]));
      TakenKept(b.totals, b.facts[i], cell);
      AddedKept(Taken(b.totals, b.facts[i]), e, today, cell);
      TakenThenAdded(Kept(Taken(b.totals, b.facts[i]), cell), Part(b.facts[i], cell), Part(Fact(e, today), cell));
    } else {
      AddedKept(b.totals, e, today, cell);
      NothingIsNeutral(Kept(Record(b, e, today).totals, cell));
    }
  }

  lemma RecountAfter(b: Books, e: Event, today: nat, cell: Cell)
    ensures Plus(Recount(Record(b, e, today).facts, cell), Before(b, e, cell))
            == Plus(Recount(b.facts, cell), After(b, e, today, cell))
  {
    var i := Find(b.facts, e);
    if i < |b.facts| {
      RecountUpdate(b.facts, i, Rewritten(b.facts[i], e), cell);
    } else {
      RecountAppend(b.facts, Fact(e, today), cell);
    }
  }

  lemma CancelTotals(a: Total, b: Total, more: Total, p: Total, q: Total, r: Total)
    requires Plus(a, more) == Plus(r, p) && Plus(b, more) == Plus(r, q)
    ensures a == b <==> p == q
  {
  }

  // One cell still agrees when the event counts in it as the fact now does.
  lemma CellAgreesIff(b: Books, e: Event, today: nat, cell: Cell)
    requires Agree(b) && e.stage.Settled?
    ensures Kept(Record(b, e, today).totals, cell) == Recount(Record(b, e, today).facts, cell)
            <==> Part(Fact(e, today), cell) == After(b, e, today, cell)
  {
    KeptAfter(b, e, today, cell);
    RecountAfter(b, e, today, cell);
    assert Kept(b.totals, cell) == Recount(b.facts, cell);
    CancelTotals(Kept(Record(b, e, today).totals, cell), Recount(Record(b, e, today).facts, cell), Before(b, e, cell),
                 Part(Fact(e, today), cell), After(b, e, today, cell), Recount(b.facts, cell));
  }

  lemma NothingCancels(a: Total, b: Total)
    requires Plus(a, NOTHING) == Plus(b, NOTHING)
    ensures a == b
  {
  }

  // An event before settlement counts nowhere.
  lemma VerifiedCountsNowhere(b: Books, e: Event, today: nat, cell: Cell)
    requires e.stage.Verified?
    ensures Recount(Record(b, e, today).facts, cell) == Recount(b.facts, cell)
    ensures Record(b, e, today).totals == b.totals
  {
    RecountAfter(b, e, today, cell);
    NothingCancels(Recount(Record(b, e, today).facts, cell), Recount(b.facts, cell));
  }

  // A call keeps the totals equal to the recount if and only if it writes a new fact, does not concern
  // the totals, or rewrites a fact on its own day and in its own group.
  lemma RecordAgreesIff(b: Books, e: Event, today: nat)
    requires Agree(b)
    ensures Agree(Record(b, e, today)) <==> InPlace(b, e, today)
  {
    if e.stage.Verified? {
      forall cell ensures Kept(Record(b, e, today).totals, cell) == Recount(Record(b, e, today).facts, cell) {
        VerifiedCountsNowhere(b, e, today, cell);
        assert Kept(b.totals, cell) == Recount(b.facts, cell);
      }
    } else if InPlace(b, e, today) {
      forall cell ensures Kept(Record(b, e, today).totals, cell) == Recount(Record(b, e, today).facts, cell) {
        CellAgreesIff(b, e, today, cell);
      }
    } else {
      CellAgreesIff(b, e, today, CellOf(Fact(e, today)));
    }
  }

  /* ---- Every history ---- */

  datatype Call = Call(event: Event, today: nat)

  function Run(b: Books, calls: seq<Call>): Books
    decreases |calls|
  {
    if calls == [] then b else Run(Record(b, calls[0].event, calls[0].today), calls[1..])
  }

  predicate AllInPlace(b: Books, calls: seq<Call>)
    decreases |calls|
  {
    calls == [] || (InPlace(b, calls[0].event, calls[0].today)
                    && AllInPlace(Record(b, calls[0].event, calls[0].today), calls[1..]))
  }

  // After any calls that rewrite facts in place, every daily row is the count and the sums of the
  // settled events of its day, group and status.
  lemma {:induction false} TotalsAreRecounts(b: Books, calls: seq<Call>)
    requires Agree(b) && AllInPlace(b, calls)
    ensures Agree(Run(b, calls))
    decreases |calls|
  {
    if calls != [] {
      RecordAgreesIff(b, calls[0].event, calls[0].today);
      TotalsAreRecounts(Record(b, calls[0].event, calls[0].today), calls[1..]);
    }
  }

  /* ---- What a daily row says ---- */

  predicate Counts(f: Fact, cell: Cell) {
    && f.event.stage == Settled && f.event.status == cell.status
    && f.day == cell.day && f.event.group == cell.group
  }

  // The settled facts of a day, group and status.
  function Counted(facts: seq<Fact>, cell: Cell): set<nat> {
    set i: nat | 0 <= i < |facts| && Counts(facts[i], cell)
  }

  function AmountOf(e: Event): nat {
    match e.amount
    case None => 0
    case Some(n) => n
  }

  function FeeOf(e: Event): nat {
    match e.fee
    case None => 0
    case Some(n) => n
  }

  function SumCounted(facts: seq<Fact>, cell: Cell, worth: Event -> nat): nat {
    if facts == [] then 0
    else
      var last := |facts| - 1;
      SumCounted(facts[..last], cell, worth) + if Counts(facts[last], cell) then worth(facts[last].event) else 0
  }

  lemma CountedAppend(facts: seq<Fact>, cell: Cell)
    requires facts != []
    ensures var last := |facts| - 1;
      |Counted(facts, cell)| == |Counted(facts[..last], cell)| + if Counts(facts[last], cell) then 1 else 0
  {
    var last: nat := |facts| - 1;
    var before := Counted(facts[..last], cell);
    assert last !in before;
    assert Counted(facts, cell) == before + if Counts(facts[last], cell) then {last} else {};
  }

  lemma {:induction false} RecountMeans(facts: seq<Fact>, cell: Cell)
    ensures var r := Recount(facts, cell);
      && r.transactions == |Counted(facts, cell)|
      && r.amount == SumCounted(facts, cell, AmountOf) && r.fee == SumCounted(facts, cell, FeeOf)
  {
    if facts == [] {
      assert Counted(facts, cell) == {};
    } else {
      RecountMeans(facts[..|facts| - 1], cell);
      CountedAppend(facts, cell);
    }
  }

  // After any calls that rewrite facts in place, every daily row counts the settled facts of its day,
  // group and status, sums their amounts and sums their fees, an absent one being 0; a cell without a row
  // has no such fact.
  lemma DailyRowsMean(calls: seq<Call>, cell: Cell)
    requires AllInPlace(Books([], map[]), calls)
    ensures var b := Run(Books([], map[]), calls);
      if cell in b.totals then
        && b.totals[cell].transactions == |Counted(b.facts, cell)|
        && b.totals[cell].amount == SumCounted(b.facts, cell, AmountOf)
        && b.totals[cell].fee == SumCounted(b.facts, cell, FeeOf)
      else Counted(b.facts, cell) == {}
  {
    var b := Run(Books([], map[]), calls);
    TotalsAreRecounts(Books([], map[]), calls);
    assert Kept(b.totals, cell) == Recount(b.facts, cell);
    RecountMeans(b.facts, cell);
  }

  /* ---- What a fact says ---- */

  predicate Reports(c: Call, settlement: nat, stage: Stage) {
    c.event.settlement == Some(settlement) && c.event.stage == stage
  }

  // The first and the last call about a settlement and stage.
  function FirstReport(calls: seq<Call>, settlement: nat, stage: Stage): Option<Call> {
    if calls == [] then None
    else if Reports(calls[0], settlement, stage) then Some(calls[0])
    else FirstReport(calls[1..], settlement, stage)
  }

  function LastReport(calls: seq<Call>, settlement: nat, stage: Stage): Option<Call> {
    if calls == [] then None
    else if Reports(calls[|calls| - 1], settlement, stage) then Some(calls[|calls| - 1])
    else LastReport(calls[..|calls| - 1], settlement, stage)
  }

  predicate About(f: Fact, settlement: nat, stage: Stage) {
    f.event.settlement == Some(settlement) && f.event.stage == stage
  }

  lemma {:induction false} RunEnds(b: Books, calls: seq<Call>, c: Call)
    ensures Run(b, calls + [c]) == Record(Run(b, calls), c.event, c.today)
    decreases |calls|
  {
    if calls == [] {
      assert (calls + [c])[1..] == [];
    } else {
      assert (calls + [c])[1..] == calls[1..] + [c];
      RunEnds(Record(b, calls[0].event, calls[0].today), calls[1..], c);
    }
  }

  lemma {:induction false} FirstReportEnds(calls: seq<Call>, c: Call, settlement: nat, stage: Stage)
    ensures FirstReport(calls + [c], settlement, stage)
            == if FirstReport(calls, settlement, stage).Some? then FirstReport(calls, settlement, stage)
               else if Reports(c, settlement, stage) then Some(c) else None
  {
    if calls == [] {
      assert (calls + [c])[1..] == [];
    } else {
      assert (calls + [c])[1..] == calls[1..] + [c];
      FirstReportEnds(calls[1..], c, settlement, stage);
    }
  }

  predicate HasFact(facts: seq<Fact>, settlement: nat, stage: Stage) {
    exists i :: 0 <= i < |facts| && About(facts[i], settlement, stage)
  }

  // Day and group of the first report, status, amount and fee of the last.
  predicate Follows(f: Fact, first: Call, last: Call) {
    && f.day == first.today && f.event.group == first.event.group && f.event.status == last.event.status
    && f.event.amount == last.event.amount && f.event.fee == last.event.fee
  }

  predicate AllFollow(facts: seq<Fact>, settlement: nat, stage: Stage, first: Option<Call>, last: Option<Call>) {
    && (first.Some? <==> last.Some?)
    && (first.Some? <==> HasFact(facts, settlement, stage))
    && forall i :: 0 <= i < |facts| && About(facts[i], settlement, stage) ==>
         first.Some? && last.Some? && Follows(facts[i], first.value, last.value)
  }

  lemma OtherReportsLeave(b: Books, c: Call, settlement: nat, stage: Stage, first: Option<Call>, last: Option<Call>)
    requires AllFollow(b.facts, settlement, stage, first, last) && !Reports(c, settlement, stage)
    ensures AllFollow(Record(b, c.event, c.today).facts, settlement, stage, first, last)
  {
    var facts := Record(b, c.event, c.today).facts;
    if HasFact(b.facts, settlement, stage) {
      var i :| 0 <= i < |b.facts| && About(b.facts[i], settlement, stage);
      assert About(facts[i], settlement, stage);
    }
  }

  lemma OwnReportIsFollowed(b: Books, c: Call, settlement: nat, stage: Stage, first: Option<Call>, last: Option<Call>)
    requires OneFactEach(b.facts)
    requires AllFollow(b.facts, settlement, stage, first, last) && Reports(c, settlement, stage)
    ensures AllFollow(Record(b, c.event, c.today).facts, settlement, stage,
      if first.Some? then first else Some(c), Some(c))
  {
    var i := Find(b.facts, c.event);
    var facts := Record(b, c.event, c.today).facts;
    assert i < |facts| && About(facts[i], settlement, stage);
    assert forall j | 0 <= j < |facts| && j != i :: !About(facts[j], settlement, stage);
  }

  // A settlement and stage has a fact if and only if it was reported, and any fact of it has the day and
  // the group of the first report and the status, the amount and the fee of the last.
  lemma {:induction false} FactsFollowReports(calls: seq<Call>, settlement: nat, stage: Stage)
    ensures AllFollow(Run(Books([], map[]), calls).facts, settlement, stage,
      FirstReport(calls, settlement, stage), LastReport(calls, settlement, stage))
    decreases |calls|
  {
    if calls != [] {
      var before, c := calls[..|calls| - 1], calls[|calls| - 1];
      var b := Run(Books([], map[]), before);
      assert calls == before + [c];
      FactsFollowReports(before, settlement, stage);
      FactsStayUnique(Books([], map[]), before);
      RunEnds(Books([], map[]), before, c);
      FirstReportEnds(before, c, settlement, stage);
      var first, last := FirstReport(before, settlement, stage), LastReport(before, settlement, stage);
      if Reports(c, settlement, stage) {
        OwnReportIsFollowed(b, c, settlement, stage, first, last);
      } else {
        OtherReportsLeave(b, c, settlement, stage, first, last);
      }
    }
  }

  // A settlement whose outcome is unknown on one day and known on the next: its success is counted on
  // the second day, its fact stays on the first, and the totals are off from then on.
  lemma AcrossMidnight(settlement: nat, g: Group, day: nat)
    ensures var unknown := Event(Some(settlement), Settled, Unknown, g, None, None);
      var success := unknown.(status := Success);
      var first := Record(Books([], map[]), unknown, day);
      Agree(first) && !Agree(Record(first, success, day + 1))
  {
    var unknown := Event(Some(settlement), Settled, Unknown, g, None, None);
    var first := Record(Books([], map[]), unknown, day);
    RecordAgreesIff(Books([], map[]), unknown, day);
    assert first.facts == [Fact(unknown, day)];
    RecordAgreesIff(first, unknown.(status := Success), day + 1);
  }

  // A settlement and stage has one fact, so a settlement that is reported again is never counted twice.
  lemma {:induction false} FactsStayUnique(b: Books, calls: seq<Call>)
    requires OneFactEach(b.facts)
    ensures OneFactEach(Run(b, calls).facts)
    decreases |calls|
  {
    if calls != [] {
      var e, today := calls[0].event, calls[0].today;
      var i := Find(b.facts, e);
      var after := Record(b, e, today);
      assert OneFactEach(after.facts) by {
        forall j, k | 0 <= j < k < |after.facts| && after.facts[j].event.settlement.Some?
          ensures (after.facts[j].event.settlement, after.facts[j].event.stage)
            != (after.facts[k].event.settlement, after.facts[k].event.stage)
        {
          if k < |b.facts| {
            assert (b.facts[j].event.settlement, b.facts[j].event.stage)
              != (b.facts[k].event.settlement, b.facts[k].event.stage);
          }
        }
      }
      FactsStayUnique(after, calls[1..]);
    }
  }

  class AnalyticsStore {
    var facts: seq<Fact>
    var totals: map<Cell, Total>

    constructor ()
      ensures Tables() == Books([], map[]) && Agree(Tables())
    {
      facts, totals := [], map[];
    }

    function Tables(): Books
      reads this
    {
      Books(facts, totals)
    }

    method FindFact(e: Event) returns (i: nat)
      ensures i == Find(facts, e)
    {
      i := 0;
      while i < |facts|
            && !(e.settlement.Some? && facts[i].event.settlement == e.settlement && facts[i].event.stage == e.stage)
        invariant i <= |facts| && Find(facts, e) == i + Find(facts[i..], e)
      {
        assert facts[i..][1..] == facts[i + 1..];
        i := i + 1;
      }
    }

    method RecordEvent(e: Event, today: nat)
      modifies this
      ensures Tables() == Record(old(Tables()), e, today)
    {
      var i := FindFact(e);
      var previous := if i < |facts| then Some(facts[i]) else None;
      if previous.Some? {
        facts := facts[i := Rewritten(facts[i], e)];
      } else {
        facts := facts + [Fact(e, today)];
      }
      if e.stage.Settled? {
        if previous.Some? {
          TakeOut(previous.value);
        }
        AddIn(e, today);
      }
    }

    // The update of the daily row the fact was counted in.
    method TakeOut(f: Fact)
      modifies this`totals
      ensures totals == Taken(old(totals), f)
    {
      var cell := CellOf(f);
      if cell in totals {
        totals := totals[cell := Minus(totals[cell], Share(f.event))];
      }
    }

    // The upsert of today's daily row.
    method AddIn(e: Event, today: nat)
      modifies this`totals
      ensures totals == Added(old(totals), e, today)
    {
      var cell := Cell(today, e.group, e.status);
      if cell in totals {
        totals := totals[cell := Plus(totals[cell], Share(e))];
      } else {
        totals := totals[cell := Share(e)];
      }
    }
  }
}
