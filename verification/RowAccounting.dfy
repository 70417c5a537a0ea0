// Reading a production-gate report (scripts/_matrix_concurrency_accounting.py): how
// many rows ended how, and the concurrency that governed each tier. A field that
// does not have the expected JSON type is None.
module RowAccounting {
  import opened Common

  datatype Counts = Counts(
    passed: Option<int>, failed: Option<int>, errors: Option<int>, skipped: Option<int>, xfailed: Option<int>)

  // The statuses the reader tells apart; anything else is unmodelled.
  datatype Status = Pass | Fail | Blocked | NotStarted | Interrupted | Timeout | Unmodelled

  datatype Case = NotACase | Case(status: Status, counts: Option<Counts>)

  datatype Tier =
    | NotATier
    | Tier(name: string, status: Status, counts: Option<Counts>, cases: Option<seq<Case>>, selected: Option<seq<string>>)

  datatype Report = Report(tiers: Option<seq<Tier>>, admitted: Option<int>)

  datatype Totals = Totals(passing: nat, failed: nat, incomplete: nat, interrupted: nat, notStarted: nat)
  {
    function Plus(t: Totals): Totals {
      Totals(passing + t.passing, failed + t.failed, incomplete + t.incomplete,
             interrupted + t.interrupted, notStarted + t.notStarted)
    }

    function All(): nat { passing + failed + incomplete + interrupted + notStarted }

    predicate Clean() { failed == 0 && incomplete == 0 && interrupted == 0 && notStarted == 0 }
  }

  const ZERO := Totals(0, 0, 0, 0, 0)
  const INCOMPLETE := Totals(0, 0, 1, 0, 0)
  const NOT_STARTED := Totals(0, 0, 0, 0, 1)
  const INTERRUPTED := Totals(0, 0, 0, 1, 0)
  const TIMED_OUT := Totals(0, 1, 0, 0, 0)

  // A count that is not a non-negative integer reads as zero.
  function AsInt(v: Option<int>): nat {
    if v.Some? && v.value >= 0 then v.value else 0
  }

  function Counted(c: Counts): Totals {
    Totals(AsInt(c.passed), AsInt(c.failed) + AsInt(c.errors), 0, 0, AsInt(c.skipped) + AsInt(c.xfailed))
  }

  function CaseTotals(c: Case): Totals {
    match c
    case NotACase => INCOMPLETE
    case Case(status, counts) =>
      if status == Status.NotStarted then NOT_STARTED
      else if status == Status.Interrupted then INTERRUPTED
      else if status == Timeout then TIMED_OUT
      else if (status != Pass && status != Fail) || counts == None then INCOMPLETE
      else Counted(counts.value)
  }

  function AllCases(cases: seq<Case>): Totals {
    if cases == [] then ZERO else AllCases(cases[..|cases| - 1]).Plus(CaseTotals(cases[|cases| - 1]))
  }

  // The rows of one tier: case by case where it ran, as unstarted work where it was
  // blocked before dispatch, by its aggregate otherwise.
  function RowTotals(t: Tier): Totals
    requires t.Tier? && t.counts.Some?
  {
    if t.cases.Some? && t.cases.value != [] then AllCases(t.cases.value)
    else if t.status == Blocked then
      if t.selected.Some? && t.selected.value != [] then Totals(0, 0, 0, 0, |t.selected.value|) else INCOMPLETE
    else Counted(t.counts.value)
  }

  predicate Settled(status: Status) { status == Pass || status == Fail || status == Blocked }

  function TierTotals(t: Tier, wanted: set<string>): Totals {
    if t.NotATier? then INCOMPLETE
    else if t.name !in wanted then ZERO
    else if t.counts == None then INCOMPLETE
    else RowTotals(t).Plus(if Settled(t.status) then ZERO else INCOMPLETE)
  }

  function AllTiers(tiers: seq<Tier>, wanted: set<string>): Totals {
    if tiers == [] then ZERO else AllTiers(tiers[..|tiers| - 1], wanted).Plus(TierTotals(tiers[|tiers| - 1], wanted))
  }

  function Reported(tiers: seq<Tier>): set<string> { set t | t in tiers && t.Tier? :: t.name }

  // How many wanted tiers the report never mentions.
  function Missing(tiers: seq<Tier>, wanted: set<string>): nat { |wanted - Reported(tiers)| }

  function ListTotals(tiers: seq<Tier>, wanted: set<string>): Totals {
    AllTiers(tiers, wanted).Plus(Totals(0, 0, Missing(tiers, wanted), 0, 0))
  }

  function ReportTotals(r: Report, wanted: set<string>): Totals {
    if r.tiers.Some? then ListTotals(r.tiers.value, wanted) else INCOMPLETE
  }

  // The mutable totals of one report.
  class Tally {
    var completedPassing: nat
    var failed: nat
    var incomplete: nat
    var interrupted: nat
    var notStarted: nat

    constructor ()
      ensures Value() == ZERO
    {
      completedPassing, failed, incomplete, interrupted, notStarted := 0, 0, 0, 0, 0;
    }

    function Value(): Totals
      reads this
    {
      Totals(completedPassing, failed, incomplete, interrupted, notStarted)
    }

    method AddCounts(c: Counts)
      modifies this
      ensures Value() == old(Value()).Plus(Counted(c))
    {
      completedPassing := completedPassing + AsInt(c.passed);
      failed := failed + AsInt(c.failed) + AsInt(c.errors);
      notStarted := notStarted + AsInt(c.skipped) + AsInt(c.xfailed);
    }

    // One matrix row, whatever state it ended in.
    method AccumulateCase(c: Case)
      modifies this
      ensures Value() == old(Value()).Plus(CaseTotals(c))
    {
      if c.NotACase? {
        incomplete := incomplete + 1;
      } else if c.status == Status.NotStarted {
        notStarted := notStarted + 1;
      } else if c.status == Status.Interrupted {
        interrupted := interrupted + 1;
      } else if c.status == Timeout {
        failed := failed + 1;
      } else if c.status != Pass && c.status != Fail {
        incomplete := incomplete + 1;
      } else if c.counts == None {
        incomplete := incomplete + 1;
      } else {
        AddCounts(c.counts.value);
      }
    }

    method AccumulateCases(cases: seq<Case>)
      modifies this
      ensures Value() == old(Value()).Plus(AllCases(cases))
    {
      ghost var before := Value();
      assert before.Plus(ZERO) == before;
      hide CaseTotals, Totals.Plus, Value;
      for i := 0 to |cases|
        invariant Value() == before.Plus(AllCases(cases[..i]))
      {
        assert cases[..i + 1][..i] == cases[..i];
        AccumulateCase(cases[i]);
        PlusAssociates(before, AllCases(cases[..i]), CaseTotals(cases[i]));
      }
      assert cases[..|cases|] == cases;
    }

    method AccumulateRows(t: Tier)
      requires t.Tier? && t.counts.Some?
      modifies this
      ensures Value() == old(Value()).Plus(RowTotals(t))
    {
      if t.cases.Some? && t.cases.value != [] {
        AccumulateCases(t.cases.value);
      } else if t.status == Blocked {
        if t.selected.Some? && t.selected.value != [] {
          notStarted := notStarted + |t.selected.value|;
        } else {
          incomplete := incomplete + 1;
        }
      } else {
        AddCounts(t.counts.value);
      }
    }

    method AccumulateTier(t: Tier)
      requires t.Tier?
      modifies this
      ensures t.counts == None ==> Value() == old(Value()).Plus(INCOMPLETE)
      ensures t.counts.Some? ==>
        Value() == old(Value()).Plus(RowTotals(t).Plus(if Settled(t.status) then ZERO else INCOMPLETE))
    {
      if t.counts == None {
        incomplete := incomplete + 1;
        return;
      }
      AccumulateRows(t);
      hide RowTotals;
      if !Settled(t.status) {
        incomplete := incomplete + 1;
      }
    }
  }

  lemma PlusAssociates(a: Totals, b: Totals, c: Totals)
    ensures a.Plus(b).Plus(c) == a.Plus(b.Plus(c))
  {
  }

  method AccumulateEntry(tally: Tally, t: Tier, wanted: set<string>)
    modifies tally
    ensures tally.Value() == old(tally.Value()).Plus(TierTotals(t, wanted))
  {
    if t.NotATier? {
      tally.incomplete := tally.incomplete + 1;
    } else if t.name in wanted {
      tally.AccumulateTier(t);
    }
  }

  method TierCounts(r: Report, tiers: seq<string>) returns (totals: Totals)
    ensures totals == ReportTotals(r, set t | t in tiers)
  {
    var wanted := set t | t in tiers;
    var tally := new Tally();
    if r.tiers == None {
      tally.incomplete := tally.incomplete + 1;
      return tally.Value();
    }
    var payload := r.tiers.value;
    hide AllTiers, Missing, Reported;
    var seen := Fold(tally, payload, wanted);
    SameMissing(payload, wanted, seen);
    tally.incomplete := tally.incomplete + |wanted - seen|;
    totals := tally.Value();
  }

  lemma SameMissing(payload: seq<Tier>, wanted: set<string>, seen: set<string>)
    requires forall w :: w in wanted ==> (w in seen <==> w in Reported(payload))
    ensures |wanted - seen| == Missing(payload, wanted)
  {
    assert wanted - seen == wanted - Reported(payload);
  }

  method Fold(tally: Tally, payload: seq<Tier>, wanted: set<string>) returns (seen: set<string>)
    requires tally.Value() == ZERO
    modifies tally
    ensures tally.Value() == AllTiers(payload, wanted)
    ensures forall w :: w in wanted ==> (w in seen <==> w in Reported(payload))
  {
    hide TierTotals, Totals.Plus, Tally.Value;
    seen := {};
    for i := 0 to |payload|
      invariant tally.Value() == AllTiers(payload[..i], wanted)
      invariant forall w :: w in wanted ==> (w in seen <==> w in Reported(payload[..i]))
    {
      assert payload[..i + 1][..i] == payload[..i];
      ReportedGrows(payload, i);
      AccumulateEntry(tally, payload[i], wanted);
      if payload[i].Tier? && payload[i].name in wanted {
        seen := seen + {payload[i].name};
      }
    }
    assert payload[..|payload|] == payload;
  }

  lemma ReportedGrows(payload: seq<Tier>, i: nat)
    requires i < |payload|
    ensures Reported(payload[..i + 1]) == Reported(payload[..i]) + if payload[i].Tier? then {payload[i].name} else {}
  {
    assert payload[..i + 1] == payload[..i] + [payload[i]];
  }

  // ------------------------------------------------------- what clean totals mean

  predicate CleanCounts(c: Counts) {
    AsInt(c.failed) == 0 && AsInt(c.errors) == 0 && AsInt(c.skipped) == 0 && AsInt(c.xfailed) == 0
  }

  predicate CleanCase(c: Case) {
    c.Case? && (c.status == Pass || c.status == Fail) && c.counts.Some? && CleanCounts(c.counts.value)
  }

  // A reported tier nothing can be held against: a settled status, and rows that
  // all passed or failed with nothing failed, skipped or missing.
  predicate CleanTier(t: Tier) {
    && t.Tier? && t.counts.Some? && Settled(t.status)
    && (if t.cases.Some? && t.cases.value != [] then forall c :: c in t.cases.value ==> CleanCase(c)
        else t.status != Blocked && CleanCounts(t.counts.value))
  }

  lemma CleanOneCase(c: Case)
    ensures CaseTotals(c).Clean() <==> CleanCase(c)
  {
  }

  lemma CleanSum(a: Totals, b: Totals)
    ensures a.Plus(b).Clean() <==> a.Clean() && b.Clean()
    ensures a.Plus(b).All() == a.All() + b.All()
  {
  }

  lemma {:induction false} CleanCases(cases: seq<Case>)
    ensures AllCases(cases).Clean() <==> forall c :: c in cases ==> CleanCase(c)
  {
    assert ZERO.Clean();
    hide CaseTotals, CleanCase, Totals.Plus, Totals.Clean;
    if cases != [] {
      var init, last := cases[..|cases| - 1], cases[|cases| - 1];
      CleanCases(init);
      CleanOneCase(last);
      CleanSum(AllCases(init), CaseTotals(last));
      assert cases == init + [last];
    }
  }

  lemma CleanOneTier(t: Tier, wanted: set<string>)
    ensures TierTotals(t, wanted).Clean() <==> t.Tier? && (t.name in wanted ==> CleanTier(t))
  {
    if t.Tier? && t.cases.Some? { CleanCases(t.cases.value); }
  }

  lemma {:induction false} CleanTiers(tiers: seq<Tier>, wanted: set<string>)
    ensures AllTiers(tiers, wanted).Clean() <==> EntriesClean(tiers, wanted)
  {
    hide TierTotals, CleanTier, Totals.Plus;
    if tiers != [] {
      CleanTiers(tiers[..|tiers| - 1], wanted);
      CleanOneTier(tiers[|tiers| - 1], wanted);
      CleanSum(AllTiers(tiers[..|tiers| - 1], wanted), TierTotals(tiers[|tiers| - 1], wanted));
      assert tiers == tiers[..|tiers| - 1] + [tiers[|tiers| - 1]];
    }
  }

  predicate AllReported(tiers: seq<Tier>, wanted: set<string>) {
    forall w :: w in wanted ==> exists t :: t in tiers && t.Tier? && t.name == w
  }

  predicate EntriesClean(tiers: seq<Tier>, wanted: set<string>) {
    forall t :: t in tiers ==> t.Tier? && (t.name in wanted ==> CleanTier(t))
  }

  // Totals without a failed, incomplete, interrupted or unstarted row mean exactly
  // that every wanted tier was reported and every reported one is clean.
  lemma CleanTotalsExactly(r: Report, wanted: set<string>)
    ensures ReportTotals(r, wanted).Clean() <==>
      r.tiers.Some? && AllReported(r.tiers.value, wanted) && EntriesClean(r.tiers.value, wanted)
  {
    hide AllReported, EntriesClean, ListTotals;
    if r.tiers.Some? {
      CleanList(r.tiers.value, wanted);
    }
  }

  lemma CleanList(tiers: seq<Tier>, wanted: set<string>)
    ensures ListTotals(tiers, wanted).Clean() <==> AllReported(tiers, wanted) && EntriesClean(tiers, wanted)
  {
    hide AllReported, EntriesClean, AllTiers, Totals.Plus, Missing;
    CleanTiers(tiers, wanted);
    NoneMissing(tiers, wanted);
    CleanSum(AllTiers(tiers, wanted), Totals(0, 0, Missing(tiers, wanted), 0, 0));
  }

  lemma NoneMissing(tiers: seq<Tier>, wanted: set<string>)
    ensures Missing(tiers, wanted) == 0 <==> AllReported(tiers, wanted)
  {
    var missing := wanted - Reported(tiers);
    assert forall w :: w in wanted ==> (w in missing <==> w !in Reported(tiers));
    assert |missing| == 0 <==> missing == {};
  }

  // ------------------------------------------------------ each total as a count of rows

  // How many rows have a property, and what a number adds up to over them.
  function HowMany(cases: seq<Case>, p: Case -> bool): nat {
    if cases == [] then 0 else HowMany(cases[..|cases| - 1], p) + if p(cases[|cases| - 1]) then 1 else 0
  }

  function SumUp(cases: seq<Case>, f: Case -> nat): nat {
    if cases == [] then 0 else SumUp(cases[..|cases| - 1], f) + f(cases[|cases| - 1])
  }

  // A row that ran to an outcome and carries its own numbers.
  predicate Ran(c: Case) { c.Case? && (c.status == Pass || c.status == Fail) && c.counts.Some? }

  function OwnNumber(c: Case, v: Counts -> Option<int>): nat {
    if Ran(c) && v(c.counts.value).Some? && v(c.counts.value).value > 0 then v(c.counts.value).value else 0
  }

  // Interrupted and timed-out rows by status, unstarted ones by status and by their own
  // skips, rows no reader knows by what they lack, and everything else by its numbers.
  lemma {:induction false} CasesByStatus(cases: seq<Case>)
    ensures var t := AllCases(cases);
      && t.interrupted == HowMany(cases, (c: Case) => c.Case? && c.status == Status.Interrupted)
      && t.incomplete == HowMany(cases, (c: Case) => !c.Case? || c.status == Blocked || c.status == Unmodelled
           || ((c.status == Pass || c.status == Fail) && c.counts == None))
      && t.notStarted == HowMany(cases, (c: Case) => c.Case? && c.status == Status.NotStarted)
           + SumUp(cases, (c: Case) => OwnNumber(c, (n: Counts) => n.skipped) + OwnNumber(c, (n: Counts) => n.xfailed))
      && t.failed == HowMany(cases, (c: Case) => c.Case? && c.status == Timeout)
           + SumUp(cases, (c: Case) => OwnNumber(c, (n: Counts) => n.failed) + OwnNumber(c, (n: Counts) => n.errors))
      && t.passing == SumUp(cases, (c: Case) => OwnNumber(c, (n: Counts) => n.passed))
  {
    if cases != [] { CasesByStatus(cases[..|cases| - 1]); }
  }

  function Number(v: Option<int>): nat { if v.Some? && v.value > 0 then v.value else 0 }

  // An entry that cannot be read is one incomplete unit, one nobody asked for is nothing.
  lemma UnreadTier(t: Tier, wanted: set<string>)
    ensures t.NotATier? || (t.name in wanted && t.counts == None) ==> TierTotals(t, wanted) == Totals(0, 0, 1, 0, 0)
    ensures t.Tier? && t.name !in wanted ==> TierTotals(t, wanted) == Totals(0, 0, 0, 0, 0)
  {
    hide RowTotals;
  }

  // A wanted entry is its rows by status, or its selection as unstarted work, or its own
  // numbers, and one incomplete unit more if its status is not final.
  lemma ReadTier(t: Tier, wanted: set<string>)
    requires t.Tier? && t.name in wanted && t.counts.Some?
    ensures TierTotals(t, wanted)
      == RowTotals(t).(incomplete := RowTotals(t).incomplete
           + if t.status == Pass || t.status == Fail || t.status == Blocked then 0 else 1)
  {
    hide RowTotals;
  }

  lemma RowsOfTier(t: Tier)
    requires t.Tier? && t.counts.Some?
    ensures t.cases.Some? && t.cases.value != [] ==> RowTotals(t) == AllCases(t.cases.value)
    ensures (t.cases == None || t.cases.value == []) && t.status == Blocked ==>
      (if t.selected.Some? && t.selected.value != [] then RowTotals(t) == Totals(0, 0, 0, 0, |t.selected.value|)
       else RowTotals(t) == Totals(0, 0, 1, 0, 0))
    ensures (t.cases == None || t.cases.value == []) && t.status != Blocked ==>
      var n := t.counts.value;
      RowTotals(t) == Totals(Number(n.passed), Number(n.failed) + Number(n.errors), 0, 0, Number(n.skipped) + Number(n.xfailed))
  {
    hide AllCases;
  }

  function SumTiers(tiers: seq<Tier>, f: Tier -> nat): nat {
    if tiers == [] then 0 else SumTiers(tiers[..|tiers| - 1], f) + f(tiers[|tiers| - 1])
  }

  function Unnamed(tiers: seq<Tier>, wanted: set<string>): set<string> {
    set w | w in wanted && forall e :: e in tiers ==> !(e.Tier? && e.name == w)
  }

  // A report adds its entries field by field, and one incomplete unit for every wanted
  // tier that no entry names; without a list of tiers it is one incomplete unit.
  lemma ReportByField(r: Report, wanted: set<string>)
    ensures r.tiers == None ==> ReportTotals(r, wanted) == Totals(0, 0, 1, 0, 0)
    ensures r.tiers.Some? ==>
      var t, tiers := ReportTotals(r, wanted), r.tiers.value;
      && t.passing == SumTiers(tiers, (e: Tier) => TierTotals(e, wanted).passing)
      && t.failed == SumTiers(tiers, (e: Tier) => TierTotals(e, wanted).failed)
      && t.interrupted == SumTiers(tiers, (e: Tier) => TierTotals(e, wanted).interrupted)
      && t.notStarted == SumTiers(tiers, (e: Tier) => TierTotals(e, wanted).notStarted)
      && t.incomplete == SumTiers(tiers, (e: Tier) => TierTotals(e, wanted).incomplete)
           + |Unnamed(tiers, wanted)|
  {
    hide TierTotals;
    if r.tiers.Some? {
      TiersByField(r.tiers.value, wanted);
      assert wanted - Reported(r.tiers.value) == Unnamed(r.tiers.value, wanted);
    }
  }

  lemma {:induction false} TiersByField(tiers: seq<Tier>, wanted: set<string>)
    ensures var t := AllTiers(tiers, wanted);
      && t.passing == SumTiers(tiers, (e: Tier) => TierTotals(e, wanted).passing)
      && t.failed == SumTiers(tiers, (e: Tier) => TierTotals(e, wanted).failed)
      && t.interrupted == SumTiers(tiers, (e: Tier) => TierTotals(e, wanted).interrupted)
      && t.notStarted == SumTiers(tiers, (e: Tier) => TierTotals(e, wanted).notStarted)
      && t.incomplete == SumTiers(tiers, (e: Tier) => TierTotals(e, wanted).incomplete)
  {
    hide TierTotals;
    if tiers != [] { TiersByField(tiers[..|tiers| - 1], wanted); }
  }

  // ------------------------------------------------------------ no row is dropped

  predicate OneOutcome(c: Case) {
    c.Case? && c.counts.Some? && (c.status == Pass || c.status == Fail) ==> Counted(c.counts.value).All() == 1
  }

  lemma CaseCountsOnce(c: Case)
    requires OneOutcome(c)
    ensures CaseTotals(c).All() == 1
  {
  }

  lemma {:induction false} EveryCaseCountsOnce(cases: seq<Case>)
    requires forall c :: c in cases ==> OneOutcome(c)
    ensures AllCases(cases).All() == |cases|
  {
    hide CaseTotals, OneOutcome, Totals.Plus;
    if cases != [] {
      EveryCaseCountsOnce(cases[..|cases| - 1]);
      CaseCountsOnce(cases[|cases| - 1]);
      CleanSum(AllCases(cases[..|cases| - 1]), CaseTotals(cases[|cases| - 1]));
    }
  }

  // The rows a tier's report names, case by case or as selected.
  function RowCount(t: Tier): Option<nat> {
    if t.NotATier? then None
    else if t.cases.Some? && t.cases.value != [] then Some(|t.cases.value|)
    else if t.selected.Some? && t.selected.value != [] then Some(|t.selected.value|)
    else None
  }

  predicate HasCases(t: Tier) { t.Tier? && t.cases.Some? && t.cases.value != [] }

  predicate HasSelected(t: Tier) { t.Tier? && t.selected.Some? && t.selected.value != [] }

  // Units of work charged beside the rows: one for an entry that is no tier or has no
  // counts, for a blocked tier that names nothing, and for a status that is not final.
  function Marks(t: Tier, wanted: set<string>): nat {
    if t.NotATier? then 1
    else if t.name !in wanted then 0
    else if t.counts == None then 1
    else (if t.status == Blocked && !HasCases(t) && !HasSelected(t) then 1 else 0) + (if Settled(t.status) then 0 else 1)
  }

  // The rows a wanted tier with counts is charged for.
  function Charged(t: Tier, wanted: set<string>): nat {
    if t.NotATier? || t.name !in wanted || t.counts == None then 0
    else if HasCases(t) then |t.cases.value|
    else if t.status == Blocked then if HasSelected(t) then |t.selected.value| else 0
    else Counted(t.counts.value).All()
  }

  function MarksOf(tiers: seq<Tier>, wanted: set<string>): nat {
    if tiers == [] then 0 else MarksOf(tiers[..|tiers| - 1], wanted) + Marks(tiers[|tiers| - 1], wanted)
  }

  function ChargedOf(tiers: seq<Tier>, wanted: set<string>): nat {
    if tiers == [] then 0 else ChargedOf(tiers[..|tiers| - 1], wanted) + Charged(tiers[|tiers| - 1], wanted)
  }

  predicate RowsOnce(t: Tier) {
    t.Tier? && t.cases.Some? ==> forall c :: c in t.cases.value ==> OneOutcome(c)
  }

  lemma RowsAccount(t: Tier, wanted: set<string>)
    requires RowsOnce(t) && t.Tier? && t.counts.Some? && t.name in wanted
    ensures RowTotals(t).All() + (if Settled(t.status) then 0 else 1) == Charged(t, wanted) + Marks(t, wanted)
  {
    if HasCases(t) { EveryCaseCountsOnce(t.cases.value); }
    hide AllCases, OneOutcome, Counted;
  }

  lemma CountedTier(t: Tier, wanted: set<string>)
    requires t.Tier? && t.counts.Some? && t.name in wanted
    ensures TierTotals(t, wanted).All() == RowTotals(t).All() + if Settled(t.status) then 0 else 1
  {
    hide RowTotals;
  }

  lemma TierAccount(t: Tier, wanted: set<string>)
    requires RowsOnce(t)
    ensures TierTotals(t, wanted).All() == Charged(t, wanted) + Marks(t, wanted)
  {
    hide RowTotals, OneOutcome, Counted, Totals.Plus, RowsOnce, HasCases, HasSelected;
    if t.Tier? && t.name in wanted && t.counts.Some? {
      hide TierTotals, Charged, Marks;
      RowsAccount(t, wanted);
      CountedTier(t, wanted);
    }
  }

  lemma {:induction false} ListAccount(tiers: seq<Tier>, wanted: set<string>)
    requires forall t :: t in tiers ==> RowsOnce(t)
    ensures AllTiers(tiers, wanted).All() == ChargedOf(tiers, wanted) + MarksOf(tiers, wanted)
  {
    hide TierTotals, RowsOnce, Marks, Charged, Totals.Plus;
    if tiers != [] {
      ListAccount(tiers[..|tiers| - 1], wanted);
      TierAccount(tiers[|tiers| - 1], wanted);
      CleanSum(AllTiers(tiers[..|tiers| - 1], wanted), TierTotals(tiers[|tiers| - 1], wanted));
    }
  }

  // Whatever a report looks like, when every PASS or FAIL row carries one outcome its
  // totals hold the rows charged, one unit for every mark and one for every wanted tier
  // it never mentions.
  lemma NoRowIsLost(tiers: seq<Tier>, wanted: set<string>)
    requires forall t :: t in tiers ==> RowsOnce(t)
    ensures ListTotals(tiers, wanted).All() == ChargedOf(tiers, wanted) + MarksOf(tiers, wanted) + Missing(tiers, wanted)
  {
    hide AllTiers, Missing, RowsOnce, Totals.Plus, MarksOf, ChargedOf;
    ListAccount(tiers, wanted);
    CleanSum(AllTiers(tiers, wanted), Totals(0, 0, Missing(tiers, wanted), 0, 0));
  }

  // All rows a wanted tier names are counted, each once, exactly when it has counts
  // and either its rows case by case, or was blocked, or its aggregate adds up.
  predicate RowsReadable(t: Tier)
    requires RowCount(t).Some?
  {
    t.counts.Some? && (HasCases(t) || t.status == Blocked || Counted(t.counts.value).All() == RowCount(t).value)
  }

  lemma NamedRowsCountedExactly(tiers: seq<Tier>, wanted: set<string>)
    requires forall t :: t in tiers ==> RowsOnce(t)
    ensures (forall t :: t in tiers && RowCount(t).Some? && t.name in wanted ==>
               TierTotals(t, wanted).All() == RowCount(t).value + Marks(t, wanted))
      <==> (forall t :: t in tiers && RowCount(t).Some? && t.name in wanted ==> RowsReadable(t))
  {
    forall t | t in tiers && RowCount(t).Some? && t.name in wanted
      ensures TierTotals(t, wanted).All() == RowCount(t).value + Marks(t, wanted) <==> RowsReadable(t)
    {
      TierAccount(t, wanted);
    }
    hide TierTotals, RowCount, Marks, RowsReadable;
  }

  // Rows vanish without a mark exactly when a finished tier that ran no case by case
  // report has an aggregate smaller than its selection.
  lemma RowsVanishExactly(t: Tier, wanted: set<string>)
    requires RowsOnce(t) && RowCount(t).Some? && t.name in wanted
    ensures TierTotals(t, wanted).All() < RowCount(t).value && Marks(t, wanted) == 0 <==>
      && t.counts.Some? && !HasCases(t) && (t.status == Pass || t.status == Fail)
      && Counted(t.counts.value).All() < RowCount(t).value
  {
    TierAccount(t, wanted);
    hide TierTotals;
  }

  // A failed tier of any selected rows and no outcome leaves the totals clean.
  function Silent(name: string, rows: seq<string>): Tier {
    Tier(name, Fail, Some(Counts(Some(0), Some(0), Some(0), Some(0), Some(0))), None, Some(rows))
  }

  lemma OneTier(t: Tier)
    requires t.Tier?
    ensures ListTotals([t], {t.name}) == TierTotals(t, {t.name})
  {
    hide TierTotals;
    assert t in [t] && {t.name} - Reported([t]) == {};
    assert [t][..0] == [];
    assert AllTiers([], {t.name}) == ZERO;
  }

  lemma SelectedRowsVanish(name: string, rows: seq<string>)
    requires rows != []
    ensures RowCount(Silent(name, rows)) == Some(|rows|)
    ensures ReportTotals(Report(Some([Silent(name, rows)]), Some(1)), {name}) == ZERO
  {
    OneTier(Silent(name, rows));
    SilentTotals(name, rows);
    hide ListTotals, TierTotals, Silent;
  }

  lemma SilentTotals(name: string, rows: seq<string>)
    ensures Silent(name, rows).Tier? && Silent(name, rows).name == name
    ensures rows != [] ==> RowCount(Silent(name, rows)) == Some(|rows|)
    ensures TierTotals(Silent(name, rows), {name}) == ZERO
  {
    var t := Silent(name, rows);
    assert t.Tier? && t.name == name && t.selected == Some(rows);
    assert t.status == Fail && t.cases == None && t.counts == Some(Counts(Some(0), Some(0), Some(0), Some(0), Some(0)));
    hide AllCases, Silent;
    assert Counted(t.counts.value) == ZERO;
    hide Counted;
    assert RowTotals(t) == ZERO;
  }

  // --------------------------------------------------------- effective concurrency

  // The last report of a tier that names its rows decides the tier's row count.
  function RowsOf(tiers: seq<Tier>, name: string): (n: Option<nat>)
    ensures n.Some? ==> n.value > 0
  {
    if tiers == [] then None
    else
      var last := tiers[|tiers| - 1];
      if last.Tier? && last.name == name && RowCount(last).Some? then RowCount(last)
      else RowsOf(tiers[..|tiers| - 1], name)
  }

  // An entry names the rows of a tier: those it ran case by case, else those selected.
  predicate Names(t: Tier, name: string, n: nat) {
    && t.Tier? && t.name == name
    && if t.cases.Some? && t.cases.value != [] then n == |t.cases.value|
       else t.selected.Some? && t.selected.value != [] && n == |t.selected.value|
  }

  // The rows of a tier are those of the last entry that names any.
  lemma {:induction false} RowsExactly(tiers: seq<Tier>, name: string, n: nat)
    ensures RowsOf(tiers, name) == Some(n) <==>
      exists i :: 0 <= i < |tiers| && Names(tiers[i], name, n)
        && forall j, k :: i < j < |tiers| ==> !Names(tiers[j], name, k)
  {
    if tiers != [] {
      var init, last := tiers[..|tiers| - 1], tiers[|tiers| - 1];
      RowsExactly(init, name, n);
      LastNames(tiers, name, n);
      if last.Tier? && last.name == name && RowCount(last).Some? {
        assert Names(last, name, RowCount(last).value);
        assert forall k :: Names(last, name, k) ==> k == RowCount(last).value;
      } else {
        assert forall k :: !Names(last, name, k);
        assert forall i :: 0 <= i < |init| ==> init[i] == tiers[i];
      }
      hide Names, RowCount;
    }
  }

  lemma LastNames(tiers: seq<Tier>, name: string, n: nat)
    requires tiers != []
    ensures var last := tiers[|tiers| - 1];
      RowsOf(tiers, name) ==
        if last.Tier? && last.name == name && RowCount(last).Some? then RowCount(last) else RowsOf(tiers[..|tiers| - 1], name)
  {
    hide RowCount;
  }

  function RowsIn(r: Report, name: string): (n: Option<nat>)
    ensures n.Some? ==> n.value > 0
  {
    if r.tiers.Some? then RowsOf(r.tiers.value, name) else None
  }

  method TierRowCounts(r: Report, tiers: seq<string>) returns (counts: map<string, Option<nat>>)
    ensures counts.Keys == set t | t in tiers
    ensures forall t :: t in counts ==> counts[t] == RowsIn(r, t)
  {
    counts := map t | t in tiers :: None;
    if r.tiers == None {
      return;
    }
    var payload := r.tiers.value;
    for i := 0 to |payload|
      invariant counts.Keys == set t | t in tiers
      invariant forall t :: t in counts ==> counts[t] == RowsOf(payload[..i], t)
    {
      assert payload[..i + 1][..i] == payload[..i];
      var t := payload[i];
      if t.Tier? && t.name in counts {
        if t.cases.Some? && t.cases.value != [] {
          counts := counts[t.name := Some(|t.cases.value|)];
        } else if t.selected.Some? && t.selected.value != [] {
          counts := counts[t.name := Some(|t.selected.value|)];
        }
      }
    }
    assert payload[..|payload|] == payload;
  }

  function MinOf(a: int, b: int): int { if a <= b then a else b }

  function AtLeastOne(n: int): (r: int)
    ensures r >= 1 && r >= n
  {
    if n < 1 then 1 else n
  }

  // A concurrency is known when a ceiling was admitted and every tier names its rows.
  predicate Known(r: Report, tiers: seq<string>) {
    r.admitted.Some? && r.admitted.value > 0 && forall t :: t in tiers ==> RowsIn(r, t).Some?
  }

  function TierWorkers(r: Report, requested: int, tier: string): int
    requires r.admitted.Some? && RowsIn(r, tier).Some?
  {
    AtLeastOne(MinOf(MinOf(requested, r.admitted.value), RowsIn(r, tier).value))
  }

  // One tier's concurrency: the least of what was asked for, what was admitted and the
  // tier's rows, but never less than one.
  lemma TierWorkersExactly(r: Report, requested: int, tier: string, w: int)
    requires r.admitted.Some? && RowsIn(r, tier).Some?
    ensures w == TierWorkers(r, requested, tier) <==>
      var rows, admitted := RowsIn(r, tier).value as int, r.admitted.value;
      if requested < 1 || admitted < 1 then w == 1
      else w <= requested && w <= admitted && w <= rows && (w == requested || w == admitted || w == rows)
  {
    hide RowsIn;
  }

  // The concurrency that governs the whole matrix: one ceiling lowered tier by tier.
  // Where it is known it is the least of the per-tier values, and it is known exactly
  // when they are.
  method EffectiveWorkers(r: Report, requested: int, tiers: seq<string>) returns (workers: Option<int>)
    ensures workers.Some? <==> Known(r, tiers)
    ensures workers.Some? ==> forall t :: t in tiers ==> workers.value <= TierWorkers(r, requested, t)
    ensures workers.Some? && tiers != [] ==> exists t :: t in tiers && workers.value == TierWorkers(r, requested, t)
    ensures workers.Some? && tiers == [] ==> workers.value == AtLeastOne(MinOf(requested, r.admitted.value))
  {
    hide RowsIn;
    if r.admitted == None || r.admitted.value <= 0 {
      return None;
    }
    var ceiling := MinOf(requested, r.admitted.value);
    var counts := TierRowCounts(r, tiers);
    for i := 0 to |tiers|
      invariant forall j :: 0 <= j < i ==> RowsIn(r, tiers[j]).Some?
      invariant ceiling <= MinOf(requested, r.admitted.value)
      invariant forall j :: 0 <= j < i ==> ceiling <= RowsIn(r, tiers[j]).value
      invariant ceiling == MinOf(requested, r.admitted.value) || exists j :: 0 <= j < i && ceiling == RowsIn(r, tiers[j]).value
    {
      assert tiers[i] in counts;
      var rows := counts[tiers[i]];
      if rows == None {
        return None;
      }
      ceiling := MinOf(ceiling, rows.value);
    }
    workers := Some(AtLeastOne(ceiling));
    if tiers != [] {
      LeastIsReached(r, requested, tiers, ceiling);
    }
  }

  lemma LeastIsReached(r: Report, requested: int, tiers: seq<string>, ceiling: int)
    requires tiers != [] && r.admitted.Some? && forall t :: t in tiers ==> RowsIn(r, t).Some?
    requires ceiling <= MinOf(requested, r.admitted.value)
    requires forall t :: t in tiers ==> ceiling <= RowsIn(r, t).value
    requires ceiling == MinOf(requested, r.admitted.value) || exists t :: t in tiers && ceiling == RowsIn(r, t).value
    ensures exists t :: t in tiers && AtLeastOne(ceiling) == TierWorkers(r, requested, t)
  {
    hide RowsIn;
    if t :| t in tiers && ceiling == RowsIn(r, t).value {
      assert AtLeastOne(ceiling) == TierWorkers(r, requested, t);
    } else {
      assert AtLeastOne(ceiling) == TierWorkers(r, requested, tiers[0]);
    }
  }

  // The concurrency each tier actually used.
  method TierEffectiveWorkers(r: Report, requested: int, tiers: seq<string>) returns (workers: Option<map<string, int>>)
    ensures workers.Some? <==> Known(r, tiers)
    ensures workers.Some? ==> workers.value.Keys == set t | t in tiers
    ensures workers.Some? ==> forall t :: t in tiers ==> workers.value[t] == TierWorkers(r, requested, t)
  {
    hide RowsIn;
    if r.admitted == None || r.admitted.value <= 0 {
      return None;
    }
    var counts := TierRowCounts(r, tiers);
    var result: map<string, int> := map[];
    for i := 0 to |tiers|
      invariant forall j :: 0 <= j < i ==> RowsIn(r, tiers[j]).Some?
      invariant result.Keys == set j | 0 <= j < i :: tiers[j]
      invariant forall j :: 0 <= j < i ==> result[tiers[j]] == TierWorkers(r, requested, tiers[j])
    {
      assert tiers[i] in counts;
      var rows := counts[tiers[i]];
      if rows == None {
        return None;
      }
      result := result[tiers[i] := AtLeastOne(MinOf(MinOf(requested, r.admitted.value), rows.value))];
    }
    workers := Some(result);
  }
}
