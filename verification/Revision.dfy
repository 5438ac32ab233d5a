/**
  Applying a revision patch to a trip request: the field operations, the date
  normalizer and the final schema check of app/nodes/apply_revision_node.py.
  A date is its proleptic ordinal; Python's dates end at MAX_DATE.
  */
module Revision {
  import opened Prelude
  import opened Text
  import opened RevisionMerge

  const MAX_DATE := 3652059

  type Date = d: int | 1 <= d <= MAX_DATE witness 1

  datatype TripRequest = TripRequest(
    origin: Option<string>,
    destination: Option<string>,
    startDate: Option<Date>,
    endDate: Option<Date>,
    days: Option<int>,
    budget: Option<real>,
    peopleCount: Option<int>,
    roomCount: Option<int>,
    preferences: seq<Preference>,
    spending: seq<Spending>,
    hardConstraints: seq<HardConstraint>,
    namedConstraints: seq<NamedConstraint>,
    unmapped: seq<Unmapped>,
    issues: seq<string>,
    rawMessage: string)

  datatype FieldName = Origin | Destination | StartDate | EndDate | Days | Budget | PeopleCount | RoomCount

  /** One operation of a patch; the types are those the patch schema enforces. */
  datatype FieldOp =
    | Clear(field: FieldName)
    | SetOrigin(text: string)
    | SetDestination(text: string)
    | SetStart(date: Date)
    | SetEnd(date: Date)
    | SetDays(n: int)
    | SetBudget(amount: real)
    | SetPeople(n: int)
    | SetRooms(n: int)
    | IncrementDays(amount: real)
    | IncrementBudget(amount: real)
  {
    function Field(): FieldName {
      match this
      case Clear(f) => f
      case SetOrigin(_) => Origin
      case SetDestination(_) => Destination
      case SetStart(_) => StartDate
      case SetEnd(_) => EndDate
      case SetDays(_) => Days
      case SetBudget(_) => Budget
      case SetPeople(_) => PeopleCount
      case SetRooms(_) => RoomCount
      case IncrementDays(_) => Days
      case IncrementBudget(_) => Budget
    }

    /** `RevisionFieldOperation.validate_operation` */
    predicate SchemaOk() {
      match this
      case Clear(_) => true
      case SetOrigin(t) => Strip(t) != ""
      case SetDestination(t) => Strip(t) != ""
      case SetStart(_) => true
      case SetEnd(_) => true
      case SetDays(n) => n >= 1
      case SetBudget(x) => x >= 0.0
      case SetPeople(n) => n >= 1
      case SetRooms(n) => n >= 1
      case IncrementDays(x) => x != 0.0
      case IncrementBudget(x) => x != 0.0
    }
  }

  /** `int(x)` on a float. */
  function Truncate(x: real): int {
    if x >= 0.0 then x.Floor else -((-x).Floor)
  }

  // ----------------------------------------------------------- field operations

  function ApplyOp(r: TripRequest, op: FieldOp): Result<TripRequest, string> {
    match op
    case Clear(Origin) => Ok(r.(origin := None))
    case Clear(Destination) => Ok(r.(destination := None))
    case Clear(StartDate) => Ok(r.(startDate := None))
    case Clear(EndDate) => Ok(r.(endDate := None))
    case Clear(Days) => Ok(r.(days := None))
    case Clear(Budget) => Ok(r.(budget := None))
    case Clear(PeopleCount) => Ok(r.(peopleCount := None))
    case Clear(RoomCount) => Ok(r.(roomCount := None))
    case SetOrigin(t) => Ok(r.(origin := Some(t)))
    case SetDestination(t) => Ok(r.(destination := Some(t)))
    case SetStart(d) => Ok(r.(startDate := Some(d)))
    case SetEnd(d) => Ok(r.(endDate := Some(d)))
    case SetDays(n) => Ok(r.(days := Some(n)))
    case SetBudget(x) => Ok(r.(budget := Some(x)))
    case SetPeople(n) => Ok(r.(peopleCount := Some(n)))
    case SetRooms(n) => Ok(r.(roomCount := Some(n)))
    case IncrementDays(x) =>
      if r.days.None? then Err("days is empty")
      else if r.days.value + Truncate(x) < 1 then Err("days below 1")
      else Ok(r.(days := Some(r.days.value + Truncate(x))))
    case IncrementBudget(x) =>
      if r.budget.None? then Err("budget is empty")
      else if r.budget.value + x < 0.0 then Err("budget below 0")
      else Ok(r.(budget := Some(r.budget.value + x)))
  }

  function ApplyOps(r: TripRequest, ops: seq<FieldOp>): Result<TripRequest, string> {
    if ops == [] then Ok(r)
    else
      match ApplyOps(r, ops[..|ops| - 1])
      case Err(e) => Err(e)
      case Ok(r') => ApplyOp(r', ops[|ops| - 1])
  }

  function Touched(ops: seq<FieldOp>): set<FieldName> {
    set i | 0 <= i < |ops| :: ops[i].Field()
  }

  method ApplyFieldOperations(request: TripRequest, operations: seq<FieldOp>)
    returns (result: Result<TripRequest, string>, touched: set<FieldName>)
    ensures result == ApplyOps(request, operations)
    ensures result.Ok? ==> touched == Touched(operations)
  {
    var current := request;
    touched := {};
    for i := 0 to |operations|
      invariant ApplyOps(request, operations[..i]) == Ok(current)
      invariant touched == Touched(operations[..i])
    {
      assert operations[..i + 1][..i] == operations[..i];
      TouchedStep(operations, i);
      touched := touched + {operations[i].Field()};
      var next := ApplyOp(current, operations[i]);
      if next.Err? {
        ErrorSticks(request, operations, i + 1);
        return next, touched;
      }
      current := next.value;
    }
    assert operations[..|operations|] == operations;
    result := Ok(current);
  }

  lemma TouchedStep(ops: seq<FieldOp>, i: nat)
    requires i < |ops|
    ensures Touched(ops[..i + 1]) == Touched(ops[..i]) + {ops[i].Field()}
  {
    assert forall j | 0 <= j < i :: ops[..i + 1][j] == ops[..i][j];
    assert ops[..i + 1][i] == ops[i];
  }

  lemma {:induction false} ErrorSticks(r: TripRequest, ops: seq<FieldOp>, i: nat)
    requires i <= |ops| && ApplyOps(r, ops[..i]).Err?
    ensures ApplyOps(r, ops) == ApplyOps(r, ops[..i])
    decreases |ops|
  {
    if i == |ops| {
      assert ops[..i] == ops;
    } else {
      assert ops[..|ops| - 1][..i] == ops[..i];
      ErrorSticks(r, ops[..|ops| - 1], i);
    }
  }

  // -------------------------------------------------------------- the normalizer

  function Normalize(r: TripRequest, touched: set<FieldName>): Result<TripRequest, string> {
    if r.startDate.None? || r.days.None? then Ok(r.(endDate := None))
    else
      var inferred := r.startDate.value + r.days.value - 1;
      if inferred < 1 || inferred > MAX_DATE then Err("date value out of range")
      else if EndDate in touched then
        if r.endDate.None? then Ok(r)
        else if Days !in touched then
          if r.endDate.value < r.startDate.value then Err("end_date before start_date")
          else Ok(r.(days := Some(r.endDate.value - r.startDate.value + 1)))
        else if r.endDate.value != inferred then Err("days and end_date disagree")
        else Ok(r)
      else Ok(r.(endDate := Some(inferred)))
  }

  /** The end date is absent, or follows from the start date and the number of days. */
  predicate DatesAgree(r: TripRequest) {
    r.endDate.Some? ==>
      r.startDate.Some? && r.days.Some? && r.endDate.value == r.startDate.value + r.days.value - 1
  }

  predicate DaysPositive(r: TripRequest) {
    r.days.Some? ==> r.days.value >= 1
  }

  /** The end date was given and the days were not, with a start date and days to compare: the days are derived. */
  predicate DerivesDays(r: TripRequest, touched: set<FieldName>) {
    EndDate in touched && Days !in touched && r.startDate.Some? && r.days.Some? && r.endDate.Some?
  }

  /**
    Normalizing makes the dates agree, leaves positive days, touches nothing else
    and is idempotent.  Derived days are positive whatever was there before; only a
    field that was not operated on gives way.
  */
  lemma NormalizeAgrees(r: TripRequest, touched: set<FieldName>)
    requires Normalize(r, touched).Ok?
    ensures var n := Normalize(r, touched).value;
            && DatesAgree(n)
            && (DerivesDays(r, touched) ==> n.days.Some? && n.days.value >= 1)
            && (DaysPositive(r) ==> DaysPositive(n))
            && n == r.(endDate := n.endDate, days := n.days)
            && (n.days != r.days ==> DerivesDays(r, touched))
            && (n.endDate != r.endDate ==> EndDate !in touched || r.startDate.None? || r.days.None?)
            && Normalize(n, touched) == Ok(n)
  {
  }

  // ----------------------------------------------------------------- whole patches

  datatype Patch = Patch(
    ops: seq<FieldOp>,
    preferenceRemovals: seq<(string, string)>,
    preferenceUpserts: seq<Preference>,
    spendingRemovals: seq<string>,
    spendingUpserts: seq<Spending>,
    hardRemovals: seq<(string, string)>,
    hardAdditions: seq<HardConstraint>,
    replaceTypes: seq<string>,
    namedRemovals: seq<NamedSelector>,
    namedAdditions: seq<NamedConstraint>,
    unmappedAdditions: seq<Unmapped>,
    issues: seq<string>)
  {
    /** Every operation is well formed and no field is operated on twice. */
    predicate SchemaOk() {
      && (forall i | 0 <= i < |ops| :: ops[i].SchemaOk())
      && DistinctFields(ops)
    }
  }

  /** The ranges the request schema re-checks at the end. */
  predicate RequestSchemaOk(r: TripRequest) {
    && (r.days.Some? ==> 1 <= r.days.value <= 30)
    && (r.budget.Some? ==> r.budget.value >= 0.0)
    && r.peopleCount.Some? && 1 <= r.peopleCount.value <= 20
    && (r.roomCount.Some? ==> 1 <= r.roomCount.value <= 20)
  }

  function MergeLists(r: TripRequest, p: Patch): TripRequest {
    r.(preferences := MergePreferences(r.preferences, p.preferenceRemovals, p.preferenceUpserts),
       spending := MergeSpending(r.spending, p.spendingRemovals, p.spendingUpserts),
       hardConstraints := MergeHard(r.hardConstraints, p.hardRemovals, p.hardAdditions),
       namedConstraints := MergeNamed(r.namedConstraints, p.replaceTypes, p.namedRemovals, p.namedAdditions),
       unmapped := MergeUnmapped(r.unmapped, p.unmappedAdditions),
       issues := p.issues)
  }

  function RecordMessage(before: string, change: string): string {
    if Strip(before) != "" then Strip(before) + "\n修改要求：" + Strip(change) else Strip(change)
  }

  function ApplyPatch(r: TripRequest, p: Patch, change: string): Result<TripRequest, string> {
    if !p.SchemaOk() then Err("invalid patch")
    else
      match ApplyOps(r, p.ops)
      case Err(e) => Err(e)
      case Ok(edited) =>
        match Normalize(edited, Touched(p.ops))
        case Err(e) => Err(e)
        case Ok(dated) =>
          var merged := MergeLists(dated, p).(rawMessage := RecordMessage(dated.rawMessage, change));
          if RequestSchemaOk(merged) then Ok(merged) else Err("invalid request")
  }

  method ApplyRevisionPatch(request: TripRequest, patch: Patch, change: string)
    returns (result: Result<TripRequest, string>)
    ensures result == ApplyPatch(request, patch, change)
  {
    if !patch.SchemaOk() {
      return Err("invalid patch");
    }
    var edited, touched := ApplyFieldOperations(request, patch.ops);
    if edited.Err? {
      return edited;
    }
    var dated := Normalize(edited.value, touched);
    if dated.Err? {
      return dated;
    }
    var updated := dated.value;
    var preferences, _ :=
      MergeItems(updated.preferences, PreferenceKey, KeepsPairs(patch.preferenceRemovals), patch.preferenceUpserts);
    updated := updated.(preferences := preferences);
    var spending, _ :=
      MergeItems(updated.spending, SpendingKey, KeepsNames(patch.spendingRemovals), patch.spendingUpserts);
    updated := updated.(spending := spending);
    var hard, _ := MergeItems(updated.hardConstraints, HardKey, KeepsPairs(patch.hardRemovals), patch.hardAdditions);
    updated := updated.(hardConstraints := hard);
    var named, _ :=
      MergeItems(updated.namedConstraints, NamedKey, KeepsNamed(patch.replaceTypes, patch.namedRemovals),
      patch.namedAdditions);
    updated := updated.(namedConstraints := named);
    var unmapped, _ := MergeItems(updated.unmapped, UnmappedKey, KeepsNames([]), patch.unmappedAdditions);
    updated := updated.(unmapped := unmapped, issues := patch.issues);
    updated := updated.(rawMessage := RecordMessage(updated.rawMessage, change));
    result := if RequestSchemaOk(updated) then Ok(updated) else Err("invalid request");
  }

  /** A successful revision yields a request whose dates agree, whose ranges hold and whose lists are the merges. */
  lemma PatchedRequest(r: TripRequest, p: Patch, change: string)
    requires ApplyPatch(r, p, change).Ok?
    ensures var n := ApplyPatch(r, p, change).value;
            && DatesAgree(n) && RequestSchemaOk(n)
            && n.preferences == MergePreferences(r.preferences, p.preferenceRemovals, p.preferenceUpserts)
            && n.spending == MergeSpending(r.spending, p.spendingRemovals, p.spendingUpserts)
            && n.hardConstraints == MergeHard(r.hardConstraints, p.hardRemovals, p.hardAdditions)
            && n.namedConstraints == MergeNamed(r.namedConstraints, p.replaceTypes, p.namedRemovals, p.namedAdditions)
            && n.unmapped == MergeUnmapped(r.unmapped, p.unmappedAdditions)
  {
    OpsKeepLists(r, p.ops);
    NormalizeAgrees(ApplyOps(r, p.ops).value, Touched(p.ops));
  }

  lemma {:induction false} OpsKeepLists(r: TripRequest, ops: seq<FieldOp>)
    requires ApplyOps(r, ops).Ok?
    ensures var e := ApplyOps(r, ops).value;
            e == r.(origin := e.origin, destination := e.destination, startDate := e.startDate, endDate := e.endDate,
                    days := e.days, budget := e.budget, peopleCount := e.peopleCount, roomCount := e.roomCount)
  {
    if ops == [] {
    } else {
      OpsKeepLists(r, ops[..|ops| - 1]);
    }
  }

  /** a and b agree on one of the fields operations can change. */
  predicate SameField(a: TripRequest, b: TripRequest, f: FieldName) {
    match f
    case Origin => a.origin == b.origin
    case Destination => a.destination == b.destination
    case StartDate => a.startDate == b.startDate
    case EndDate => a.endDate == b.endDate
    case Days => a.days == b.days
    case Budget => a.budget == b.budget
    case PeopleCount => a.peopleCount == b.peopleCount
    case RoomCount => a.roomCount == b.roomCount
  }

  /** An operation reads and writes its own field only. */
  lemma OpIsLocal(a: TripRequest, b: TripRequest, op: FieldOp, f: FieldName)
    requires SameField(a, b, op.Field())
    ensures ApplyOp(a, op).Ok? <==> ApplyOp(b, op).Ok?
    ensures ApplyOp(a, op).Ok? ==>
              && SameField(ApplyOp(a, op).value, ApplyOp(b, op).value, op.Field())
              && (f != op.Field() ==> SameField(ApplyOp(a, op).value, a, f))
  {
  }

  predicate DistinctFields(ops: seq<FieldOp>) {
    forall i, j | 0 <= i < j < |ops| :: ops[i].Field() != ops[j].Field()
  }

  /** A field no operation names keeps its value. */
  lemma {:induction false} UntouchedKept(r: TripRequest, ops: seq<FieldOp>, f: FieldName)
    requires ApplyOps(r, ops).Ok? && forall i | 0 <= i < |ops| :: ops[i].Field() != f
    ensures SameField(ApplyOps(r, ops).value, r, f)
  {
    if ops == [] {
    } else {
      var n := |ops| - 1;
      UntouchedKept(r, ops[..n], f);
      var before := ApplyOps(r, ops[..n]).value;
      OpIsLocal(before, before, ops[n], f);
    }
  }

  /** The sequence succeeds exactly when every operation succeeds on the request as it was. */
  lemma {:induction false} OpsSucceedIff(r: TripRequest, ops: seq<FieldOp>)
    requires DistinctFields(ops)
    ensures ApplyOps(r, ops).Ok? <==> forall i | 0 <= i < |ops| :: ApplyOp(r, ops[i]).Ok?
  {
    if ops == [] {
    } else {
      var n := |ops| - 1;
      assert DistinctFields(ops[..n]);
      OpsSucceedIff(r, ops[..n]);
      assert forall i | 0 <= i < n :: ops[..n][i] == ops[i];
      if ApplyOps(r, ops[..n]).Ok? {
        UntouchedKept(r, ops[..n], ops[n].Field());
        OpIsLocal(ApplyOps(r, ops[..n]).value, r, ops[n], ops[n].Field());
      }
    }
  }

  /**
    Each operation leaves in its field what it alone would have made of the request
    as it was: increments are relative to the base, and the order is immaterial.
    */
  lemma {:induction false} OpsActOnTheBase(r: TripRequest, ops: seq<FieldOp>, i: nat)
    requires DistinctFields(ops) && ApplyOps(r, ops).Ok? && i < |ops|
    ensures ApplyOp(r, ops[i]).Ok?
    ensures SameField(ApplyOps(r, ops).value, ApplyOp(r, ops[i]).value, ops[i].Field())
  {
    var n := |ops| - 1;
    var before := ApplyOps(r, ops[..n]).value;
    if i < n {
      assert DistinctFields(ops[..n]) && ops[..n][i] == ops[i];
      OpsActOnTheBase(r, ops[..n], i);
      OpIsLocal(before, before, ops[n], ops[i].Field());
    } else {
      UntouchedKept(r, ops[..n], ops[n].Field());
      OpIsLocal(before, r, ops[n], ops[n].Field());
    }
  }

  lemma OneOperation(r: TripRequest, op: FieldOp)
    ensures ApplyOps(r, [op]) == ApplyOp(r, op) && Touched([op]) == {op.Field()}
  {
    assert [op][..0] == [];
    assert ApplyOps(r, [op][..0]) == Ok(r);
    assert [op][0].Field() in Touched([op]);
  }

  /** The dates of a patched request are those the operations and the normalizer leave. */
  lemma PatchedDates(r: TripRequest, p: Patch, change: string)
    requires ApplyPatch(r, p, change).Ok?
    ensures ApplyOps(r, p.ops).Ok? && Normalize(ApplyOps(r, p.ops).value, Touched(p.ops)).Ok?
    ensures var n := ApplyPatch(r, p, change).value;
            var dated := Normalize(ApplyOps(r, p.ops).value, Touched(p.ops)).value;
            n.startDate == dated.startDate && n.endDate == dated.endDate && n.days == dated.days
  {
  }

  lemma Lengthened(r: TripRequest, x: real)
    requires ApplyOp(r, IncrementDays(x)).Ok?
    ensures r.days.Some?
    ensures var e := ApplyOp(r, IncrementDays(x)).value;
            e.startDate == r.startDate && e.days.Some? && e.days.value == r.days.value + Truncate(x)
  {
  }

  lemma EndFollows(e: TripRequest)
    requires Normalize(e, {Days}).Ok? && e.startDate.Some? && e.days.Some?
    ensures var n := Normalize(e, {Days}).value;
            && n.startDate == e.startDate && n.days == e.days
            && n.endDate.Some? && n.endDate.value == e.startDate.value + e.days.value - 1
  {
  }

  /** "Stay x days longer": the days and the end date move together, by x truncated. */
  lemma StayLonger(r: TripRequest, p: Patch, x: real, change: string)
    requires p.ops == [IncrementDays(x)] && ApplyPatch(r, p, change).Ok? && r.startDate.Some?
    ensures r.days.Some?
    ensures var n := ApplyPatch(r, p, change).value;
            && n.startDate == r.startDate
            && n.days.Some? && n.days.value == r.days.value + Truncate(x)
            && n.endDate.Some? && n.endDate.value == r.startDate.value + r.days.value - 1 + Truncate(x)
  {
    PatchedDates(r, p, change);
    OneOperation(r, IncrementDays(x));
    Lengthened(r, x);
    EndFollows(ApplyOp(r, IncrementDays(x)).value);
  }
}
