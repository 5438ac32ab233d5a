/**
  What a revision patch does to a trip request, field by field and item by item: which
  values the fields end with, when a patch is refused, and what is left in the lists.
  */
module RevisionEffects {
  import opened Prelude
  import opened Text
  import opened RevisionMerge
  import opened Revision

  // ------------------------------------------------------------------- one operation

  /** x without what is behind the point. */
  predicate Whole(x: real, n: int) {
    if x >= 0.0 then n as real <= x < (n + 1) as real else (n - 1) as real < x <= n as real
  }

  /** The field of the operation as it is after it, given the request before. */
  predicate Done(op: FieldOp, r: TripRequest, e: TripRequest) {
    match op
    case Clear(Origin) => e.origin.None?
    case Clear(Destination) => e.destination.None?
    case Clear(StartDate) => e.startDate.None?
    case Clear(EndDate) => e.endDate.None?
    case Clear(Days) => e.days.None?
    case Clear(Budget) => e.budget.None?
    case Clear(PeopleCount) => e.peopleCount.None?
    case Clear(RoomCount) => e.roomCount.None?
    case SetOrigin(t) => e.origin == Some(t)
    case SetDestination(t) => e.destination == Some(t)
    case SetStart(d) => e.startDate == Some(d)
    case SetEnd(d) => e.endDate == Some(d)
    case SetDays(n) => e.days == Some(n)
    case SetBudget(x) => e.budget == Some(x)
    case SetPeople(n) => e.peopleCount == Some(n)
    case SetRooms(n) => e.roomCount == Some(n)
    case IncrementDays(x) =>
      r.days.Some? && e.days.Some? && e.days.value >= 1 && Whole(x, e.days.value - r.days.value)
    case IncrementBudget(x) =>
      r.budget.Some? && e.budget.Some? && e.budget.value >= 0.0 && e.budget.value - r.budget.value == x
  }

  lemma TruncateIsWhole(x: real, n: int)
    ensures Whole(x, n) <==> n == Truncate(x)
  {
  }

  /** e is what the operations make of r: each has been done on r, and everything else is as it was. */
  ghost predicate AllDone(r: TripRequest, ops: seq<FieldOp>, e: TripRequest) {
    && (forall i | 0 <= i < |ops| :: Done(ops[i], r, e))
    && (forall f: FieldName :: (forall i | 0 <= i < |ops| :: ops[i].Field() != f) ==> SameField(e, r, f))
    && e == r.(origin := e.origin, destination := e.destination, startDate := e.startDate, endDate := e.endDate,
               days := e.days, budget := e.budget, peopleCount := e.peopleCount, roomCount := e.roomCount)
  }

  lemma OpIsDone(r: TripRequest, op: FieldOp, e: TripRequest)
    requires ApplyOp(r, op).Ok? && SameField(e, ApplyOp(r, op).value, op.Field())
    ensures Done(op, r, e)
  {
    if op.IncrementDays? {
      TruncateIsWhole(op.amount, Truncate(op.amount));
    }
  }

  lemma DoneIsOp(r: TripRequest, op: FieldOp, e: TripRequest)
    requires Done(op, r, e)
    ensures ApplyOp(r, op).Ok? && SameField(e, ApplyOp(r, op).value, op.Field())
  {
    if op.IncrementDays? {
      TruncateIsWhole(op.amount, e.days.value - r.days.value);
    }
  }

  lemma OpsAreDone(r: TripRequest, ops: seq<FieldOp>)
    requires DistinctFields(ops) && ApplyOps(r, ops).Ok?
    ensures AllDone(r, ops, ApplyOps(r, ops).value)
  {
    var e := ApplyOps(r, ops).value;
    OpsKeepLists(r, ops);
    forall i | 0 <= i < |ops|
      ensures Done(ops[i], r, e)
    {
      OpsActOnTheBase(r, ops, i);
      OpIsDone(r, ops[i], e);
    }
    forall f: FieldName | forall i | 0 <= i < |ops| :: ops[i].Field() != f
      ensures SameField(e, r, f)
    {
      UntouchedKept(r, ops, f);
    }
  }

  lemma DoneOpsSucceed(r: TripRequest, ops: seq<FieldOp>, e: TripRequest)
    requires DistinctFields(ops) && AllDone(r, ops, e)
    ensures ApplyOps(r, ops).Ok?
  {
    forall i | 0 <= i < |ops|
      ensures ApplyOp(r, ops[i]).Ok?
    {
      DoneIsOp(r, ops[i], e);
    }
    OpsSucceedIff(r, ops);
  }

  /** What is done determines every field. */
  lemma SameFieldWhenDone(r: TripRequest, ops: seq<FieldOp>, e: TripRequest, f: FieldName)
    requires DistinctFields(ops) && AllDone(r, ops, e) && ApplyOps(r, ops).Ok?
    ensures SameField(e, ApplyOps(r, ops).value, f)
  {
    var done := ApplyOps(r, ops).value;
    if i :| 0 <= i < |ops| && ops[i].Field() == f {
      DoneIsOp(r, ops[i], e);
      OpsActOnTheBase(r, ops, i);
      SameFieldMeets(e, ApplyOp(r, ops[i]).value, done, f);
    } else {
      UntouchedKept(r, ops, f);
      SameFieldMeets(e, r, done, f);
    }
  }

  lemma SameFieldMeets(a: TripRequest, b: TripRequest, c: TripRequest, f: FieldName)
    requires SameField(a, b, f) && SameField(c, b, f)
    ensures SameField(a, c, f)
  {
  }

  /** The field operations succeed with exactly the request on which all of them are done. */
  lemma OpsIff(r: TripRequest, ops: seq<FieldOp>, e: TripRequest)
    requires DistinctFields(ops)
    ensures ApplyOps(r, ops) == Ok(e) <==> AllDone(r, ops, e)
  {
    if ApplyOps(r, ops) == Ok(e) {
      OpsAreDone(r, ops);
    }
    if AllDone(r, ops, e) {
      DoneOpsSucceed(r, ops, e);
      OpsKeepLists(r, ops);
      SameFieldWhenDone(r, ops, e, Origin);
      SameFieldWhenDone(r, ops, e, Destination);
      SameFieldWhenDone(r, ops, e, StartDate);
      SameFieldWhenDone(r, ops, e, EndDate);
      SameFieldWhenDone(r, ops, e, Days);
      SameFieldWhenDone(r, ops, e, Budget);
      SameFieldWhenDone(r, ops, e, PeopleCount);
      SameFieldWhenDone(r, ops, e, RoomCount);
    }
  }

  // ------------------------------------------------------------------- the dates

  ghost predicate Names(ops: seq<FieldOp>, f: FieldName) {
    exists i :: 0 <= i < |ops| && ops[i].Field() == f
  }

  /**
    The dates of n are those of e brought in line. Without start or days there is no end.
    Else the end is the last of the days; only one that was given, with the days left
    alone, is kept and gives the days.
    */
  ghost predicate InLine(e: TripRequest, ops: seq<FieldOp>, n: TripRequest) {
    && n.startDate == e.startDate
    && (e.startDate.None? || e.days.None? ==> n.endDate.None? && n.days == e.days)
    && (e.startDate.Some? && e.days.Some? ==>
          && 1 <= e.startDate.value + e.days.value - 1 <= 3652059
          && (!Names(ops, EndDate) ==>
                n.days == e.days && n.endDate.Some? && n.endDate.value - e.startDate.value + 1 == e.days.value)
          && (Names(ops, EndDate) ==> n.endDate == e.endDate)
          && (Names(ops, EndDate) && n.endDate.None? ==> n.days == e.days)
          && (Names(ops, EndDate) && n.endDate.Some? ==>
                && n.days.Some? && n.endDate.value - e.startDate.value + 1 == n.days.value
                && (Names(ops, Days) ==> n.days == e.days)
                && (!Names(ops, Days) ==> n.endDate.value >= e.startDate.value)))
  }

  lemma NamesTouched(ops: seq<FieldOp>, f: FieldName)
    ensures Names(ops, f) <==> f in Touched(ops)
  {
  }

  /** The normalizer succeeds with exactly the request whose dates are in line. */
  lemma InLineIff(e: TripRequest, ops: seq<FieldOp>, n: TripRequest)
    ensures Normalize(e, Touched(ops)) == Ok(n)
            <==> InLine(e, ops, n) && n == e.(endDate := n.endDate, days := n.days)
  {
    NamesTouched(ops, EndDate);
    NamesTouched(ops, Days);
  }

  // ------------------------------------------------------------------ whole patches

  /** What an operation may ask for. */
  predicate Allowed(op: FieldOp) {
    match op
    case SetOrigin(t) => exists i :: 0 <= i < |t| && !IsSpace(t[i])
    case SetDestination(t) => exists i :: 0 <= i < |t| && !IsSpace(t[i])
    case SetDays(n) => n >= 1
    case SetPeople(n) => n >= 1
    case SetRooms(n) => n >= 1
    case SetBudget(x) => x >= 0.0
    case IncrementDays(x) => x != 0.0
    case IncrementBudget(x) => x != 0.0
    case _ => true
  }

  ghost predicate WellFormed(p: Patch) {
    && (forall i | 0 <= i < |p.ops| :: Allowed(p.ops[i]))
    && (forall i, j | 0 <= i < j < |p.ops| :: p.ops[i].Field() != p.ops[j].Field())
  }

  lemma AllowedIff(op: FieldOp)
    ensures Allowed(op) <==> op.SchemaOk()
  {
    match op
    case SetOrigin(t) => StripBlankIff(t);
    case SetDestination(t) => StripBlankIff(t);
    case _ =>
  }

  lemma WellFormedIff(p: Patch)
    ensures WellFormed(p) <==> p.SchemaOk()
  {
    forall i | 0 <= i < |p.ops|
      ensures Allowed(p.ops[i]) <==> p.ops[i].SchemaOk()
    {
      AllowedIff(p.ops[i]);
    }
  }

  /** The numbers a request may carry. */
  predicate InRange(n: TripRequest) {
    && (n.days.Some? ==> 1 <= n.days.value <= 30)
    && (n.budget.Some? ==> n.budget.value >= 0.0)
    && n.peopleCount.Some? && 1 <= n.peopleCount.value <= 20
    && (n.roomCount.Some? ==> 1 <= n.roomCount.value <= 20)
  }

  /** Everything but the dates and the lists is left as the operations leave it, and the change is on record. */
  predicate Rewritten(e: TripRequest, p: Patch, change: string, n: TripRequest) {
    && n.origin == e.origin && n.destination == e.destination && n.budget == e.budget
    && n.peopleCount == e.peopleCount && n.roomCount == e.roomCount && n.issues == p.issues
    && (Strip(e.rawMessage) == "" ==> n.rawMessage == Strip(change))
    && (Strip(e.rawMessage) != "" ==> n.rawMessage == Strip(e.rawMessage) + "\n修改要求：" + Strip(change))
  }

  predicate Merged(e: TripRequest, p: Patch, n: TripRequest) {
    && n.preferences == MergePreferences(e.preferences, p.preferenceRemovals, p.preferenceUpserts)
    && n.spending == MergeSpending(e.spending, p.spendingRemovals, p.spendingUpserts)
    && n.hardConstraints == MergeHard(e.hardConstraints, p.hardRemovals, p.hardAdditions)
    && n.namedConstraints == MergeNamed(e.namedConstraints, p.replaceTypes, p.namedRemovals, p.namedAdditions)
    && n.unmapped == MergeUnmapped(e.unmapped, p.unmappedAdditions)
  }

  /** From e, the request on which all operations are done, the patch makes n. */
  ghost predicate Makes(e: TripRequest, p: Patch, change: string, n: TripRequest) {
    InLine(e, p.ops, n) && Rewritten(e, p, change, n) && Merged(e, p, n) && InRange(n)
  }

  /** n before the lists are merged and the change is recorded. */
  function Unmerged(e: TripRequest, n: TripRequest): TripRequest {
    n.(preferences := e.preferences, spending := e.spending, hardConstraints := e.hardConstraints,
       namedConstraints := e.namedConstraints, unmapped := e.unmapped, issues := e.issues, rawMessage := e.rawMessage)
  }

  lemma MakesFromDates(r: TripRequest, p: Patch, change: string, e: TripRequest, n: TripRequest)
    requires p.SchemaOk() && ApplyOps(r, p.ops) == Ok(e)
    requires Normalize(e, Touched(p.ops)) == Ok(Unmerged(e, n))
    ensures ApplyPatch(r, p, change) == Ok(n) <==> Rewritten(e, p, change, n) && Merged(e, p, n) && InRange(n)
  {
    NormalizeAgrees(e, Touched(p.ops));
  }

  lemma DatesOfPatch(r: TripRequest, p: Patch, change: string, e: TripRequest)
    requires ApplyPatch(r, p, change).Ok? && ApplyOps(r, p.ops) == Ok(e)
    ensures Normalize(e, Touched(p.ops)) == Ok(Unmerged(e, ApplyPatch(r, p, change).value))
  {
    NormalizeAgrees(e, Touched(p.ops));
  }

  lemma MakesIff(r: TripRequest, p: Patch, change: string, e: TripRequest, n: TripRequest)
    requires p.SchemaOk() && ApplyOps(r, p.ops) == Ok(e)
    ensures ApplyPatch(r, p, change) == Ok(n) <==> Makes(e, p, change, n)
  {
    InLineIff(e, p.ops, Unmerged(e, n));
    if ApplyPatch(r, p, change) == Ok(n) {
      DatesOfPatch(r, p, change, e);
      MakesFromDates(r, p, change, e, n);
    } else if Makes(e, p, change, n) {
      MakesFromDates(r, p, change, e, n);
    }
  }

  /**
    A patch succeeds with n exactly when it is well formed, all its operations can be
    done, the dates they leave can be brought in line as in n, and n is in range.
    */
  lemma PatchIff(r: TripRequest, p: Patch, change: string, n: TripRequest)
    ensures ApplyPatch(r, p, change) == Ok(n)
            <==> WellFormed(p) && exists e :: AllDone(r, p.ops, e) && Makes(e, p, change, n)
  {
    WellFormedIff(p);
    if ApplyPatch(r, p, change) == Ok(n) {
      var e := ApplyOps(r, p.ops).value;
      OpsIff(r, p.ops, e);
      MakesIff(r, p, change, e, n);
    }
    if WellFormed(p) {
      if e :| AllDone(r, p.ops, e) && Makes(e, p, change, n) {
        OpsIff(r, p.ops, e);
        MakesIff(r, p, change, e, n);
      }
    }
  }

  /** In particular each operation leaves its own value; days give way to an end date only where they are not named. */
  lemma FieldsEndAsAsked(r: TripRequest, p: Patch, change: string, i: nat)
    requires ApplyPatch(r, p, change).Ok? && i < |p.ops|
    ensures var n, op := ApplyPatch(r, p, change).value, p.ops[i];
            && (op.Field() != EndDate ==> Done(op, r, n))
            && (op == Clear(EndDate) ==> n.endDate.None?)
            && (op.SetEnd? && n.startDate.Some? && n.days.Some? ==> n.endDate == Some(op.date))
  {
    var n := ApplyPatch(r, p, change).value;
    PatchIff(r, p, change, n);
    var e :| AllDone(r, p.ops, e) && Makes(e, p, change, n);
    assert Names(p.ops, p.ops[i].Field());
    assert Done(p.ops[i], r, e);
  }

  /** And what no operation names is left alone, but for end and days where they follow. */
  lemma OthersStay(r: TripRequest, p: Patch, change: string, f: FieldName)
    requires ApplyPatch(r, p, change).Ok? && !Names(p.ops, f) && f != EndDate
    ensures var n := ApplyPatch(r, p, change).value;
            SameField(n, r, f) || (f == Days && Names(p.ops, EndDate) && n.endDate.Some?)
  {
    var n := ApplyPatch(r, p, change).value;
    PatchIff(r, p, change, n);
    var e :| AllDone(r, p.ops, e) && Makes(e, p, change, n);
    assert SameField(e, r, f);
  }

  /** An increment of nothing, or below the least value, is refused with the whole patch. */
  lemma ImpossibleIncrementsAreRefused(r: TripRequest, p: Patch, change: string, i: nat)
    requires i < |p.ops|
    ensures p.ops[i].IncrementBudget? && (r.budget.None? || r.budget.value + p.ops[i].amount < 0.0) ==>
              ApplyPatch(r, p, change).Err?
    ensures p.ops[i].IncrementDays?
            && (r.days.None? || exists n :: Whole(p.ops[i].amount, n) && r.days.value + n < 1) ==>
              ApplyPatch(r, p, change).Err?
  {
    if ApplyPatch(r, p, change).Ok? {
      FieldsEndAsAsked(r, p, change, i);
      if p.ops[i].IncrementDays? {
        forall n | Whole(p.ops[i].amount, n)
          ensures n == Truncate(p.ops[i].amount)
        {
          TruncateIsWhole(p.ops[i].amount, n);
        }
      }
    }
  }

  // ------------------------------------------------------------------------ the lists

  /** x is the last of its kind in the list. */
  ghost predicate LastOfKind<T(!new)>(xs: seq<T>, alike: (T, T) -> bool, x: T) {
    exists i :: 0 <= i < |xs| && xs[i] == x && forall j | i < j < |xs| :: !alike(xs[j], x)
  }

  ghost predicate HasKind<T(!new)>(xs: seq<T>, alike: (T, T) -> bool, x: T) {
    exists i :: 0 <= i < |xs| && alike(xs[i], x)
  }

  /** x is in the updated list: as the last addition of its kind, or kept where there is none. */
  ghost predicate Left<T(!new)>(current: seq<T>, additions: seq<T>, alike: (T, T) -> bool, kept: bool, x: T) {
    LastOfKind(additions, alike, x) || (kept && !HasKind(additions, alike, x) && LastOfKind(current, alike, x))
  }

  lemma {:induction false} LastWithIff<K(!new), T(!new)>(xs: seq<T>, keyOf: T -> K, alike: (T, T) -> bool, x: T)
    requires forall a, b :: alike(a, b) <==> keyOf(a) == keyOf(b)
    ensures LastWith(xs, keyOf, keyOf(x)) == Some(x) <==> LastOfKind(xs, alike, x)
    ensures LastWith(xs, keyOf, keyOf(x)).Some? <==> HasKind(xs, alike, x)
  {
    if xs == [] {
    } else {
      var n := |xs| - 1;
      LastWithIff(xs[..n], keyOf, alike, x);
      if alike(xs[n], x) {
        assert LastWith(xs, keyOf, keyOf(x)) == Some(xs[n]);
      } else {
        LastOfKindSnoc(xs[..n], xs[n], alike, x);
        assert xs == xs[..n] + [xs[n]];
      }
    }
  }

  lemma LastOfKindSnoc<T(!new)>(xs: seq<T>, y: T, alike: (T, T) -> bool, x: T)
    requires !alike(y, x) && alike(x, x)
    ensures LastOfKind(xs + [y], alike, x) <==> LastOfKind(xs, alike, x)
    ensures HasKind(xs + [y], alike, x) <==> HasKind(xs, alike, x)
  {
    var all := xs + [y];
    assert forall i | 0 <= i < |xs| :: all[i] == xs[i];
    if LastOfKind(xs, alike, x) {
      var i :| 0 <= i < |xs| && xs[i] == x && forall j | i < j < |xs| :: !alike(xs[j], x);
      assert all[i] == x;
    }
    if HasKind(xs, alike, x) {
      var i :| 0 <= i < |xs| && alike(xs[i], x);
      assert alike(all[i], x);
    }
  }

  lemma MergedIff<K(!new), T(!new)>(current: seq<T>, keyOf: T -> K, keeps: K -> bool, additions: seq<T>,
                                    alike: (T, T) -> bool, x: T)
    requires forall a, b :: alike(a, b) <==> keyOf(a) == keyOf(b)
    ensures x in Merge(current, keyOf, keeps, additions) <==> Left(current, additions, alike, keeps(keyOf(x)), x)
  {
    var result := Merge(current, keyOf, keeps, additions);
    MergeIsMapUpdate(current, keyOf, keeps, additions, keyOf(x));
    LastWithIff(current, keyOf, alike, x);
    LastWithIff(additions, keyOf, alike, x);
    if x in result {
      var i: nat :| i < |result| && result[i] == x;
      OnlyWith(result, keyOf, i);
    }
    if LastWith(result, keyOf, keyOf(x)) == Some(x) {
      LastWithIsIn(result, keyOf, keyOf(x));
    }
  }

  lemma PreferencesLeft(current: seq<Preference>, removals: seq<(string, string)>, upserts: seq<Preference>,
                        x: Preference)
    ensures x in MergePreferences(current, removals, upserts)
            <==> Left(current, upserts, (a: Preference, b: Preference) => a.domain == b.domain && a.key == b.key,
                      x.domain != "" && x.key != "" && (x.domain, x.key) !in removals, x)
  {
    MergedIff(current, PreferenceKey, KeepsPairs(removals), upserts,
              (a: Preference, b: Preference) => a.domain == b.domain && a.key == b.key, x);
  }

  lemma SpendingLeft(current: seq<Spending>, removals: seq<string>, upserts: seq<Spending>, x: Spending)
    ensures x in MergeSpending(current, removals, upserts)
            <==> Left(current, upserts, (a: Spending, b: Spending) => a.category == b.category,
                      x.category != "" && x.category !in removals, x)
  {
    MergedIff(current, SpendingKey, KeepsNames(removals), upserts,
              (a: Spending, b: Spending) => a.category == b.category, x);
  }

  lemma HardConstraintsLeft(current: seq<HardConstraint>, removals: seq<(string, string)>,
                            additions: seq<HardConstraint>, x: HardConstraint)
    ensures x in MergeHard(current, removals, additions)
            <==> Left(current, additions,
                      (a: HardConstraint, b: HardConstraint) => a.domain == b.domain && a.field == b.field,
                      x.domain != "" && x.field != "" && (x.domain, x.field) !in removals, x)
  {
    MergedIff(current, HardKey, KeepsPairs(removals), additions,
              (a: HardConstraint, b: HardConstraint) => a.domain == b.domain && a.field == b.field, x);
  }

  /** A named constraint is removed with its whole type, by type, or by type and name. */
  lemma NamedConstraintsLeft(current: seq<NamedConstraint>, replaceTypes: seq<string>, removals: seq<NamedSelector>,
                             additions: seq<NamedConstraint>, x: NamedConstraint)
    ensures x in MergeNamed(current, replaceTypes, removals, additions)
            <==> Left(current, additions,
                      (a: NamedConstraint, b: NamedConstraint) =>
                        a.entityType == b.entityType && a.entityName == b.entityName && a.mode == b.mode,
                      x.entityType != "" && x.entityName != "" && x.entityType !in replaceTypes
                      && NamedSelector(x.entityType, None) !in removals
                      && NamedSelector(x.entityType, Some(x.entityName)) !in removals, x)
  {
    MergedIff(current, NamedKey, KeepsNamed(replaceTypes, removals), additions,
              (a: NamedConstraint, b: NamedConstraint) =>
                a.entityType == b.entityType && a.entityName == b.entityName && a.mode == b.mode, x);
    RemovedBySelector(x.entityType, x.entityName, removals);
  }

  lemma RemovedBySelector(entityType: string, entityName: string, removals: seq<NamedSelector>)
    ensures ShouldRemove(entityType, entityName, [], removals)
            <==> NamedSelector(entityType, None) in removals || NamedSelector(entityType, Some(entityName)) in removals
  {
    if ShouldRemove(entityType, entityName, [], removals) {
      var i :| 0 <= i < |removals| && removals[i].entityType == entityType
               && (removals[i].entityName.None? || removals[i].entityName.value == entityName);
      assert removals[i] in removals;
      assert removals[i] == NamedSelector(entityType, None)
             || removals[i] == NamedSelector(entityType, Some(entityName));
    }
    if NamedSelector(entityType, None) in removals {
      var i :| 0 <= i < |removals| && removals[i] == NamedSelector(entityType, None);
    }
    if NamedSelector(entityType, Some(entityName)) in removals {
      var i :| 0 <= i < |removals| && removals[i] == NamedSelector(entityType, Some(entityName));
    }
  }

  lemma UnmappedLeft(current: seq<Unmapped>, additions: seq<Unmapped>, x: Unmapped)
    ensures x in MergeUnmapped(current, additions)
            <==> Left(current, additions, (a: Unmapped, b: Unmapped) => a.text == b.text, x.text != "", x)
  {
    MergedIff(current, UnmappedKey, KeepsNames([]), additions, (a: Unmapped, b: Unmapped) => a.text == b.text, x);
  }
}
