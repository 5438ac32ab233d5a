/** The deterministic checks of app/validators/trip_request_validator.py on a trip request. */
module RequestCheck {
  import opened Prelude
  import opened Text
  import R = Revision

  datatype Gap = NoOrigin | NoDestination | NoStartDate | NoDays | NoRoomCount

  predicate HasText(t: Option<string>) {
    t.Some? && Strip(t.value) != ""
  }

  /** Every field that must be asked for, and for more than one person the number of rooms. */
  predicate NothingMissing(r: R.TripRequest) {
    && HasText(r.origin) && HasText(r.destination) && r.startDate.Some? && r.days.Some?
    && (r.peopleCount.Some? && r.peopleCount.value > 1 ==> r.roomCount.Some?)
  }

  /** The dates do not contradict each other or the days, and nobody has two rooms. */
  predicate Consistent(r: R.TripRequest) {
    && (r.startDate.Some? && r.endDate.Some? ==> r.startDate.value <= r.endDate.value)
    && (r.startDate.Some? && r.endDate.Some? && r.days.Some? && r.days.value != 0 ==>
          r.endDate.value - r.startDate.value + 1 == r.days.value)
    && (r.roomCount.Some? && r.peopleCount.Some? ==> r.roomCount.value <= r.peopleCount.value)
  }

  /** A request that fails one of these is sent to clarification whatever else is known. */
  predicate Complete(r: R.TripRequest) {
    R.RequestSchemaOk(r) && NothingMissing(r) && Consistent(r)
  }

  /** The list of missing fields, in the order in which they are asked for. */
  method CheckMissingFields(r: R.TripRequest) returns (missing: seq<Gap>)
    requires R.RequestSchemaOk(r)
    ensures missing == [] <==> NothingMissing(r)
    ensures NoOrigin in missing <==> !HasText(r.origin)
    ensures NoDestination in missing <==> !HasText(r.destination)
    ensures NoStartDate in missing <==> r.startDate.None?
    ensures NoDays in missing <==> r.days.None?
    ensures NoRoomCount in missing <==> r.peopleCount.value > 1 && r.roomCount.None?
  {
    missing := [];
    if !HasText(r.origin) {
      missing := missing + [NoOrigin];
    }
    if !HasText(r.destination) {
      missing := missing + [NoDestination];
    }
    if r.startDate.None? {
      missing := missing + [NoStartDate];
    }
    if r.days.None? {
      missing := missing + [NoDays];
    }
    if r.peopleCount.value > 1 && r.roomCount.None? {
      missing := missing + [NoRoomCount];
    }
  }

  // --------------------------------------------------------- what complete requests are

  lemma HasTextIff(t: Option<string>)
    ensures HasText(t) <==> t.Some? && exists i :: 0 <= i < |t.value| && !IsSpace(t.value[i])
  {
    if t.Some? {
      StripBlankIff(t.value);
    }
  }

  /** The dates of a complete request, as far as they are given, span its days, and everybody has at most a room. */
  lemma CompleteSpansItsDays(r: R.TripRequest)
    requires Complete(r)
    ensures r.startDate.Some? && r.days.Some? && 1 <= r.days.value <= 30
    ensures r.endDate.Some? ==> r.endDate.value - r.startDate.value == r.days.value - 1
    ensures r.peopleCount.Some? && 1 <= r.peopleCount.value <= 20
    ensures r.roomCount.Some? ==> 1 <= r.roomCount.value <= r.peopleCount.value
    ensures r.peopleCount.value > 1 ==> r.roomCount.Some?
  {
  }

  /** After a revision the dates need no checking: only missing fields and too many rooms are left to ask about. */
  lemma PatchedIsCompleteIff(r: R.TripRequest, p: R.Patch, change: string)
    requires R.ApplyPatch(r, p, change).Ok?
    ensures var n := R.ApplyPatch(r, p, change).value;
            Complete(n) <==>
              && HasText(n.origin) && HasText(n.destination) && n.startDate.Some? && n.days.Some?
              && (n.roomCount.None? ==> n.peopleCount == Some(1))
              && (n.roomCount.Some? ==> n.peopleCount.Some? && n.roomCount.value <= n.peopleCount.value)
  {
    R.PatchedRequest(r, p, change);
  }
}
