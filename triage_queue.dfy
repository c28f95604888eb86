/**
 * The backend's in-memory triage queue: one list of patient records kept in
 * descending triage-score order with 1-based positions, and the counter that
 * hands out patient ids. Intake appends a record and re-sorts; complete and
 * cancel mark a record and filter it out; the read endpoints list the queue
 * and aggregate statistics over the waiting records.
 */
module TriageQueue {
  import opened Wrappers
  import Triage

  datatype Status = Waiting | Completed | Cancelled

  /** One queued patient, as the intake handler builds it. */
  datatype Patient = Patient(
    id: nat,
    name: string,
    email: string,
    phone: string,
    symptoms: string,
    urgencyLevel: int,
    visitType: string,
    estimatedDuration: int,
    triageScore: int,
    urgencyClassification: string,
    reasoning: string,
    priorityFactors: seq<string>,
    advisal: string,
    status: Status,
    position: int)

  /** An intake request body; `None` is a key the client did not send. */
  datatype IntakeRequest = IntakeRequest(
    name: Option<string>,
    email: Option<string>,
    phone: Option<string>,
    symptoms: Option<string>,
    urgencyLevel: Option<int>,
    visitType: Option<string>,
    estimatedDuration: Option<int>)

  datatype IntakeResult =
    | Admitted(patient: Patient, estimatedWait: int)
    | Rejected(error: string)

  /** Reply of complete and cancel; complete echoes the completed record. */
  datatype Reply = NotFound | Success(patient: Option<Patient>)

  // ---------------------------------------------------------------------
  // Required fields
  // ---------------------------------------------------------------------

  datatype Field = Name | Email | Phone | Symptoms | UrgencyLevel | VisitType | EstimatedDuration

  /** The fields intake insists on, in the order they are checked. */
  const RequiredFields: seq<Field> := [Name, Email, Phone, Symptoms, UrgencyLevel, VisitType, EstimatedDuration]

  function FieldName(f: Field): string {
    match f
    case Name => "name"
    case Email => "email"
    case Phone => "phone"
    case Symptoms => "symptoms"
    case UrgencyLevel => "urgencyLevel"
    case VisitType => "visitType"
    case EstimatedDuration => "estimatedDuration"
  }

  predicate HasField(req: IntakeRequest, f: Field) {
    match f
    case Name => req.name.Some?
    case Email => req.email.Some?
    case Phone => req.phone.Some?
    case Symptoms => req.symptoms.Some?
    case UrgencyLevel => req.urgencyLevel.Some?
    case VisitType => req.visitType.Some?
    case EstimatedDuration => req.estimatedDuration.Some?
  }

  predicate AllPresent(req: IntakeRequest) {
    && req.name.Some? && req.email.Some? && req.phone.Some? && req.symptoms.Some?
    && req.urgencyLevel.Some? && req.visitType.Some? && req.estimatedDuration.Some?
  }

  /** The first required field, from index `i` on, that the request lacks. */
  function FirstMissingFrom(req: IntakeRequest, i: nat): (f: Option<Field>)
    requires i <= |RequiredFields|
    ensures f.None? <==> forall j :: i <= j < |RequiredFields| ==> HasField(req, RequiredFields[j])
    ensures f.Some? ==> exists j :: i <= j < |RequiredFields| && RequiredFields[j] == f.value
                          && !HasField(req, f.value)
                          && forall k :: i <= k < j ==> HasField(req, RequiredFields[k])
    decreases |RequiredFields| - i
  {
    if i == |RequiredFields| then None
    else if !HasField(req, RequiredFields[i]) then Some(RequiredFields[i])
    else FirstMissingFrom(req, i + 1)
  }

  /** The first required field the request lacks, in checking order. */
  function FirstMissing(req: IntakeRequest): (f: Option<Field>)
    ensures f.None? <==> AllPresent(req)
  {
    assert AllPresent(req) <==> forall j :: 0 <= j < |RequiredFields| ==> HasField(req, RequiredFields[j]) by {
      assert RequiredFields[0] == Name && RequiredFields[1] == Email && RequiredFields[2] == Phone;
      assert RequiredFields[3] == Symptoms && RequiredFields[4] == UrgencyLevel;
      assert RequiredFields[5] == VisitType && RequiredFields[6] == EstimatedDuration;
    }
    FirstMissingFrom(req, 0)
  }

  function MissingFieldMessage(f: Field): string {
    "Missing required field: " + FieldName(f)
  }

  /** The validation loop: returns the first required field that is absent. */
  method FindMissingField(req: IntakeRequest) returns (missing: Option<Field>)
    ensures missing == FirstMissing(req)
  {
    var i := 0;
    while i < |RequiredFields|
      invariant 0 <= i <= |RequiredFields|
      invariant FirstMissingFrom(req, i) == FirstMissingFrom(req, 0)
    {
      if !HasField(req, RequiredFields[i]) {
        return Some(RequiredFields[i]);
      }
      i := i + 1;
    }
    return None;
  }

  /** The record intake builds for a complete request, before it is positioned. */
  function NewRecord(id: nat, req: IntakeRequest): Patient
    requires AllPresent(req)
  {
    var a := Triage.FallbackTriage(req.urgencyLevel.value, req.visitType.value, req.estimatedDuration.value);
    Patient(
      id, req.name.value, req.email.value, req.phone.value, req.symptoms.value,
      req.urgencyLevel.value, req.visitType.value, req.estimatedDuration.value,
      a.triageScore, a.urgencyClassification, a.reasoning, a.priorityFactors,
      Triage.AdvisalFallback(req.symptoms.value, req.visitType.value),
      Waiting, 0)
  }

  /** The record intake builds: the request's seven fields as sent, the fallback
      analysis and advisal, status waiting and position 0 until renumbered. */
  lemma NewRecordFromRequest(id: nat, req: IntakeRequest)
    requires AllPresent(req)
    ensures var r := NewRecord(id, req);
            && r.id == id && r.name == req.name.value && r.email == req.email.value
            && r.phone == req.phone.value && r.symptoms == req.symptoms.value
            && r.urgencyLevel == req.urgencyLevel.value && r.visitType == req.visitType.value
            && r.estimatedDuration == req.estimatedDuration.value
            && r.status == Waiting && r.position == 0
            && r.urgencyClassification == "routine"
            && -10 <= r.triageScore - 10 * r.urgencyLevel <= 55
            && r.triageScore == Triage.FallbackTriage(r.urgencyLevel, r.visitType, r.estimatedDuration).triageScore
            && r.advisal == Triage.AdvisalFallback(r.symptoms, r.visitType)
  {
  }

  // ---------------------------------------------------------------------
  // Queue order
  // ---------------------------------------------------------------------

  /** `a` is served before `b`: higher score first, earlier arrival (smaller id) on ties. */
  predicate Precedes(a: Patient, b: Patient) {
    a.triageScore > b.triageScore || (a.triageScore == b.triageScore && a.id < b.id)
  }

  ghost predicate ScoreSorted(s: seq<Patient>) {
    forall i, j :: 0 <= i < j < |s| ==> s[i].triageScore >= s[j].triageScore
  }

  ghost predicate QueueOrdered(s: seq<Patient>) {
    forall i, j :: 0 <= i < j < |s| ==> Precedes(s[i], s[j])
  }

  ghost predicate DistinctIds(s: seq<Patient>) {
    forall i, j :: 0 <= i < j < |s| ==> s[i].id != s[j].id
  }

  ghost predicate Numbered(s: seq<Patient>) {
    forall i :: 0 <= i < |s| ==> s[i].position == i + 1
  }

  /** Every record is waiting, has a distinct id below `bound`, and the list is in queue order. */
  ghost predicate WellFormed(s: seq<Patient>, bound: nat) {
    && QueueOrdered(s)
    && DistinctIds(s)
    && (forall i :: 0 <= i < |s| ==> s[i].status == Waiting && s[i].id < bound)
  }

  /** Where a stable descending sort puts a new record of this score:
      after every record whose score is at least as high. */
  function InsertionPoint(s: seq<Patient>, score: int): (k: nat)
    ensures k <= |s|
    ensures forall i :: 0 <= i < k ==> s[i].triageScore >= score
    ensures k < |s| ==> s[k].triageScore < score
  {
    if s == [] || s[0].triageScore < score then 0 else 1 + InsertionPoint(s[1..], score)
  }

  function InsertAfterTies(s: seq<Patient>, x: Patient): seq<Patient> {
    var k := InsertionPoint(s, x.triageScore);
    s[..k] + [x] + s[k..]
  }

  /** Python's `list.sort(key=triageScore, reverse=True)`: a stable sort,
      here the insertion sort that takes the records in list order. */
  function StableSortDesc(s: seq<Patient>): seq<Patient> {
    if s == [] then [] else InsertAfterTies(StableSortDesc(s[..|s| - 1]), s[|s| - 1])
  }

  /** The positions loop: record `i` gets position `i + 1`. */
  function Renumbered(s: seq<Patient>): (r: seq<Patient>)
    ensures |r| == |s| && Numbered(r)
    ensures forall i :: 0 <= i < |s| ==> r[i] == s[i].(position := i + 1)
  {
    seq(|s|, i requires 0 <= i < |s| => s[i].(position := i + 1))
  }

  function RemoveAt(s: seq<Patient>, k: nat): seq<Patient>
    requires k < |s|
  {
    s[..k] + s[k + 1..]
  }

  /** `next(p for p in patients if p['id'] == id)`: the first record with this id. */
  function IndexOfId(s: seq<Patient>, id: nat): (r: Option<nat>)
    ensures r.None? <==> forall i :: 0 <= i < |s| ==> s[i].id != id
    ensures r.Some? ==> r.value < |s| && s[r.value].id == id
                        && forall i :: 0 <= i < r.value ==> s[i].id != id
  {
    if s == [] then None
    else if s[0].id == id then Some(0)
    else match IndexOfId(s[1..], id)
      case None => None
      case Some(k) => Some(k + 1)
  }

  /** `[p for p in patients if p['status'] not in gone]`. */
  function Without(s: seq<Patient>, gone: set<Status>): (r: seq<Patient>)
    ensures |r| <= |s|
  {
    if s == [] then []
    else (if s[0].status in gone then [] else [s[0]]) + Without(s[1..], gone)
  }

  // ---------------------------------------------------------------------
  // Lemmas about insertion, sorting and removal
  // ---------------------------------------------------------------------

  /** Element by element: the old records in front of the insertion point, the new
      record at it, and the remaining old records one place further back. */
  lemma InsertAfterTiesShape(s: seq<Patient>, x: Patient)
    ensures var r := InsertAfterTies(s, x);
            var k := InsertionPoint(s, x.triageScore);
            && |r| == |s| + 1 && r[k] == x
            && (forall i :: 0 <= i < k ==> r[i] == s[i])
            && (forall i :: k < i < |r| ==> r[i] == s[i - 1])
  {
  }

  /** Inserting after the ties adds exactly the new record. */
  lemma InsertAfterTiesMultiset(s: seq<Patient>, x: Patient)
    ensures multiset(InsertAfterTies(s, x)) == multiset(s) + multiset{x}
  {
    var k := InsertionPoint(s, x.triageScore);
    assert s == s[..k] + s[k..];
  }

  /** One pair of the list after insertion is still in score order. */
  lemma InsertedPairSorted(s: seq<Patient>, x: Patient, i: nat, j: nat)
    requires ScoreSorted(s)
    requires i < j <= |s|
    ensures InsertAfterTies(s, x)[i].triageScore >= InsertAfterTies(s, x)[j].triageScore
  {
    InsertAfterTiesShape(s, x);
    var k := InsertionPoint(s, x.triageScore);
    var r := InsertAfterTies(s, x);
    if j < k {
      assert r[i] == s[i] && r[j] == s[j];
    } else if j == k {
      assert r[i] == s[i] && r[j] == x;
    } else if i < k {
      assert r[i] == s[i] && r[j] == s[j - 1];
    } else if i == k {
      assert r[i] == x && r[j] == s[j - 1];
      assert s[k].triageScore >= s[j - 1].triageScore;
    } else {
      assert r[i] == s[i - 1] && r[j] == s[j - 1];
    }
  }

  /** Inserting after the ties keeps a score-sorted list sorted and puts the new record
      behind every record of equal or higher score and in front of every lower one. */
  lemma InsertAfterTiesSorted(s: seq<Patient>, x: Patient)
    requires ScoreSorted(s)
    ensures ScoreSorted(InsertAfterTies(s, x))
    ensures var k := InsertionPoint(s, x.triageScore);
            && (forall i :: 0 <= i < k ==> InsertAfterTies(s, x)[i].triageScore >= x.triageScore)
            && (forall i :: k < i <= |s| ==> InsertAfterTies(s, x)[i].triageScore < x.triageScore)
  {
    var k := InsertionPoint(s, x.triageScore);
    var r := InsertAfterTies(s, x);
    forall i | 0 <= i < k ensures r[i].triageScore >= x.triageScore {
      InsertedRankedAgainstNew(s, x, i);
    }
    forall i | k < i <= |s| ensures r[i].triageScore < x.triageScore {
      InsertedRankedAgainstNew(s, x, i);
    }
    forall i, j | 0 <= i < j < |r| ensures r[i].triageScore >= r[j].triageScore {
      InsertedPairSorted(s, x, i, j);
    }
  }

  /** Records in front of the new one score at least as high; records behind it score lower. */
  lemma InsertedRankedAgainstNew(s: seq<Patient>, x: Patient, i: nat)
    requires ScoreSorted(s) && i <= |s|
    ensures var k := InsertionPoint(s, x.triageScore);
            && (i < k ==> InsertAfterTies(s, x)[i].triageScore >= x.triageScore)
            && (k < i ==> InsertAfterTies(s, x)[i].triageScore < x.triageScore)
  {
    InsertAfterTiesShape(s, x);
    var k := InsertionPoint(s, x.triageScore);
    var r := InsertAfterTies(s, x);
    if i < k {
      assert r[i] == s[i];
    } else if k < i {
      assert r[i] == s[i - 1];
      assert s[k].triageScore >= s[i - 1].triageScore;
    }
  }

  /** Sorting a list that is already sorted changes nothing. */
  lemma {:induction false} SortSortedIsIdentity(s: seq<Patient>)
    requires ScoreSorted(s)
    ensures StableSortDesc(s) == s
  {
    if s != [] {
      var init := s[..|s| - 1];
      SortSortedIsIdentity(init);
      var k := InsertionPoint(init, s[|s| - 1].triageScore);
      assert k == |init|;
      assert init[..k] + [s[|s| - 1]] + init[k..] == s;
    }
  }

  /** Appending to a sorted list and sorting is inserting after the ties. */
  lemma SortAfterAppend(s: seq<Patient>, x: Patient)
    requires ScoreSorted(s)
    ensures StableSortDesc(s + [x]) == InsertAfterTies(s, x)
  {
    assert (s + [x])[..|s|] == s;
    SortSortedIsIdentity(s);
  }

  /** The sort is a permutation into score order, for any input. */
  lemma {:induction false} StableSortDescCorrect(s: seq<Patient>)
    ensures ScoreSorted(StableSortDesc(s))
    ensures multiset(StableSortDesc(s)) == multiset(s)
  {
    if s != [] {
      var init := s[..|s| - 1];
      StableSortDescCorrect(init);
      InsertAfterTiesSorted(StableSortDesc(init), s[|s| - 1]);
      InsertAfterTiesMultiset(StableSortDesc(init), s[|s| - 1]);
      assert s == init + [s[|s| - 1]];
    }
  }

  /** One pair of the list after insertion is still in queue order with distinct ids. */
  lemma InsertedPairOrdered(s: seq<Patient>, x: Patient, bound: nat, i: nat, j: nat)
    requires WellFormed(s, bound) && x.id == bound
    requires i < j <= |s|
    ensures var r := InsertAfterTies(s, x);
            Precedes(r[i], r[j]) && r[i].id != r[j].id
  {
    var k := InsertionPoint(s, x.triageScore);
    var r := InsertAfterTies(s, x);
    InsertAfterTiesShape(s, x);
    if j < k {
      assert r[i] == s[i] && r[j] == s[j];
      assert Precedes(s[i], s[j]);
    } else if j == k {
      assert r[i] == s[i] && r[j] == x;
      assert s[i].triageScore >= x.triageScore && s[i].id < bound;
    } else if i < k {
      assert r[i] == s[i] && r[j] == s[j - 1];
      assert Precedes(s[i], s[j - 1]);
    } else if i == k {
      assert r[i] == x && r[j] == s[j - 1];
      assert s[k].triageScore < x.triageScore;
      if j - 1 > k {
        assert Precedes(s[k], s[j - 1]);
      }
      assert s[j - 1].id < bound;
    } else {
      assert r[i] == s[i - 1] && r[j] == s[j - 1];
      assert Precedes(s[i - 1], s[j - 1]);
    }
  }

  /** A record whose id exceeds every queued id goes in without breaking queue order. */
  lemma InsertKeepsWellFormed(s: seq<Patient>, x: Patient, bound: nat)
    requires WellFormed(s, bound) && x.id == bound && x.status == Waiting
    ensures WellFormed(InsertAfterTies(s, x), bound + 1)
  {
    var k := InsertionPoint(s, x.triageScore);
    var r := InsertAfterTies(s, x);
    InsertAfterTiesShape(s, x);
    forall i, j | 0 <= i < j < |r| ensures Precedes(r[i], r[j]) && r[i].id != r[j].id {
      InsertedPairOrdered(s, x, bound, i, j);
    }
    forall i | 0 <= i < |r| ensures r[i].status == Waiting && r[i].id < bound + 1 {
      if i > k {
        assert r[i] == s[i - 1];
      } else if i < k {
        assert r[i] == s[i];
      }
    }
  }

  /** Queue order implies score order. */
  lemma OrderedIsSorted(s: seq<Patient>)
    requires QueueOrdered(s)
    ensures ScoreSorted(s)
  {
    forall i, j | 0 <= i < j < |s| ensures s[i].triageScore >= s[j].triageScore {
      assert Precedes(s[i], s[j]);
    }
  }

  /** What intake's sort, renumbering and wait loop leave behind for a well-formed queue
      and a new record carrying the next id. */
  lemma AdmissionFacts(s: seq<Patient>, x: Patient, bound: nat)
    requires WellFormed(s, bound) && x.id == bound && x.status == Waiting
    ensures var after := Renumbered(InsertAfterTies(s, x));
            var k := InsertionPoint(s, x.triageScore);
            && StableSortDesc(s + [x]) == InsertAfterTies(s, x)
            && WellFormed(after, bound + 1)
            && OutrankingWait(after, x.id, x.triageScore) == OutrankingWait(s, x.id, x.triageScore)
            && IndexOfId(after, x.id) == Some(k)
            && after[k] == x.(position := k + 1)
  {
    OrderedIsSorted(s);
    SortAfterAppend(s, x);
    AdmittedAt(s, x, bound);
    OutrankingWaitRenumbered(InsertAfterTies(s, x), x.id, x.triageScore);
    OutrankingWaitInsert(s, x);
  }

  /** The renumbered queue is well formed and the new record is found at its insertion point. */
  lemma AdmittedAt(s: seq<Patient>, x: Patient, bound: nat)
    requires WellFormed(s, bound) && x.id == bound && x.status == Waiting
    ensures var after := Renumbered(InsertAfterTies(s, x));
            var k := InsertionPoint(s, x.triageScore);
            && WellFormed(after, bound + 1)
            && IndexOfId(after, x.id) == Some(k)
            && after[k] == x.(position := k + 1)
  {
    InsertKeepsWellFormed(s, x, bound);
    RenumberedKeepsWellFormed(InsertAfterTies(s, x), bound + 1);
    InsertAfterTiesShape(s, x);
    var after := Renumbered(InsertAfterTies(s, x));
    var k := InsertionPoint(s, x.triageScore);
    assert after[k].id == x.id;
  }

  /** Renumbering leaves everything but the positions alone. */
  lemma RenumberedKeepsWellFormed(s: seq<Patient>, bound: nat)
    requires WellFormed(s, bound)
    ensures WellFormed(Renumbered(s), bound)
  {
    var r := Renumbered(s);
    forall i, j | 0 <= i < j < |r| ensures Precedes(r[i], r[j]) && r[i].id != r[j].id {
      assert Precedes(s[i], s[j]) && s[i].id != s[j].id;
    }
  }

  /** Filtering out a single marked record of an all-waiting list removes exactly it. */
  lemma {:induction false} WithoutMarked(s: seq<Patient>, k: nat, mark: Status, gone: set<Status>)
    requires k < |s| && mark in gone && Waiting !in gone
    requires forall i :: 0 <= i < |s| ==> s[i].status == Waiting
    ensures Without(s[k := s[k].(status := mark)], gone) == RemoveAt(s, k)
  {
    var m := s[k := s[k].(status := mark)];
    if k == 0 {
      assert m[1..] == s[1..];
      WithoutAllWaiting(s[1..], gone);
      assert RemoveAt(s, 0) == s[1..];
    } else {
      assert m[1..] == s[1..][k - 1 := s[k].(status := mark)];
      WithoutMarked(s[1..], k - 1, mark, gone);
      assert RemoveAt(s, k) == [s[0]] + RemoveAt(s[1..], k - 1);
    }
  }

  /** Filtering an all-waiting list by terminal statuses keeps all of it. */
  lemma {:induction false} WithoutAllWaiting(s: seq<Patient>, gone: set<Status>)
    requires Waiting !in gone
    requires forall i :: 0 <= i < |s| ==> s[i].status == Waiting
    ensures Without(s, gone) == s
  {
    if s != [] {
      WithoutAllWaiting(s[1..], gone);
      assert [s[0]] + s[1..] == s;
    }
  }

  /** Removing a record keeps the queue well formed and drops its id. */
  lemma RemoveKeepsWellFormed(s: seq<Patient>, k: nat, bound: nat)
    requires WellFormed(s, bound) && k < |s|
    ensures WellFormed(RemoveAt(s, k), bound)
    ensures forall i :: 0 <= i < |s| - 1 ==> RemoveAt(s, k)[i].id != s[k].id
  {
    var r := RemoveAt(s, k);
    assert forall i :: 0 <= i < |r| ==> r[i] == (if i < k then s[i] else s[i + 1]);
  }

  /** After a removal, the records behind the removed one move up exactly one place and the
      others keep their position. */
  lemma RemovalShiftsPositions(s: seq<Patient>, k: nat)
    requires k < |s| && Numbered(s)
    ensures var r := Renumbered(RemoveAt(s, k));
            && |r| == |s| - 1
            && (forall i :: 0 <= i < k ==> r[i] == s[i])
            && (forall i :: k <= i < |r| ==> r[i] == s[i + 1].(position := s[i + 1].position - 1))
  {
  }

  /** In a list in queue order, a record's position is one more than the number of
      records that precede it. */
  lemma PositionCountsPredecessors(s: seq<Patient>, k: nat)
    requires QueueOrdered(s) && Numbered(s) && k < |s|
    ensures s[k].position == 1 + CountPreceding(s, s[k])
  {
    PrecedingPrefix(s, s[k], k);
  }

  /** Number of records in `s` that are served before `p`. */
  function CountPreceding(s: seq<Patient>, p: Patient): nat {
    if s == [] then 0 else (if Precedes(s[0], p) then 1 else 0) + CountPreceding(s[1..], p)
  }

  lemma {:induction false} PrecedingPrefix(s: seq<Patient>, p: Patient, k: nat)
    requires QueueOrdered(s) && k < |s| && s[k] == p
    ensures CountPreceding(s, p) == k
  {
    // Precedes is irreflexive
    assert !Precedes(p, p);
    if k == 0 {
      assert forall i :: 0 < i < |s| ==> Precedes(s[0], s[i]);
      NonePreceding(s[1..], p);
    } else {
      assert Precedes(s[0], s[k]);
      PrecedingPrefix(s[1..], p, k - 1);
    }
  }

  lemma {:induction false} NonePreceding(s: seq<Patient>, p: Patient)
    requires forall i :: 0 <= i < |s| ==> Precedes(p, s[i])
    ensures CountPreceding(s, p) == 0
  {
    if s != [] {
      assert Precedes(p, s[0]);
      NonePreceding(s[1..], p);
    }
  }

  // ---------------------------------------------------------------------
  // Estimated wait
  // ---------------------------------------------------------------------

  /** Sum of the durations of the records other than `id` whose score is strictly above `score`. */
  function OutrankingWait(s: seq<Patient>, id: nat, score: int): int {
    if s == [] then 0
    else
      var p := s[|s| - 1];
      OutrankingWait(s[..|s| - 1], id, score) + (if p.id != id && p.triageScore > score then p.estimatedDuration else 0)
  }

  /** The estimated-wait loop of intake. */
  method EstimatedWait(queue: seq<Patient>, id: nat, score: int) returns (wait: int)
    ensures wait == OutrankingWait(queue, id, score)
  {
    wait := 0;
    for i := 0 to |queue|
      invariant wait == OutrankingWait(queue[..i], id, score)
    {
      assert queue[..i + 1][..i] == queue[..i];
      var p := queue[i];
      if p.id == id {
        continue;
      }
      if p.triageScore > score {
        wait := wait + p.estimatedDuration;
      }
    }
    assert queue[..|queue|] == queue;
  }

  lemma {:induction false} OutrankingWaitConcat(a: seq<Patient>, b: seq<Patient>, id: nat, score: int)
    ensures OutrankingWait(a + b, id, score) == OutrankingWait(a, id, score) + OutrankingWait(b, id, score)
    decreases |b|
  {
    if b != [] {
      assert (a + b)[..|a + b| - 1] == a + b[..|b| - 1];
      OutrankingWaitConcat(a, b[..|b| - 1], id, score);
    } else {
      assert a + b == a;
    }
  }

  /** The wait only looks at ids, scores and durations, so renumbering does not change it. */
  lemma {:induction false} OutrankingWaitRenumbered(s: seq<Patient>, id: nat, score: int)
    ensures OutrankingWait(Renumbered(s), id, score) == OutrankingWait(s, id, score)
  {
    if s != [] {
      var init := s[..|s| - 1];
      assert Renumbered(s)[..|s| - 1] == Renumbered(init);
      OutrankingWaitRenumbered(init, id, score);
    }
  }

  /** The new record itself does not count towards its own wait. */
  lemma OutrankingWaitInsert(s: seq<Patient>, x: Patient)
    ensures OutrankingWait(InsertAfterTies(s, x), x.id, x.triageScore) == OutrankingWait(s, x.id, x.triageScore)
  {
    var k := InsertionPoint(s, x.triageScore);
    OutrankingWaitConcat(s[..k] + [x], s[k..], x.id, x.triageScore);
    OutrankingWaitConcat(s[..k], [x], x.id, x.triageScore);
    assert OutrankingWait([x], x.id, x.triageScore) == 0 by {
      assert [x][..0] == [];
    }
    OutrankingWaitConcat(s[..k], s[k..], x.id, x.triageScore);
    assert s[..k] + s[k..] == s;
  }

  /** Nobody outranks the record: no wait. */
  lemma {:induction false} NoOutrankerNoWait(s: seq<Patient>, id: nat, score: int)
    requires forall i :: 0 <= i < |s| ==> s[i].id == id || s[i].triageScore <= score
    ensures OutrankingWait(s, id, score) == 0
  {
    if s != [] {
      NoOutrankerNoWait(s[..|s| - 1], id, score);
    }
  }

  /** With non-negative durations, the wait is between zero and the total of all durations. */
  lemma {:induction false} OutrankingWaitBounds(s: seq<Patient>, id: nat, score: int)
    requires forall i :: 0 <= i < |s| ==> s[i].estimatedDuration >= 0
    ensures 0 <= OutrankingWait(s, id, score) <= DurationSum(s)
  {
    if s != [] {
      OutrankingWaitBounds(s[..|s| - 1], id, score);
      DurationSumLast(s);
    }
  }

  // ---------------------------------------------------------------------
  // Statistics
  // ---------------------------------------------------------------------

  datatype Stats = Stats(
    totalWaiting: nat,
    totalWaitTime: int,
    avgWaitTime: real,
    low: nat,
    moderate: nat,
    high: nat)

  predicate LowUrgency(level: int) { 1 <= level <= 3 }
  predicate ModerateUrgency(level: int) { 4 <= level <= 7 }
  predicate HighUrgency(level: int) { 8 <= level <= 10 }

  /** `[p for p in patients if p['status'] == 'waiting']`. */
  function WaitingOnly(s: seq<Patient>): (r: seq<Patient>)
    ensures |r| <= |s|
    ensures forall i :: 0 <= i < |r| ==> r[i].status == Waiting
  {
    if s == [] then []
    else (if s[0].status == Waiting then [s[0]] else []) + WaitingOnly(s[1..])
  }

  function DurationSum(s: seq<Patient>): int {
    if s == [] then 0 else s[0].estimatedDuration + DurationSum(s[1..])
  }

  lemma {:induction false} DurationSumLast(s: seq<Patient>)
    requires s != []
    ensures DurationSum(s) == DurationSum(s[..|s| - 1]) + s[|s| - 1].estimatedDuration
  {
    if |s| > 1 {
      assert s[1..][..|s| - 2] == s[..|s| - 1][1..];
      DurationSumLast(s[1..]);
    }
  }

  function CountLow(s: seq<Patient>): nat {
    if s == [] then 0 else (if LowUrgency(s[0].urgencyLevel) then 1 else 0) + CountLow(s[1..])
  }

  function CountModerate(s: seq<Patient>): nat {
    if s == [] then 0 else (if ModerateUrgency(s[0].urgencyLevel) then 1 else 0) + CountModerate(s[1..])
  }

  function CountHigh(s: seq<Patient>): nat {
    if s == [] then 0 else (if HighUrgency(s[0].urgencyLevel) then 1 else 0) + CountHigh(s[1..])
  }

  /** The three buckets are disjoint, so together they never exceed the list. */
  lemma {:induction false} BucketsAtMostTotal(s: seq<Patient>)
    ensures CountLow(s) + CountModerate(s) + CountHigh(s) <= |s|
  {
    if s != [] {
      BucketsAtMostTotal(s[1..]);
    }
  }

  /** With every urgency in 1..10 the three buckets cover the whole list. */
  lemma {:induction false} BucketsPartition(s: seq<Patient>)
    requires forall i :: 0 <= i < |s| ==> 1 <= s[i].urgencyLevel <= 10
    ensures CountLow(s) + CountModerate(s) + CountHigh(s) == |s|
  {
    if s != [] {
      BucketsPartition(s[1..]);
    }
  }

  /** The stats endpoint over a list of records. */
  function QueueStats(s: seq<Patient>): (st: Stats)
    ensures st.totalWaiting == |WaitingOnly(s)|
    ensures st.totalWaitTime == DurationSum(WaitingOnly(s))
    ensures st.low == CountLow(WaitingOnly(s))
    ensures st.moderate == CountModerate(WaitingOnly(s))
    ensures st.high == CountHigh(WaitingOnly(s))
    ensures st.low + st.moderate + st.high <= st.totalWaiting
    ensures st.totalWaiting == 0 ==> st.avgWaitTime == 0.0
    ensures st.totalWaiting > 0 ==> st.avgWaitTime * st.totalWaiting as real == st.totalWaitTime as real
  {
    var active := WaitingOnly(s);
    var total := DurationSum(active);
    BucketsAtMostTotal(active);
    if |active| == 0 then Stats(0, total, 0.0, CountLow(active), CountModerate(active), CountHigh(active))
    else Stats(|active|, total, Average(total, |active|), CountLow(active), CountModerate(active), CountHigh(active))
  }

  /** `total / count` as an exact quotient. */
  function Average(total: int, count: nat): (avg: real)
    requires count > 0
    ensures avg * count as real == total as real
  {
    total as real / count as real
  }

  /** In a queue whose urgencies are all in 1..10 the buckets add up to the waiting count. */
  lemma StatsBucketsCoverQueue(s: seq<Patient>)
    requires forall i :: 0 <= i < |s| ==> 1 <= s[i].urgencyLevel <= 10
    ensures var st := QueueStats(s); st.low + st.moderate + st.high == st.totalWaiting
  {
    WaitingOnlySubset(s);
    var w := WaitingOnly(s);
    forall i | 0 <= i < |w| ensures 1 <= w[i].urgencyLevel <= 10 {
      assert w[i] in s;
    }
    BucketsPartition(w);
  }

  /** The filter keeps exactly the waiting records. */
  lemma {:induction false} WaitingOnlySubset(s: seq<Patient>)
    ensures forall p :: p in WaitingOnly(s) <==> p in s && p.status == Waiting
  {
    if s != [] {
      WaitingOnlySubset(s[1..]);
      assert s == [s[0]] + s[1..];
    }
  }

  lemma {:induction false} WaitingOnlyAllWaiting(s: seq<Patient>)
    requires forall i :: 0 <= i < |s| ==> s[i].status == Waiting
    ensures WaitingOnly(s) == s
  {
    if s != [] {
      WaitingOnlyAllWaiting(s[1..]);
      assert [s[0]] + s[1..] == s;
    }
  }

  /** An empty queue reports zero everywhere. */
  lemma EmptyStats()
    ensures QueueStats([]) == Stats(0, 0, 0.0, 0, 0, 0)
  {
  }

  /** Completing or cancelling a record of a well-formed queue lowers the waiting count by one. */
  lemma RemovalLowersWaiting(s: seq<Patient>, k: nat, bound: nat)
    requires WellFormed(s, bound) && k < |s|
    ensures QueueStats(Renumbered(RemoveAt(s, k))).totalWaiting == QueueStats(s).totalWaiting - 1
  {
    WaitingOnlyAllWaiting(s);
    var r := Renumbered(RemoveAt(s, k));
    assert forall i :: 0 <= i < |r| ==> r[i].status == Waiting by {
      RemoveKeepsWellFormed(s, k, bound);
      RenumberedKeepsWellFormed(RemoveAt(s, k), bound);
    }
    WaitingOnlyAllWaiting(r);
  }

  // ---------------------------------------------------------------------
  // The queue
  // ---------------------------------------------------------------------

  class Queue {
    var patients: seq<Patient>
    var nextId: nat

    ghost predicate Valid()
      reads this
    {
      nextId >= 1 && WellFormed(patients, nextId) && Numbered(patients)
    }

    constructor ()
      ensures Valid() && patients == [] && nextId == 1
    {
      patients := [];
      nextId := 1;
    }

    /** Writes every record's 1-based index into its position. */
    method Renumber()
      modifies this
      ensures patients == Renumbered(old(patients)) && nextId == old(nextId)
    {
      var i := 0;
      while i < |patients|
        invariant 0 <= i <= |patients| == |old(patients)|
        invariant forall j :: 0 <= j < i ==> patients[j] == old(patients)[j].(position := j + 1)
        invariant forall j :: i <= j < |patients| ==> patients[j] == old(patients)[j]
        invariant nextId == old(nextId)
      {
        patients := patients[i := patients[i].(position := i + 1)];
        i := i + 1;
      }
    }

    /**
     * Intake: rejects a request that lacks a required field, changing
     * nothing; otherwise queues a scored record under the next id behind
     * every record of equal or higher score, renumbers the queue and reports
     * the record and its estimated wait.
     */
    method Intake(req: IntakeRequest) returns (r: IntakeResult)
      requires Valid()
      modifies this
      ensures Valid()
      ensures !AllPresent(req) ==>
                && r == Rejected(MissingFieldMessage(FirstMissing(req).value))
                && patients == old(patients) && nextId == old(nextId)
      ensures AllPresent(req) ==>
                var x := NewRecord(old(nextId), req);
                var k := InsertionPoint(old(patients), x.triageScore);
                && nextId == old(nextId) + 1
                && patients == Renumbered(InsertAfterTies(old(patients), x))
                && r == Admitted(x.(position := k + 1), OutrankingWait(old(patients), x.id, x.triageScore))
    {
      var missing := FindMissingField(req);
      if missing.Some? {
        return Rejected(MissingFieldMessage(missing.value));
      }
      var patient := NewRecord(nextId, req);
      AdmissionFacts(patients, patient, nextId);
      patients := patients + [patient];
      patients := StableSortDesc(patients);
      Renumber();
      var wait := EstimatedWait(patients, patient.id, patient.triageScore);
      nextId := nextId + 1;
      // the handler answers with the very record it queued: fetch it back by its id
      var found := IndexOfId(patients, patient.id);
      r := Admitted(patients[found.value], wait);
    }

    /** The list endpoint: the queue in order and its length. */
    method ListPatients() returns (queue: seq<Patient>, total: nat)
      ensures queue == patients && total == |queue|
    {
      queue := patients;
      total := |patients|;
    }

    /** The stats endpoint. */
    method GetStats() returns (st: Stats)
      requires Valid()
      ensures st == QueueStats(patients)
      ensures st.totalWaiting == |patients|
    {
      WaitingOnlyAllWaiting(patients);
      st := QueueStats(patients);
    }

    /**
     * Complete: an id not in the queue is not found and nothing changes;
     * otherwise that record is marked completed, filtered out of the queue
     * and echoed back, and the rest keep their order and are renumbered.
     */
    method Complete(id: nat) returns (r: Reply)
      requires Valid()
      modifies this
      ensures Valid() && nextId == old(nextId)
      ensures IndexOfId(old(patients), id).None? ==> r == NotFound && patients == old(patients)
      ensures IndexOfId(old(patients), id).Some? ==>
                var k := IndexOfId(old(patients), id).value;
                && r == Success(Some(old(patients)[k].(status := Completed)))
                && patients == Renumbered(RemoveAt(old(patients), k))
      ensures forall i :: 0 <= i < |patients| ==> patients[i].id != id
    {
      var found := IndexOfId(patients, id);
      if found.None? {
        return NotFound;
      }
      var k := found.value;
      ghost var before := patients;
      patients := patients[k := patients[k].(status := Completed)];
      var patient := patients[k];
      WithoutMarked(before, k, Completed, {Completed});
      patients := Without(patients, {Completed});
      RemoveKeepsWellFormed(before, k, nextId);
      Renumber();
      RenumberedKeepsWellFormed(RemoveAt(before, k), nextId);
      r := Success(Some(patient));
    }

    /**
     * Cancel: an id not in the queue is not found and nothing changes;
     * otherwise that record is marked cancelled and filtered out, and the rest
     * keep their order and are renumbered.
     */
    method Cancel(id: nat) returns (r: Reply)
      requires Valid()
      modifies this
      ensures Valid() && nextId == old(nextId)
      ensures IndexOfId(old(patients), id).None? ==> r == NotFound && patients == old(patients)
      ensures IndexOfId(old(patients), id).Some? ==>
                var k := IndexOfId(old(patients), id).value;
                && r == Success(None)
                && patients == Renumbered(RemoveAt(old(patients), k))
      ensures forall i :: 0 <= i < |patients| ==> patients[i].id != id
    {
      var found := IndexOfId(patients, id);
      if found.None? {
        return NotFound;
      }
      var k := found.value;
      ghost var before := patients;
      patients := patients[k := patients[k].(status := Cancelled)];
      WithoutMarked(before, k, Cancelled, {Cancelled, Completed});
      patients := Without(patients, {Cancelled, Completed});
      RemoveKeepsWellFormed(before, k, nextId);
      Renumber();
      RenumberedKeepsWellFormed(RemoveAt(before, k), nextId);
      r := Success(None);
    }
  }
}

/** A client of the queue: three intakes of urgency 2, 9 and 5 are served 9, 5, 2;
    completing the urgent one removes it, and completing it again is not found. */
module QueueScenario {
  import opened Wrappers
  import opened TriageQueue

  function Request(name: string, urgencyLevel: int): IntakeRequest {
    IntakeRequest(Some(name), Some(name + "@example.org"), Some("555-0100"), Some(""),
                  Some(urgencyLevel), Some("follow-up"), Some(30))
  }

  /** The score of a follow-up visit of 30 minutes at this urgency. */
  function Score(urgencyLevel: int): int {
    Triage.FallbackTriage(urgencyLevel, "follow-up", 30).triageScore
  }

  /** Same visit type and duration: urgency 2 scores below 5, which scores below 9. */
  lemma {:induction false} Ranking()
    ensures Score(2) + 30 == Score(5)
    ensures Score(5) + 40 == Score(9)
  {
    Triage.FallbackScoreStep(2, "follow-up", 30);
    Triage.FallbackScoreStep(3, "follow-up", 30);
    Triage.FallbackScoreStep(4, "follow-up", 30);
    Triage.FallbackScoreStep(5, "follow-up", 30);
    Triage.FallbackScoreStep(6, "follow-up", 30);
    Triage.FallbackScoreStep(7, "follow-up", 30);
    Triage.FallbackScoreStep(8, "follow-up", 30);
  }

  /** Urgencies 2, 9 and 5 are served 9, 5, 2; the served record is gone afterwards. */
  method ThreeIntakes() {
    Ranking();
    var q := AdmitFirst();
    AdmitSecond(q);
    AdmitThird(q);
    ServeTwice(q);
  }

  method AdmitFirst() returns (q: Queue)
    ensures fresh(q) && q.Valid() && q.nextId == 2
    ensures |q.patients| == 1 && q.patients[0].id == 1 && q.patients[0].triageScore == Score(2)
  {
    q := new Queue();
    var r := q.Intake(Request("a", 2));
  }

  /** Urgency 9 goes in front of urgency 2, with nothing ahead of it to wait for. */
  method AdmitSecond(q: Queue)
    requires q.Valid() && q.nextId == 2 && Score(2) < Score(9)
    requires |q.patients| == 1 && q.patients[0].id == 1 && q.patients[0].triageScore == Score(2)
    modifies q
    ensures q.Valid() && q.nextId == 3 && |q.patients| == 2
    ensures q.patients[0].id == 2 && q.patients[0].triageScore == Score(9)
    ensures q.patients[1].id == 1 && q.patients[1].triageScore == Score(2)
  {
    var r := q.Intake(Request("b", 9));
    assert InsertionPoint(old(q.patients), Score(9)) == 0;
    assert r.Admitted? && r.patient.position == 1 && r.estimatedWait == 0;
  }

  /** Urgency 5 goes between them. */
  method AdmitThird(q: Queue)
    requires q.Valid() && q.nextId == 3 && Score(2) < Score(5) < Score(9)
    requires |q.patients| == 2 && q.patients[0].id == 2 && q.patients[1].id == 1
    requires q.patients[0].triageScore == Score(9) && q.patients[1].triageScore == Score(2)
    modifies q
    ensures q.Valid() && |q.patients| == 3
    ensures q.patients[0].id == 2 && q.patients[1].id == 3 && q.patients[2].id == 1
  {
    var r := q.Intake(Request("c", 5));
    assert InsertionPoint(old(q.patients), Score(5)) == 1;
  }

  /** Completing the first record removes it; completing it again finds nothing. */
  method ServeTwice(q: Queue)
    requires q.Valid() && |q.patients| == 3 && q.patients[0].id == 2 && q.patients[1].id == 3
    modifies q
  {
    var c1 := q.Complete(2);
    assert c1.Success?;
    assert q.patients[0].id == 3 && q.patients[0].position == 1;
    var c2 := q.Complete(2);
    assert c2 == NotFound;
  }
}
