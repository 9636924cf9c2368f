/** Trademark filings: every submission of a draft leaves one attempt row, numbered, with the request
    that was sent and how it ended. */
module Filing {
  import opened Wrappers
  import opened PythonInt

  datatype Platform = EUIPO | WIPO | USPTO | UKIPO
  datatype DraftStatus = Collecting | Validated | AwaitingPayment | Paid | DraftSubmitted | Abandoned
  datatype AttemptStatus = Pending | Submitted | Accepted | Rejected | Error | Retrying
  datatype ApplicantType = Individual | LegalEntity

  /** An item of the draft's list of Nice classes, as it comes out of JSON. */
  datatype ClassItem = Number(n: int) | Text(s: string)

  datatype Draft = Draft(
    id: nat, markText: Option<string>, applicantName: Option<string>, applicantType: Option<ApplicantType>,
    niceClasses: seq<ClassItem>, status: DraftStatus)

  datatype ClassEntry = ClassEntry(classNumber: int, terms: seq<string>)

  datatype Payload = Payload(
    markText: string, applicantType: ApplicantType, applicantName: string, classes: seq<ClassEntry>, signature: string,
    initiatedBy: string)

  datatype Attempt = Attempt(
    draftId: nat, platform: Platform, status: AttemptStatus, number: nat, payload: Payload,
    externalReference: Option<string>, errorMessage: Option<string>, submittedAt: Option<int>, completedAt: Option<int>)

  datatype PreflightError = MissingSlots(slots: seq<string>) | NotPaid | NotANumber | NoClasses | InvalidClasses

  /** What the office's interface does: raise, or answer with the references it may carry. */
  datatype OfficeResponse = Raised(message: string) | Returned(applicationNumber: string, id: string, reference: string)

  // ---------------------------------------------------------------------
  // Before anything is sent
  // ---------------------------------------------------------------------

  predicate Given(s: Option<string>) {
    s.Some? && s.value != ""
  }

  /** The slots a draft lacks, in the order they are reported. */
  function Missing(d: Draft): (slots: seq<string>)
    ensures forall slot :: slot in slots <==>
              || (slot == "mark_text" && !Given(d.markText)) || (slot == "applicant_name" && !Given(d.applicantName))
              || (slot == "applicant_type" && d.applicantType.None?) || (slot == "nice_classes" && d.niceClasses == [])
    ensures |slots| <= 4
  {
    (if Given(d.markText) then [] else ["mark_text"])
    + (if Given(d.applicantName) then [] else ["applicant_name"])
    + (if d.applicantType.Some? then [] else ["applicant_type"])
    + (if d.niceClasses != [] then [] else ["nice_classes"])
  }

  function ClassOf(item: ClassItem): Option<int> {
    match item case Number(n) => Some(n) case Text(s) => ReadInt(s)
  }

  predicate ClassOk(item: ClassItem) {
    ClassOf(item).Some? && 1 <= ClassOf(item).value <= 45
  }

  predicate Submittable(d: Draft) {
    && Missing(d) == [] && d.status == Paid
    && forall i :: 0 <= i < |d.niceClasses| ==> ClassOk(d.niceClasses[i])
  }

  method AssertSubmittable(d: Draft) returns (r: Result<(), PreflightError>)
    ensures r == if Missing(d) != [] then Err(MissingSlots(Missing(d))) else if d.status != Paid then Err(NotPaid) else Ok(())
    ensures r.Ok? ==> Given(d.markText) && Given(d.applicantName) && d.applicantType.Some? && d.niceClasses != []
  {
    var missing := [];
    if !Given(d.markText) {
      missing := missing + ["mark_text"];
    }
    if !Given(d.applicantName) {
      missing := missing + ["applicant_name"];
    }
    if d.applicantType.None? {
      missing := missing + ["applicant_type"];
    }
    if d.niceClasses == [] {
      missing := missing + ["nice_classes"];
    }
    assert missing == Missing(d);
    if missing != [] {
      return Err(MissingSlots(missing));
    }
    if d.status != Paid {
      return Err(NotPaid);
    }
    return Ok(());
  }

  /** The payload's classes are those of the draft, in order, each with a term; or the first reason why
      not. */
  method BuildEuipoClasses(d: Draft) returns (r: Result<seq<ClassEntry>, PreflightError>)
    ensures r.Ok? <==> d.niceClasses != [] && forall i :: 0 <= i < |d.niceClasses| ==> ClassOk(d.niceClasses[i])
    ensures r.Ok? ==> |r.value| == |d.niceClasses|
    ensures r.Ok? ==> forall i :: 0 <= i < |r.value| ==>
              ClassOf(d.niceClasses[i]) == Some(r.value[i].classNumber)
              && r.value[i].terms == ["Class " + IntText(r.value[i].classNumber) + " goods and services"]
    ensures r == Err(NotANumber) <==> exists i :: 0 <= i < |d.niceClasses| && ClassOf(d.niceClasses[i]).None?
    ensures r == Err(NoClasses) <==> d.niceClasses == []
    ensures r.Err? ==> !r.error.MissingSlots? && !r.error.NotPaid?
  {
    var classes: seq<int> := [];
    for i := 0 to |d.niceClasses|
      invariant |classes| == i
      invariant forall j :: 0 <= j < i ==> ClassOf(d.niceClasses[j]) == Some(classes[j])
    {
      var n := ClassOf(d.niceClasses[i]);
      if n.None? {
        return Err(NotANumber);
      }
      classes := classes + [n.value];
    }
    if classes == [] {
      return Err(NoClasses);
    }
    if exists i :: 0 <= i < |classes| && (classes[i] < 1 || classes[i] > 45) {
      var i :| 0 <= i < |classes| && (classes[i] < 1 || classes[i] > 45);
      assert !ClassOk(d.niceClasses[i]);
      return Err(InvalidClasses);
    }
    var entries: seq<ClassEntry> := [];
    for i := 0 to |classes|
      invariant |entries| == i
      invariant forall j :: 0 <= j < i ==>
                  entries[j] == ClassEntry(classes[j], ["Class " + IntText(classes[j]) + " goods and services"])
    {
      entries := entries + [ClassEntry(classes[i], ["Class " + IntText(classes[i]) + " goods and services"])];
    }
    return Ok(entries);
  }

  // ---------------------------------------------------------------------
  // The attempts table
  // ---------------------------------------------------------------------

  predicate Landed(a: Attempt) {
    a.status == Submitted || a.status == Accepted
  }

  function Count(rows: seq<Attempt>, draftId: nat, platform: Platform): nat {
    if rows == [] then 0
    else
      var last := rows[|rows| - 1];
      Count(rows[..|rows| - 1], draftId, platform) + if last.draftId == draftId && last.platform == platform then 1 else 0
  }

  /** A row whose call has returned: it ended in an error, or it was submitted, and shows which. */
  predicate Settled(a: Attempt) {
    || (a.status == Error && a.errorMessage.Some? && a.completedAt.Some? && a.externalReference.None? && a.submittedAt.None?)
    || (a.status == Submitted && a.errorMessage.None? && a.completedAt.None? && a.submittedAt.Some?)
  }

  predicate ProperPayload(p: Payload) {
    && p.markText != "" && p.applicantName != "" && p.signature == p.applicantName
    && p.classes != []
    && forall i :: 0 <= i < |p.classes| ==> 1 <= p.classes[i].classNumber <= 45 && p.classes[i].terms != []
  }

  function FirstGiven(texts: seq<string>): Option<string> {
    if texts == [] then None else if texts[0] != "" then Some(texts[0]) else FirstGiven(texts[1..])
  }

  /** The first text that is not empty, and nothing exactly when all are. */
  lemma {:induction false} FirstGivenIs(texts: seq<string>)
    ensures FirstGiven(texts).None? <==> forall k :: 0 <= k < |texts| ==> texts[k] == ""
    ensures forall k :: 0 <= k < |texts| && texts[k] != "" && (forall j :: 0 <= j < k ==> texts[j] == "") ==>
              FirstGiven(texts) == Some(texts[k])
  {
    if texts != [] && texts[0] == "" {
      FirstGivenIs(texts[1..]);
      forall k | 0 <= k < |texts| && texts[k] != "" && (forall j :: 0 <= j < k ==> texts[j] == "")
        ensures FirstGiven(texts) == Some(texts[k])
      {
        assert texts[k] == texts[1..][k - 1];
        assert forall j :: 0 <= j < k - 1 ==> texts[1..][j] == texts[j + 1];
      }
      if FirstGiven(texts).None? {
        assert forall k :: 0 < k < |texts| ==> texts[k] == texts[1..][k - 1];
      } else {
        var k :| 0 <= k < |texts[1..]| && texts[1..][k] != "";
        assert texts[k + 1] == texts[1..][k];
      }
    }
  }

  /** A landed row carries the application number; without one the id, and without that the reference. */
  lemma LandedReference(a: Attempt, rows: seq<Attempt>, d: Draft, initiatedBy: string, now: int, number: string, id: string, ref: string)
    requires Submittable(d) && IsOutcome(a, rows, d, initiatedBy, Returned(number, id, ref), now)
    ensures Landed(a)
    ensures number != "" ==> a.externalReference == Some(number)
    ensures number == "" && id != "" ==> a.externalReference == Some(id)
    ensures number == "" && id == "" ==> a.externalReference == if ref != "" then Some(ref) else None
  {
    FirstGivenIs([number, id, ref]);
    assert [number, id, ref][0] == number && [number, id, ref][1] == id && [number, id, ref][2] == ref;
  }

  /** The row a call on a submittable draft leaves. */
  ghost predicate IsOutcome(a: Attempt, rows: seq<Attempt>, d: Draft, initiatedBy: string, response: OfficeResponse, now: int)
    requires Submittable(d)
  {
    && a.draftId == d.id && a.platform == EUIPO
    && a.number == Count(rows, d.id, EUIPO) + 1
    && ProperPayload(a.payload)
    && a.payload.markText == d.markText.value && a.payload.applicantName == d.applicantName.value
    && a.payload.applicantType == d.applicantType.value && a.payload.initiatedBy == initiatedBy
    && |a.payload.classes| == |d.niceClasses|
    && (forall i :: 0 <= i < |d.niceClasses| ==> ClassOf(d.niceClasses[i]) == Some(a.payload.classes[i].classNumber))
    && (match response
        case Raised(message) => a.status == Error && a.errorMessage == Some(message) && a.completedAt == Some(now)
        case Returned(n, id, ref) => a.status == Submitted && a.externalReference == FirstGiven([n, id, ref]) && a.submittedAt == Some(now))
    && Settled(a)
  }

  class FilingDesk {
    var rows: seq<Attempt>

    constructor ()
      ensures rows == []
    {
      rows := [];
    }

    /** The length of the list of the draft's earlier attempts, plus one. */
    method NextAttemptNumber(draftId: nat, platform: Platform) returns (number: nat)
      ensures number == Count(rows, draftId, platform) + 1
    {
      var earlier: seq<Attempt> := [];
      for i := 0 to |rows|
        invariant |earlier| == Count(rows[..i], draftId, platform)
      {
        assert rows[..i + 1][..i] == rows[..i];
        if rows[i].draftId == draftId && rows[i].platform == platform {
          earlier := earlier + [rows[i]];
        }
      }
      assert rows[..|rows|] == rows;
      return |earlier| + 1;
    }

    method FindSubmittedAttempt(draftId: nat, platform: Platform) returns (r: Option<Attempt>)
      ensures r.Some? ==> r.value in rows && r.value.draftId == draftId && r.value.platform == platform && Landed(r.value)
      ensures r.None? ==> !HasLanded(rows, draftId, platform)
    {
      for i := 0 to |rows|
        invariant !HasLanded(rows[..i], draftId, platform)
      {
        if rows[i].draftId == draftId && rows[i].platform == platform && Landed(rows[i]) {
          return Some(rows[i]);
        }
      }
      assert rows[..|rows|] == rows;
      return None;
    }

    method SubmitEutm(d: Draft, initiatedBy: string, response: OfficeResponse, now: int) returns (r: Result<AttemptStatus, PreflightError>)
      modifies this
      ensures r.Ok? <==> Submittable(d)
      ensures r.Err? ==> rows == old(rows)
      ensures r.Ok? ==>
                && |rows| == |old(rows)| + 1 && rows[..|old(rows)|] == old(rows)
                && IsOutcome(rows[|old(rows)|], old(rows), d, initiatedBy, response, now)
                && r.value == rows[|old(rows)|].status
    {
      var ready := AssertSubmittable(d);
      if ready.Err? {
        return Err(ready.error);
      }
      var classes := BuildEuipoClasses(d);
      if classes.Err? {
        return Err(classes.error);
      }
      var payload := Payload(d.markText.value, d.applicantType.value, d.applicantName.value, classes.value, d.applicantName.value, initiatedBy);
      var number := NextAttemptNumber(d.id, EUIPO);
      var at := |rows|;
      rows := rows + [Attempt(d.id, EUIPO, Pending, number, payload, None, None, None, None)];
      match response {
        case Raised(message) =>
          rows := rows[at := rows[at].(status := Error, errorMessage := Some(message), completedAt := Some(now))];
        case Returned(applicationNumber, id, reference) =>
          var externalReference := FirstGiven([applicationNumber, id, reference]);
          rows := rows[at := rows[at].(status := Submitted, externalReference := externalReference, submittedAt := Some(now))];
      }
      return Ok(rows[at].status);
    }

    /** The agent's tool and the hook after payment look for a landed attempt first. */
    method SubmitOnce(d: Draft, initiatedBy: string, response: OfficeResponse, now: int) returns (r: Result<AttemptStatus, PreflightError>)
      modifies this
      ensures HasLanded(old(rows), d.id, EUIPO) ==> r.Ok? && rows == old(rows)
      ensures !HasLanded(old(rows), d.id, EUIPO) ==>
                if Submittable(d) then
                  && |rows| == |old(rows)| + 1 && rows[..|old(rows)|] == old(rows)
                  && IsOutcome(rows[|old(rows)|], old(rows), d, initiatedBy, response, now)
                else rows == old(rows) && r.Err?
    {
      var existing := FindSubmittedAttempt(d.id, EUIPO);
      if existing.Some? {
        return Ok(existing.value.status);
      }
      r := SubmitEutm(d, initiatedBy, response, now);
    }

    /** The administrator's retry takes the draft from the attempt, and does not look for a landed one. */
    method RetryFiling(attempt: nat, drafts: map<nat, Draft>, actor: string, response: OfficeResponse, now: int)
      returns (r: Result<AttemptStatus, RetryError>)
      requires forall id :: id in drafts ==> drafts[id].id == id
      modifies this
      ensures r == Err(AttemptNotFound) <==> attempt >= |old(rows)|
      ensures r.Ok? <==> CanRetry(old(rows), attempt, drafts) && Submittable(drafts[old(rows)[attempt].draftId])
      ensures r.Err? ==> rows == old(rows)
      ensures r.Ok? ==>
                && |rows| == |old(rows)| + 1 && rows[..|old(rows)|] == old(rows)
                && IsOutcome(rows[|old(rows)|], old(rows), drafts[old(rows)[attempt].draftId], "admin_retry:" + actor, response, now)
    {
      if attempt >= |rows| {
        return Err(AttemptNotFound);
      }
      if rows[attempt].platform != EUIPO {
        return Err(NotWired);
      }
      if rows[attempt].draftId !in drafts {
        return Err(DraftNotFound);
      }
      var outcome := SubmitEutm(drafts[rows[attempt].draftId], "admin_retry:" + actor, response, now);
      match outcome {
        case Ok(status) => return Ok(status);
        case Err(e) => return Err(Preflight(e));
      }
    }
  }

  datatype RetryError = AttemptNotFound | NotWired | DraftNotFound | Preflight(error: PreflightError)

  predicate CanRetry(rows: seq<Attempt>, attempt: nat, drafts: map<nat, Draft>) {
    attempt < |rows| && rows[attempt].platform == EUIPO && rows[attempt].draftId in drafts
  }

  predicate HasLanded(rows: seq<Attempt>, draftId: nat, platform: Platform) {
    exists i :: 0 <= i < |rows| && rows[i].draftId == draftId && rows[i].platform == platform && Landed(rows[i])
  }

  // ---------------------------------------------------------------------
  // Serial runs
  // ---------------------------------------------------------------------

  /** A call to the desk, with the draft as it stands at that moment. */
  datatype Call = Call(d: Draft, initiatedBy: string, looksFirst: bool, response: OfficeResponse, now: int)

  /** What a call can do to the table: nothing, or one more row. */
  ghost predicate Step(before: seq<Attempt>, after: seq<Attempt>, call: Call) {
    if !Submittable(call.d) || (call.looksFirst && HasLanded(before, call.d.id, EUIPO)) then after == before
    else
      && |after| == |before| + 1 && after[..|before|] == before
      && IsOutcome(after[|before|], before, call.d, call.initiatedBy, call.response, call.now)
  }

  /** The states of the table, starting empty, around a series of calls. */
  ghost predicate Execution(tables: seq<seq<Attempt>>, calls: seq<Call>) {
    && |tables| == |calls| + 1 && tables[0] == []
    && forall k :: 0 <= k < |calls| ==> Step(tables[k], tables[k + 1], calls[k])
  }

  /** The desk's methods are steps. */
  method Serve(desk: FilingDesk, call: Call)
    modifies desk
    ensures Step(old(desk.rows), desk.rows, call)
  {
    if call.looksFirst {
      var _ := desk.SubmitOnce(call.d, call.initiatedBy, call.response, call.now);
    } else {
      var _ := desk.SubmitEutm(call.d, call.initiatedBy, call.response, call.now);
    }
  }

  ghost predicate RowOk(rows: seq<Attempt>, i: nat)
    requires i < |rows|
  {
    && Settled(rows[i]) && ProperPayload(rows[i].payload)
    && rows[i].number == Count(rows[..i], rows[i].draftId, rows[i].platform) + 1
  }

  /** After any series of calls no row is pending, every row says how it ended and holds a proper
      payload, and is numbered by the rows before it. */
  lemma {:induction false} RowsOk(tables: seq<seq<Attempt>>, calls: seq<Call>, k: nat, i: nat)
    requires Execution(tables, calls) && k <= |calls| && i < |tables[k]|
    ensures RowOk(tables[k], i)
  {
    assert Step(tables[k - 1], tables[k], calls[k - 1]);
    if i < |tables[k - 1]| {
      RowsOk(tables, calls, k - 1, i);
      assert tables[k][i] == tables[k - 1][i] && tables[k][..i] == tables[k - 1][..i];
    }
  }

  /** The numbers of a draft's attempts, in order of the rows. */
  function NumbersOf(rows: seq<Attempt>, draftId: nat, platform: Platform): (s: seq<nat>)
    ensures |s| == Count(rows, draftId, platform)
  {
    if rows == [] then []
    else
      var front, last := NumbersOf(rows[..|rows| - 1], draftId, platform), rows[|rows| - 1];
      if last.draftId == draftId && last.platform == platform then front + [last.number] else front
  }

  lemma {:induction false} NumberedInOrder(rows: seq<Attempt>, draftId: nat, platform: Platform)
    requires forall i :: 0 <= i < |rows| ==> RowOk(rows, i)
    ensures NumbersOf(rows, draftId, platform) == seq(Count(rows, draftId, platform), i => i + 1)
  {
    if rows != [] {
      var n := |rows| - 1;
      forall i | 0 <= i < n
        ensures RowOk(rows[..n], i)
      {
        assert RowOk(rows, i) && rows[..n][..i] == rows[..i];
      }
      NumberedInOrder(rows[..n], draftId, platform);
      assert RowOk(rows, n);
    }
  }

  /** The attempts of a draft on a platform are numbered exactly 1 to n, in order. */
  lemma AttemptNumbers(tables: seq<seq<Attempt>>, calls: seq<Call>, k: nat, draftId: nat, platform: Platform)
    requires Execution(tables, calls) && k <= |calls|
    ensures NumbersOf(tables[k], draftId, platform) == seq(Count(tables[k], draftId, platform), i => i + 1)
  {
    forall i | 0 <= i < |tables[k]|
      ensures RowOk(tables[k], i)
    {
      RowsOk(tables, calls, k, i);
    }
    NumberedInOrder(tables[k], draftId, platform);
  }

  /** Rows are only ever added. */
  lemma {:induction false} RowsStay(tables: seq<seq<Attempt>>, calls: seq<Call>, k: nat, m: nat)
    requires Execution(tables, calls) && k <= m <= |calls|
    ensures tables[k] <= tables[m]
  {
    if k < m {
      RowsStay(tables, calls, k, m - 1);
      assert Step(tables[m - 1], tables[m], calls[m - 1]);
    }
  }

  // ---------------------------------------------------------------------
  // Filing twice
  // ---------------------------------------------------------------------

  predicate LandedAt(rows: seq<Attempt>, i: nat, draftId: nat) {
    i < |rows| && rows[i].draftId == draftId && Landed(rows[i])
  }

  lemma {:induction false} RowsOnEuipo(tables: seq<seq<Attempt>>, calls: seq<Call>, k: nat, i: nat)
    requires Execution(tables, calls) && k <= |calls| && i < |tables[k]|
    ensures tables[k][i].platform == EUIPO
  {
    assert Step(tables[k - 1], tables[k], calls[k - 1]);
    if i < |tables[k - 1]| {
      RowsOnEuipo(tables, calls, k - 1, i);
      assert tables[k][i] == tables[k - 1][i];
    }
  }

  /** The draft has at most one landed attempt. */
  ghost predicate FiledAtMostOnce(rows: seq<Attempt>, draftId: nat) {
    forall i: nat, j: nat :: LandedAt(rows, i, draftId) && LandedAt(rows, j, draftId) ==> i == j
  }

  /** A call that files the draft although it has been filed: it does not look, the draft can be
      submitted, and the office takes it. */
  ghost predicate Refiles(before: seq<Attempt>, call: Call, draftId: nat) {
    && call.d.id == draftId && HasLanded(before, draftId, EUIPO)
    && !call.looksFirst && Submittable(call.d) && call.response.Returned?
  }

  /** What a call adds to the landed attempts of a draft. */
  lemma LandsIff(before: seq<Attempt>, after: seq<Attempt>, call: Call, draftId: nat)
    requires Step(before, after, call)
    ensures forall i: nat :: i < |before| ==> (LandedAt(after, i, draftId) <==> LandedAt(before, i, draftId))
    ensures LandedAt(after, |before|, draftId) <==>
              && call.d.id == draftId && Submittable(call.d) && call.response.Returned?
              && !(call.looksFirst && HasLanded(before, draftId, EUIPO))
    ensures forall i: nat :: LandedAt(after, i, draftId) ==> i <= |before|
  {
    forall i: nat | i < |before|
      ensures LandedAt(after, i, draftId) <==> LandedAt(before, i, draftId)
    {
      assert after != before ==> after[i] == after[..|before|][i];
    }
  }

  /** Over any series of calls, looking or not: a draft is filed at most once exactly when no call made
      after it was filed skips the look, finds it submittable and is taken by the office. */
  lemma {:induction false} FiledOnceIff(tables: seq<seq<Attempt>>, calls: seq<Call>, n: nat, draftId: nat)
    requires Execution(tables, calls) && n <= |calls|
    ensures FiledAtMostOnce(tables[n], draftId) <==> forall k: nat :: k < n ==> !Refiles(tables[k], calls[k], draftId)
  {
    if n > 0 {
      var before, after, call := tables[n - 1], tables[n], calls[n - 1];
      assert Step(before, after, call);
      FiledOnceIff(tables, calls, n - 1, draftId);
      LandsIff(before, after, call, draftId);
      if !FiledAtMostOnce(before, draftId) {
        var i, j :| LandedAt(before, i, draftId) && LandedAt(before, j, draftId) && i != j;
        assert LandedAt(after, i, draftId) && LandedAt(after, j, draftId);
      } else {
        OneMoreLanded(tables, calls, n - 1, draftId);
      }
    }
  }

  lemma OneMoreLanded(tables: seq<seq<Attempt>>, calls: seq<Call>, k: nat, draftId: nat)
    requires Execution(tables, calls) && k < |calls| && FiledAtMostOnce(tables[k], draftId)
    ensures FiledAtMostOnce(tables[k + 1], draftId) <==> !Refiles(tables[k], calls[k], draftId)
  {
    var before, after, call := tables[k], tables[k + 1], calls[k];
    assert Step(before, after, call);
    LandsIff(before, after, call, draftId);
    forall i: nat | LandedAt(before, i, draftId)
      ensures HasLanded(before, draftId, EUIPO)
    {
      RowsOnEuipo(tables, calls, k, i);
    }
    if Refiles(before, call, draftId) {
      var i :| 0 <= i < |before| && before[i].draftId == draftId && before[i].platform == EUIPO && Landed(before[i]);
      assert LandedAt(after, i, draftId) && LandedAt(after, |before|, draftId);
    }
  }

  /** In particular, as long as every call looks first, a draft is never submitted twice. */
  lemma SubmittedAtMostOnce(tables: seq<seq<Attempt>>, calls: seq<Call>, n: nat, i: nat, j: nat, draftId: nat)
    requires Execution(tables, calls) && n <= |calls|
    requires forall k: nat :: k < n ==> calls[k].looksFirst
    requires LandedAt(tables[n], i, draftId) && LandedAt(tables[n], j, draftId)
    ensures i == j
  {
    FiledOnceIff(tables, calls, n, draftId);
  }

  /** The retry's description promises it does nothing when the draft has a submitted attempt. A paid
      draft filed once and retried is filed twice. */
  method RetryFilesTwice() returns (desk: FilingDesk)
    ensures |desk.rows| == 2 && LandedAt(desk.rows, 0, 7) && LandedAt(desk.rows, 1, 7)
  {
    desk := new FilingDesk();
    var d := Draft(7, Some("ETORNIE"), Some("Ada"), Some(Individual), [Number(9)], Paid);
    var response := Returned("018000001", "", "");
    assert Missing(d) == [];
    assert Submittable(d);
    var _ := desk.SubmitOnce(d, "agent_tool", response, 1);
    var _ := desk.RetryFiling(0, map[7 := d], "root", response, 2);
  }
}
