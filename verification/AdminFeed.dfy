/** The administrator's view: events of every kind merged newest first and cut into pages, and payment
    rows joined to their owners through dictionaries loaded in batches. */
module AdminFeed {
  import opened Wrappers
  import Filing

  datatype User = User(id: nat, email: string, fullName: string)

  datatype Case = Case(
    id: nat, caseNumber: string, clientId: Option<nat>, createdAt: int, updatedAt: int, nftMintTx: Option<string>,
    lastRenewedAt: Option<int>)

  datatype Draft = Draft(id: nat, userId: Option<nat>, promotedCaseId: Option<nat>)

  datatype IntentStatus = Created | Awaiting | Confirmed | Failed | Refunded | Expired

  datatype Intent = Intent(id: nat, draftId: nat, status: IntentStatus, createdAt: int, confirmedAt: Option<int>)

  datatype Attempt = Attempt(
    id: nat, draftId: nat, platform: Filing.Platform, status: Filing.AttemptStatus, number: nat,
    externalReference: Option<string>, errorMessage: Option<string>,
    createdAt: int, submittedAt: Option<int>, completedAt: Option<int>)

  datatype Reminder = Reminder(id: nat, caseId: nat, windowDays: int, targetDueAt: int, sentAt: int)

  /** The tables, each in the order the database happens to return it. */
  datatype Database = Database(
    cases: seq<Case>, users: seq<User>, drafts: seq<Draft>, intents: seq<Intent>, attempts: seq<Attempt>, reminders: seq<Reminder>)

  datatype Kind =
    | CaseCreated | NftMinted | RenewalCompleted | PaymentConfirmed | PaymentRefunded
    | FilingSubmitted | FilingFailed | ReminderSent

  /** What tells the events of a source apart in their payloads: a payment names its intent, a filing and
      a reminder do not name their row. */
  datatype Detail =
    | OfCase
    | OfPayment(intentId: nat)
    | OfFiling(platform: Filing.Platform, externalReference: Option<string>, number: nat, errorMessage: Option<string>)
    | OfReminder(windowDays: int, targetDueAt: int)

  datatype Event = Event(
    kind: Kind, caseId: Option<nat>, caseNumber: Option<string>, clientEmail: Option<string>, occurredAt: int, detail: Detail)

  // ---------------------------------------------------------------------
  // Direct look-ups, one row at a time
  // ---------------------------------------------------------------------

  function Find<T>(rows: seq<T>, idOf: T -> nat, id: nat): (r: Option<T>)
    ensures r.Some? ==> r.value in rows && idOf(r.value) == id
  {
    if rows == [] then None
    else if idOf(rows[|rows| - 1]) == id then Some(rows[|rows| - 1])
    else Find(rows[..|rows| - 1], idOf, id)
  }

  function CaseId(): Case -> nat { (c: Case) => c.id }
  function UserId(): User -> nat { (u: User) => u.id }
  function DraftId(): Draft -> nat { (d: Draft) => d.id }
  function IntentId(): Intent -> nat { (i: Intent) => i.id }
  function AttemptId(): Attempt -> nat { (a: Attempt) => a.id }
  function ReminderId(): Reminder -> nat { (r: Reminder) => r.id }

  function UserOf(db: Database, id: Option<nat>): Option<User> {
    if id.None? then None else Find(db.users, UserId(), id.value)
  }

  function EmailOf(db: Database, c: Option<Case>): Option<string> {
    if c.None? || UserOf(db, c.value.clientId).None? then None else Some(UserOf(db, c.value.clientId).value.email)
  }

  function CaseOf(db: Database, d: Option<Draft>): Option<Case> {
    if d.None? || d.value.promotedCaseId.None? then None else Find(db.cases, CaseId(), d.value.promotedCaseId.value)
  }

  function DraftOf(db: Database, id: nat): Option<Draft> {
    Find(db.drafts, DraftId(), id)
  }

  // ---------------------------------------------------------------------
  // The events of each row
  // ---------------------------------------------------------------------

  function OrElse<T>(a: Option<T>, b: T): T {
    if a.Some? then a.value else b
  }

  function NumberOf(c: Option<Case>): Option<string> {
    if c.None? then None else Some(c.value.caseNumber)
  }

  function IdOf(c: Option<Case>): Option<nat> {
    if c.None? then None else Some(c.value.id)
  }

  function CaseEvents(c: Case, email: Option<string>): seq<Event> {
    [Event(CaseCreated, Some(c.id), Some(c.caseNumber), email, c.createdAt, OfCase)]
    + (if c.nftMintTx.Some? then [Event(NftMinted, Some(c.id), Some(c.caseNumber), email, c.updatedAt, OfCase)] else [])
    + (if c.lastRenewedAt.Some? then
         [Event(RenewalCompleted, Some(c.id), Some(c.caseNumber), email, c.lastRenewedAt.value, OfCase)] else [])
  }

  predicate Paid(i: Intent) {
    i.status == Confirmed || i.status == Refunded
  }

  function IntentEvent(i: Intent, c: Option<Case>, email: Option<string>): Event {
    Event(if i.status == Confirmed then PaymentConfirmed else PaymentRefunded, IdOf(c), NumberOf(c), email,
          OrElse(i.confirmedAt, i.createdAt), OfPayment(i.id))
  }

  predicate Successful(a: Attempt) {
    a.status == Filing.Submitted || a.status == Filing.Accepted
  }

  predicate Unsuccessful(a: Attempt) {
    a.status == Filing.Rejected || a.status == Filing.Error
  }

  function AttemptEvents(a: Attempt, c: Option<Case>, email: Option<string>): seq<Event> {
    if Successful(a) || Unsuccessful(a) then
      [Event(if Successful(a) then FilingSubmitted else FilingFailed, IdOf(c), NumberOf(c), email,
             OrElse(a.completedAt, OrElse(a.submittedAt, a.createdAt)),
             OfFiling(a.platform, a.externalReference, a.number, a.errorMessage))]
    else []
  }

  function ReminderEvent(r: Reminder, c: Option<Case>, email: Option<string>): Event {
    Event(ReminderSent, Some(r.caseId), NumberOf(c), email, r.sentAt, OfReminder(r.windowDays, r.targetDueAt))
  }

  function Gather<T>(rows: seq<T>, events: T -> seq<Event>): seq<Event> {
    if rows == [] then [] else Gather(rows[..|rows| - 1], events) + events(rows[|rows| - 1])
  }

  function FromCase(db: Database): Case -> seq<Event> {
    (c: Case) => CaseEvents(c, EmailOf(db, Some(c)))
  }

  function FromIntent(db: Database): Intent -> seq<Event> {
    (i: Intent) =>
      var c := CaseOf(db, DraftOf(db, i.draftId));
      if Paid(i) then [IntentEvent(i, c, EmailOf(db, c))] else []
  }

  function FromAttempt(db: Database): Attempt -> seq<Event> {
    (a: Attempt) =>
      var c := CaseOf(db, DraftOf(db, a.draftId));
      AttemptEvents(a, c, EmailOf(db, c))
  }

  function FromReminder(db: Database): Reminder -> seq<Event> {
    (r: Reminder) =>
      var c := Find(db.cases, CaseId(), r.caseId);
      [ReminderEvent(r, c, EmailOf(db, c))]
  }

  /** All events, source after source, every join a direct look-up. */
  function AllEvents(db: Database): seq<Event> {
    Gather(db.cases, FromCase(db)) + Gather(db.intents, FromIntent(db))
    + Gather(db.attempts, FromAttempt(db)) + Gather(db.reminders, FromReminder(db))
  }

  function CountIf<T>(rows: seq<T>, p: T -> bool): nat {
    if rows == [] then 0 else CountIf(rows[..|rows| - 1], p) + if p(rows[|rows| - 1]) then 1 else 0
  }

  lemma {:induction false} GatherLength<T>(rows: seq<T>, events: T -> seq<Event>, always: bool, p: T -> bool, q: T -> bool)
    requires forall r :: r in rows ==>
               |events(r)| == (if always then 1 else 0) + (if p(r) then 1 else 0) + (if q(r) then 1 else 0)
    ensures |Gather(rows, events)| == (if always then |rows| else 0) + CountIf(rows, p) + CountIf(rows, q)
  {
    if rows != [] {
      var last := rows[|rows| - 1];
      GatherLength(rows[..|rows| - 1], events, always, p, q);
      assert last in rows;
    }
  }

  /** The length of the feed is the sum over the rows that contribute. */
  lemma EventCount(db: Database)
    ensures |AllEvents(db)| ==
            |db.cases| + CountIf(db.cases, (c: Case) => c.nftMintTx.Some?) + CountIf(db.cases, (c: Case) => c.lastRenewedAt.Some?)
            + CountIf(db.intents, (i: Intent) => i.status == Confirmed) + CountIf(db.intents, (i: Intent) => i.status == Refunded)
            + CountIf(db.attempts, (a: Attempt) => Successful(a)) + CountIf(db.attempts, (a: Attempt) => Unsuccessful(a))
            + |db.reminders|
  {
    GatherLength(db.cases, FromCase(db), true, (c: Case) => c.nftMintTx.Some?, (c: Case) => c.lastRenewedAt.Some?);
    GatherLength(db.intents, FromIntent(db), false, (i: Intent) => i.status == Confirmed, (i: Intent) => i.status == Refunded);
    GatherLength(db.attempts, FromAttempt(db), false, (a: Attempt) => Successful(a), (a: Attempt) => Unsuccessful(a));
    GatherLength(db.reminders, FromReminder(db), true, (r: Reminder) => false, (r: Reminder) => false);
    CountNone(db.reminders);
  }

  lemma {:induction false} CountNone<T>(rows: seq<T>)
    ensures CountIf(rows, (r: T) => false) == 0
  {
    if rows != [] {
      CountNone(rows[..|rows| - 1]);
    }
  }

  // ---------------------------------------------------------------------
  // Newest first
  // ---------------------------------------------------------------------

  predicate NewestFirst(s: seq<Event>) {
    forall i, j :: 0 <= i < j < |s| ==> s[i].occurredAt >= s[j].occurredAt
  }

  function At(s: seq<Event>, t: int): seq<Event> {
    if s == [] then []
    else if s[|s| - 1].occurredAt == t then At(s[..|s| - 1], t) + [s[|s| - 1]]
    else At(s[..|s| - 1], t)
  }

  /** Newest first, and the events of any one moment in their original order: what Python promises of
      `sort(reverse=True)`. */
  ghost predicate StableNewestFirst(sorted: seq<Event>, s: seq<Event>) {
    NewestFirst(sorted) && SameMoments(sorted, s)
  }

  /** Where a later event goes: after everything as new as itself. */
  function InsertAfter(s: seq<Event>, e: Event): seq<Event> {
    if s == [] || s[|s| - 1].occurredAt >= e.occurredAt then s + [e]
    else InsertAfter(s[..|s| - 1], e) + [s[|s| - 1]]
  }

  function SortNewestFirst(s: seq<Event>): seq<Event> {
    if s == [] then [] else InsertAfter(SortNewestFirst(s[..|s| - 1]), s[|s| - 1])
  }

  lemma {:induction false} AtSnoc(s: seq<Event>, e: Event, t: int)
    ensures At(s + [e], t) == if e.occurredAt == t then At(s, t) + [e] else At(s, t)
  {
    assert (s + [e])[..|s|] == s;
  }

  lemma {:induction false} AtInsert(s: seq<Event>, e: Event, t: int)
    requires NewestFirst(s)
    ensures NewestFirst(InsertAfter(s, e))
    ensures forall x :: x in InsertAfter(s, e) ==> x in s || x == e
    ensures At(InsertAfter(s, e), t) == if e.occurredAt == t then At(s, t) + [e] else At(s, t)
  {
    if s == [] || s[|s| - 1].occurredAt >= e.occurredAt {
      AtSnoc(s, e, t);
    } else {
      var front, last := s[..|s| - 1], s[|s| - 1];
      AtInsert(front, e, t);
      var inserted := InsertAfter(front, e);
      AtSnoc(inserted, last, t);
      forall i | 0 <= i < |inserted|
        ensures inserted[i].occurredAt >= last.occurredAt || inserted[i] == e
      {
        assert inserted[i] in inserted;
      }
    }
  }

  lemma {:induction false} SortIsStable(s: seq<Event>)
    ensures StableNewestFirst(SortNewestFirst(s), s)
  {
    if s != [] {
      var front, e := s[..|s| - 1], s[|s| - 1];
      SortIsStable(front);
      forall t
        ensures At(SortNewestFirst(s), t) == At(s, t)
      {
        AtInsert(SortNewestFirst(front), e, t);
      }
      AtInsert(SortNewestFirst(front), e, 0);
    }
  }

  lemma {:induction false} AtMembers(s: seq<Event>, t: int)
    ensures forall e :: e in At(s, t) <==> e in s && e.occurredAt == t
  {
    if s != [] {
      AtMembers(s[..|s| - 1], t);
      assert s == s[..|s| - 1] + [s[|s| - 1]];
    }
  }

  /** The oldest event of an ordered list is no newer than any of them. */
  lemma OldestIn(s: seq<Event>, e: Event)
    requires NewestFirst(s) && e in s
    ensures e.occurredAt >= s[|s| - 1].occurredAt
  {
  }

  /** The last moment of one list occurs in the other. */
  lemma LastOccurs(a: seq<Event>, b: seq<Event>)
    requires a != [] && NewestFirst(b) && At(a, a[|a| - 1].occurredAt) == At(b, a[|a| - 1].occurredAt)
    ensures b != [] && a[|a| - 1].occurredAt >= b[|b| - 1].occurredAt
  {
    var x := a[|a| - 1];
    AtMembers(a, x.occurredAt);
    AtMembers(b, x.occurredAt);
    assert x in At(a, x.occurredAt);
    assert x in At(b, x.occurredAt);
    OldestIn(b, x);
  }

  lemma FrontsAgree(a: seq<Event>, b: seq<Event>, t: int)
    requires a != [] && b != [] && a[|a| - 1] == b[|b| - 1] && At(a, t) == At(b, t)
    ensures At(a[..|a| - 1], t) == At(b[..|b| - 1], t)
  {
    if a[|a| - 1].occurredAt == t {
      var n := |At(a, t)| - 1;
      assert At(a[..|a| - 1], t) == At(a, t)[..n] == At(b, t)[..n] == At(b[..|b| - 1], t);
    }
  }

  ghost predicate SameMoments(a: seq<Event>, b: seq<Event>) {
    forall t :: At(a, t) == At(b, t)
  }

  /** There is only one stable newest-first order, so any sorting that keeps Python's promise gives this
      one. */
  lemma {:induction false} StableOrderUnique(a: seq<Event>, b: seq<Event>)
    requires NewestFirst(a) && NewestFirst(b) && SameMoments(a, b)
    ensures a == b
  {
    if a != [] {
      LastOccurs(a, b);
    }
    if b != [] {
      LastOccurs(b, a);
    }
    if a != [] {
      var x, y := a[|a| - 1], b[|b| - 1];
      assert x == y by {
        assert At(a, x.occurredAt)[|At(a, x.occurredAt)| - 1] == x && At(b, x.occurredAt)[|At(b, x.occurredAt)| - 1] == y;
      }
      var front, front' := a[..|a| - 1], b[..|b| - 1];
      forall t
        ensures At(front, t) == At(front', t)
      {
        FrontsAgree(a, b, t);
      }
      StableOrderUnique(front, front');
      assert a == front + [x] && b == front' + [y];
    }
  }

  // ---------------------------------------------------------------------
  // The order of the rows
  // ---------------------------------------------------------------------

  lemma {:induction false} AtConcat(a: seq<Event>, b: seq<Event>, t: int)
    ensures At(a + b, t) == At(a, t) + At(b, t)
  {
    if b == [] {
      assert a + b == a;
    } else {
      assert (a + b)[..|a + b| - 1] == a + b[..|b| - 1];
      AtConcat(a, b[..|b| - 1], t);
    }
  }

  /** A list without its `k`-th item. */
  function Without<T>(rows: seq<T>, k: nat): (rest: seq<T>)
    requires k < |rows|
    ensures |rest| == |rows| - 1
  {
    rows[..k] + rows[k + 1..]
  }

  lemma WithoutCounts<T>(rows: seq<T>, k: nat)
    requires k < |rows|
    ensures multiset(Without(rows, k)) == multiset(rows) - multiset{rows[k]}
  {
    assert rows == rows[..k] + [rows[k]] + rows[k + 1..];
  }

  lemma RestPermutes<T>(a: seq<T>, b: seq<T>, k: nat)
    requires a != [] && multiset(a) == multiset(b) && k < |b| && b[k] == a[|a| - 1]
    ensures multiset(a[..|a| - 1]) == multiset(Without(b, k))
  {
    WithoutCounts(a, |a| - 1);
    WithoutCounts(b, k);
    assert Without(a, |a| - 1) == a[..|a| - 1];
  }

  lemma {:induction false} GatherConcat<T>(a: seq<T>, b: seq<T>, events: T -> seq<Event>)
    ensures Gather(a + b, events) == Gather(a, events) + Gather(b, events)
  {
    if b == [] {
      assert a + b == a;
    } else {
      var front, last := b[..|b| - 1], b[|b| - 1];
      GatherConcat(a, front, events);
      assert (a + b)[..|a + b| - 1] == a + front;
      assert Gather(a, events) + (Gather(front, events) + events(last)) == Gather(a, events) + Gather(front, events) + events(last);
    }
  }

  lemma GatherWithout<T>(rows: seq<T>, events: T -> seq<Event>, k: nat)
    requires k < |rows|
    ensures multiset(Gather(rows, events)) == multiset(Gather(Without(rows, k), events)) + multiset(events(rows[k]))
  {
    var front, rest := rows[..k], rows[k + 1..];
    GatherConcat(front, rest, events);
    GatherConcat(rows[..k + 1], rest, events);
    assert rows[..k + 1] + rest == rows && rows[..k + 1][..k] == front;
  }

  /** The events of one moment, around the `k`-th row. */
  lemma AtAround<T>(rows: seq<T>, events: T -> seq<Event>, k: nat, t: int)
    requires k < |rows|
    ensures At(Gather(rows, events), t)
            == At(Gather(rows[..k], events), t) + At(events(rows[k]), t) + At(Gather(rows[k + 1..], events), t)
    ensures At(Gather(Without(rows, k), events), t)
            == At(Gather(rows[..k], events), t) + At(Gather(rows[k + 1..], events), t)
  {
    var front, rest := rows[..k], rows[k + 1..];
    GatherConcat(front, rest, events);
    GatherConcat(rows[..k + 1], rest, events);
    assert rows[..k + 1] + rest == rows && rows[..k + 1][..k] == front;
    AtConcat(Gather(front, events), Gather(rest, events), t);
    AtConcat(Gather(rows[..k + 1], events), Gather(rest, events), t);
    AtConcat(Gather(front, events), events(rows[k]), t);
  }

  lemma {:induction false} GatherPermutes<T>(a: seq<T>, b: seq<T>, f: T -> seq<Event>, g: T -> seq<Event>)
    requires multiset(a) == multiset(b)
    requires forall i :: 0 <= i < |a| ==> f(a[i]) == g(a[i])
    ensures multiset(Gather(a, f)) == multiset(Gather(b, g))
    decreases |a|
  {
    if a == [] {
      assert |multiset(b)| == 0;
    } else {
      var last := a[|a| - 1];
      assert last in multiset(b);
      var k :| 0 <= k < |b| && b[k] == last;
      RestPermutes(a, b, k);
      GatherPermutes(a[..|a| - 1], Without(b, k), f, g);
      GatherWithout(b, g, k);
    }
  }

  predicate UniqueIds<T>(rows: seq<T>, idOf: T -> nat) {
    forall i, j :: 0 <= i < j < |rows| ==> idOf(rows[i]) != idOf(rows[j])
  }

  lemma {:induction false} FindComplete<T>(rows: seq<T>, idOf: T -> nat, row: T)
    requires row in rows && UniqueIds(rows, idOf)
    ensures Find(rows, idOf, idOf(row)) == Some(row)
  {
    if rows[|rows| - 1] != row {
      var front := rows[..|rows| - 1];
      assert rows == front + [rows[|rows| - 1]];
      var i :| 0 <= i < |front| && front[i] == row;
      assert idOf(rows[i]) != idOf(rows[|rows| - 1]);
      FindComplete(front, idOf, row);
    }
  }

  /** Where nothing is found, no row has the id. */
  lemma {:induction false} FindNone<T>(rows: seq<T>, idOf: T -> nat, id: nat, row: T)
    requires Find(rows, idOf, id).None? && row in rows
    ensures idOf(row) != id
  {
    var last := rows[|rows| - 1];
    if row != last {
      assert rows == rows[..|rows| - 1] + [last];
      FindNone(rows[..|rows| - 1], idOf, id, row);
    }
  }

  // ---------------------------------------------------------------------
  // What the events and the payment rows say, as relations between rows
  // ---------------------------------------------------------------------

  predicate Keyed(db: Database) {
    UniqueIds(db.cases, CaseId()) && UniqueIds(db.users, UserId()) && UniqueIds(db.drafts, DraftId())
  }

  /** The e-mail address is that of the user with this id; there is none exactly when there is no such
      user. */
  ghost predicate EmailIs(db: Database, id: Option<nat>, email: Option<string>) {
    match email
    case Some(text) => exists u :: u in db.users && id == Some(u.id) && u.email == text
    case None => forall u :: u in db.users ==> id != Some(u.id)
  }

  /** The case that the draft with this id became; none exactly when it became none that is there. */
  ghost predicate Became(db: Database, draftId: nat, c: Option<Case>) {
    match c
    case Some(x) => x in db.cases && exists d :: d in db.drafts && d.id == draftId && d.promotedCaseId == Some(x.id)
    case None => forall d, x :: d in db.drafts && x in db.cases && d.id == draftId ==> d.promotedCaseId != Some(x.id)
  }

  /** An event shows the number of a case and its client's address. */
  ghost predicate Shows(db: Database, e: Event, c: Option<Case>) {
    match c
    case Some(x) => e.caseNumber == Some(x.caseNumber) && EmailIs(db, x.clientId, e.clientEmail)
    case None => e.caseNumber == None && e.clientEmail == None
  }

  ghost predicate SaysCase(db: Database, e: Event, c: Case) {
    && e.caseId == Some(c.id) && Shows(db, e, Some(c)) && e.detail == OfCase
    && match e.kind
       case CaseCreated => e.occurredAt == c.createdAt
       case NftMinted => c.nftMintTx.Some? && e.occurredAt == c.updatedAt
       case RenewalCompleted => c.lastRenewedAt == Some(e.occurredAt)
       case _ => false
  }

  /** The case an event shows is that of the draft, and its id is given when there is one. */
  ghost predicate SaysDraft(db: Database, e: Event, draftId: nat) {
    exists c :: Became(db, draftId, c) && Shows(db, e, c) && (if c.Some? then e.caseId == Some(c.value.id) else e.caseId == None)
  }

  ghost predicate SaysPayment(db: Database, e: Event, i: Intent) {
    && SaysDraft(db, e, i.draftId) && e.detail == OfPayment(i.id)
    && ((e.kind == PaymentConfirmed && i.status == Confirmed) || (e.kind == PaymentRefunded && i.status == Refunded))
    && (i.confirmedAt == Some(e.occurredAt) || (i.confirmedAt == None && e.occurredAt == i.createdAt))
  }

  ghost predicate SaysFiling(db: Database, e: Event, a: Attempt) {
    && SaysDraft(db, e, a.draftId)
    && e.detail == OfFiling(a.platform, a.externalReference, a.number, a.errorMessage)
    && (|| (e.kind == FilingSubmitted && a.status in {Filing.Submitted, Filing.Accepted})
        || (e.kind == FilingFailed && a.status in {Filing.Rejected, Filing.Error}))
    && (|| a.completedAt == Some(e.occurredAt)
        || (a.completedAt == None && a.submittedAt == Some(e.occurredAt))
        || (a.completedAt == None && a.submittedAt == None && e.occurredAt == a.createdAt))
  }

  ghost predicate SaysReminder(db: Database, e: Event, r: Reminder) {
    && e.kind == ReminderSent && e.caseId == Some(r.caseId) && e.occurredAt == r.sentAt
    && e.detail == OfReminder(r.windowDays, r.targetDueAt)
    && (|| ((forall c :: c in db.cases ==> c.id != r.caseId) && Shows(db, e, None))
        || (exists c :: c in db.cases && c.id == r.caseId && Shows(db, e, Some(c))))
  }

  lemma EmailIffJoined(db: Database, c: Case, email: Option<string>)
    requires Keyed(db)
    ensures EmailIs(db, c.clientId, email) <==> email == EmailOf(db, Some(c))
  {
    if c.clientId.Some? {
      forall u | u in db.users && c.clientId == Some(u.id)
        ensures UserOf(db, c.clientId) == Some(u)
      {
        FindComplete(db.users, UserId(), u);
      }
    }
  }

  lemma BecameIffJoined(db: Database, draftId: nat, c: Option<Case>)
    requires Keyed(db)
    ensures Became(db, draftId, c) <==> c == CaseOf(db, DraftOf(db, draftId))
  {
    forall d | d in db.drafts && d.id == draftId
      ensures DraftOf(db, draftId) == Some(d)
    {
      FindComplete(db.drafts, DraftId(), d);
    }
    forall x | x in db.cases
      ensures Find(db.cases, CaseId(), x.id) == Some(x)
    {
      FindComplete(db.cases, CaseId(), x);
    }
  }

  lemma SaysCaseIff(db: Database, e: Event, c: Case)
    requires Keyed(db)
    ensures SaysCase(db, e, c) <==> e in FromCase(db)(c)
  {
    EmailIffJoined(db, c, e.clientEmail);
  }

  lemma SaysDraftIff(db: Database, e: Event, draftId: nat)
    requires Keyed(db)
    ensures var c := CaseOf(db, DraftOf(db, draftId));
            SaysDraft(db, e, draftId) <==> e.caseId == IdOf(c) && e.caseNumber == NumberOf(c) && e.clientEmail == EmailOf(db, c)
  {
    var c := CaseOf(db, DraftOf(db, draftId));
    BecameIffJoined(db, draftId, c);
    if c.Some? {
      EmailIffJoined(db, c.value, e.clientEmail);
    }
    if SaysDraft(db, e, draftId) {
      var x :| Became(db, draftId, x) && Shows(db, e, x) && (if x.Some? then e.caseId == Some(x.value.id) else e.caseId == None);
      BecameIffJoined(db, draftId, x);
    }
  }

  lemma SaysPaymentIff(db: Database, e: Event, i: Intent)
    requires Keyed(db)
    ensures SaysPayment(db, e, i) <==> e in FromIntent(db)(i)
  {
    SaysDraftIff(db, e, i.draftId);
  }

  lemma SaysFilingIff(db: Database, e: Event, a: Attempt)
    requires Keyed(db)
    ensures SaysFiling(db, e, a) <==> e in FromAttempt(db)(a)
  {
    SaysDraftIff(db, e, a.draftId);
  }

  lemma SaysReminderIff(db: Database, e: Event, r: Reminder)
    requires Keyed(db)
    ensures SaysReminder(db, e, r) <==> e in FromReminder(db)(r)
  {
    var c := Find(db.cases, CaseId(), r.caseId);
    if c.Some? {
      EmailIffJoined(db, c.value, e.clientEmail);
    }
    forall x | x in db.cases && x.id == r.caseId
      ensures c == Some(x)
    {
      FindComplete(db.cases, CaseId(), x);
    }
  }

  lemma {:induction false} InGather<T>(rows: seq<T>, events: T -> seq<Event>, e: Event)
    ensures e in Gather(rows, events) <==> exists r :: r in rows && e in events(r)
  {
    if rows != [] {
      var last := rows[|rows| - 1];
      InGather(rows[..|rows| - 1], events, e);
      assert rows == rows[..|rows| - 1] + [last];
      assert last in rows;
    }
  }

  /** The feed holds exactly the events that the rows tell of: each with its row's own moment and kind,
      and with the case, the number and the client's address that the ids in the rows lead to. */
  lemma FeedSaysExactly(db: Database, e: Event)
    requires Keyed(db)
    ensures e in AllEvents(db) <==>
              || (exists c :: c in db.cases && SaysCase(db, e, c))
              || (exists i :: i in db.intents && SaysPayment(db, e, i))
              || (exists a :: a in db.attempts && SaysFiling(db, e, a))
              || (exists r :: r in db.reminders && SaysReminder(db, e, r))
  {
    InGather(db.cases, FromCase(db), e);
    InGather(db.intents, FromIntent(db), e);
    InGather(db.attempts, FromAttempt(db), e);
    InGather(db.reminders, FromReminder(db), e);
    forall c ensures SaysCase(db, e, c) <==> e in FromCase(db)(c) { SaysCaseIff(db, e, c); }
    forall i ensures SaysPayment(db, e, i) <==> e in FromIntent(db)(i) { SaysPaymentIff(db, e, i); }
    forall a ensures SaysFiling(db, e, a) <==> e in FromAttempt(db)(a) { SaysFilingIff(db, e, a); }
    forall r ensures SaysReminder(db, e, r) <==> e in FromReminder(db)(r) { SaysReminderIff(db, e, r); }
  }

  lemma FindPermutes<T>(a: seq<T>, b: seq<T>, idOf: T -> nat, id: nat)
    requires multiset(a) == multiset(b) && UniqueIds(a, idOf) && UniqueIds(b, idOf)
    ensures Find(a, idOf, id) == Find(b, idOf, id)
  {
    var x, y := Find(a, idOf, id), Find(b, idOf, id);
    if x.Some? {
      assert x.value in multiset(a) && x.value in multiset(b);
      FindComplete(b, idOf, x.value);
    } else if y.Some? {
      assert y.value in multiset(b) && y.value in multiset(a);
      FindComplete(a, idOf, y.value);
    }
  }

  predicate SameTable<T(==)>(a: seq<T>, b: seq<T>, idOf: T -> nat) {
    multiset(a) == multiset(b) && UniqueIds(a, idOf) && UniqueIds(b, idOf)
  }

  /** Two answers of the database about the same data. */
  predicate SameRows(a: Database, b: Database) {
    && SameTable(a.cases, b.cases, CaseId())
    && SameTable(a.users, b.users, UserId())
    && SameTable(a.drafts, b.drafts, DraftId())
    && SameTable(a.intents, b.intents, IntentId())
    && SameTable(a.attempts, b.attempts, AttemptId())
    && SameTable(a.reminders, b.reminders, ReminderId())
  }

  lemma SameFinds<T>(a: seq<T>, b: seq<T>, idOf: T -> nat)
    requires SameTable(a, b, idOf)
    ensures forall id :: Find(a, idOf, id) == Find(b, idOf, id)
  {
    forall id
      ensures Find(a, idOf, id) == Find(b, idOf, id)
    {
      FindPermutes(a, b, idOf, id);
    }
  }

  lemma SameLookups(a: Database, b: Database)
    requires SameTable(a.cases, b.cases, CaseId())
    requires SameTable(a.users, b.users, UserId())
    requires SameTable(a.drafts, b.drafts, DraftId())
    ensures SameSources(a, b)
  {
    SameFinds(a.users, b.users, UserId());
    SameFinds(a.cases, b.cases, CaseId());
    SameFinds(a.drafts, b.drafts, DraftId());
    assert forall c :: EmailOf(a, c) == EmailOf(b, c);
    assert forall d :: CaseOf(a, d) == CaseOf(b, d);
    assert forall id :: DraftOf(a, id) == DraftOf(b, id);
  }

  // ---------------------------------------------------------------------
  // When the order of the rows shows
  // ---------------------------------------------------------------------

  /** No two rows of a table contribute different events at one moment. */
  ghost predicate NoTies<T>(rows: seq<T>, events: T -> seq<Event>) {
    forall r, s, x, y :: r in rows && s in rows && r != s && x in events(r) && y in events(s) && x.occurredAt == y.occurredAt ==> x == y
  }

  lemma {:induction false} GatherMembers<T>(rows: seq<T>, events: T -> seq<Event>, x: Event) returns (k: nat)
    requires x in Gather(rows, events)
    ensures k < |rows| && x in events(rows[k])
  {
    var n := |rows| - 1;
    if x in events(rows[n]) {
      k := n;
    } else {
      k := GatherMembers(rows[..n], events, x);
    }
  }

  /** Events that are all alike can change places. */
  lemma Commute(u: seq<Event>, v: seq<Event>)
    requires forall i, j :: 0 <= i < |u| && 0 <= j < |v| ==> u[i] == v[j]
    ensures u + v == v + u
  {
    if u != [] && v != [] {
      assert forall i :: 0 <= i < |u| ==> u[i] == v[0];
      assert forall j :: 0 <= j < |v| ==> v[j] == u[0] == v[0];
    }
  }

  lemma GatherLast<T>(rows: seq<T>, events: T -> seq<Event>, t: int)
    requires rows != []
    ensures At(Gather(rows, events), t) == At(Gather(rows[..|rows| - 1], events), t) + At(events(rows[|rows| - 1]), t)
  {
    AtConcat(Gather(rows[..|rows| - 1], events), events(rows[|rows| - 1]), t);
  }

  /** Without ties, the events of a moment come out of a table in one order only. */
  lemma {:induction false} AtGatherPermutes<T>(a: seq<T>, b: seq<T>, idOf: T -> nat, f: T -> seq<Event>, t: int)
    requires SameTable(a, b, idOf) && NoTies(a, f)
    ensures At(Gather(a, f), t) == At(Gather(b, f), t)
    decreases |a|
  {
    if a == [] {
      assert |multiset(b)| == 0;
    } else {
      var last := a[|a| - 1];
      assert last in multiset(b);
      var k :| 0 <= k < |b| && b[k] == last;
      RestPermutes(a, b, k);
      RestKeeps(a, b, idOf, f, k);
      AtGatherPermutes(a[..|a| - 1], Without(b, k), idOf, f, t);
      GatherLast(a, f, t);
      LaterRowsTie(a, b, idOf, f, k, t);
      MoveToEnd(b, f, k, t);
    }
  }

  /** Events of a row that are like those of the rows after it can be moved behind them. */
  lemma MoveToEnd<T>(b: seq<T>, f: T -> seq<Event>, k: nat, t: int)
    requires k < |b|
    requires var u, v := At(f(b[k]), t), At(Gather(b[k + 1..], f), t);
             forall i, j :: 0 <= i < |u| && 0 <= j < |v| ==> u[i] == v[j]
    ensures At(Gather(b, f), t) == At(Gather(Without(b, k), f), t) + At(f(b[k]), t)
  {
    AtAround(b, f, k, t);
    CommuteBehind(At(Gather(b[..k], f), t), At(f(b[k]), t), At(Gather(b[k + 1..], f), t));
  }

  lemma CommuteBehind(w: seq<Event>, u: seq<Event>, v: seq<Event>)
    requires forall i, j :: 0 <= i < |u| && 0 <= j < |v| ==> u[i] == v[j]
    ensures w + u + v == w + v + u
  {
    Commute(u, v);
    assert w + u + v == w + (u + v) && w + v + u == w + (v + u);
  }

  lemma RestKeeps<T>(a: seq<T>, b: seq<T>, idOf: T -> nat, f: T -> seq<Event>, k: nat)
    requires a != [] && k < |b| && UniqueIds(a, idOf) && UniqueIds(b, idOf) && NoTies(a, f)
    ensures UniqueIds(a[..|a| - 1], idOf) && UniqueIds(Without(b, k), idOf) && NoTies(a[..|a| - 1], f)
  {
    var front, rest := a[..|a| - 1], Without(b, k);
    assert forall r :: r in front ==> r in a;
    forall i, j | 0 <= i < j < |rest|
      ensures idOf(rest[i]) != idOf(rest[j])
    {
      var i', j' := if i < k then i else i + 1, if j < k then j else j + 1;
      assert rest[i] == b[i'] && rest[j] == b[j'];
    }
  }

  /** The events of a row and those of the rows after it, at one moment, are all the same. */
  lemma LaterRowsTie<T>(a: seq<T>, b: seq<T>, idOf: T -> nat, f: T -> seq<Event>, k: nat, t: int)
    requires multiset(a) == multiset(b) && UniqueIds(b, idOf) && NoTies(a, f) && k < |b|
    ensures var u, v := At(f(b[k]), t), At(Gather(b[k + 1..], f), t);
            forall i, j :: 0 <= i < |u| && 0 <= j < |v| ==> u[i] == v[j]
  {
    var later := b[k + 1..];
    var u, v := At(f(b[k]), t), At(Gather(later, f), t);
    AtMembers(f(b[k]), t);
    AtMembers(Gather(later, f), t);
    forall i, j | 0 <= i < |u| && 0 <= j < |v|
      ensures u[i] == v[j]
    {
      assert u[i] in u && v[j] in v;
      var m := GatherMembers(later, f, v[j]);
      assert later[m] == b[k + 1 + m] && idOf(b[k]) != idOf(b[k + 1 + m]);
      assert b[k] in multiset(b) && later[m] in multiset(b);
      assert b[k] in a && later[m] in a;
    }
  }

  /** The tables of the feed without ties. */
  ghost predicate FeedHasNoTies(db: Database) {
    && NoTies(db.cases, FromCase(db)) && NoTies(db.intents, FromIntent(db))
    && NoTies(db.attempts, FromAttempt(db)) && NoTies(db.reminders, FromReminder(db))
  }

  /** The events of a row are looked up the same. */
  ghost predicate SameSources(a: Database, b: Database) {
    && (forall c :: FromCase(a)(c) == FromCase(b)(c))
    && (forall i :: FromIntent(a)(i) == FromIntent(b)(i))
    && (forall x :: FromAttempt(a)(x) == FromAttempt(b)(x))
    && (forall r :: FromReminder(a)(r) == FromReminder(b)(r))
  }

  /** So only the order of the rows matters. */
  lemma EventsInOrder(a: Database, b: Database)
    requires SameSources(a, b)
    ensures AllEvents(b) == Gather(b.cases, FromCase(a)) + Gather(b.intents, FromIntent(a))
                            + Gather(b.attempts, FromAttempt(a)) + Gather(b.reminders, FromReminder(a))
  {
    GatherPointwise(b.cases, FromCase(a), FromCase(b));
    GatherPointwise(b.intents, FromIntent(a), FromIntent(b));
    GatherPointwise(b.attempts, FromAttempt(a), FromAttempt(b));
    GatherPointwise(b.reminders, FromReminder(a), FromReminder(b));
  }

  lemma {:induction false} GatherPointwise<T>(rows: seq<T>, f: T -> seq<Event>, g: T -> seq<Event>)
    requires forall r :: f(r) == g(r)
    ensures Gather(rows, f) == Gather(rows, g)
  {
    if rows != [] {
      GatherPointwise(rows[..|rows| - 1], f, g);
    }
  }

  lemma SameCounts<T>(a: seq<T>, b: seq<T>, idOf: T -> nat, f: T -> seq<Event>)
    requires SameTable(a, b, idOf)
    ensures multiset(Gather(a, f)) == multiset(Gather(b, f))
  {
    GatherPermutes(a, b, f, f);
  }

  /** In whatever order the database returns its rows the same events are gathered. */
  lemma SameEvents(a: Database, b: Database)
    requires SameRows(a, b)
    ensures multiset(AllEvents(a)) == multiset(AllEvents(b))
  {
    SameLookups(a, b);
    EventsInOrder(a, b);
    SameCounts(a.cases, b.cases, CaseId(), FromCase(a));
    SameCounts(a.intents, b.intents, IntentId(), FromIntent(a));
    SameCounts(a.attempts, b.attempts, AttemptId(), FromAttempt(a));
    SameCounts(a.reminders, b.reminders, ReminderId(), FromReminder(a));
  }

  lemma SameMomentsConcat(x: seq<Event>, y: seq<Event>, x': seq<Event>, y': seq<Event>)
    requires SameMoments(x, x') && SameMoments(y, y')
    ensures SameMoments(x + y, x' + y')
  {
    forall t
      ensures At(x + y, t) == At(x' + y', t)
    {
      AtConcat(x, y, t);
      AtConcat(x', y', t);
    }
  }

  lemma SameMomentsOfTable<T>(a: seq<T>, b: seq<T>, idOf: T -> nat, f: T -> seq<Event>)
    requires SameTable(a, b, idOf) && NoTies(a, f)
    ensures SameMoments(Gather(a, f), Gather(b, f))
  {
    forall t
      ensures At(Gather(a, f), t) == At(Gather(b, f), t)
    {
      AtGatherPermutes(a, b, idOf, f, t);
    }
  }

  lemma NoTiesSameMoments(a: Database, b: Database)
    requires SameRows(a, b) && FeedHasNoTies(a)
    ensures SameMoments(Gather(a.cases, FromCase(a)), Gather(b.cases, FromCase(a)))
    ensures SameMoments(Gather(a.intents, FromIntent(a)), Gather(b.intents, FromIntent(a)))
    ensures SameMoments(Gather(a.attempts, FromAttempt(a)), Gather(b.attempts, FromAttempt(a)))
    ensures SameMoments(Gather(a.reminders, FromReminder(a)), Gather(b.reminders, FromReminder(a)))
  {
    SameMomentsOfTable(a.cases, b.cases, CaseId(), FromCase(a));
    SameMomentsOfTable(a.intents, b.intents, IntentId(), FromIntent(a));
    SameMomentsOfTable(a.attempts, b.attempts, AttemptId(), FromAttempt(a));
    SameMomentsOfTable(a.reminders, b.reminders, ReminderId(), FromReminder(a));
  }

  lemma SameMomentsOfFour(c: seq<Event>, i: seq<Event>, a: seq<Event>, r: seq<Event>,
                          c': seq<Event>, i': seq<Event>, a': seq<Event>, r': seq<Event>)
    requires SameMoments(c, c') && SameMoments(i, i') && SameMoments(a, a') && SameMoments(r, r')
    ensures SortNewestFirst(c + i + a + r) == SortNewestFirst(c' + i' + a' + r')
  {
    SameMomentsConcat(c, i, c', i');
    SameMomentsConcat(c + i, a, c' + i', a');
    SameMomentsConcat(c + i + a, r, c' + i' + a', r');
    SortIsStable(c + i + a + r);
    SortIsStable(c' + i' + a' + r');
    StableOrderUnique(SortNewestFirst(c + i + a + r), SortNewestFirst(c' + i' + a' + r'));
  }

  lemma NoTiesSameFeed(a: Database, b: Database)
    requires SameRows(a, b) && FeedHasNoTies(a)
    ensures SortNewestFirst(AllEvents(b)) == SortNewestFirst(AllEvents(a))
  {
    NoTiesSameMoments(a, b);
    SameLookups(a, b);
    EventsInOrder(a, b);
    SameMomentsOfFour(
      Gather(a.cases, FromCase(a)), Gather(a.intents, FromIntent(a)), Gather(a.attempts, FromAttempt(a)), Gather(a.reminders, FromReminder(a)),
      Gather(b.cases, FromCase(a)), Gather(b.intents, FromIntent(a)), Gather(b.attempts, FromAttempt(a)), Gather(b.reminders, FromReminder(a)));
  }

  /** Two rows exchanged. */
  function Swapped<T>(rows: seq<T>, i: nat, j: nat): (r: seq<T>)
    requires i < j < |rows|
    ensures |r| == |rows| && multiset(r) == multiset(rows)
    ensures r[..i] == rows[..i] && r[i] == rows[j]
  {
    rows[i := rows[j]][j := rows[i]]
  }

  lemma SwappedSameTable<T>(rows: seq<T>, idOf: T -> nat, i: nat, j: nat)
    requires i < j < |rows| && UniqueIds(rows, idOf)
    ensures SameTable(rows, Swapped(rows, i, j), idOf)
  {
  }

  /** The lists differ at a place. */
  ghost predicate DifferAt(a: seq<Event>, b: seq<Event>, k: nat) {
    k < |a| && k < |b| && a[k] != b[k]
  }

  /** What makes a table's ties visible: where two rows have different events at one moment, even their
      first events of that moment differ. */
  ghost predicate TiesShow<T>(rows: seq<T>, events: T -> seq<Event>) {
    forall r, s, x, y ::
      r in rows && s in rows && r != s && x in events(r) && y in events(s) && x.occurredAt == y.occurredAt && x != y ==>
        At(events(r), x.occurredAt) != [] && At(events(s), x.occurredAt) != []
        && At(events(r), x.occurredAt)[0] != At(events(s), x.occurredAt)[0]
  }

  lemma FirstAtRow<T>(rows: seq<T>, events: T -> seq<Event>, i: nat, t: int)
    requires i < |rows| && At(events(rows[i]), t) != []
    ensures var k := |At(Gather(rows[..i], events), t)|;
            k < |At(Gather(rows, events), t)| && At(Gather(rows, events), t)[k] == At(events(rows[i]), t)[0]
  {
    AtAround(rows, events, i, t);
  }

  lemma TieAt<T>(rows: seq<T>, events: T -> seq<Event>, i: nat, j: nat, t: int) returns (k: nat)
    requires i < j < |rows| && At(events(rows[i]), t) != [] && At(events(rows[j]), t) != []
    requires At(events(rows[i]), t)[0] != At(events(rows[j]), t)[0]
    ensures DifferAt(At(Gather(rows, events), t), At(Gather(Swapped(rows, i, j), events), t), k)
  {
    k := |At(Gather(rows[..i], events), t)|;
    FirstAtRow(rows, events, i, t);
    FirstAtRow(Swapped(rows, i, j), events, i, t);
  }

  lemma PickTie<T>(rows: seq<T>, events: T -> seq<Event>) returns (m: nat, n: nat, x: Event, y: Event)
    requires !NoTies(rows, events)
    ensures m < |rows| && n < |rows| && rows[m] != rows[n]
    ensures x in events(rows[m]) && y in events(rows[n]) && x.occurredAt == y.occurredAt && x != y
  {
    var r, s;
    r, s, x, y :| r in rows && s in rows && r != s && x in events(r) && y in events(s) && x.occurredAt == y.occurredAt && x != y;
    m :| m < |rows| && rows[m] == r;
    n :| n < |rows| && rows[n] == s;
  }

  lemma TieIsShown<T>(rows: seq<T>, events: T -> seq<Event>, m: nat, n: nat, x: Event, y: Event)
    requires TiesShow(rows, events) && m < |rows| && n < |rows| && rows[m] != rows[n]
    requires x in events(rows[m]) && y in events(rows[n]) && x.occurredAt == y.occurredAt && x != y
    ensures At(events(rows[m]), x.occurredAt) != [] && At(events(rows[n]), x.occurredAt) != []
    ensures At(events(rows[m]), x.occurredAt)[0] != At(events(rows[n]), x.occurredAt)[0]
  {
    assert rows[m] in rows && rows[n] in rows;
  }

  /** A table with a tie has two orders of its rows that give the events of a moment in two orders. */
  lemma TieSwaps<T>(rows: seq<T>, events: T -> seq<Event>) returns (i: nat, j: nat, t: int, k: nat)
    requires !NoTies(rows, events) && TiesShow(rows, events)
    ensures i < j < |rows|
    ensures DifferAt(At(Gather(rows, events), t), At(Gather(Swapped(rows, i, j), events), t), k)
  {
    var m, n, x, y := PickTie(rows, events);
    TieIsShown(rows, events, m, n, x, y);
    t := x.occurredAt;
    if m < n {
      i, j := m, n;
    } else {
      i, j := n, m;
    }
    k := TieAt(rows, events, i, j, t);
  }

  /** What a different order in one source does to the feed. */
  lemma MiddleDiffers(before: seq<Event>, x: seq<Event>, y: seq<Event>, after: seq<Event>, t: int, k: nat)
    requires DifferAt(At(x, t), At(y, t), k)
    ensures SortNewestFirst(before + x + after) != SortNewestFirst(before + y + after)
  {
    var f, g := before + x + after, before + y + after;
    AtConcat(before + x, after, t);
    AtConcat(before, x, t);
    AtConcat(before + y, after, t);
    AtConcat(before, y, t);
    SortIsStable(f);
    SortIsStable(g);
    assert At(f, t)[|At(before, t)| + k] == At(x, t)[k];
    assert At(g, t)[|At(before, t)| + k] == At(y, t)[k];
    assert At(f, t) != At(g, t);
    assert At(SortNewestFirst(f), t) != At(SortNewestFirst(g), t);
  }

  lemma Regrouped(c: seq<Event>, i: seq<Event>, a: seq<Event>, r: seq<Event>)
    ensures c + i + a + r == [] + c + (i + a + r)
    ensures c + i + a + r == c + i + (a + r)
    ensures c + i + a + r == (c + i + a) + r + []
  {
  }

  lemma SinglesShow<T>(rows: seq<T>, events: T -> seq<Event>)
    requires forall r :: |events(r)| <= 1
    ensures TiesShow(rows, events)
  {
    forall r, s, x, y | r in rows && s in rows && r != s && x in events(r) && y in events(s) && x.occurredAt == y.occurredAt && x != y
      ensures At(events(r), x.occurredAt) != [] && At(events(s), x.occurredAt) != []
      ensures At(events(r), x.occurredAt)[0] != At(events(s), x.occurredAt)[0]
    {
      AtOne(x, x.occurredAt);
      AtOne(y, x.occurredAt);
      assert events(r) == [x] && events(s) == [y];
    }
  }

  lemma AtOne(e: Event, t: int)
    ensures At([e], t) == if e.occurredAt == t then [e] else []
  {
    assert [e][..0] == [];
  }

  lemma CaseNamed(db: Database, c: Case, t: int)
    ensures forall e :: e in FromCase(db)(c) ==> e.caseId == Some(c.id)
    ensures forall e :: e in FromCase(db)(c) && e.occurredAt == t ==>
              At(FromCase(db)(c), t) != [] && At(FromCase(db)(c), t)[0].caseId == Some(c.id)
  {
    var events := FromCase(db)(c);
    AtMembers(events, t);
    assert forall e :: e in events ==> e.caseId == Some(c.id);
    forall e | e in events && e.occurredAt == t
      ensures At(events, t) != [] && At(events, t)[0].caseId == Some(c.id)
    {
      assert e in At(events, t);
      assert At(events, t)[0] in At(events, t);
    }
  }

  /** Events of different cases name different cases. */
  lemma CasesShow(db: Database)
    requires UniqueIds(db.cases, CaseId())
    ensures TiesShow(db.cases, FromCase(db))
  {
    var events := FromCase(db);
    forall r, s, x, y | r in db.cases && s in db.cases && r != s && x in events(r) && y in events(s) && x.occurredAt == y.occurredAt && x != y
      ensures At(events(r), x.occurredAt) != [] && At(events(s), x.occurredAt) != []
      ensures At(events(r), x.occurredAt)[0] != At(events(s), x.occurredAt)[0]
    {
      CaseNamed(db, r, x.occurredAt);
      CaseNamed(db, s, x.occurredAt);
      FindComplete(db.cases, CaseId(), r);
      FindComplete(db.cases, CaseId(), s);
    }
  }

  lemma IntentsShow(db: Database)
    ensures TiesShow(db.intents, FromIntent(db))
  {
    SinglesShow(db.intents, FromIntent(db));
  }

  lemma AttemptsShow(db: Database)
    ensures TiesShow(db.attempts, FromAttempt(db))
  {
    SinglesShow(db.attempts, FromAttempt(db));
  }

  lemma RemindersShow(db: Database)
    ensures TiesShow(db.reminders, FromReminder(db))
  {
    SinglesShow(db.reminders, FromReminder(db));
  }

  /** No two rows of a table have events at one moment. */
  ghost predicate Apart<T>(rows: seq<T>, events: T -> seq<Event>) {
    forall r, s, x, y :: r in rows && s in rows && r != s && x in events(r) && y in events(s) ==> x.occurredAt != y.occurredAt
  }

  lemma NamedCasesTie(db: Database)
    requires UniqueIds(db.cases, CaseId())
    ensures NoTies(db.cases, FromCase(db)) <==> Apart(db.cases, FromCase(db))
  {
    forall r, s, x, y | r in db.cases && s in db.cases && r != s && x in FromCase(db)(r) && y in FromCase(db)(s)
      ensures x != y
    {
      CaseNamed(db, r, 0);
      CaseNamed(db, s, 0);
      FindComplete(db.cases, CaseId(), r);
      FindComplete(db.cases, CaseId(), s);
    }
  }

  lemma NamedIntentsTie(db: Database)
    requires UniqueIds(db.intents, IntentId())
    ensures NoTies(db.intents, FromIntent(db)) <==> Apart(db.intents, FromIntent(db))
  {
    forall r, s, x, y | r in db.intents && s in db.intents && r != s && x in FromIntent(db)(r) && y in FromIntent(db)(s)
      ensures x != y
    {
      FindComplete(db.intents, IntentId(), r);
      FindComplete(db.intents, IntentId(), s);
    }
  }

  /** Where events name their rows, as those of cases and payments do, a tie is any moment shared. */
  lemma NamedRowsTie(db: Database)
    requires UniqueIds(db.cases, CaseId()) && UniqueIds(db.intents, IntentId())
    ensures NoTies(db.cases, FromCase(db)) <==> Apart(db.cases, FromCase(db))
    ensures NoTies(db.intents, FromIntent(db)) <==> Apart(db.intents, FromIntent(db))
  {
    NamedCasesTie(db);
    NamedIntentsTie(db);
  }

  // Where a table has a tie, some other answer of the database gives another feed.

  lemma SwapCases(a: Database, i: nat, j: nat) returns (b: Database)
    requires SameRows(a, a) && i < j < |a.cases|
    ensures b == a.(cases := Swapped(a.cases, i, j)) && SameRows(a, b) && SameSources(a, b)
  {
    b := a.(cases := Swapped(a.cases, i, j));
    SwappedSameTable(a.cases, CaseId(), i, j);
    SameLookups(a, b);
  }

  lemma CasesDiffer(a: Database, b: Database, t: int, k: nat)
    requires SameSources(a, b)
    requires b.intents == a.intents
    requires b.attempts == a.attempts
    requires b.reminders == a.reminders
    requires DifferAt(At(Gather(a.cases, FromCase(a)), t), At(Gather(b.cases, FromCase(a)), t), k)
    ensures SortNewestFirst(AllEvents(b)) != SortNewestFirst(AllEvents(a))
  {
    EventsInOrder(a, b);
    var before, after: seq<Event> := [], Gather(a.intents, FromIntent(a)) + Gather(a.attempts, FromAttempt(a)) + Gather(a.reminders, FromReminder(a));
    var x, y := Gather(a.cases, FromCase(a)), Gather(b.cases, FromCase(a));
    Regrouped(x, Gather(a.intents, FromIntent(a)), Gather(a.attempts, FromAttempt(a)), Gather(a.reminders, FromReminder(a)));
    Regrouped(y, Gather(a.intents, FromIntent(a)), Gather(a.attempts, FromAttempt(a)), Gather(a.reminders, FromReminder(a)));
    assert AllEvents(a) == before + x + after && AllEvents(b) == before + y + after;
    MiddleDiffers(before, x, y, after, t, k);
  }

  lemma CaseTieShows(a: Database) returns (b: Database)
    requires SameRows(a, a) && !NoTies(a.cases, FromCase(a))
    ensures SameRows(a, b) && SortNewestFirst(AllEvents(b)) != SortNewestFirst(AllEvents(a))
  {
    CasesShow(a);
    var i, j, t, k := TieSwaps(a.cases, FromCase(a));
    b := SwapCases(a, i, j);
    CasesDiffer(a, b, t, k);
  }

  lemma SwapIntents(a: Database, i: nat, j: nat) returns (b: Database)
    requires SameRows(a, a) && i < j < |a.intents|
    ensures b == a.(intents := Swapped(a.intents, i, j)) && SameRows(a, b) && SameSources(a, b)
  {
    b := a.(intents := Swapped(a.intents, i, j));
    SwappedSameTable(a.intents, IntentId(), i, j);
    SameLookups(a, b);
  }

  lemma IntentsDiffer(a: Database, b: Database, t: int, k: nat)
    requires SameSources(a, b)
    requires b.cases == a.cases
    requires b.attempts == a.attempts
    requires b.reminders == a.reminders
    requires DifferAt(At(Gather(a.intents, FromIntent(a)), t), At(Gather(b.intents, FromIntent(a)), t), k)
    ensures SortNewestFirst(AllEvents(b)) != SortNewestFirst(AllEvents(a))
  {
    EventsInOrder(a, b);
    var before, after: seq<Event> := Gather(a.cases, FromCase(a)), Gather(a.attempts, FromAttempt(a)) + Gather(a.reminders, FromReminder(a));
    var x, y := Gather(a.intents, FromIntent(a)), Gather(b.intents, FromIntent(a));
    Regrouped(Gather(a.cases, FromCase(a)), x, Gather(a.attempts, FromAttempt(a)), Gather(a.reminders, FromReminder(a)));
    Regrouped(Gather(a.cases, FromCase(a)), y, Gather(a.attempts, FromAttempt(a)), Gather(a.reminders, FromReminder(a)));
    assert AllEvents(a) == before + x + after && AllEvents(b) == before + y + after;
    MiddleDiffers(before, x, y, after, t, k);
  }

  lemma IntentTieShows(a: Database) returns (b: Database)
    requires SameRows(a, a) && !NoTies(a.intents, FromIntent(a))
    ensures SameRows(a, b) && SortNewestFirst(AllEvents(b)) != SortNewestFirst(AllEvents(a))
  {
    IntentsShow(a);
    var i, j, t, k := TieSwaps(a.intents, FromIntent(a));
    b := SwapIntents(a, i, j);
    IntentsDiffer(a, b, t, k);
  }

  lemma SwapAttempts(a: Database, i: nat, j: nat) returns (b: Database)
    requires SameRows(a, a) && i < j < |a.attempts|
    ensures b == a.(attempts := Swapped(a.attempts, i, j)) && SameRows(a, b) && SameSources(a, b)
  {
    b := a.(attempts := Swapped(a.attempts, i, j));
    SwappedSameTable(a.attempts, AttemptId(), i, j);
    SameLookups(a, b);
  }

  lemma AttemptsDiffer(a: Database, b: Database, t: int, k: nat)
    requires SameSources(a, b)
    requires b.cases == a.cases
    requires b.intents == a.intents
    requires b.reminders == a.reminders
    requires DifferAt(At(Gather(a.attempts, FromAttempt(a)), t), At(Gather(b.attempts, FromAttempt(a)), t), k)
    ensures SortNewestFirst(AllEvents(b)) != SortNewestFirst(AllEvents(a))
  {
    EventsInOrder(a, b);
    var before, after: seq<Event> := Gather(a.cases, FromCase(a)) + Gather(a.intents, FromIntent(a)), Gather(a.reminders, FromReminder(a));
    var x, y := Gather(a.attempts, FromAttempt(a)), Gather(b.attempts, FromAttempt(a));
    Regrouped(Gather(a.cases, FromCase(a)), Gather(a.intents, FromIntent(a)), x, Gather(a.reminders, FromReminder(a)));
    Regrouped(Gather(a.cases, FromCase(a)), Gather(a.intents, FromIntent(a)), y, Gather(a.reminders, FromReminder(a)));
    assert AllEvents(a) == before + x + after && AllEvents(b) == before + y + after;
    MiddleDiffers(before, x, y, after, t, k);
  }

  lemma AttemptTieShows(a: Database) returns (b: Database)
    requires SameRows(a, a) && !NoTies(a.attempts, FromAttempt(a))
    ensures SameRows(a, b) && SortNewestFirst(AllEvents(b)) != SortNewestFirst(AllEvents(a))
  {
    AttemptsShow(a);
    var i, j, t, k := TieSwaps(a.attempts, FromAttempt(a));
    b := SwapAttempts(a, i, j);
    AttemptsDiffer(a, b, t, k);
  }

  lemma SwapReminders(a: Database, i: nat, j: nat) returns (b: Database)
    requires SameRows(a, a) && i < j < |a.reminders|
    ensures b == a.(reminders := Swapped(a.reminders, i, j)) && SameRows(a, b) && SameSources(a, b)
  {
    b := a.(reminders := Swapped(a.reminders, i, j));
    SwappedSameTable(a.reminders, ReminderId(), i, j);
    SameLookups(a, b);
  }

  lemma RemindersDiffer(a: Database, b: Database, t: int, k: nat)
    requires SameSources(a, b)
    requires b.cases == a.cases
    requires b.intents == a.intents
    requires b.attempts == a.attempts
    requires DifferAt(At(Gather(a.reminders, FromReminder(a)), t), At(Gather(b.reminders, FromReminder(a)), t), k)
    ensures SortNewestFirst(AllEvents(b)) != SortNewestFirst(AllEvents(a))
  {
    EventsInOrder(a, b);
    var before, after: seq<Event> := Gather(a.cases, FromCase(a)) + Gather(a.intents, FromIntent(a)) + Gather(a.attempts, FromAttempt(a)), [];
    var x, y := Gather(a.reminders, FromReminder(a)), Gather(b.reminders, FromReminder(a));
    Regrouped(Gather(a.cases, FromCase(a)), Gather(a.intents, FromIntent(a)), Gather(a.attempts, FromAttempt(a)), x);
    Regrouped(Gather(a.cases, FromCase(a)), Gather(a.intents, FromIntent(a)), Gather(a.attempts, FromAttempt(a)), y);
    assert AllEvents(a) == before + x + after && AllEvents(b) == before + y + after;
    MiddleDiffers(before, x, y, after, t, k);
  }

  lemma ReminderTieShows(a: Database) returns (b: Database)
    requires SameRows(a, a) && !NoTies(a.reminders, FromReminder(a))
    ensures SameRows(a, b) && SortNewestFirst(AllEvents(b)) != SortNewestFirst(AllEvents(a))
  {
    RemindersShow(a);
    var i, j, t, k := TieSwaps(a.reminders, FromReminder(a));
    b := SwapReminders(a, i, j);
    RemindersDiffer(a, b, t, k);
  }

  /** The queries name no order. The feed is nevertheless the same for every order in which the database
      may return its rows exactly when no two rows of one table contribute different events at one
      moment; for cases and payments, whose events name their row, that is no two rows with events at
      one moment at all. */
  lemma FeedIgnoresRowOrderIff(a: Database)
    requires SameRows(a, a)
    ensures (forall b :: SameRows(a, b) ==> SortNewestFirst(AllEvents(b)) == SortNewestFirst(AllEvents(a)))
            <==> FeedHasNoTies(a)
  {
    if FeedHasNoTies(a) {
      forall b | SameRows(a, b)
        ensures SortNewestFirst(AllEvents(b)) == SortNewestFirst(AllEvents(a))
      {
        NoTiesSameFeed(a, b);
      }
    } else {
      var b;
      if !NoTies(a.cases, FromCase(a)) {
        b := CaseTieShows(a);
      } else if !NoTies(a.intents, FromIntent(a)) {
        b := IntentTieShows(a);
      } else if !NoTies(a.attempts, FromAttempt(a)) {
        b := AttemptTieShows(a);
      } else {
        b := ReminderTieShows(a);
      }
    }
  }

  // Two cases created at one moment, in the two orders.

  function TiedCase(id: nat): Case {
    Case(id, "C", None, 5, 5, None, None)
  }

  function TiedCases(first: nat, second: nat): Database {
    Database([TiedCase(first), TiedCase(second)], [], [], [], [], [])
  }

  function TiedEvent(id: nat): Event {
    Event(CaseCreated, Some(id), Some("C"), None, 5, OfCase)
  }

  lemma TiedEvents(first: nat, second: nat)
    ensures AllEvents(TiedCases(first, second)) == [TiedEvent(first), TiedEvent(second)]
  {
    var db := TiedCases(first, second);
    var events := FromCase(db);
    assert events(TiedCase(first)) == [TiedEvent(first)] && events(TiedCase(second)) == [TiedEvent(second)];
    assert db.cases[..1] == [TiedCase(first)] && db.cases[..1][..0] == [];
    assert Gather(db.cases[..1][..0], events) == [];
    assert Gather(db.cases[..1], events) == [] + [TiedEvent(first)];
    assert Gather(db.cases, events) == Gather(db.cases[..1], events) + [TiedEvent(second)];
  }

  lemma TiedFeed(first: nat, second: nat)
    ensures SortNewestFirst(AllEvents(TiedCases(first, second))) == [TiedEvent(first), TiedEvent(second)]
  {
    var x, y := TiedEvent(first), TiedEvent(second);
    TiedEvents(first, second);
    assert [x, y][..1] == [x] && [x][..0] == [];
    assert SortNewestFirst([x]) == InsertAfter(SortNewestFirst([x][..0]), x) == [x];
    assert SortNewestFirst([x, y]) == InsertAfter(SortNewestFirst([x, y][..1]), y) == [x] + [y];
  }

  lemma TiedSameRows()
    ensures SameRows(TiedCases(1, 2), TiedCases(2, 1))
  {
    assert TiedCases(2, 1).cases == Swapped(TiedCases(1, 2).cases, 0, 1);
    SwappedSameTable(TiedCases(1, 2).cases, CaseId(), 0, 1);
  }

  /** The same two rows, page size one: the first pages differ, and a reader whose two requests meet the
      two orders sees one event on both pages and the other on none. */
  lemma PagesCanDiffer()
    ensures var a, b := TiedCases(1, 2), TiedCases(2, 1);
            var f, g := SortNewestFirst(AllEvents(a)), SortNewestFirst(AllEvents(b));
            && SameRows(a, b)
            && Page(f, 0, 1) == [TiedEvent(1)] && Page(g, 0, 1) == [TiedEvent(2)]
            && Page(f, 0, 1) + Page(g, 1, 1) == [TiedEvent(1), TiedEvent(1)]
            && TiedEvent(2) in AllEvents(a) && TiedEvent(2) != TiedEvent(1)
  {
    TiedFeed(1, 2);
    TiedFeed(2, 1);
    TiedEvents(1, 2);
    TiedSameRows();
  }

  // ---------------------------------------------------------------------
  // Pages
  // ---------------------------------------------------------------------

  function Min(a: nat, b: nat): nat {
    if a <= b then a else b
  }

  /** `s[page * size : page * size + size]` */
  function Page<T>(s: seq<T>, page: nat, size: nat): seq<T> {
    s[Min(page * size, |s|)..Min(page * size + size, |s|)]
  }

  function Pages<T>(s: seq<T>, size: nat, n: nat): seq<T> {
    if n == 0 then [] else Pages(s, size, n - 1) + Page(s, n - 1, size)
  }

  /** Read one after the other, the pages give the feed from its start, without gap or repetition. */
  lemma {:induction false} PagesAreAPrefix<T>(s: seq<T>, size: nat, n: nat)
    ensures Pages(s, size, n) == s[..Min(n * size, |s|)]
  {
    if n != 0 {
      PagesAreAPrefix(s, size, n - 1);
      assert n * size == (n - 1) * size + size;
    }
  }

  lemma MulMono(a: nat, b: nat, size: nat)
    requires a < b
    ensures a * size + size <= b * size
  {
    assert b * size == a * size + (b - a) * size;
    assert (b - a) * size == size + (b - a - 1) * size;
  }

  lemma QuotientUnique(k: nat, size: nat, page: nat)
    requires size > 0 && page * size <= k < page * size + size
    ensures page == k / size
  {
    var q := k / size;
    assert q * size <= k < q * size + size;
    if page < q {
      MulMono(page, q, size);
    } else if q < page {
      MulMono(q, page, size);
    }
  }

  /** Enough pages give every event exactly once. */
  lemma PagesCover<T>(s: seq<T>, size: nat, n: nat)
    requires n * size >= |s|
    ensures Pages(s, size, n) == s
  {
    PagesAreAPrefix(s, size, n);
  }

  /** An event is found on one page only, at a place given by its rank. */
  lemma PageOfRank<T>(s: seq<T>, size: nat, k: nat, page: nat)
    requires size > 0 && k < |s|
    ensures page * size <= k < page * size + size <==> page == k / size
    ensures k % size < |Page(s, k / size, size)| && Page(s, k / size, size)[k % size] == s[k]
  {
    var q := k / size;
    assert k == q * size + k % size;
    if page * size <= k < page * size + size {
      QuotientUnique(k, size, page);
    }
  }

  // ---------------------------------------------------------------------
  // The endpoints, with their dictionaries
  // ---------------------------------------------------------------------

  /** `{row.id: row for row in rows if row.id in ids}` */
  method LoadById<T>(rows: seq<T>, idOf: T -> nat, ids: set<nat>) returns (found: map<nat, T>)
    ensures forall id :: Get(found, id) == if id in ids then Find(rows, idOf, id) else None
  {
    found := map[];
    for i := 0 to |rows|
      invariant forall id :: Get(found, id) == if id in ids then Find(rows[..i], idOf, id) else None
    {
      assert rows[..i + 1][..i] == rows[..i];
      if idOf(rows[i]) in ids {
        found := found[idOf(rows[i]) := rows[i]];
      }
    }
    assert rows[..|rows|] == rows;
  }

  function Get<T>(m: map<nat, T>, id: nat): Option<T> {
    if id in m then Some(m[id]) else None
  }

  /** A dictionary that holds every row asked for later. */
  ghost predicate Serves<T>(m: map<nat, T>, rows: seq<T>, idOf: T -> nat, id: nat) {
    Get(m, id) == Find(rows, idOf, id)
  }

  method EmailForCase(clients: map<nat, User>, c: Option<Case>, ghost db: Database) returns (email: Option<string>)
    requires c.Some? && c.value.clientId.Some? ==> Serves(clients, db.users, UserId(), c.value.clientId.value)
    ensures email == EmailOf(db, c)
  {
    if c.None? || c.value.clientId.None? {
      return None;
    }
    var u := Get(clients, c.value.clientId.value);
    return if u.Some? then Some(u.value.email) else None;
  }

  method CaseForDraft(cases: map<nat, Case>, drafts: map<nat, Draft>, draftId: nat, ghost db: Database) returns (c: Option<Case>)
    requires forall id :: Serves(cases, db.cases, CaseId(), id)
    requires Serves(drafts, db.drafts, DraftId(), draftId)
    ensures c == CaseOf(db, DraftOf(db, draftId))
  {
    var draft := Get(drafts, draftId);
    if draft.None? || draft.value.promotedCaseId.None? {
      return None;
    }
    assert Serves(cases, db.cases, CaseId(), draft.value.promotedCaseId.value);
    return Get(cases, draft.value.promotedCaseId.value);
  }

  function AllCaseIds(cases: seq<Case>): set<nat> {
    set c | c in cases :: c.id
  }

  function ClientIds(cases: seq<Case>): set<nat> {
    set c | c in cases && c.clientId.Some? :: c.clientId.value
  }

  method EventsOfCases(db: Database, clients: map<nat, User>) returns (events: seq<Event>)
    requires forall id :: id in ClientIds(db.cases) ==> Serves(clients, db.users, UserId(), id)
    ensures events == Gather(db.cases, FromCase(db))
  {
    events := [];
    for i := 0 to |db.cases|
      invariant events == Gather(db.cases[..i], FromCase(db))
    {
      var c := db.cases[i];
      var email := EmailForCase(clients, Some(c), db);
      var added := [Event(CaseCreated, Some(c.id), Some(c.caseNumber), email, c.createdAt, OfCase)];
      if c.nftMintTx.Some? {
        added := added + [Event(NftMinted, Some(c.id), Some(c.caseNumber), email, c.updatedAt, OfCase)];
      }
      if c.lastRenewedAt.Some? {
        added := added + [Event(RenewalCompleted, Some(c.id), Some(c.caseNumber), email, c.lastRenewedAt.value, OfCase)];
      }
      assert added == CaseEvents(c, email);
      events := events + added;
      assert db.cases[..i + 1][..i] == db.cases[..i];
    }
    assert db.cases[..|db.cases|] == db.cases;
  }

  function Select<T>(rows: seq<T>, p: T -> bool): (s: seq<T>)
    ensures forall r :: r in s ==> r in rows && p(r)
  {
    if rows == [] then []
    else if p(rows[|rows| - 1]) then Select(rows[..|rows| - 1], p) + [rows[|rows| - 1]]
    else Select(rows[..|rows| - 1], p)
  }

  lemma {:induction false} GatherSelected<T>(rows: seq<T>, p: T -> bool, events: T -> seq<Event>)
    requires forall r :: r in rows && !p(r) ==> events(r) == []
    ensures Gather(Select(rows, p), events) == Gather(rows, events)
  {
    if rows != [] {
      var front, last := rows[..|rows| - 1], rows[|rows| - 1];
      GatherSelected(front, p, events);
      if p(last) {
        assert (Select(front, p) + [last])[..|Select(front, p)|] == Select(front, p);
      } else {
        assert last in rows;
      }
    }
  }

  method EventsOfIntents(db: Database, paid: seq<Intent>, cases: map<nat, Case>, drafts: map<nat, Draft>, clients: map<nat, User>)
    returns (events: seq<Event>)
    requires forall id :: Serves(cases, db.cases, CaseId(), id)
    requires forall i :: i in paid ==> Paid(i) && Serves(drafts, db.drafts, DraftId(), i.draftId)
    requires forall id :: id in ClientIds(db.cases) ==> Serves(clients, db.users, UserId(), id)
    ensures events == Gather(paid, FromIntent(db))
  {
    events := [];
    for k := 0 to |paid|
      invariant events == Gather(paid[..k], FromIntent(db))
    {
      var i := paid[k];
      assert i in paid;
      var c := CaseForDraft(cases, drafts, i.draftId, db);
      var email := EmailForCase(clients, c, db);
      var at := if i.confirmedAt.Some? then i.confirmedAt.value else i.createdAt;
      var kind := if i.status == Confirmed then PaymentConfirmed else PaymentRefunded;
      events := events + [Event(kind, IdOf(c), NumberOf(c), email, at, OfPayment(i.id))];
      assert paid[..k + 1][..k] == paid[..k];
    }
    assert paid[..|paid|] == paid;
  }

  method EventsOfAttempts(db: Database, cases: map<nat, Case>, drafts: map<nat, Draft>, clients: map<nat, User>) returns (events: seq<Event>)
    requires forall id :: Serves(cases, db.cases, CaseId(), id)
    requires forall a :: a in db.attempts ==> Serves(drafts, db.drafts, DraftId(), a.draftId)
    requires forall id :: id in ClientIds(db.cases) ==> Serves(clients, db.users, UserId(), id)
    ensures events == Gather(db.attempts, FromAttempt(db))
  {
    events := [];
    for k := 0 to |db.attempts|
      invariant events == Gather(db.attempts[..k], FromAttempt(db))
    {
      var a := db.attempts[k];
      assert a in db.attempts;
      assert db.attempts[..k + 1][..k] == db.attempts[..k];
      var c := CaseForDraft(cases, drafts, a.draftId, db);
      var email := EmailForCase(clients, c, db);
      var at := OrElse(a.completedAt, OrElse(a.submittedAt, a.createdAt));
      var kind;
      if Successful(a) {
        kind := FilingSubmitted;
      } else if Unsuccessful(a) {
        kind := FilingFailed;
      } else {
        continue;
      }
      events := events + [Event(kind, IdOf(c), NumberOf(c), email, at, OfFiling(a.platform, a.externalReference, a.number, a.errorMessage))];
    }
    assert db.attempts[..|db.attempts|] == db.attempts;
  }

  method EventsOfReminders(db: Database, cases: map<nat, Case>, clients: map<nat, User>) returns (events: seq<Event>)
    requires forall id :: Serves(cases, db.cases, CaseId(), id)
    requires forall id :: id in ClientIds(db.cases) ==> Serves(clients, db.users, UserId(), id)
    ensures events == Gather(db.reminders, FromReminder(db))
  {
    events := [];
    for k := 0 to |db.reminders|
      invariant events == Gather(db.reminders[..k], FromReminder(db))
    {
      var r := db.reminders[k];
      assert Serves(cases, db.cases, CaseId(), r.caseId);
      var c := Get(cases, r.caseId);
      var email := EmailForCase(clients, c, db);
      events := events + [Event(ReminderSent, Some(r.caseId), NumberOf(c), email, r.sentAt, OfReminder(r.windowDays, r.targetDueAt))];
      assert db.reminders[..k + 1][..k] == db.reminders[..k];
    }
    assert db.reminders[..|db.reminders|] == db.reminders;
  }

  /** The drafts of the paid intents, and then those of the attempts that are not among them. */
  method LoadDrafts(db: Database, paid: seq<Intent>) returns (drafts: map<nat, Draft>)
    ensures forall i :: i in paid ==> Serves(drafts, db.drafts, DraftId(), i.draftId)
    ensures forall a :: a in db.attempts ==> Serves(drafts, db.drafts, DraftId(), a.draftId)
  {
    drafts := LoadById(db.drafts, DraftId(), set i | i in paid :: i.draftId);
    var attemptDraftIds := (set a | a in db.attempts :: a.draftId) - drafts.Keys;
    if attemptDraftIds != {} {
      var extra := LoadById(db.drafts, DraftId(), attemptDraftIds);
      ghost var first := drafts;
      drafts := drafts + extra;
      forall id | id in first
        ensures Get(drafts, id) == Get(first, id)
      {
        assert Get(extra, id) == None;
      }
      forall a | a in db.attempts
        ensures Serves(drafts, db.drafts, DraftId(), a.draftId)
      {
        if a.draftId in first {
          assert Get(drafts, a.draftId) == Get(first, a.draftId);
        } else {
          assert a.draftId in attemptDraftIds;
          assert Get(drafts, a.draftId) == Get(extra, a.draftId);
        }
      }
    } else {
      forall a | a in db.attempts
        ensures a.draftId in drafts && Serves(drafts, db.drafts, DraftId(), a.draftId)
      {
        assert a.draftId !in attemptDraftIds;
        assert Get(drafts, a.draftId).Some?;
      }
    }
  }

  /** One page of the feed: however the rows are joined, it is that page of all the events with every
      join looked up directly, newest first. */
  method AnalyticsTimeline(db: Database, page: nat, pageSize: nat) returns (events: seq<Event>, total: nat)
    ensures events == Page(SortNewestFirst(AllEvents(db)), page, pageSize)
    ensures total == |AllEvents(db)|
  {
    var cases := LoadById(db.cases, CaseId(), AllCaseIds(db.cases));
    forall id
      ensures Serves(cases, db.cases, CaseId(), id)
    {
    }
    var clients := LoadById(db.users, UserId(), ClientIds(db.cases));
    var all := EventsOfCases(db, clients);
    var paid := Select(db.intents, (i: Intent) => Paid(i));
    var drafts := LoadDrafts(db, paid);
    var ofIntents := EventsOfIntents(db, paid, cases, drafts, clients);
    GatherSelected(db.intents, (i: Intent) => Paid(i), FromIntent(db));
    var ofAttempts := EventsOfAttempts(db, cases, drafts, clients);
    var ofReminders := EventsOfReminders(db, cases, clients);
    all := all + ofIntents + ofAttempts + ofReminders;
    total := |all|;
    all := SortNewestFirst(all);
    var start := page * pageSize;
    events := all[Min(start, |all|)..Min(start + pageSize, |all|)];
  }

  datatype PaymentRow = PaymentRow(
    intentId: nat, draftId: nat, userId: Option<nat>, userEmail: Option<string>, userFullName: Option<string>,
    caseId: Option<nat>, caseNumber: Option<string>)

  function RowFor(i: Intent, u: Option<User>, c: Option<Case>): PaymentRow {
    PaymentRow(i.id, i.draftId, if u.Some? then Some(u.value.id) else None, if u.Some? then Some(u.value.email) else None,
               if u.Some? then Some(u.value.fullName) else None, IdOf(c), NumberOf(c))
  }

  function OwnerOf(db: Database, d: Option<Draft>): Option<User> {
    if d.None? then None else UserOf(db, d.value.userId)
  }

  /** A row of the payments page, as a relation: the owner's three fields are those of the user its draft
      names, the case's two those of the case its draft became, and they are empty where there is none. */
  ghost predicate RowShows(db: Database, i: Intent, row: PaymentRow) {
    && row.intentId == i.id && row.draftId == i.draftId
    && (|| (exists d, u :: d in db.drafts && u in db.users && d.id == i.draftId && d.userId == Some(u.id)
                && row.userId == Some(u.id) && row.userEmail == Some(u.email) && row.userFullName == Some(u.fullName))
        || (&& (forall d, u :: d in db.drafts && u in db.users && d.id == i.draftId ==> d.userId != Some(u.id))
            && row.userId == None && row.userEmail == None && row.userFullName == None))
    && exists c :: Became(db, i.draftId, c)
         && (if c.Some? then row.caseId == Some(c.value.id) && row.caseNumber == Some(c.value.caseNumber)
             else row.caseId == None && row.caseNumber == None)
  }

  lemma RowShowsIff(db: Database, i: Intent, row: PaymentRow)
    requires Keyed(db)
    ensures var d := DraftOf(db, i.draftId); RowShows(db, i, row) <==> row == RowFor(i, OwnerOf(db, d), CaseOf(db, d))
  {
    var d := DraftOf(db, i.draftId);
    forall x | x in db.drafts && x.id == i.draftId
      ensures d == Some(x)
    {
      FindComplete(db.drafts, DraftId(), x);
    }
    forall u | u in db.users
      ensures Find(db.users, UserId(), u.id) == Some(u)
    {
      FindComplete(db.users, UserId(), u);
    }
    forall c
      ensures Became(db, i.draftId, c) <==> c == CaseOf(db, d)
    {
      BecameIffJoined(db, i.draftId, c);
    }
  }

  /** The rows of a page of payments are what looking up each payment's draft, owner and case one by one
      would give. */
  method ListPayments(db: Database, intents: seq<Intent>) returns (items: seq<PaymentRow>)
    ensures |items| == |intents|
    ensures forall k :: 0 <= k < |intents| ==>
              var d := DraftOf(db, intents[k].draftId); items[k] == RowFor(intents[k], OwnerOf(db, d), CaseOf(db, d))
    ensures Keyed(db) ==> forall k :: 0 <= k < |intents| ==> RowShows(db, intents[k], items[k])
  {
    var drafts := LoadById(db.drafts, DraftId(), set i | i in intents :: i.draftId);
    var users := LoadById(db.users, UserId(), set id | id in drafts && drafts[id].userId.Some? :: drafts[id].userId.value);
    var cases := LoadById(db.cases, CaseId(), set id | id in drafts && drafts[id].promotedCaseId.Some? :: drafts[id].promotedCaseId.value);
    items := [];
    for k := 0 to |intents|
      invariant |items| == k
      invariant forall j :: 0 <= j < k ==>
                  var d := DraftOf(db, intents[j].draftId); items[j] == RowFor(intents[j], OwnerOf(db, d), CaseOf(db, d))
    {
      var i := intents[k];
      assert i in intents;
      var draft := Get(drafts, i.draftId);
      assert draft == DraftOf(db, i.draftId);
      var user := if draft.Some? && draft.value.userId.Some? then Get(users, draft.value.userId.value) else None;
      var ownCase := if draft.Some? && draft.value.promotedCaseId.Some? then Get(cases, draft.value.promotedCaseId.value) else None;
      assert draft.Some? ==> i.draftId in drafts && drafts[i.draftId] == draft.value;
      items := items + [RowFor(i, user, ownCase)];
    }
    if Keyed(db) {
      forall k | 0 <= k < |intents|
        ensures RowShows(db, intents[k], items[k])
      {
        RowShowsIff(db, intents[k], items[k]);
      }
    }
  }
}
