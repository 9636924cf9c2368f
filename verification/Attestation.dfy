/** The attestation program: one account per case holding the current hash, and a public log of every
    change to it. */
module Attestation {
  import opened Wrappers
  import opened Bytes
  import opened Crypto

  datatype CaseAttestation = CaseAttestation(
    caseId: Bytes16, metadataHash: Bytes32, creator: Pubkey, clientWallet: Pubkey, operator: Pubkey, createdAt: int)

  datatype Event = Event(
    caseId: Bytes16, oldHash: Bytes32, newHash: Bytes32, eventType: Byte, actor: Pubkey, operator: Pubkey, timestamp: int)

  datatype AttestationError = MissingSigner | AccountInUse | NotInitialized | WrongAddress

  type Ledger = map<Pubkey, CaseAttestation>

  /** The ASCII bytes of "case". */
  const CASE_SEED: Blob := [99, 97, 115, 101]

  function CaseKey(address: Blob -> Pubkey, caseId: Bytes16): Pubkey {
    address(CASE_SEED + caseId)
  }

  // ---------------------------------------------------------------------
  // The program
  // ---------------------------------------------------------------------

  datatype State = State(ledger: Ledger, log: seq<Event>, clock: int)

  datatype Step =
    | Tick(elapsed: nat)
    | Create(operator: Pubkey, creator: Pubkey, signers: set<Pubkey>, caseId: Bytes16, hash: Bytes32, clientWallet: Pubkey)
    | Update(operator: Pubkey, actor: Pubkey, signers: set<Pubkey>, key: Pubkey, hash: Bytes32, eventType: Byte)

  predicate Signed(step: Step) {
    match step
    case Tick(_) => true
    case Create(operator, creator, signers, _, _, _) => operator in signers && creator in signers
    case Update(operator, actor, signers, _, _, _) => operator in signers && actor in signers
  }

  predicate Succeeds(address: Blob -> Pubkey, s: State, step: Step) {
    && Signed(step)
    && (step.Create? ==> CaseKey(address, step.caseId) !in s.ledger)
    && (step.Update? ==> step.key in s.ledger && step.key == CaseKey(address, s.ledger[step.key].caseId))
  }

  function Created(step: Step, now: int): CaseAttestation
    requires step.Create?
  {
    CaseAttestation(step.caseId, step.hash, step.creator, step.clientWallet, step.operator, now)
  }

  function Emitted(a: CaseAttestation, step: Step, now: int): Event
    requires step.Update?
  {
    Event(a.caseId, a.metadataHash, step.hash, step.eventType, step.actor, step.operator, now)
  }

  function Next(address: Blob -> Pubkey, s: State, step: Step): State {
    if !Succeeds(address, s, step) then s
    else
      match step
      case Tick(elapsed) => s.(clock := s.clock + elapsed)
      case Create(_, _, _, caseId, _, _) => s.(ledger := s.ledger[CaseKey(address, caseId) := Created(step, s.clock)])
      case Update(_, _, _, key, hash, _) =>
        s.(ledger := s.ledger[key := s.ledger[key].(metadataHash := hash)], log := s.log + [Emitted(s.ledger[key], step, s.clock)])
  }

  class Program {
    const address: Blob -> Pubkey
    var ledger: Ledger
    var log: seq<Event>
    var clock: int

    constructor (address: Blob -> Pubkey, clock: int)
      ensures this.address == address && AsState() == State(map[], [], clock)
    {
      this.address, ledger, log, this.clock := address, map[], [], clock;
    }

    function AsState(): State
      reads this
    {
      State(ledger, log, clock)
    }

    method CreateCaseAttestation(operator: Pubkey, creator: Pubkey, signers: set<Pubkey>, caseId: Bytes16, hash: Bytes32, clientWallet: Pubkey)
      returns (r: Result<(), AttestationError>)
      modifies this
      ensures var step := Create(operator, creator, signers, caseId, hash, clientWallet);
              && (r.Ok? <==> Succeeds(address, old(AsState()), step))
              && AsState() == Next(address, old(AsState()), step)
      ensures r == Err(AccountInUse) <==> operator in signers && creator in signers && CaseKey(address, caseId) in old(ledger)
    {
      if operator !in signers || creator !in signers {
        return Err(MissingSigner);
      }
      var key := address(CASE_SEED + caseId);
      if key in ledger {
        return Err(AccountInUse);
      }
      ledger := ledger[key := CaseAttestation(caseId, hash, creator, clientWallet, operator, clock)];
      return Ok(());
    }

    method UpdateCaseAttestation(operator: Pubkey, actor: Pubkey, signers: set<Pubkey>, key: Pubkey, hash: Bytes32, eventType: Byte)
      returns (r: Result<(), AttestationError>)
      modifies this
      ensures var step := Update(operator, actor, signers, key, hash, eventType);
              && (r.Ok? <==> Succeeds(address, old(AsState()), step))
              && AsState() == Next(address, old(AsState()), step)
      ensures r == Err(NotInitialized) <==> operator in signers && actor in signers && key !in old(ledger)
    {
      if operator !in signers || actor !in signers {
        return Err(MissingSigner);
      }
      if key !in ledger {
        return Err(NotInitialized);
      }
      var a := ledger[key];
      if key != address(CASE_SEED + a.caseId) {
        return Err(WrongAddress);
      }
      var oldHash := a.metadataHash;
      ledger := ledger[key := a.(metadataHash := hash)];
      log := log + [Event(a.caseId, oldHash, hash, eventType, actor, operator, clock)];
      return Ok(());
    }
  }

  // ---------------------------------------------------------------------
  // Runs
  // ---------------------------------------------------------------------

  function Run(address: Blob -> Pubkey, s: State, steps: seq<Step>): State
    decreases |steps|
  {
    if steps == [] then s else Next(address, Run(address, s, steps[..|steps| - 1]), steps[|steps| - 1])
  }

  /** A properly signed creation aimed at an address, whether or not it goes through. */
  predicate CreatesAt(address: Blob -> Pubkey, step: Step, key: Pubkey) {
    step.Create? && Signed(step) && CaseKey(address, step.caseId) == key
  }

  /** The entries of the log about one case. */
  function EventsOf(log: seq<Event>, caseId: Bytes16): seq<Event> {
    if log == [] then []
    else
      var front := EventsOf(log[..|log| - 1], caseId);
      if log[|log| - 1].caseId == caseId then front + [log[|log| - 1]] else front
  }

  /** Follow the log from a hash: every entry must start where the last one ended. */
  function Replay(start: Bytes32, events: seq<Event>): Option<Bytes32> {
    if events == [] then Some(start)
    else
      match Replay(start, events[..|events| - 1])
      case None => None
      case Some(h) => if events[|events| - 1].oldHash == h then Some(events[|events| - 1].newHash) else None
  }

  /** A replay that goes through is a chain from the starting hash to the final one. */
  lemma {:induction false} ReplayIsChain(start: Bytes32, events: seq<Event>, i: nat)
    requires i < |events| && Replay(start, events).Some?
    ensures events[i].oldHash == if i == 0 then start else events[i - 1].newHash
    ensures Replay(start, events) == Some(events[|events| - 1].newHash)
    decreases |events|
  {
    var n := |events| - 1;
    if i < n {
      ReplayIsChain(start, events[..n], i);
    } else if n > 0 {
      ReplayIsChain(start, events[..n], n - 1);
    }
  }

  /** An account is where its own case id says, and exists exactly when someone has signed to create
      it. */
  lemma {:induction false} ExistsIffCreated(address: Blob -> Pubkey, s: State, steps: seq<Step>, key: Pubkey)
    requires s.ledger == map[]
    ensures key in Run(address, s, steps).ledger <==> exists i :: 0 <= i < |steps| && CreatesAt(address, steps[i], key)
    ensures key in Run(address, s, steps).ledger ==> CaseKey(address, Run(address, s, steps).ledger[key].caseId) == key
    decreases |steps|
  {
    if steps != [] {
      var n := |steps| - 1;
      ExistsIffCreated(address, s, steps[..n], key);
      if CreatesAt(address, steps[n], key) {
      } else if i :| 0 <= i < |steps| && CreatesAt(address, steps[i], key) {
        assert steps[..n][i] == steps[i];
      }
      if i :| 0 <= i < n && CreatesAt(address, steps[..n][i], key) {
        assert CreatesAt(address, steps[i], key);
      }
    }
  }

  /** The first signed creation at an address. */
  ghost predicate FirstCreation(address: Blob -> Pubkey, steps: seq<Step>, key: Pubkey, i: nat) {
    && i < |steps| && CreatesAt(address, steps[i], key)
    && forall j :: 0 <= j < i ==> !CreatesAt(address, steps[j], key)
  }

  ghost predicate Accounted(address: Blob -> Pubkey, s: State, steps: seq<Step>, key: Pubkey, i: nat)
    requires FirstCreation(address, steps, key, i) && key in Run(address, s, steps).ledger
  {
    var t := Run(address, s, steps);
    var a := t.ledger[key];
    && a.caseId == steps[i].caseId && a.creator == steps[i].creator && a.clientWallet == steps[i].clientWallet
    && a.operator == steps[i].operator && a.createdAt == Run(address, s, steps[..i]).clock
    && {a.operator, a.creator} <= steps[i].signers
    && Replay(steps[i].hash, EventsOf(t.log, a.caseId)) == Some(a.metadataHash)
  }

  /** The account is the one made by the first signed creation, in every field but the hash; and the
      hash is what replaying the case's log from the creation hash gives. */
  lemma {:induction false} LogReplays(address: Blob -> Pubkey, s: State, steps: seq<Step>, key: Pubkey) returns (i: nat)
    requires s.ledger == map[] && s.log == []
    requires key in Run(address, s, steps).ledger
    ensures FirstCreation(address, steps, key, i)
    ensures Accounted(address, s, steps, key, i)
    decreases |steps|
  {
    var n := |steps| - 1;
    var before, after := Run(address, s, steps[..n]), Run(address, s, steps);
    ExistsIffCreated(address, s, steps[..n], key);
    if key in before.ledger {
      i := LogReplays(address, s, steps[..n], key);
      assert steps[..n][..i] == steps[..i];
      forall j | 0 <= j < i
        ensures !CreatesAt(address, steps[j], key)
      {
        assert !CreatesAt(address, steps[..n][j], key);
      }
      if after.log != before.log {
        var e := after.log[|before.log|];
        assert after.log == before.log + [e];
        EventsOfSnoc(before.log, e, before.ledger[key].caseId);
        if steps[n].key == key {
          ReplaySnoc(steps[i].hash, EventsOf(before.log, e.caseId), e);
        } else {
          ExistsIffCreated(address, s, steps[..n], steps[n].key);
        }
      }
    } else {
      i := n;
      forall j | 0 <= j < n
        ensures !CreatesAt(address, steps[j], key)
      {
        assert steps[..n][j] == steps[j];
      }
      NoEventsYet(address, s, steps[..n], steps[n].caseId);
    }
  }

  lemma EventsOfSnoc(log: seq<Event>, e: Event, caseId: Bytes16)
    ensures EventsOf(log + [e], caseId) == if e.caseId == caseId then EventsOf(log, caseId) + [e] else EventsOf(log, caseId)
  {
    assert (log + [e])[..|log|] == log;
  }

  lemma ReplaySnoc(start: Bytes32, events: seq<Event>, e: Event)
    requires Replay(start, events) == Some(e.oldHash)
    ensures Replay(start, events + [e]) == Some(e.newHash)
  {
    assert (events + [e])[..|events|] == events;
  }

  /** A case without an account has no entries. */
  lemma {:induction false} NoEventsYet(address: Blob -> Pubkey, s: State, steps: seq<Step>, caseId: Bytes16)
    requires s.ledger == map[] && s.log == []
    requires CaseKey(address, caseId) !in Run(address, s, steps).ledger
    ensures EventsOf(Run(address, s, steps).log, caseId) == []
    decreases |steps|
  {
    if steps != [] {
      var n := |steps| - 1;
      var before, after := Run(address, s, steps[..n]), Run(address, s, steps);
      NoEventsYet(address, s, steps[..n], caseId);
      if after.log != before.log {
        assert after.log == before.log + [after.log[|before.log|]];
        EventsOfSnoc(before.log, after.log[|before.log|], caseId);
      }
    }
  }

  /** A case id is created at most once in a run. */
  lemma CreatedOnce(address: Blob -> Pubkey, s: State, steps: seq<Step>, i: nat, j: nat)
    requires i < |steps| && j < |steps| && steps[i].Create? && steps[j].Create? && steps[i].caseId == steps[j].caseId
    requires Succeeds(address, Run(address, s, steps[..i]), steps[i]) && Succeeds(address, Run(address, s, steps[..j]), steps[j])
    ensures i == j
  {
    if i < j {
      StaysCreated(address, s, steps, i, j);
    } else if j < i {
      StaysCreated(address, s, steps, j, i);
    }
  }

  lemma {:induction false} StaysCreated(address: Blob -> Pubkey, s: State, steps: seq<Step>, i: nat, j: nat)
    requires i < j <= |steps| && steps[i].Create? && Succeeds(address, Run(address, s, steps[..i]), steps[i])
    ensures CaseKey(address, steps[i].caseId) in Run(address, s, steps[..j]).ledger
    decreases j
  {
    assert steps[..j][..j - 1] == steps[..j - 1];
    if i < j - 1 {
      StaysCreated(address, s, steps, i, j - 1);
    }
  }

  /** Every entry of the log comes from an update that its actor and the operator both signed. */
  lemma {:induction false} EventsAreSigned(address: Blob -> Pubkey, s: State, steps: seq<Step>, k: nat) returns (i: nat)
    requires s.log == [] && k < |Run(address, s, steps).log|
    ensures i < |steps| && steps[i].Update?
    ensures var e := Run(address, s, steps).log[k];
            && e.actor == steps[i].actor && e.operator == steps[i].operator && {e.actor, e.operator} <= steps[i].signers
            && e.newHash == steps[i].hash && e.eventType == steps[i].eventType && CaseKey(address, e.caseId) == steps[i].key
            && e.timestamp == Run(address, s, steps[..i]).clock
    decreases |steps|
  {
    var n := |steps| - 1;
    if k < |Run(address, s, steps[..n]).log| {
      i := EventsAreSigned(address, s, steps[..n], k);
      assert steps[..n][..i] == steps[..i];
    } else {
      i := n;
    }
  }

  /** A case is created exactly when operator and creator sign and its address is free; then the account
      says what the instruction said, and nothing else changes. */
  lemma CreateOutcome(address: Blob -> Pubkey, s: State, operator: Pubkey, creator: Pubkey, signers: set<Pubkey>, caseId: Bytes16,
                      hash: Bytes32, client: Pubkey)
    ensures var step := Create(operator, creator, signers, caseId, hash, client);
            var key := address([99, 97, 115, 101] + caseId);
            Next(address, s, step) ==
            if operator in signers && creator in signers && key !in s.ledger then
              s.(ledger := s.ledger[key := CaseAttestation(caseId, hash, creator, client, operator, s.clock)])
            else s
  {
  }

  /** A hash is replaced exactly when operator and actor sign and the account is where its case id says;
      then one entry tells both hashes, both signers, the kind and the time. */
  lemma UpdateOutcome(address: Blob -> Pubkey, s: State, operator: Pubkey, actor: Pubkey, signers: set<Pubkey>, key: Pubkey,
                      hash: Bytes32, kind: Byte)
    ensures var step := Update(operator, actor, signers, key, hash, kind);
            Next(address, s, step) ==
            if operator in signers && actor in signers && key in s.ledger && key == address([99, 97, 115, 101] + s.ledger[key].caseId) then
              var a := s.ledger[key];
              State(s.ledger[key := CaseAttestation(a.caseId, hash, a.creator, a.clientWallet, a.operator, a.createdAt)],
                    s.log + [Event(a.caseId, a.metadataHash, hash, kind, actor, operator, s.clock)], s.clock)
            else s
  {
  }
}
