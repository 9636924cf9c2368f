/** A paid question. The payment's memo binds the question's hash and the commitment; the service
    checks the memo, has the compliance proof recorded on chain, asks the model and keeps the answer. */
module X402 {
  import opened Wrappers
  import opened Base58
  import opened Bytes
  import opened Crypto
  import opened Hex
  import opened FieldHalves
  import opened ProofConversion
  import opened ClaimProof
  import opened VkLayout
  import Seeds
  import V = Verifier

  const DOMAIN_SEPARATOR := "etornie-compliance-v1"

  // ---------------------------------------------------------------------
  // The memo
  // ---------------------------------------------------------------------

  function Memo(c: Primitives, queryHash: Bytes32, commitment: Bytes32): string {
    ToBase58(c.sha256(queryHash + commitment))
  }

  method Sha256Concat(c: Primitives, a: Blob, b: Blob) returns (digest: Bytes32)
    ensures digest == c.sha256(a + b)
  {
    var joined := new Byte[|a| + |b|](_ => 0);
    Set(joined, a, 0);
    Set(joined, b, |a|);
    assert joined[..|a|] == a && joined[|a|..] == b && joined[..] == joined[..|a|] + joined[|a|..];
    return c.sha256(joined[..]);
  }

  /** One memo stands for one hash and one commitment, or here is a collision. */
  lemma MemoBinds(c: Primitives, hash: Bytes32, commitment: Bytes32, hash': Bytes32, commitment': Bytes32)
    requires Memo(c, hash, commitment) == Memo(c, hash', commitment')
    ensures (hash, commitment) == (hash', commitment') || Collision(c.sha256, hash + commitment, hash' + commitment')
  {
    Base58Injective(c.sha256(hash + commitment), c.sha256(hash' + commitment'));
    assert (hash + commitment)[..32] == hash && (hash' + commitment')[..32] == hash';
    assert (hash + commitment)[32..] == commitment && (hash' + commitment')[32..] == commitment';
  }

  // ---------------------------------------------------------------------
  // The request
  // ---------------------------------------------------------------------

  /** What the service gets out of a base64 field; `None` when it is not base64. */
  type Field = Option<Blob>

  datatype ChatRequest = ChatRequest(
    question: string, payerWallet: Option<Pubkey>, paymentTx: string,
    proofA: Field, proofB: Field, proofC: Field, publicInputs: seq<Field>, queryHash: Field)

  predicate Sized(f: Field, n: nat) {
    f.Some? && |f.value| == n
  }

  /** Everything the service checks before it looks at the payment. */
  predicate WellFormed(c: Primitives, r: ChatRequest) {
    && Sized(r.proofA, 64) && Sized(r.proofB, 128) && Sized(r.proofC, 64)
    && |r.publicInputs| == 3 && (forall i :: 0 <= i < 3 ==> Sized(r.publicInputs[i], 32))
    && Sized(r.queryHash, 32) && r.queryHash.value == c.sha256(c.utf8(r.question))
    && (r.publicInputs[0].value, r.publicInputs[1].value) == Halves(r.queryHash.value)
    && r.payerWallet.Some?
  }

  datatype Statement = Statement(payer: Pubkey, queryHash: Bytes32, proof: V.Proof, inputs: V.ThreeInputs)

  function StatementOf(c: Primitives, r: ChatRequest): (s: Statement)
    requires WellFormed(c, r)
    ensures s.payer == r.payerWallet.value && s.queryHash == c.sha256(c.utf8(r.question))
    ensures s.inputs[2] == r.publicInputs[2].value
  {
    Statement(r.payerWallet.value, r.queryHash.value, V.Proof.Proof(r.proofA.value, r.proofB.value, r.proofC.value),
              [r.publicInputs[0].value, r.publicInputs[1].value, r.publicInputs[2].value])
  }

  function ExpectedMemo(c: Primitives, r: ChatRequest): string
    requires WellFormed(c, r)
  {
    Memo(c, StatementOf(c, r).queryHash, StatementOf(c, r).inputs[2])
  }

  datatype ChatError =
    | BadField | WrongInputCount | QueryHashMismatch | HalvesMismatch | BadPayer
    | PaymentRefused | NotRecorded | ModelFailed

  method DecodeRequest(c: Primitives, r: ChatRequest) returns (result: Result<Statement, ChatError>)
    ensures result.Ok? <==> WellFormed(c, r)
    ensures result.Ok? ==> result.value == StatementOf(c, r)
    ensures result == Err(WrongInputCount) <==>
              Sized(r.proofA, 64) && Sized(r.proofB, 128) && Sized(r.proofC, 64) && |r.publicInputs| != 3
    ensures result == Err(QueryHashMismatch) ==> r.queryHash != Some(c.sha256(c.utf8(r.question)))
    ensures result.Err? ==> result.error !in {PaymentRefused, NotRecorded, ModelFailed}
  {
    if !Sized(r.proofA, 64) || !Sized(r.proofB, 128) || !Sized(r.proofC, 64) {
      return Err(BadField);
    }
    if |r.publicInputs| != 3 {
      return Err(WrongInputCount);
    }
    var inputs: seq<Bytes32> := [];
    for i := 0 to 3
      invariant |inputs| == i
      invariant forall j :: 0 <= j < i ==> Sized(r.publicInputs[j], 32) && inputs[j] == r.publicInputs[j].value
    {
      if !Sized(r.publicInputs[i], 32) {
        return Err(BadField);
      }
      inputs := inputs + [r.publicInputs[i].value];
    }
    if !Sized(r.queryHash, 32) {
      return Err(BadField);
    }
    var queryHash := r.queryHash.value;
    if c.sha256(c.utf8(r.question)) != queryHash {
      return Err(QueryHashMismatch);
    }
    var hi, lo := HashToFieldHalves(queryHash);
    if inputs[0] != hi || inputs[1] != lo {
      return Err(HalvesMismatch);
    }
    if r.payerWallet.None? {
      return Err(BadPayer);
    }
    return Ok(Statement(r.payerWallet.value, queryHash, V.Proof.Proof(r.proofA.value, r.proofB.value, r.proofC.value), inputs));
  }

  // ---------------------------------------------------------------------
  // The client
  // ---------------------------------------------------------------------

  datatype AskError = Prepare(error: PrepareError) | NotPaid | ProverFailed | NotConvertible

  /** `pay` sends the payment with a memo and gives its signature. Given a prover that keeps to its
      circuit, whatever the client posts is well formed, and it paid with the memo the service will
      look for. */
  method AskOverX402(c: Primitives, big: Parser, prover: Prover, w: Wallet, question: string, pay: string -> Option<string>)
    returns (r: Result<ChatRequest, AskError>)
    ensures var claim := ClaimFor(c, DOMAIN_SEPARATOR, w, c.sha256(c.utf8(question)));
            && (r.Ok? ==> claim.Ok? && prover(claim.value).Some?)
            && (r.Ok? && FaithfulProver(big, prover, claim.value) ==>
                  && WellFormed(c, r.value)
                  && pay(ExpectedMemo(c, r.value)) == Some(r.value.paymentTx)
                  && r.value.question == question && r.value.payerWallet == Some(w.key)
                  && Encode32(claim.value.commitment) == Ok(StatementOf(c, r.value).inputs[2])
                  && Acceptable(big, prover(claim.value).value.0, prover(claim.value).value.1)
                  && var o := Convert(c, big, prover(claim.value).value.0, prover(claim.value).value.1).value;
                     StatementOf(c, r.value).proof == V.Proof.Proof(o.proofA, o.proofB, o.proofC))
    ensures r == Err(NotPaid) ==>
              var claim := ClaimFor(c, DOMAIN_SEPARATOR, w, c.sha256(c.utf8(question)));
              claim.Ok? && pay(Memo(c, claim.value.hash, ToBE(claim.value.commitment, 32))).None?
  {
    var prepared := PrepareInput(c, DOMAIN_SEPARATOR, w, c.utf8(question));
    if prepared.Err? {
      return Err(Prepare(prepared.error));
    }
    var claim := prepared.value;
    assert SCALAR_ORDER < TWO_256;
    var commitment := BigIntToBEBytes32(claim.commitment);
    var digest := Sha256Concat(c, claim.hash, commitment.value);
    var memo := ToBase58(digest);
    var paymentTx := pay(memo);
    if paymentTx.None? {
      return Err(NotPaid);
    }
    var proved := prover(claim);
    if proved.None? {
      return Err(ProverFailed);
    }
    var (proof, signals) := proved.value;
    var converted := ConvertSnarkjsProof(c, big, proof, signals);
    if converted.Err? {
      return Err(NotConvertible);
    }
    var o := converted.value;
    r := Ok(ChatRequest(question, Some(w.key), paymentTx.value, Some(o.proofA), Some(o.proofB), Some(o.proofC),
                        FieldsOf(o.publicInputs), Some(claim.hash)));
    if FaithfulProver(big, prover, claim) {
      ConvertedSignals(c, big, proof, signals, claim.hash, claim.commitment);
    }
  }

  function FieldsOf(words: seq<Bytes32>): (f: seq<Field>)
    ensures |f| == |words| && forall i :: 0 <= i < |f| ==> f[i] == Some(words[i])
  {
    seq(|words|, i requires 0 <= i < |words| => Some(words[i]))
  }

  // ---------------------------------------------------------------------
  // The payment
  // ---------------------------------------------------------------------

  /** `text` is the instruction's data as UTF-8, when it is. */
  datatype Instruction = Instruction(programIndex: nat, text: Option<string>)

  datatype Meta = Meta(failed: bool, pre: seq<int>, post: seq<int>)

  datatype Payment = Payment(meta: Option<Meta>, accountKeys: seq<Pubkey>, instructions: seq<Instruction>)

  datatype Config = Config(vault: Pubkey, minimum: int, memoProgram: Pubkey, operator: Pubkey)

  /** The recipient's balance, at its first place among the accounts, grew enough. */
  predicate Credits(p: Payment, cfg: Config, i: nat) {
    && p.meta.Some? && !p.meta.value.failed
    && i < |p.accountKeys| && p.accountKeys[i] == cfg.vault && (forall k :: 0 <= k < i ==> p.accountKeys[k] != cfg.vault)
    && i < |p.meta.value.pre| && i < |p.meta.value.post|
    && p.meta.value.post[i] - p.meta.value.pre[i] >= cfg.minimum
  }

  predicate CarriesMemo(p: Payment, cfg: Config, memo: string, j: nat) {
    && j < |p.instructions| && p.instructions[j].programIndex < |p.accountKeys|
    && p.accountKeys[p.instructions[j].programIndex] == cfg.memoProgram
    && p.instructions[j].text == Some(memo)
  }

  ghost predicate Pays(p: Payment, cfg: Config, memo: string) {
    (exists i :: Credits(p, cfg, i)) && (exists j :: CarriesMemo(p, cfg, memo, j))
  }

  datatype PaymentError = NotFound | NoMeta | Failed | NoRecipient | Crashed | TooLittle | NoMemo

  method VerifyPaymentTx(payment: Option<Payment>, cfg: Config, memo: string) returns (r: Result<(), PaymentError>)
    ensures r.Ok? <==> payment.Some? && Pays(payment.value, cfg, memo)
    ensures r == Err(NoRecipient) ==> payment.Some? && cfg.vault !in payment.value.accountKeys
    ensures r == Err(NoMemo) ==> payment.Some? && (exists i :: Credits(payment.value, cfg, i))
  {
    if payment.None? {
      return Err(NotFound);
    }
    var p := payment.value;
    if p.meta.None? {
      return Err(NoMeta);
    }
    var meta := p.meta.value;
    if meta.failed {
      return Err(Failed);
    }
    var recipient := 0;
    while recipient < |p.accountKeys| && p.accountKeys[recipient] != cfg.vault
      invariant recipient <= |p.accountKeys|
      invariant forall k :: 0 <= k < recipient ==> p.accountKeys[k] != cfg.vault
    {
      recipient := recipient + 1;
    }
    if recipient == |p.accountKeys| {
      return Err(NoRecipient);
    }
    if recipient >= |meta.pre| || recipient >= |meta.post| {
      return Err(Crashed);
    }
    if meta.post[recipient] - meta.pre[recipient] < cfg.minimum {
      return Err(TooLittle);
    }
    assert Credits(p, cfg, recipient);
    for j := 0 to |p.instructions|
      invariant forall k: nat :: k < j ==> !CarriesMemo(p, cfg, memo, k)
    {
      var ix := p.instructions[j];
      if ix.programIndex >= |p.accountKeys| || p.accountKeys[ix.programIndex] != cfg.memoProgram || ix.text.None? {
        continue;
      }
      if ix.text.value == memo {
        assert CarriesMemo(p, cfg, memo, j);
        return Ok(());
      }
    }
    return Err(NoMemo);
  }

  /** A payment counts exactly when it went through, the vault, where it first stands among the accounts,
      gained enough, and an instruction of the memo program says the memo. */
  lemma PaysIff(p: Payment, cfg: Config, memo: string)
    ensures Pays(p, cfg, memo) <==>
              && p.meta.Some? && !p.meta.value.failed
              && (exists front, rest ::
                    && p.accountKeys == front + [cfg.vault] + rest && cfg.vault !in front
                    && |front| < |p.meta.value.pre| && |front| < |p.meta.value.post|
                    && p.meta.value.post[|front|] - p.meta.value.pre[|front|] >= cfg.minimum)
              && (exists ix :: ix in p.instructions && ix.text == Some(memo)
                    && ix.programIndex < |p.accountKeys| && p.accountKeys[ix.programIndex] == cfg.memoProgram)
  {
    if Pays(p, cfg, memo) {
      var i: nat :| Credits(p, cfg, i);
      var j: nat :| CarriesMemo(p, cfg, memo, j);
      assert p.accountKeys == p.accountKeys[..i] + [cfg.vault] + p.accountKeys[i + 1..];
      assert p.instructions[j] in p.instructions;
    }
    forall front, rest | p.meta.Some? && !p.meta.value.failed && p.accountKeys == front + [cfg.vault] + rest && cfg.vault !in front
      && |front| < |p.meta.value.pre| && |front| < |p.meta.value.post|
      && p.meta.value.post[|front|] - p.meta.value.pre[|front|] >= cfg.minimum
      ensures Credits(p, cfg, |front|)
    {
      assert forall k :: 0 <= k < |front| ==> p.accountKeys[k] == front[k];
    }
    forall ix | ix in p.instructions && ix.text == Some(memo)
      && ix.programIndex < |p.accountKeys| && p.accountKeys[ix.programIndex] == cfg.memoProgram
      ensures exists j :: CarriesMemo(p, cfg, memo, j)
    {
      var j :| 0 <= j < |p.instructions| && p.instructions[j] == ix;
      assert CarriesMemo(p, cfg, memo, j);
    }
  }

  // ---------------------------------------------------------------------
  // The service
  // ---------------------------------------------------------------------

  datatype ChatMessage = ChatMessage(
    userId: int, question: string, answer: string, queryHashHex: string, commitmentHex: string,
    payer: Pubkey, paymentTx: string, compliancePda: Pubkey)

  /** How the submission of the compliance transaction can go: the network may lose it, or lose only
      the confirmation. */
  datatype Delivery = Confirmed | NotSent | Unconfirmed

  datatype Reply = Reply(answer: string, queryHashHex: string, commitmentHex: string, compliancePda: Pubkey)

  datatype Ask = Ask(userId: int, request: ChatRequest, delivery: Delivery, model: Option<string>)

  /** The table, the chain, and the payments finalised so far. */
  datatype World = World(rows: seq<ChatMessage>, chain: V.State, payments: map<string, Payment>)

  /** The oldest row for a wallet and a question. */
  function Existing(rows: seq<ChatMessage>, payer: Pubkey, queryHashHex: string): (r: Option<ChatMessage>)
    ensures r.Some? ==> r.value in rows && r.value.payer == payer && r.value.queryHashHex == queryHashHex
    ensures r.None? ==> forall i :: 0 <= i < |rows| ==> rows[i].payer != payer || rows[i].queryHashHex != queryHashHex
  {
    if rows == [] then None
    else if rows[0].payer == payer && rows[0].queryHashHex == queryHashHex then Some(rows[0])
    else Existing(rows[1..], payer, queryHashHex)
  }

  function ComplianceCall(cfg: Config, s: Statement): V.Call {
    V.VerifyCompliance(s.payer, cfg.operator, {cfg.operator}, s.proof, s.inputs, s.queryHash)
  }

  ghost predicate Paid(c: Primitives, cfg: Config, w: World, r: ChatRequest) {
    && WellFormed(c, r)
    && r.paymentTx in w.payments && Pays(w.payments[r.paymentTx], cfg, ExpectedMemo(c, r))
  }

  function RowOf(d: V.Deployment, cfg: Config, ask: Ask, answer: string): ChatMessage
    requires WellFormed(d.crypto, ask.request)
  {
    var s := StatementOf(d.crypto, ask.request);
    ChatMessage(ask.userId, ask.request.question, answer, ToHex(s.queryHash), ToHex(s.inputs[2]), s.payer,
                ask.request.paymentTx, V.SlotOf(d, ComplianceCall(cfg, s)))
  }

  /** The reply to a question, if it gets one, and the world after it. */
  ghost function Handle(d: V.Deployment, cfg: Config, w: World, ask: Ask): (World, Option<Reply>) {
    if !Paid(d.crypto, cfg, w, ask.request) then (w, None)
    else
      var s := StatementOf(d.crypto, ask.request);
      var existing := Existing(w.rows, s.payer, ToHex(s.queryHash));
      if existing.Some? then
        var row := existing.value;
        (w, Some(Reply(row.answer, ToHex(s.queryHash), row.commitmentHex, row.compliancePda)))
      else if ask.delivery.NotSent? then (w, None)
      else
        var submit := V.Submit(ComplianceCall(cfg, s));
        var after := w.(chain := V.Next(d, w.chain, submit));
        if !V.Succeeds(d, w.chain, submit) || ask.delivery.Unconfirmed? || ask.model.None? then (after, None)
        else
          var row := RowOf(d, cfg, ask, ask.model.value);
          (after.(rows := w.rows + [row]), Some(Reply(row.answer, row.queryHashHex, row.commitmentHex, row.compliancePda)))
  }

  class ChatService {
    const d: V.Deployment
    const cfg: Config
    var rows: seq<ChatMessage>
    var chain: V.State

    constructor (d: V.Deployment, cfg: Config, chain: V.State)
      ensures this.d == d && this.cfg == cfg && this.chain == chain && rows == []
    {
      this.d, this.cfg, this.chain, rows := d, cfg, chain, [];
    }

    method FindExisting(payer: Pubkey, queryHashHex: string) returns (r: Option<ChatMessage>)
      ensures r == Existing(rows, payer, queryHashHex)
    {
      for i := 0 to |rows|
        invariant Existing(rows, payer, queryHashHex) == Existing(rows[i..], payer, queryHashHex)
      {
        if rows[i].payer == payer && rows[i].queryHashHex == queryHashHex {
          return Some(rows[i]);
        }
        assert rows[i..][1..] == rows[i + 1..];
      }
      return None;
    }

    method Chat(payments: map<string, Payment>, ask: Ask) returns (r: Result<Reply, ChatError>)
      modifies this
      ensures var handled := Handle(d, cfg, World(old(rows), old(chain), payments), ask);
              && handled.0 == World(rows, chain, payments)
              && (match handled.1 case Some(reply) => r == Ok(reply) case None => r.Err?)
      ensures r == Err(PaymentRefused) <==>
                WellFormed(d.crypto, ask.request) && !Paid(d.crypto, cfg, World(old(rows), old(chain), payments), ask.request)
      ensures r == Err(ModelFailed) ==>
                && WellFormed(d.crypto, ask.request)
                && var s := StatementOf(d.crypto, ask.request);
                   Stranded(d, World(rows, chain, payments), s.payer, s.queryHash)
    {
      var request := ask.request;
      var decoded := DecodeRequest(d.crypto, request);
      if decoded.Err? {
        return Err(decoded.error);
      }
      var s := decoded.value;
      var memo := ToBase58(d.crypto.sha256(s.queryHash + s.inputs[2]));
      var payment := if request.paymentTx in payments then Some(payments[request.paymentTx]) else None;
      var paid := VerifyPaymentTx(payment, cfg, memo);
      if paid.Err? {
        return Err(PaymentRefused);
      }
      var queryHashHex := WriteHex(s.queryHash);
      var existing := FindExisting(s.payer, queryHashHex);
      if existing.Some? {
        var row := existing.value;
        return Ok(Reply(row.answer, queryHashHex, row.commitmentHex, row.compliancePda));
      }
      if ask.delivery.NotSent? {
        return Err(NotRecorded);
      }
      var call := ComplianceCall(cfg, s);
      var submit := V.Submit(call);
      var recorded := V.Succeeds(d, chain, submit);
      chain := V.Next(d, chain, submit);
      if !recorded || ask.delivery.Unconfirmed? {
        return Err(NotRecorded);
      }
      if ask.model.None? {
        return Err(ModelFailed);
      }
      var commitmentHex := WriteHex(s.inputs[2]);
      var pda := V.SlotOf(d, call);
      rows := rows + [ChatMessage(ask.userId, request.question, ask.model.value, queryHashHex, commitmentHex, s.payer, request.paymentTx, pda)];
      return Ok(Reply(ask.model.value, queryHashHex, commitmentHex, pda));
    }
  }

  // ---------------------------------------------------------------------
  // Runs: questions interleaved with payments and with anything else on chain
  // ---------------------------------------------------------------------

  datatype Step =
    | Question(ask: Ask)
    | Pay(signature: string, payment: Payment)
    | Chain(step: V.Step)

  ghost function NextWorld(d: V.Deployment, cfg: Config, w: World, step: Step): World {
    match step
    case Question(ask) => Handle(d, cfg, w, ask).0
    case Pay(signature, payment) => if signature in w.payments then w else w.(payments := w.payments[signature := payment])
    case Chain(s) => w.(chain := V.Next(d, w.chain, s))
  }

  ghost function RunWorld(d: V.Deployment, cfg: Config, w: World, steps: seq<Step>): World
    decreases |steps|
  {
    if steps == [] then w else NextWorld(d, cfg, RunWorld(d, cfg, w, steps[..|steps| - 1]), steps[|steps| - 1])
  }

  function RecordKey(d: V.Deployment, payer: Pubkey, queryHash: Bytes32): Pubkey {
    d.crypto.address(Seeds.RecordSeeds(Seeds.Compliance, payer, queryHash))
  }

  /** A row is backed by the chain: there is a compliance record of its wallet and the hash of its
      question, the row shows that record's commitment, and a finalised payment to the vault carries
      the memo of exactly what the record says. */
  ghost predicate Backed(d: V.Deployment, cfg: Config, w: World, m: ChatMessage) {
    var hash := d.crypto.sha256(d.crypto.utf8(m.question));
    var key := RecordKey(d, m.payer, hash);
    && key in w.chain.ledger
    && var a := w.chain.ledger[key];
    && a.ComplianceRecord? && a.initialized && a.payer == m.payer && a.queryHash == hash
    && m.queryHashHex == ToHex(hash) && m.commitmentHex == ToHex(a.commitment) && m.compliancePda == key
    && m.paymentTx in w.payments && Pays(w.payments[m.paymentTx], cfg, Memo(d.crypto, a.queryHash, a.commitment))
  }

  /** Filled-in records and finalised payments stay as they are. */
  lemma WorldKeeps(d: V.Deployment, cfg: Config, w: World, step: Step, key: Pubkey)
    requires key in w.chain.ledger && w.chain.ledger[key].initialized
    ensures var t := NextWorld(d, cfg, w, step);
            && key in t.chain.ledger && t.chain.ledger[key] == w.chain.ledger[key]
            && forall signature :: signature in w.payments ==>
                 signature in t.payments && t.payments[signature] == w.payments[signature]
  {
    if step.Chain? {
      OneStepFinal(d, w.chain, step.step, key);
    } else if step.Question? && Paid(d.crypto, cfg, w, step.ask.request) {
      OneStepFinal(d, w.chain, V.Submit(ComplianceCall(cfg, StatementOf(d.crypto, step.ask.request))), key);
    }
  }

  lemma StaysBacked(d: V.Deployment, cfg: Config, w: World, step: Step, m: ChatMessage)
    requires Backed(d, cfg, w, m)
    ensures Backed(d, cfg, NextWorld(d, cfg, w, step), m)
  {
    WorldKeeps(d, cfg, w, step, RecordKey(d, m.payer, d.crypto.sha256(d.crypto.utf8(m.question))));
  }

  lemma OneStepFinal(d: V.Deployment, s: V.State, step: V.Step, key: Pubkey)
    requires key in s.ledger && s.ledger[key].initialized
    ensures key in V.Next(d, s, step).ledger && V.Next(d, s, step).ledger[key] == s.ledger[key]
  {
  }

  lemma NewRowBacked(d: V.Deployment, cfg: Config, w: World, ask: Ask)
    requires Handle(d, cfg, w, ask).0.rows != w.rows
    ensures var t := Handle(d, cfg, w, ask).0;
            && |t.rows| == |w.rows| + 1 && t.rows[..|w.rows|] == w.rows
            && Backed(d, cfg, t, t.rows[|w.rows|])
  {
    var s := StatementOf(d.crypto, ask.request);
    assert ExpectedMemo(d.crypto, ask.request) == Memo(d.crypto, s.queryHash, s.inputs[2]);
  }

  /** In every run every row of the table is backed, whatever payments and chain traffic come between
      the questions. */
  lemma {:induction false} RowsAreBacked(d: V.Deployment, cfg: Config, w: World, steps: seq<Step>, i: nat)
    requires w.rows == [] && i < |RunWorld(d, cfg, w, steps).rows|
    ensures Backed(d, cfg, RunWorld(d, cfg, w, steps), RunWorld(d, cfg, w, steps).rows[i])
    decreases |steps|
  {
    var n := |steps| - 1;
    var before := RunWorld(d, cfg, w, steps[..n]);
    if steps[n].Question? && RunWorld(d, cfg, w, steps).rows != before.rows {
      NewRowBacked(d, cfg, before, steps[n].ask);
      assert i < |before.rows| ==> RunWorld(d, cfg, w, steps).rows[i] == before.rows[i];
    }
    if i < |before.rows| {
      RowsAreBacked(d, cfg, w, steps[..n], i);
      StaysBacked(d, cfg, before, steps[n], before.rows[i]);
    }
  }

  /** A wallet and a question have at most one row. */
  lemma {:induction false} OneRowEach(d: V.Deployment, cfg: Config, w: World, steps: seq<Step>, i: nat, j: nat)
    requires w.rows == [] && i < j < |RunWorld(d, cfg, w, steps).rows|
    ensures var rows := RunWorld(d, cfg, w, steps).rows; (rows[i].payer, rows[i].queryHashHex) != (rows[j].payer, rows[j].queryHashHex)
    decreases |steps|
  {
    var n := |steps| - 1;
    var before := RunWorld(d, cfg, w, steps[..n]);
    if steps[n].Question? && RunWorld(d, cfg, w, steps).rows != before.rows {
      NewRowBacked(d, cfg, before, steps[n].ask);
      assert RunWorld(d, cfg, w, steps).rows[i] == before.rows[i];
    }
    if j < |before.rows| {
      OneRowEach(d, cfg, w, steps[..n], i, j);
      assert RunWorld(d, cfg, w, steps).rows[j] == before.rows[j];
    }
  }

  /** The digest behind the memo that was paid with is that of the record the answered question
      created or, when the answer comes from the table, of the earlier record exactly when the two
      commitments agree (or there is a collision). */
  lemma ReplyBinding(d: V.Deployment, cfg: Config, w: World, ask: Ask)
    requires forall i :: 0 <= i < |w.rows| ==> Backed(d, cfg, w, w.rows[i])
    requires Handle(d, cfg, w, ask).1.Some?
    ensures var (t, reply) := Handle(d, cfg, w, ask);
            var s := StatementOf(d.crypto, ask.request);
            var key := RecordKey(d, s.payer, s.queryHash);
            && key in t.chain.ledger && t.chain.ledger[key].ComplianceRecord?
            && var a := t.chain.ledger[key];
            && reply.value.commitmentHex == ToHex(a.commitment) && reply.value.compliancePda == key
            && (t.rows != w.rows ==> a.queryHash == s.queryHash && a.commitment == s.inputs[2])
            && (a.commitment == s.inputs[2] ==> Memo(d.crypto, s.queryHash, a.commitment) == ExpectedMemo(d.crypto, ask.request))
            && (Memo(d.crypto, s.queryHash, a.commitment) == ExpectedMemo(d.crypto, ask.request) ==>
                  a.commitment == s.inputs[2] || Collision(d.crypto.sha256, s.queryHash + a.commitment, s.queryHash + s.inputs[2]))
  {
    var (t, reply) := Handle(d, cfg, w, ask);
    var s := StatementOf(d.crypto, ask.request);
    var existing := Existing(w.rows, s.payer, ToHex(s.queryHash));
    if existing.Some? {
      var row := existing.value;
      assert Backed(d, cfg, w, row);
      ToHexInjective(d.crypto.sha256(d.crypto.utf8(row.question)), s.queryHash);
    }
    var a := t.chain.ledger[RecordKey(d, s.payer, s.queryHash)];
    if Memo(d.crypto, s.queryHash, a.commitment) == ExpectedMemo(d.crypto, ask.request) {
      MemoBinds(d.crypto, s.queryHash, a.commitment, s.queryHash, s.inputs[2]);
    }
  }

  // ---------------------------------------------------------------------
  // Whose answer it is
  // ---------------------------------------------------------------------

  /** The reply to the `k`-th step of a run, when that step is a question. */
  ghost function ReplyAt(d: V.Deployment, cfg: Config, w: World, steps: seq<Step>, k: nat): Option<Reply>
    requires k < |steps|
  {
    if steps[k].Question? then Handle(d, cfg, RunWorld(d, cfg, w, steps[..k]), steps[k].ask).1 else None
  }

  /** The `k`-th step is a question of this wallet with this hash, and it is answered. */
  ghost predicate AnsweredAt(d: V.Deployment, cfg: Config, w: World, steps: seq<Step>, k: nat, payer: Pubkey, queryHash: Bytes32) {
    && k < |steps| && ReplyAt(d, cfg, w, steps, k).Some?
    && steps[k].ask.request.payerWallet == Some(payer) && d.crypto.sha256(d.crypto.utf8(steps[k].ask.request.question)) == queryHash
  }

  /** A row holds what its own question said and what the model answered to it. */
  ghost predicate HoldsAnswerOf(m: ChatMessage, ask: Ask) {
    && ask.model == Some(m.answer) && m.userId == ask.userId && m.question == ask.request.question
    && ask.request.payerWallet == Some(m.payer) && m.paymentTx == ask.request.paymentTx
  }

  /** One question, handled: an answer that is new is the model's, is stored with what was asked, and is
      what the reply shows; an answer from the table is that of the row. */
  lemma HandledAnswer(d: V.Deployment, cfg: Config, w: World, ask: Ask)
    requires Handle(d, cfg, w, ask).1.Some?
    ensures var (t, reply) := Handle(d, cfg, w, ask);
            var hash := d.crypto.sha256(d.crypto.utf8(ask.request.question));
            && ask.request.payerWallet.Some? && reply.value.queryHashHex == ToHex(hash)
            && var existing := Existing(w.rows, ask.request.payerWallet.value, ToHex(hash));
            && if existing.Some? then t == w && reply.value.answer == existing.value.answer
               else
                 && |t.rows| == |w.rows| + 1 && t.rows[..|w.rows|] == w.rows && t.payments == w.payments
                 && var m := t.rows[|w.rows|];
                 && HoldsAnswerOf(m, ask) && m.queryHashHex == ToHex(hash)
                 && reply.value == Reply(m.answer, m.queryHashHex, m.commitmentHex, m.compliancePda)
  {
  }

  predicate Word(f: Field) {
    f.Some? && |f.value| == 32
  }

  /** A question that is not in the table, from the request's fields to the record: it is answered exactly
      when the fields decode to their sizes, the hash is the question's own and the inputs are its halves,
      the payment carries the memo of hash and commitment, the slot of wallet and hash is vacant, the
      pairing accepts A, B and C, in this order, over the three inputs, and confirmation and model come
      through; then the record holds just that. */
  lemma NewQuestionOutcome(d: V.Deployment, cfg: Config, w: World, ask: Ask, payer: Pubkey)
    requires ask.request.payerWallet == Some(payer)
    requires Existing(w.rows, payer, ToHex(d.crypto.sha256(d.crypto.utf8(ask.request.question)))).None?
    ensures var (t, reply) := Handle(d, cfg, w, ask);
            var r := ask.request;
            var hash := d.crypto.sha256(d.crypto.utf8(r.question));
            var key := d.crypto.address(Seeds.COMPLIANCE + payer + hash);
            && (reply.Some? <==>
                  && r.proofA.Some? && |r.proofA.value| == 64 && r.proofB.Some? && |r.proofB.value| == 128
                  && r.proofC.Some? && |r.proofC.value| == 64 && r.queryHash == Some(hash)
                  && |r.publicInputs| == 3 && Word(r.publicInputs[0]) && Word(r.publicInputs[1]) && Word(r.publicInputs[2])
                  && (var x: Blob, y: Blob, z: Bytes32 := r.publicInputs[0].value, r.publicInputs[1].value, r.publicInputs[2].value;
                      && x == Zeros(16) + hash[..16] && y == Zeros(16) + hash[16..]
                      && r.paymentTx in w.payments && Pays(w.payments[r.paymentTx], cfg, ToBase58(d.crypto.sha256(hash + z)))
                      && V.Vacant(w.chain.ledger, key, (a: V.Account) => a.ComplianceRecord?)
                      && d.crypto.groth16(VkCanonicalBytes(d.compliance), r.proofA.value + r.proofB.value + r.proofC.value, x + y + z).Ok?)
                  && ask.delivery.Confirmed? && ask.model.Some?)
            && (reply.Some? ==>
                  && Word(r.publicInputs[2])
                  && t.chain.ledger == w.chain.ledger[key := V.ComplianceRecord(payer, hash, r.publicInputs[2].value, w.chain.clock, true)]
                  && reply.value.commitmentHex == ToHex(r.publicInputs[2].value) && reply.value.compliancePda == key)
  {
    if WellFormed(d.crypto, ask.request) {
      var s := StatementOf(d.crypto, ask.request);
      V.ComplianceCallOutcome(d, w.chain, s.payer, cfg.operator, {cfg.operator}, s.proof, s.inputs, s.queryHash);
    }
  }

  /** A payment, something else on chain, and then the question: the question meets that payment and the
      chain as it then is. A signature already known keeps the payment it stands for. */
  lemma PaidThenAsked(d: V.Deployment, cfg: Config, w: World, signature: string, payment: Payment, other: V.Step, ask: Ask)
    ensures var payments := if signature in w.payments then w.payments else w.payments[signature := payment];
            RunWorld(d, cfg, w, [Pay(signature, payment), Chain(other), Question(ask)])
            == Handle(d, cfg, World(w.rows, V.Next(d, w.chain, other), payments), ask).0
  {
    var steps := [Pay(signature, payment), Chain(other), Question(ask)];
    assert steps[..2][..1] == steps[..1] && steps[..1][..0] == [];
    assert RunWorld(d, cfg, w, steps[..1]) == NextWorld(d, cfg, w, steps[0]);
    assert RunWorld(d, cfg, w, steps[..2]) == NextWorld(d, cfg, RunWorld(d, cfg, w, steps[..1]), steps[1]);
  }

  lemma UnansweredAddsNothing(d: V.Deployment, cfg: Config, w: World, step: Step)
    requires step.Question? ==> Handle(d, cfg, w, step.ask).1.None?
    ensures NextWorld(d, cfg, w, step).rows == w.rows
  {
  }

  /** In every run every row was appended by a question of that run, and holds its words, its asker, its
      payment and the model's answer to it. */
  lemma {:induction false} RowsHoldAnswers(d: V.Deployment, cfg: Config, w: World, steps: seq<Step>, i: nat) returns (k: nat)
    requires w.rows == [] && i < |RunWorld(d, cfg, w, steps).rows|
    ensures k < |steps| && steps[k].Question? && HoldsAnswerOf(RunWorld(d, cfg, w, steps).rows[i], steps[k].ask)
    ensures |RunWorld(d, cfg, w, steps[..k]).rows| == i
    decreases |steps|
  {
    var n := |steps| - 1;
    var before := RunWorld(d, cfg, w, steps[..n]);
    if i < |before.rows| {
      k := RowsHoldAnswers(d, cfg, w, steps[..n], i);
      assert steps[..n][..k] == steps[..k];
      RowsOnlyGrow(d, cfg, before, steps[n]);
    } else {
      k := n;
      if steps[n].Question? && Handle(d, cfg, before, steps[n].ask).1.Some? {
        HandledAnswer(d, cfg, before, steps[n].ask);
      } else {
        UnansweredAddsNothing(d, cfg, before, steps[n]);
      }
    }
  }

  lemma RowsOnlyGrow(d: V.Deployment, cfg: Config, w: World, step: Step)
    ensures w.rows <= NextWorld(d, cfg, w, step).rows
  {
    if step.Question? && Handle(d, cfg, w, step.ask).1.Some? {
      HandledAnswer(d, cfg, w, step.ask);
    } else {
      UnansweredAddsNothing(d, cfg, w, step);
    }
  }

  /** Adding a row changes the oldest row of a wallet and question only where there was none. */
  lemma {:induction false} ExistingSnoc(rows: seq<ChatMessage>, m: ChatMessage, payer: Pubkey, queryHashHex: string)
    ensures Existing(rows + [m], payer, queryHashHex) ==
            if Existing(rows, payer, queryHashHex).Some? then Existing(rows, payer, queryHashHex)
            else if m.payer == payer && m.queryHashHex == queryHashHex then Some(m)
            else None
  {
    if rows != [] {
      ExistingSnoc(rows[1..], m, payer, queryHashHex);
      assert (rows + [m])[1..] == rows[1..] + [m];
    } else {
      assert rows + [m] == [m];
    }
  }

  /** The first time a wallet's question with this hash was answered is the `k`-th step, and the answer
      given then is what the model said. */
  ghost predicate FirstAnswered(d: V.Deployment, cfg: Config, w: World, steps: seq<Step>, k: nat, payer: Pubkey, queryHash: Bytes32,
                                answer: string) {
    && AnsweredAt(d, cfg, w, steps, k, payer, queryHash)
    && (forall j: nat :: j < k ==> !AnsweredAt(d, cfg, w, steps, j, payer, queryHash))
    && ReplyAt(d, cfg, w, steps, k).value.answer == answer && steps[k].ask.model == Some(answer)
  }

  ghost predicate NeverAnswered(d: V.Deployment, cfg: Config, w: World, steps: seq<Step>, payer: Pubkey, queryHash: Bytes32) {
    forall j: nat :: !AnsweredAt(d, cfg, w, steps, j, payer, queryHash)
  }

  /** What a run answered up to some step does not depend on the later steps. */
  lemma AnsweredBefore(d: V.Deployment, cfg: Config, w: World, steps: seq<Step>, n: nat, k: nat, payer: Pubkey, queryHash: Bytes32)
    requires k < n <= |steps|
    ensures ReplyAt(d, cfg, w, steps, k) == ReplyAt(d, cfg, w, steps[..n], k)
    ensures AnsweredAt(d, cfg, w, steps, k, payer, queryHash) <==> AnsweredAt(d, cfg, w, steps[..n], k, payer, queryHash)
  {
    assert steps[..n][..k] == steps[..k];
  }

  lemma FirstAnsweredBefore(d: V.Deployment, cfg: Config, w: World, steps: seq<Step>, n: nat, k: nat, payer: Pubkey, queryHash: Bytes32,
                            answer: string)
    requires k < n <= |steps|
    ensures FirstAnswered(d, cfg, w, steps, k, payer, queryHash, answer) <==> FirstAnswered(d, cfg, w, steps[..n], k, payer, queryHash, answer)
  {
    forall j: nat | j <= k
      ensures ReplyAt(d, cfg, w, steps, j) == ReplyAt(d, cfg, w, steps[..n], j)
      ensures AnsweredAt(d, cfg, w, steps, j, payer, queryHash) <==> AnsweredAt(d, cfg, w, steps[..n], j, payer, queryHash)
    {
      AnsweredBefore(d, cfg, w, steps, n, j, payer, queryHash);
    }
  }

  /** The row of a wallet and a question after a run. */
  ghost function RowAfter(d: V.Deployment, cfg: Config, w: World, steps: seq<Step>, payer: Pubkey, queryHash: Bytes32): Option<ChatMessage> {
    Existing(RunWorld(d, cfg, w, steps).rows, payer, ToHex(queryHash))
  }

  /** One step: a row stays; where there is none, an answer to the wallet's question makes the row that
      shows it, and nothing else does. */
  lemma LastStepAnswers(d: V.Deployment, cfg: Config, w: World, steps: seq<Step>, payer: Pubkey, queryHash: Bytes32)
    requires steps != []
    ensures var n := |steps| - 1;
            var earlier, later := RowAfter(d, cfg, w, steps[..n], payer, queryHash), RowAfter(d, cfg, w, steps, payer, queryHash);
            && (earlier.Some? ==> later == earlier)
            && (earlier.None? ==>
                  if AnsweredAt(d, cfg, w, steps, n, payer, queryHash) then
                    later.Some? && ReplyAt(d, cfg, w, steps, n).value.answer == later.value.answer && steps[n].ask.model == Some(later.value.answer)
                  else later.None?)
  {
    var n := |steps| - 1;
    var before := RunWorld(d, cfg, w, steps[..n]);
    if ReplyAt(d, cfg, w, steps, n).None? {
      UnansweredAddsNothing(d, cfg, before, steps[n]);
    } else {
      HandledAnswer(d, cfg, before, steps[n].ask);
      var after := RunWorld(d, cfg, w, steps);
      if after != before {
        var m := after.rows[|before.rows|];
        assert after.rows == before.rows + [m];
        ExistingSnoc(before.rows, m, payer, ToHex(queryHash));
        if m.queryHashHex == ToHex(queryHash) {
          ToHexInjective(d.crypto.sha256(d.crypto.utf8(steps[n].ask.request.question)), queryHash);
        }
      } else if AnsweredAt(d, cfg, w, steps, n, payer, queryHash) {
        assert Existing(before.rows, payer, ToHex(queryHash)).Some?;
      }
    }
  }

  /** The table's row for a wallet and question holds the answer given when it was first answered; and
      there is a row exactly when it ever was. */
  lemma {:induction false} TableHoldsFirstAnswer(d: V.Deployment, cfg: Config, w: World, steps: seq<Step>, payer: Pubkey, queryHash: Bytes32)
    returns (k: nat)
    requires w.rows == []
    ensures var row := RowAfter(d, cfg, w, steps, payer, queryHash);
            if row.Some? then FirstAnswered(d, cfg, w, steps, k, payer, queryHash, row.value.answer)
            else NeverAnswered(d, cfg, w, steps, payer, queryHash)
    decreases |steps|
  {
    k := 0;
    if steps != [] {
      var n := |steps| - 1;
      var earlier := RowAfter(d, cfg, w, steps[..n], payer, queryHash);
      k := TableHoldsFirstAnswer(d, cfg, w, steps[..n], payer, queryHash);
      LastStepAnswers(d, cfg, w, steps, payer, queryHash);
      if earlier.Some? {
        FirstAnsweredBefore(d, cfg, w, steps, n, k, payer, queryHash, earlier.value.answer);
      } else {
        NewlyAnswered(d, cfg, w, steps, payer, queryHash);
        k := n;
      }
    }
  }

  lemma NewlyAnswered(d: V.Deployment, cfg: Config, w: World, steps: seq<Step>, payer: Pubkey, queryHash: Bytes32)
    requires steps != [] && NeverAnswered(d, cfg, w, steps[..|steps| - 1], payer, queryHash)
    ensures !AnsweredAt(d, cfg, w, steps, |steps| - 1, payer, queryHash) ==> NeverAnswered(d, cfg, w, steps, payer, queryHash)
    ensures forall j: nat :: j < |steps| - 1 ==> !AnsweredAt(d, cfg, w, steps, j, payer, queryHash)
  {
    forall j: nat | j < |steps| - 1 ensures !AnsweredAt(d, cfg, w, steps, j, payer, queryHash) {
      AnsweredBefore(d, cfg, w, steps, |steps| - 1, j, payer, queryHash);
    }
  }

  /** Every reply of a run shows the answer given to the first question of its wallet with its hash, and
      that is what the model said then. */
  lemma RepliesRepeatTheFirst(d: V.Deployment, cfg: Config, w: World, steps: seq<Step>, n: nat, payer: Pubkey, queryHash: Bytes32) returns (k: nat)
    requires w.rows == [] && AnsweredAt(d, cfg, w, steps, n, payer, queryHash)
    ensures k <= n && AnsweredAt(d, cfg, w, steps, k, payer, queryHash)
    ensures forall j: nat :: j < k ==> !AnsweredAt(d, cfg, w, steps, j, payer, queryHash)
    ensures steps[k].ask.model == Some(ReplyAt(d, cfg, w, steps, n).value.answer)
    ensures ReplyAt(d, cfg, w, steps, n).value.answer == ReplyAt(d, cfg, w, steps, k).value.answer
  {
    var upTo := steps[..n + 1];
    assert upTo[..n] == steps[..n];
    k := TableHoldsFirstAnswer(d, cfg, w, upTo, payer, queryHash);
    AnsweredBefore(d, cfg, w, steps, n + 1, n, payer, queryHash);
    RepliesShowTheTable(d, cfg, w, upTo, payer, queryHash);
    FirstAnsweredBefore(d, cfg, w, steps, n + 1, k, payer, queryHash, ReplyAt(d, cfg, w, steps, n).value.answer);
  }

  /** The reply to the last step of a run shows the table's row as it is then. */
  lemma RepliesShowTheTable(d: V.Deployment, cfg: Config, w: World, steps: seq<Step>, payer: Pubkey, queryHash: Bytes32)
    requires steps != [] && AnsweredAt(d, cfg, w, steps, |steps| - 1, payer, queryHash)
    ensures var row := RowAfter(d, cfg, w, steps, payer, queryHash);
            row.Some? && ReplyAt(d, cfg, w, steps, |steps| - 1).value.answer == row.value.answer
  {
    LastStepAnswers(d, cfg, w, steps, payer, queryHash);
    HandledAnswer(d, cfg, RunWorld(d, cfg, w, steps[..|steps| - 1]), steps[|steps| - 1].ask);
  }

  // ---------------------------------------------------------------------
  // How many answers one payment backs
  // ---------------------------------------------------------------------

  /** Whoever is named as payer, the same payment counts. */
  lemma PaidIgnoresPayer(c: Primitives, cfg: Config, w: World, r: ChatRequest, other: Pubkey)
    requires r.payerWallet.Some?
    ensures Paid(c, cfg, w, r.(payerWallet := Some(other))) <==> Paid(c, cfg, w, r)
  {
  }

  /** A question that lacks nothing but its payment. */
  predicate OnlyToBePaid(d: V.Deployment, cfg: Config, w: World, ask: Ask) {
    && WellFormed(d.crypto, ask.request)
    && var s := StatementOf(d.crypto, ask.request);
    && Existing(w.rows, s.payer, ToHex(s.queryHash)).None?
    && V.Succeeds(d, w.chain, V.Submit(ComplianceCall(cfg, s)))
    && ask.delivery.Confirmed? && ask.model.Some?
  }

  lemma PaidIffAnswered(d: V.Deployment, cfg: Config, w: World, ask: Ask)
    requires OnlyToBePaid(d, cfg, w, ask)
    ensures var t := Handle(d, cfg, w, ask).0;
            if Paid(d.crypto, cfg, w, ask.request) then
              t.rows == w.rows + [RowOf(d, cfg, ask, ask.model.value)]
              && t.chain == V.Next(d, w.chain, V.Submit(ComplianceCall(cfg, StatementOf(d.crypto, ask.request))))
              && t.payments == w.payments
            else t == w
  {
  }

  /** The first of two questions leaves the second as it was. */
  lemma OtherQuestionUntouched(d: V.Deployment, cfg: Config, w: World, a: Ask, b: Ask)
    requires OnlyToBePaid(d, cfg, w, a) && OnlyToBePaid(d, cfg, w, b)
    requires var s, t := StatementOf(d.crypto, a.request), StatementOf(d.crypto, b.request);
             RecordKey(d, s.payer, s.queryHash) != RecordKey(d, t.payer, t.queryHash)
    ensures OnlyToBePaid(d, cfg, Handle(d, cfg, w, a).0, b)
    ensures Paid(d.crypto, cfg, Handle(d, cfg, w, a).0, b.request) <==> Paid(d.crypto, cfg, w, b.request)
  {
    PaidIffAnswered(d, cfg, w, a);
    var s, t := StatementOf(d.crypto, a.request), StatementOf(d.crypto, b.request);
    if ToHex(s.queryHash) == ToHex(t.queryHash) {
      ToHexInjective(s.queryHash, t.queryHash);
    }
    if Paid(d.crypto, cfg, w, a.request) {
      NotExisting(w.rows, RowOf(d, cfg, a, a.model.value), t.payer, ToHex(t.queryHash));
    }
  }

  /** Two questions that name one payment are both answered on it exactly when it credits the vault once
      and carries the memos of both. */
  lemma OnePaymentTwoAnswersIff(d: V.Deployment, cfg: Config, w: World, a: Ask, b: Ask)
    requires OnlyToBePaid(d, cfg, w, a) && OnlyToBePaid(d, cfg, w, b)
    requires var s, t := StatementOf(d.crypto, a.request), StatementOf(d.crypto, b.request);
             RecordKey(d, s.payer, s.queryHash) != RecordKey(d, t.payer, t.queryHash)
    requires a.request.paymentTx == b.request.paymentTx && a.request.paymentTx in w.payments
    ensures var rows := Handle(d, cfg, Handle(d, cfg, w, a).0, b).0.rows;
            var p := w.payments[a.request.paymentTx];
            && (rows == w.rows + [RowOf(d, cfg, a, a.model.value), RowOf(d, cfg, b, b.model.value)] <==>
                  && (exists i :: Credits(p, cfg, i))
                  && (exists j :: CarriesMemo(p, cfg, ExpectedMemo(d.crypto, a.request), j))
                  && (exists j :: CarriesMemo(p, cfg, ExpectedMemo(d.crypto, b.request), j)))
  {
    OtherQuestionUntouched(d, cfg, w, a, b);
    PaidIffAnswered(d, cfg, w, a);
    PaidIffAnswered(d, cfg, Handle(d, cfg, w, a).0, b);
    var x, y := RowOf(d, cfg, a, a.model.value), RowOf(d, cfg, b, b.model.value);
    assert w.rows + [x] + [y] == w.rows + [x, y];
  }

  /** The memo that stands for the record behind a row. */
  function MemoOf(d: V.Deployment, w: World, m: ChatMessage): string {
    if m.compliancePda in w.chain.ledger && w.chain.ledger[m.compliancePda].ComplianceRecord? then
      Memo(d.crypto, w.chain.ledger[m.compliancePda].queryHash, w.chain.ledger[m.compliancePda].commitment)
    else ""
  }

  /** Any two rows of a run on one payment have both their memos in it; and where the two memos are one,
      the rows are about one question and one commitment, asked for two wallets, or here is a collision. */
  lemma SharedPaymentCarriesBoth(d: V.Deployment, cfg: Config, w: World, steps: seq<Step>, i: nat, j: nat) returns (x: Blob, y: Blob)
    requires w.rows == [] && i < |RunWorld(d, cfg, w, steps).rows| && j < |RunWorld(d, cfg, w, steps).rows|
    requires RunWorld(d, cfg, w, steps).rows[i].paymentTx == RunWorld(d, cfg, w, steps).rows[j].paymentTx
    ensures var t := RunWorld(d, cfg, w, steps);
            var m, n := t.rows[i], t.rows[j];
            && m.paymentTx in t.payments
            && Pays(t.payments[m.paymentTx], cfg, MemoOf(d, t, m)) && Pays(t.payments[m.paymentTx], cfg, MemoOf(d, t, n))
            && (MemoOf(d, t, m) == MemoOf(d, t, n) ==>
                  || (m.queryHashHex == n.queryHashHex && m.commitmentHex == n.commitmentHex)
                  || Collision(d.crypto.sha256, x, y))
  {
    var t := RunWorld(d, cfg, w, steps);
    RowsAreBacked(d, cfg, w, steps, i);
    RowsAreBacked(d, cfg, w, steps, j);
    var a, b := t.chain.ledger[t.rows[i].compliancePda], t.chain.ledger[t.rows[j].compliancePda];
    x, y := a.queryHash + a.commitment, b.queryHash + b.commitment;
    if MemoOf(d, t, t.rows[i]) == MemoOf(d, t, t.rows[j]) {
      MemoBinds(d.crypto, a.queryHash, a.commitment, b.queryHash, b.commitment);
    }
  }

  // A run in which one payment and one proof buy the answer for two wallets.

  function SampleWallet(n: Byte): Pubkey {
    seq(32, _ => n)
  }

  /** Every proof is accepted, every text has one hash, and an address is the user in its seeds. */
  function SampleDeployment(): V.Deployment {
    var key := VkBytes(0, Zeros(64), Zeros(128), Zeros(128), Zeros(128), []);
    V.Deployment(
      Primitives((b: Blob) => ZERO_WORD, (s: string) => [], (x: nat, y: nat, z: nat) => 0,
                 (vk: Blob, p: Bytes256, i: Blob) => Ok(()), (vk: Blob, p: seq<Bytes256>, i: seq<Blob>) => Ok(()),
                 (b: Bytes128) => Err(Other), (b: Blob) => if |b| == 74 then b[10..42] else ZERO_WORD),
      key, key, key)
  }

  const SAMPLE_CONFIG := Config(SampleWallet(8), 1, SampleWallet(9), SampleWallet(7))

  function SampleAsk(n: Byte): Ask {
    Ask(0, ChatRequest("q", Some(SampleWallet(n)), "tx", Some(Zeros(64)), Some(Zeros(128)), Some(Zeros(64)),
                       [Some(ZERO_WORD), Some(ZERO_WORD), Some(ZERO_WORD)], Some(ZERO_WORD)), Confirmed, Some("a"))
  }

  function SamplePayment(): Payment {
    Payment(Some(Meta(false, [0, 0], [1, 0])), [SampleWallet(8), SampleWallet(9)],
            [Instruction(1, Some(Memo(SampleDeployment().crypto, ZERO_WORD, ZERO_WORD)))])
  }

  lemma SampleWellFormed(n: Byte)
    ensures WellFormed(SampleDeployment().crypto, SampleAsk(n).request)
    ensures var s := StatementOf(SampleDeployment().crypto, SampleAsk(n).request);
            s.payer == SampleWallet(n) && s.queryHash == ZERO_WORD && s.inputs == [ZERO_WORD, ZERO_WORD, ZERO_WORD]
  {
    assert Halves(ZERO_WORD).0 == ZERO_WORD && Halves(ZERO_WORD).1 == ZERO_WORD;
  }

  lemma SampleAddress(n: Byte)
    ensures RecordKey(SampleDeployment(), SampleWallet(n), ZERO_WORD) == SampleWallet(n)
  {
    var seeds := Seeds.RecordSeeds(Seeds.Compliance, SampleWallet(n), ZERO_WORD);
    assert |seeds| == 74 && seeds[10..42] == SampleWallet(n);
  }

  lemma SampleGenuine(s: Statement)
    requires s.queryHash == ZERO_WORD && s.inputs == [ZERO_WORD, ZERO_WORD, ZERO_WORD]
    ensures V.Genuine(SampleDeployment(), ComplianceCall(SAMPLE_CONFIG, s))
  {
    assert Halves(ZERO_WORD).0 == ZERO_WORD && Halves(ZERO_WORD).1 == ZERO_WORD;
  }

  lemma SampleOnlyToBePaid(n: Byte, chain: V.State)
    requires chain.ledger == map[]
    ensures OnlyToBePaid(SampleDeployment(), SAMPLE_CONFIG, World([], chain, map["tx" := SamplePayment()]), SampleAsk(n))
    ensures ExpectedMemo(SampleDeployment().crypto, SampleAsk(n).request) == Memo(SampleDeployment().crypto, ZERO_WORD, ZERO_WORD)
  {
    SampleWellFormed(n);
    SampleGenuine(StatementOf(SampleDeployment().crypto, SampleAsk(n).request));
  }

  /** One transfer, one memo and one proof, posted for two wallets: both are answered. */
  lemma TwoWalletsOnePayment()
    ensures var d, w := SampleDeployment(), World([], V.State(map[], 1), map["tx" := SamplePayment()]);
            var rows := RunWorld(d, SAMPLE_CONFIG, w, [Question(SampleAsk(1)), Question(SampleAsk(2))]).rows;
            && |rows| == 2 && rows[0].paymentTx == rows[1].paymentTx == "tx"
            && rows[0].payer == SampleWallet(1) && rows[1].payer == SampleWallet(2) && rows[0].payer != rows[1].payer
  {
    var d, w := SampleDeployment(), World([], V.State(map[], 1), map["tx" := SamplePayment()]);
    var a, b := SampleAsk(1), SampleAsk(2);
    SampleOnlyToBePaid(1, w.chain);
    SampleOnlyToBePaid(2, w.chain);
    SampleWellFormed(1);
    SampleWellFormed(2);
    SampleAddress(1);
    SampleAddress(2);
    assert SampleWallet(1)[0] != SampleWallet(2)[0] && SampleWallet(8)[0] != SampleWallet(9)[0];
    var p := w.payments["tx"];
    assert Credits(p, SAMPLE_CONFIG, 0);
    assert CarriesMemo(p, SAMPLE_CONFIG, Memo(d.crypto, ZERO_WORD, ZERO_WORD), 0);
    OnePaymentTwoAnswersIff(d, SAMPLE_CONFIG, w, a, b);
    var steps := [Question(a), Question(b)];
    assert steps[..1] == [Question(a)] && steps[..1][..0] == [];
    assert RunWorld(d, SAMPLE_CONFIG, w, steps[..1]) == Handle(d, SAMPLE_CONFIG, w, a).0;
  }

  // ---------------------------------------------------------------------
  // A recorded question without an answer
  // ---------------------------------------------------------------------

  /** The record is on chain but the table has no row for it. */
  predicate Stranded(d: V.Deployment, w: World, payer: Pubkey, queryHash: Bytes32) {
    var key := RecordKey(d, payer, queryHash);
    && key in w.chain.ledger && w.chain.ledger[key].initialized
    && Existing(w.rows, payer, ToHex(queryHash)).None?
  }

  /** A question that finds the record filled in adds no row for it. */
  lemma NoRowWhenStranded(d: V.Deployment, cfg: Config, w: World, ask: Ask, payer: Pubkey, queryHash: Bytes32)
    requires Stranded(d, w, payer, queryHash)
    ensures Existing(Handle(d, cfg, w, ask).0.rows, payer, ToHex(queryHash)).None?
  {
    var t := Handle(d, cfg, w, ask).0;
    if t.rows != w.rows {
      var s := StatementOf(d.crypto, ask.request);
      assert V.Succeeds(d, w.chain, V.Submit(ComplianceCall(cfg, s)));
      assert (s.payer, s.queryHash) != (payer, queryHash);
      if ToHex(s.queryHash) == ToHex(queryHash) {
        ToHexInjective(s.queryHash, queryHash);
      }
      NotExisting(w.rows, RowOf(d, cfg, ask, ask.model.value), payer, ToHex(queryHash));
    }
  }

  lemma {:induction false} NotExisting(rows: seq<ChatMessage>, row: ChatMessage, payer: Pubkey, queryHashHex: string)
    requires Existing(rows, payer, queryHashHex).None? && (row.payer != payer || row.queryHashHex != queryHashHex)
    ensures Existing(rows + [row], payer, queryHashHex).None?
  {
    if rows != [] {
      NotExisting(rows[1..], row, payer, queryHashHex);
      assert (rows + [row])[1..] == rows[1..] + [row];
    } else {
      assert rows + [row] == [row];
    }
  }

  lemma StaysStranded(d: V.Deployment, cfg: Config, w: World, step: Step, payer: Pubkey, queryHash: Bytes32)
    requires Stranded(d, w, payer, queryHash)
    ensures Stranded(d, NextWorld(d, cfg, w, step), payer, queryHash)
  {
    WorldKeeps(d, cfg, w, step, RecordKey(d, payer, queryHash));
    if step.Question? {
      NoRowWhenStranded(d, cfg, w, step.ask, payer, queryHash);
    }
  }

  /** Whoever puts the record on chain without an answer being stored (a model that failed, a lost
      confirmation, a direct submission by anyone) shuts the question out for good: from then on no
      question of that wallet with that hash is answered, whatever is paid for it. */
  lemma {:induction false} StrandedForGood(d: V.Deployment, cfg: Config, w: World, steps: seq<Step>, ask: Ask)
    requires WellFormed(d.crypto, ask.request)
    requires var s := StatementOf(d.crypto, ask.request); Stranded(d, w, s.payer, s.queryHash)
    ensures Handle(d, cfg, RunWorld(d, cfg, w, steps), ask).1.None?
    ensures var s := StatementOf(d.crypto, ask.request); Stranded(d, RunWorld(d, cfg, w, steps), s.payer, s.queryHash)
    decreases |steps|
  {
    if steps != [] {
      var n := |steps| - 1;
      StrandedForGood(d, cfg, w, steps[..n], ask);
      var s := StatementOf(d.crypto, ask.request);
      StaysStranded(d, cfg, RunWorld(d, cfg, w, steps[..n]), steps[n], s.payer, s.queryHash);
    }
  }

  /** A paid, new, genuine question is answered exactly when the confirmation and the model both come
      through, and is stranded exactly when it is sent and one of them does not. */
  lemma AnsweredOrStranded(d: V.Deployment, cfg: Config, w: World, ask: Ask)
    requires Paid(d.crypto, cfg, w, ask.request)
    requires var s := StatementOf(d.crypto, ask.request);
             && Existing(w.rows, s.payer, ToHex(s.queryHash)).None?
             && V.Succeeds(d, w.chain, V.Submit(ComplianceCall(cfg, s)))
    ensures var s := StatementOf(d.crypto, ask.request);
            var (t, reply) := Handle(d, cfg, w, ask);
            && (reply.Some? <==> ask.delivery.Confirmed? && ask.model.Some?)
            && (Stranded(d, t, s.payer, s.queryHash) <==> !ask.delivery.NotSent? && reply.None?)
  {
    var s := StatementOf(d.crypto, ask.request);
    var (t, reply) := Handle(d, cfg, w, ask);
    if reply.Some? {
      assert t.rows[|w.rows|].payer == s.payer && t.rows[|w.rows|].queryHashHex == ToHex(s.queryHash);
    }
  }

  // ---------------------------------------------------------------------
  // The same binding for a filing
  // ---------------------------------------------------------------------

  function TextOf(s: Option<string>): string {
    if s.None? then "" else s.value
  }

  /** The text whose hash stands for a submission. */
  function FilingPayload(submissionId: string, markText: Option<string>, niceClassesJson: string): string {
    "etornie-filing-v1|" + submissionId + "|" + TextOf(markText) + "|" + niceClassesJson
  }

  /** A text is cut in only one way at its last bar. */
  lemma LastBar(a: string, b: string, a': string, b': string)
    requires '|' !in b && '|' !in b'
    requires a + ['|'] + b == a' + ['|'] + b'
    ensures a == a' && b == b'
  {
    var s := a + ['|'] + b;
    assert forall i :: |a| < i < |s| ==> s[i] == b[i - |a| - 1] != '|';
    assert forall i :: |a'| < i < |s| ==> s[i] == b'[i - |a'| - 1] != '|';
    assert s[|a|] == '|' && s[|a'|] == (a' + ['|'] + b')[|a'|] == '|';
    assert a == s[..|a|] && a' == s[..|a'|] && b == s[|a| + 1..] && b' == s[|a'| + 1..];
  }

  /** One payload stands for one submission, whatever the mark's text, as long as no bar occurs in the
      ids and the class lists; a missing mark text counts as an empty one. */
  lemma FilingPayloadDetermines(id: string, mark: Option<string>, classes: string, id': string, mark': Option<string>, classes': string)
    requires '|' !in id && '|' !in id' && '|' !in classes && '|' !in classes'
    ensures FilingPayload(id, mark, classes) == FilingPayload(id', mark', classes')
            <==> id == id' && TextOf(mark) == TextOf(mark') && classes == classes'
  {
    var rest, rest' := TextOf(mark) + ['|'] + classes, TextOf(mark') + ['|'] + classes';
    assert FilingPayload(id, mark, classes) == "etornie-filing-v1|" + (id + ['|'] + rest);
    assert FilingPayload(id', mark', classes') == "etornie-filing-v1|" + (id' + ['|'] + rest');
    if FilingPayload(id, mark, classes) == FilingPayload(id', mark', classes') {
      assert id + ['|'] + rest == FilingPayload(id, mark, classes)[18..] == id' + ['|'] + rest';
      CutAtFirst('|', id, rest, id', rest');
      LastBar(TextOf(mark), classes, TextOf(mark'), classes');
    }
  }

  /** With a bar in the class list the payload is shared: the bar can be moved into the mark. */
  lemma FilingPayloadShared(id: string, mark: string, head: string, tail: string)
    ensures FilingPayload(id, Some(mark), head + "|" + tail) == FilingPayload(id, Some(mark + "|" + head), tail)
  {
    assert mark + "|" + (head + "|" + tail) == mark + "|" + head + "|" + tail;
    assert FilingPayload(id, Some(mark), head + "|" + tail) == "etornie-filing-v1|" + id + "|" + (mark + "|" + (head + "|" + tail));
    assert FilingPayload(id, Some(mark + "|" + head), tail) == "etornie-filing-v1|" + id + "|" + (mark + "|" + head + "|" + tail);
  }
}
