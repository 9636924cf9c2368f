/** The API client's silent token refresh: any number of interleaved requests share one refresh.

    JavaScript runs each handler to completion between awaits, so a step is one handler: a request
    going out, a response coming in, the refresh call coming back, the `finally` that clears the
    shared promise, or one waiter resuming. Steps interleave in every order. */
module TokenRefresh {
  import opened Wrappers

  type Token = t: string | t != "" witness "t"

  datatype Response =
    | Success
    | Failure(status: Option<nat>, whatsApp: bool, hasConfig: bool)

  datatype RefreshReply =
    | Answer(access: Option<Token>, refresh: Option<Token>)
    | CallFailed

  datatype Phase = OnWire | Waiting(refresh: nat) | Settled(ok: bool)

  /** `retried` is the `_retry` mark; `joined` is the refresh the request waited for. */
  datatype Request = Request(
    refreshUrl: bool, phase: Phase, retried: bool, joined: Option<nat>, header: Option<Token>, sent: nat, settlements: nat)

  /** A refresh call that is out, one that has answered, one whose `finally` has run. */
  datatype Refresh = InFlight | Answered(token: Option<Token>) | Released(token: Option<Token>)

  /** Why the stored tokens were removed. */
  datatype Removal =
    | RefreshFailed(request: nat, refresh: nat)
    | SecondUnauthorized(request: nat)
    | RefreshUrlUnauthorized(request: nat)

  /** `shared` is `refreshPromise`: the number of the refresh it stands for. */
  datatype State = State(
    requests: seq<Request>,
    refreshes: seq<Refresh>,
    shared: Option<nat>,
    access: Option<Token>,
    refresh: Option<Token>,
    refreshPosts: nat,
    removals: seq<Removal>)

  datatype Step =
    | Issue(refreshUrl: bool)
    | Respond(request: nat, response: Response)
    | RefreshReplies(reply: RefreshReply)
    | RefreshFinally
    | Resume(request: nat)
    | TokensSet(access: Token, refresh: Option<Token>)
    | CookiesExpire(accessGone: bool, refreshGone: bool)

  const INIT := State([], [], None, None, None, 0, [])

  // ---------------------------------------------------------------------
  // One step
  // ---------------------------------------------------------------------

  /** A first 401 that the client tries to repair. */
  predicate Refreshable(r: Request, response: Response) {
    response.Failure? && response.status == Some(401) && !response.whatsApp && response.hasConfig && !r.refreshUrl && !r.retried
  }

  /** A final 401 that signs the user out. */
  predicate SignsOut(r: Request, response: Response) {
    response.Failure? && response.status == Some(401) && !response.whatsApp && response.hasConfig && (r.refreshUrl || r.retried)
  }

  predicate Enabled(s: State, step: Step) {
    match step
    case Issue(_) => true
    case Respond(i, _) => i < |s.requests| && s.requests[i].phase.OnWire?
    case RefreshReplies(_) => s.shared.Some? && s.shared.value < |s.refreshes| && s.refreshes[s.shared.value].InFlight?
    case RefreshFinally => s.shared.Some? && s.shared.value < |s.refreshes| && s.refreshes[s.shared.value].Answered?
    case Resume(i) =>
      i < |s.requests| && s.requests[i].phase.Waiting? && s.requests[i].phase.refresh < |s.refreshes|
      && s.refreshes[s.requests[i].phase.refresh].Released?
    case _ => true
  }

  function Settle(s: State, i: nat, ok: bool): State
    requires i < |s.requests|
  {
    var r := s.requests[i];
    s.(requests := s.requests[i := r.(phase := Settled(ok), settlements := r.settlements + 1)])
  }

  function SignOut(s: State, why: Removal): State {
    s.(access := None, refresh := None, removals := s.removals + [why])
  }

  /** Mark the request, and join the shared refresh, starting one when there is none. Without a
      stored refresh token the started refresh answers at once and nothing is posted. */
  function Join(s: State, i: nat): State
    requires i < |s.requests|
  {
    var starting := s.shared.None?;
    var g := if starting then |s.refreshes| else s.shared.value;
    var waiting := s.requests[i].(retried := true, joined := Some(g), phase := Waiting(g));
    var joined := s.(requests := s.requests[i := waiting], shared := Some(g));
    if !starting then joined
    else if s.refresh.None? then joined.(refreshes := s.refreshes + [Answered(None)])
    else joined.(refreshes := s.refreshes + [InFlight], refreshPosts := s.refreshPosts + 1)
  }

  function Next(s: State, step: Step): State
    requires Enabled(s, step)
  {
    match step
    case Issue(refreshUrl) =>
      s.(requests := s.requests + [Request(refreshUrl, OnWire, false, None, s.access, 1, 0)])
    case Respond(i, response) =>
      var r := s.requests[i];
      if response.Success? then Settle(s, i, true)
      else if Refreshable(r, response) then Join(s, i)
      else if SignsOut(r, response) then
        SignOut(Settle(s, i, false), if r.refreshUrl then RefreshUrlUnauthorized(i) else SecondUnauthorized(i))
      else Settle(s, i, false)
    case RefreshReplies(reply) =>
      var g := s.shared.value;
      if reply.CallFailed? || reply.access.None? then s.(refreshes := s.refreshes[g := Answered(None)])
      else
        s.(refreshes := s.refreshes[g := Answered(reply.access)],
           access := reply.access,
           refresh := if reply.refresh.Some? then reply.refresh else s.refresh)
    case RefreshFinally =>
      var g := s.shared.value;
      s.(refreshes := s.refreshes[g := Released(s.refreshes[g].token)], shared := None)
    case Resume(i) =>
      var r := s.requests[i];
      var g := r.phase.refresh;
      (match s.refreshes[g].token
       case Some(token) =>
         var header := if s.access.Some? then s.access else Some(token);
         s.(requests := s.requests[i := r.(phase := OnWire, header := header, sent := r.sent + 1)])
       case None => SignOut(Settle(s, i, false), RefreshFailed(i, g)))
    case TokensSet(access, refresh) =>
      s.(access := Some(access), refresh := if refresh.Some? then refresh else s.refresh)
    case CookiesExpire(accessGone, refreshGone) =>
      s.(access := if accessGone then None else s.access, refresh := if refreshGone then None else s.refresh)
  }

  // ---------------------------------------------------------------------
  // The client
  // ---------------------------------------------------------------------

  class ApiClient {
    var requests: seq<Request>
    var refreshes: seq<Refresh>
    var refreshPromise: Option<nat>
    var accessCookie: Option<Token>
    var refreshCookie: Option<Token>
    var refreshPosts: nat
    var removals: seq<Removal>

    ghost function View(): State
      reads this
    {
      State(requests, refreshes, refreshPromise, accessCookie, refreshCookie, refreshPosts, removals)
    }

    constructor ()
      ensures View() == INIT
    {
      requests, refreshes, refreshPromise := [], [], None;
      accessCookie, refreshCookie, refreshPosts, removals := None, None, 0, [];
    }

    /** The request interceptor, for a first send. */
    method Send(refreshUrl: bool)
      modifies this
      ensures View() == Next(old(View()), Issue(refreshUrl))
    {
      requests := requests + [Request(refreshUrl, OnWire, false, None, accessCookie, 1, 0)];
    }

    method SetToken(access: Token, refresh: Option<Token>)
      modifies this`accessCookie, this`refreshCookie
      ensures View() == Next(old(View()), TokensSet(access, refresh))
    {
      accessCookie := Some(access);
      if refresh.Some? {
        refreshCookie := refresh;
      }
    }

    method HandleAuthFailure(ghost why: Removal)
      modifies this`accessCookie, this`refreshCookie
      ensures View().(removals := removals + [why]) == SignOut(old(View()), why)
    {
      accessCookie := None;
      refreshCookie := None;
    }

    method Reject(i: nat)
      requires i < |requests|
      modifies this`requests
      ensures View() == Settle(old(View()), i, false)
    {
      requests := requests[i := requests[i].(phase := Settled(false), settlements := requests[i].settlements + 1)];
    }

    /** Start the refresh call, when there is a refresh token to send. */
    method RefreshAccessToken()
      modifies this`refreshes, this`refreshPosts
      ensures refreshes == old(refreshes) + [if refreshCookie.None? then Answered(None) else InFlight]
      ensures refreshPosts == old(refreshPosts) + (if refreshCookie.None? then 0 else 1)
    {
      if refreshCookie.None? {
        refreshes := refreshes + [Answered(None)];
      } else {
        refreshPosts := refreshPosts + 1;
        refreshes := refreshes + [InFlight];
      }
    }

    /** The response interceptor, up to its `await`. */
    method OnResponse(i: nat, response: Response)
      requires Enabled(View(), Respond(i, response))
      modifies this
      ensures View() == Next(old(View()), Respond(i, response))
    {
      var original := requests[i];
      if response.Success? {
        requests := requests[i := original.(phase := Settled(true), settlements := original.settlements + 1)];
        return;
      }
      var unauthorized := response.status == Some(401);
      var retriedBefore := response.hasConfig && original.retried;
      var refreshCall := response.hasConfig && original.refreshUrl;
      if !unauthorized || response.whatsApp || refreshCall || !response.hasConfig || retriedBefore {
        Reject(i);
        if unauthorized && !response.whatsApp && (refreshCall || retriedBefore) {
          var why := if original.refreshUrl then RefreshUrlUnauthorized(i) else SecondUnauthorized(i);
          HandleAuthFailure(why);
          removals := removals + [why];
        }
        return;
      }
      requests := requests[i := original.(retried := true)];
      if refreshPromise.None? {
        refreshPromise := Some(|refreshes|);
        RefreshAccessToken();
      }
      var g := refreshPromise.value;
      requests := requests[i := requests[i].(joined := Some(g), phase := Waiting(g))];
    }

    /** The refresh call comes back. */
    method OnRefreshReply(reply: RefreshReply)
      requires Enabled(View(), RefreshReplies(reply))
      modifies this
      ensures View() == Next(old(View()), RefreshReplies(reply))
    {
      var g := refreshPromise.value;
      if reply.CallFailed? || reply.access.None? {
        refreshes := refreshes[g := Answered(None)];
        return;
      }
      SetToken(reply.access.value, reply.refresh);
      refreshes := refreshes[g := Answered(reply.access)];
    }

    method OnRefreshFinally()
      requires Enabled(View(), RefreshFinally)
      modifies this
      ensures View() == Next(old(View()), RefreshFinally)
    {
      refreshes := refreshes[refreshPromise.value := Released(refreshes[refreshPromise.value].token)];
      refreshPromise := None;
    }

    /** The response interceptor, after its `await`. */
    method OnResume(i: nat)
      requires Enabled(View(), Resume(i))
      modifies this
      ensures View() == Next(old(View()), Resume(i))
    {
      var original := requests[i];
      var newAccess := refreshes[original.phase.refresh].token;
      if newAccess.Some? {
        var header := newAccess;
        if accessCookie.Some? {
          header := accessCookie;
        }
        requests := requests[i := original.(phase := OnWire, header := header, sent := original.sent + 1)];
        return;
      }
      var why := RefreshFailed(i, original.phase.refresh);
      HandleAuthFailure(why);
      removals := removals + [why];
      Reject(i);
    }
  }

  // ---------------------------------------------------------------------
  // Invariant
  // ---------------------------------------------------------------------

  ghost predicate Outcome(s: State, g: nat, success: bool) {
    g < |s.refreshes| && s.refreshes[g].Released? && (s.refreshes[g].token.Some? <==> success)
  }

  /** What is true of one request at any moment. */
  ghost predicate RequestOk(s: State, r: Request) {
    && (r.retried <==> r.joined.Some?)
    && (r.refreshUrl ==> !r.retried)
    && (match r.phase
        case OnWire =>
          && r.settlements == 0
          && (if r.retried then r.sent == 2 && r.header.Some? && Outcome(s, r.joined.value, true) else r.sent == 1)
        case Waiting(g) =>
          && r.settlements == 0 && r.sent == 1 && r.joined == Some(g) && g < |s.refreshes|
        case Settled(ok) =>
          && r.settlements == 1
          && (if !r.retried then r.sent == 1
              else if ok then r.sent == 2 && r.header.Some? && Outcome(s, r.joined.value, true)
              else (r.sent == 2 && r.header.Some? && Outcome(s, r.joined.value, true)) || (r.sent == 1 && Outcome(s, r.joined.value, false))))
  }

  ghost predicate RemovalOk(s: State, why: Removal) {
    && why.request < |s.requests|
    && var r := s.requests[why.request];
    && r.phase == Settled(false)
    && (match why
        case RefreshFailed(_, g) => r.joined == Some(g) && r.sent == 1 && Outcome(s, g, false)
        case SecondUnauthorized(_) => r.retried && r.sent == 2
        case RefreshUrlUnauthorized(_) => r.refreshUrl && r.sent == 1)
  }

  /** Only the newest refresh can be unfinished, and then the shared promise stands for it. */
  ghost predicate SharedOk(s: State) {
    && (forall g :: 0 <= g < |s.refreshes| && !s.refreshes[g].Released? ==> s.shared == Some(g))
    && (s.shared.Some? ==> s.shared.value == |s.refreshes| - 1 && !s.refreshes[s.shared.value].Released?)
  }

  function Retried(requests: seq<Request>): nat {
    if requests == [] then 0 else Retried(requests[..|requests| - 1]) + if requests[|requests| - 1].retried then 1 else 0
  }

  ghost predicate Inv(s: State) {
    && SharedOk(s)
    && (forall i :: 0 <= i < |s.requests| ==> RequestOk(s, s.requests[i]))
    && (forall k :: 0 <= k < |s.removals| ==> RemovalOk(s, s.removals[k]))
    && s.refreshPosts <= |s.refreshes| <= Retried(s.requests)
  }

  lemma {:induction false} RetriedUpdate(requests: seq<Request>, i: nat, r: Request)
    requires i < |requests|
    ensures Retried(requests[i := r]) + (if requests[i].retried then 1 else 0) == Retried(requests) + (if r.retried then 1 else 0)
    decreases |requests|
  {
    var last := |requests| - 1;
    if i == last {
      assert requests[i := r][..last] == requests[..last];
    } else {
      RetriedUpdate(requests[..last], i, r);
      assert requests[i := r][..last] == requests[..last][i := r];
    }
  }

  /** Finished refreshes stay as they are. */
  ghost predicate RefreshesGrow(s: State, s': State) {
    && |s.refreshes| <= |s'.refreshes|
    && forall g :: 0 <= g < |s.refreshes| && s.refreshes[g].Released? ==> s'.refreshes[g] == s.refreshes[g]
  }

  lemma RequestOkKept(s: State, s': State, r: Request)
    requires RequestOk(s, r) && RefreshesGrow(s, s')
    ensures RequestOk(s', r)
  {
  }

  /** A step that changes at most request `i`, which was not settled, and finishes at most one refresh. */
  lemma InvFrame(s: State, s': State, i: nat)
    requires Inv(s) && RefreshesGrow(s, s') && SharedOk(s')
    requires |s'.requests| == |s.requests|
    requires forall j :: 0 <= j < |s.requests| && j != i ==> s'.requests[j] == s.requests[j]
    requires i < |s.requests| ==> RequestOk(s', s'.requests[i])
    requires i < |s.requests| ==> s.requests[i].phase.Settled? ==> s'.requests[i] == s.requests[i]
    requires s'.removals == s.removals
             || (|s'.removals| == |s.removals| + 1 && s'.removals[..|s.removals|] == s.removals && RemovalOk(s', s'.removals[|s.removals|]))
    requires s'.refreshPosts <= |s'.refreshes| <= Retried(s'.requests)
    ensures Inv(s')
  {
    forall j | 0 <= j < |s'.requests|
      ensures RequestOk(s', s'.requests[j])
    {
      if j != i {
        RequestOkKept(s, s', s.requests[j]);
      }
    }
    forall k | 0 <= k < |s'.removals|
      ensures RemovalOk(s', s'.removals[k])
    {
      if k < |s.removals| {
        assert s'.removals[k] == s.removals[k];
        assert RemovalOk(s, s.removals[k]);
      }
    }
  }

  lemma InvJoin(s: State, i: nat)
    requires Inv(s) && i < |s.requests| && s.requests[i].phase.OnWire? && !s.requests[i].retried && !s.requests[i].refreshUrl
    ensures Inv(Join(s, i))
  {
    var s' := Join(s, i);
    assert RequestOk(s, s.requests[i]);
    RetriedUpdate(s.requests, i, s'.requests[i]);
    InvFrame(s, s', i);
  }

  lemma InvSettle(s: State, i: nat, ok: bool)
    requires Inv(s) && i < |s.requests| && s.requests[i].phase.OnWire?
    ensures Inv(Settle(s, i, ok))
  {
    var s' := Settle(s, i, ok);
    assert RequestOk(s, s.requests[i]);
    RetriedUpdate(s.requests, i, s'.requests[i]);
    InvFrame(s, s', i);
  }

  lemma InvSignOut(s: State, why: Removal)
    requires Inv(s) && RemovalOk(s, why)
    ensures Inv(SignOut(s, why))
  {
    InvFrame(s, SignOut(s, why), |s.requests|);
  }

  lemma InvRespond(s: State, i: nat, response: Response)
    requires Inv(s) && Enabled(s, Respond(i, response))
    ensures Inv(Next(s, Respond(i, response)))
  {
    var r := s.requests[i];
    assert RequestOk(s, r);
    if response.Success? {
      InvSettle(s, i, true);
    } else if Refreshable(r, response) {
      InvJoin(s, i);
    } else {
      InvSettle(s, i, false);
      if SignsOut(r, response) {
        InvSignOut(Settle(s, i, false), if r.refreshUrl then RefreshUrlUnauthorized(i) else SecondUnauthorized(i));
      }
    }
  }

  lemma InvResume(s: State, i: nat)
    requires Inv(s) && Enabled(s, Resume(i))
    ensures Inv(Next(s, Resume(i)))
  {
    var s' := Next(s, Resume(i));
    assert RequestOk(s, s.requests[i]);
    RetriedUpdate(s.requests, i, s'.requests[i]);
    InvFrame(s, s', i);
  }

  lemma InvIssue(s: State, refreshUrl: bool)
    requires Inv(s)
    ensures Inv(Next(s, Issue(refreshUrl)))
  {
    var s' := Next(s, Issue(refreshUrl));
    assert s'.requests[..|s.requests|] == s.requests;
    forall j | 0 <= j < |s'.requests|
      ensures RequestOk(s', s'.requests[j])
    {
      if j < |s.requests| {
        RequestOkKept(s, s', s.requests[j]);
      }
    }
    forall k | 0 <= k < |s'.removals|
      ensures RemovalOk(s', s'.removals[k])
    {
      assert RemovalOk(s, s.removals[k]);
    }
  }

  lemma InvNext(s: State, step: Step)
    requires Inv(s) && Enabled(s, step)
    ensures Inv(Next(s, step))
  {
    match step
    case Issue(refreshUrl) => InvIssue(s, refreshUrl);
    case Respond(i, response) => InvRespond(s, i, response);
    case Resume(i) => InvResume(s, i);
    case _ => InvFrame(s, Next(s, step), |s.requests|);
  }

  // ---------------------------------------------------------------------
  // Executions
  // ---------------------------------------------------------------------

  ghost predicate Execution(states: seq<State>, steps: seq<Step>) {
    && |states| == |steps| + 1
    && states[0] == INIT
    && forall i :: 0 <= i < |steps| ==> Enabled(states[i], steps[i]) && states[i + 1] == Next(states[i], steps[i])
  }

  lemma {:induction false} InvExecution(states: seq<State>, steps: seq<Step>, n: nat)
    requires Execution(states, steps) && n < |states|
    ensures Inv(states[n])
  {
    if n > 0 {
      InvExecution(states, steps, n - 1);
      InvNext(states[n - 1], steps[n - 1]);
    }
  }

  /** At no moment of any execution are two refreshes outstanding. */
  lemma SingleFlight(states: seq<State>, steps: seq<Step>, n: nat, g: nat, h: nat)
    requires Execution(states, steps) && n < |states|
    requires g < |states[n].refreshes| && h < |states[n].refreshes|
    requires !states[n].refreshes[g].Released? && !states[n].refreshes[h].Released?
    ensures g == h
  {
    InvExecution(states, steps, n);
  }

  /** Requests that joined one refresh were either all replayed or all rejected by it. */
  lemma SharedOutcome(states: seq<State>, steps: seq<Step>, n: nat, i: nat, j: nat)
    requires Execution(states, steps) && n < |states|
    requires var s := states[n];
             i < |s.requests| && j < |s.requests| && s.requests[i].joined.Some? && s.requests[i].joined == s.requests[j].joined
             && s.requests[i].phase.Settled? && s.requests[j].phase.Settled?
    ensures states[n].requests[i].sent == states[n].requests[j].sent
  {
    InvExecution(states, steps, n);
  }

  /** A request reaches the wire once or twice, twice only when the refresh it waited for succeeded and
      then never without a token, and is settled once and then never touched again. */
  lemma RequestLife(states: seq<State>, steps: seq<Step>, n: nat, i: nat)
    requires Execution(states, steps) && n < |states| && i < |states[n].requests|
    ensures var r := states[n].requests[i];
            && 1 <= r.sent <= 2
            && (r.sent == 2 ==> r.retried && r.header.Some? && r.joined.Some? && Outcome(states[n], r.joined.value, true))
            && r.settlements == (if r.phase.Settled? then 1 else 0)
            && (r.phase == Settled(false) && r.retried && r.sent == 1 ==> r.joined.Some? && Outcome(states[n], r.joined.value, false))
    ensures states[n].requests[i].phase.Settled? && n + 1 < |states| ==>
              i < |states[n + 1].requests| && states[n + 1].requests[i] == states[n].requests[i]
  {
    InvExecution(states, steps, n);
    assert RequestOk(states[n], states[n].requests[i]);
  }

  /** Of the client's own steps only a failed refresh, a second 401 and a 401 on the refresh URL
      itself remove the tokens, and each leaves its reason behind. */
  lemma TokensRemovedOnlyWithReason(states: seq<State>, steps: seq<Step>, n: nat)
    requires Execution(states, steps) && n < |steps|
    requires (states[n].access.Some? && states[n + 1].access.None?) || (states[n].refresh.Some? && states[n + 1].refresh.None?)
    ensures steps[n].CookiesExpire?
            || (|states[n + 1].removals| == |states[n].removals| + 1
                && RemovalOk(states[n + 1], states[n + 1].removals[|states[n].removals|]))
  {
    InvExecution(states, steps, n + 1);
  }

  /** Refresh calls posted never exceed the requests that met a first 401. */
  lemma RefreshPostsBounded(states: seq<State>, steps: seq<Step>, n: nat)
    requires Execution(states, steps) && n < |states|
    ensures states[n].refreshPosts <= |states[n].refreshes| <= Retried(states[n].requests)
  {
    InvExecution(states, steps, n);
  }

  // ---------------------------------------------------------------------
  // What a response does, and which tokens are kept and sent
  // ---------------------------------------------------------------------

  /** A 401 that is neither about WhatsApp nor without a request configuration. */
  predicate Unauthorized(response: Response) {
    response.Failure? && response.status == Some(401) && !response.whatsApp && response.hasConfig
  }

  /** In every execution: a success settles its request as such; a 401 on the first sending of anything
      but the refresh call makes it wait, for the refresh that is out or for a new one, which is posted
      exactly when a refresh token is stored; every other failure rejects it; and exactly a 401 on a
      second sending or on the refresh call signs out. */
  lemma RespondOutcome(states: seq<State>, steps: seq<Step>, n: nat, i: nat, response: Response)
    requires Execution(states, steps) && n < |steps| && steps[n] == Respond(i, response)
    ensures var s, t := states[n], states[n + 1];
            && i < |s.requests| == |t.requests|
            && (forall j :: 0 <= j < |s.requests| && j != i ==> t.requests[j] == s.requests[j])
            && var r, r' := s.requests[i], t.requests[i];
            && (r'.phase == Settled(true) <==> response.Success?)
            && (r'.phase.Waiting? <==> Unauthorized(response) && !r.refreshUrl && r.sent == 1)
            && (r'.phase == Settled(false) <==> response.Failure? && !(Unauthorized(response) && !r.refreshUrl && r.sent == 1))
            && (r'.phase.Waiting? ==> r'.phase.refresh == if s.shared.Some? then s.shared.value else |s.refreshes|)
            && (r'.header, r'.sent, r'.refreshUrl) == (r.header, r.sent, r.refreshUrl)
            && |t.removals| == |s.removals| + (if Unauthorized(response) && (r.refreshUrl || r.sent == 2) then 1 else 0)
            && t.refreshPosts == s.refreshPosts + (if r'.phase.Waiting? && s.shared.None? && s.refresh.Some? then 1 else 0)
  {
    InvExecution(states, steps, n);
    assert RequestOk(states[n], states[n].requests[i]);
  }

  /** The step signs the user out: a 401 on a second sending or on the refresh call, or a waiter whose
      refresh gave no token. */
  predicate SignsOutAt(s: State, step: Step) {
    match step
    case Respond(i, response) => i < |s.requests| && Unauthorized(response) && (s.requests[i].refreshUrl || s.requests[i].sent == 2)
    case Resume(i) =>
      i < |s.requests| && s.requests[i].phase.Waiting? && s.requests[i].phase.refresh < |s.refreshes|
      && s.refreshes[s.requests[i].phase.refresh] == Released(None)
    case _ => false
  }

  /** What a step saves or removes, of the access and the refresh token. */
  function Kept(s: State, step: Step, access: Option<Token>, refresh: Option<Token>): (Option<Token>, Option<Token>) {
    if SignsOutAt(s, step) then (None, None)
    else
      match step
      case RefreshReplies(Answer(Some(newAccess), newRefresh)) => (Some(newAccess), if newRefresh.Some? then newRefresh else refresh)
      case TokensSet(newAccess, newRefresh) => (Some(newAccess), if newRefresh.Some? then newRefresh else refresh)
      case CookiesExpire(accessGone, refreshGone) => (if accessGone then None else access, if refreshGone then None else refresh)
      case _ => (access, refresh)
  }

  /** The tokens that should be stored after `n` steps: those last saved, by a refresh that answered with
      an access token or by a sign-in, an old refresh token staying where no new one came; none after a
      sign-out; and what the cookies' expiry leaves. */
  function TokensAfter(states: seq<State>, steps: seq<Step>, n: nat): (Option<Token>, Option<Token>)
    requires |states| == |steps| + 1 && n <= |steps|
  {
    if n == 0 then (None, None)
    else
      var (access, refresh) := TokensAfter(states, steps, n - 1);
      Kept(states[n - 1], steps[n - 1], access, refresh)
  }

  lemma StepKeeps(s: State, step: Step)
    requires Enabled(s, step) && (step.Respond? ==> RequestOk(s, s.requests[step.request]))
    ensures (Next(s, step).access, Next(s, step).refresh) == Kept(s, step, s.access, s.refresh)
  {
  }

  /** In every execution those are the tokens stored. */
  lemma {:induction false} StoredTokens(states: seq<State>, steps: seq<Step>, n: nat)
    requires Execution(states, steps) && n <= |steps|
    ensures (states[n].access, states[n].refresh) == TokensAfter(states, steps, n)
  {
    if n > 0 {
      StoredTokens(states, steps, n - 1);
      InvExecution(states, steps, n - 1);
      StepKeeps(states[n - 1], steps[n - 1]);
    }
  }

  /** The step that settles what refresh `g` hands its waiters: its own reply, with the token it carried or
      none, or its start without a call, with none. */
  ghost predicate HandedOutBy(s: State, step: Step, g: nat, token: Option<Token>) {
    || (s.shared == Some(g) && step.RefreshReplies? && token == if step.reply.Answer? then step.reply.access else None)
    || (step.Respond? && s.shared.None? && |s.refreshes| == g && s.refresh.None? && token.None?)
  }

  lemma FinishedByStep(s: State, step: Step, g: nat)
    requires Inv(s) && Enabled(s, step) && g < |Next(s, step).refreshes| && !Next(s, step).refreshes[g].InFlight?
    ensures if g < |s.refreshes| && !s.refreshes[g].InFlight? then Next(s, step).refreshes[g].token == s.refreshes[g].token
            else HandedOutBy(s, step, g, Next(s, step).refreshes[g].token)
  {
  }

  /** Every finished refresh of an execution got its token that way. */
  lemma {:induction false} RefreshHandsOut(states: seq<State>, steps: seq<Step>, n: nat, g: nat) returns (k: nat)
    requires Execution(states, steps) && n <= |steps| && g < |states[n].refreshes| && !states[n].refreshes[g].InFlight?
    ensures k < n && HandedOutBy(states[k], steps[k], g, states[n].refreshes[g].token)
  {
    k := n - 1;
    var s := states[k];
    InvExecution(states, steps, k);
    FinishedByStep(s, steps[k], g);
    if g < |s.refreshes| && !s.refreshes[g].InFlight? {
      k := RefreshHandsOut(states, steps, k, g);
    }
  }

  /** The step that sends a request as it was last sent: its issue, or the resumption that replays it. */
  ghost predicate SentBy(s: State, step: Step, i: nat, r: Request) {
    || (step == Issue(r.refreshUrl) && |s.requests| == i && r.sent == 1 && r.header == s.access)
    || (step == Resume(i) && r.sent == 2 && r.header.Some?
        && i < |s.requests| && s.requests[i].phase.Waiting? && s.requests[i].phase.refresh < |s.refreshes|
        && var g := s.refreshes[s.requests[i].phase.refresh];
           g.Released? && r.header == if s.access.Some? then s.access else g.token)
  }

  lemma SentIsKept(s: State, step: Step, i: nat)
    requires Enabled(s, step) && i < |s.requests| && step != Resume(i)
    ensures var r, r' := s.requests[i], Next(s, step).requests[i];
            (r'.header, r'.sent, r'.refreshUrl) == (r.header, r.sent, r.refreshUrl)
  {
  }

  lemma SentAtStep(s: State, step: Step, i: nat)
    requires Inv(s) && Enabled(s, step) && i < |Next(s, step).requests|
    ensures var r' := Next(s, step).requests[i];
            if i < |s.requests| && (step != Resume(i) || r'.sent == s.requests[i].sent) then
              (r'.header, r'.sent, r'.refreshUrl) == (s.requests[i].header, s.requests[i].sent, s.requests[i].refreshUrl)
            else SentBy(s, step, i, r')
  {
    if i < |s.requests| {
      assert RequestOk(s, s.requests[i]);
      if step != Resume(i) {
        SentIsKept(s, step, i);
      }
    }
  }

  /** Every request was last sent with the token stored at that moment; a replay, when none was stored,
      with the token its refresh handed out. */
  lemma {:induction false} HeaderSent(states: seq<State>, steps: seq<Step>, n: nat, i: nat) returns (k: nat)
    requires Execution(states, steps) && n <= |steps| && i < |states[n].requests|
    ensures k < n && SentBy(states[k], steps[k], i, states[n].requests[i])
  {
    var s := states[n - 1];
    InvExecution(states, steps, n - 1);
    SentAtStep(s, steps[n - 1], i);
    if i < |s.requests| && (steps[n - 1] != Resume(i) || states[n].requests[i].sent == s.requests[i].sent) {
      k := HeaderSent(states, steps, n - 1, i);
    } else {
      k := n - 1;
    }
  }

  // ---------------------------------------------------------------------
  // Termination
  // ---------------------------------------------------------------------

  function RequestRank(r: Request): nat {
    match r.phase
    case OnWire => if r.retried then 1 else 5
    case Waiting(_) => 2
    case Settled(_) => 0
  }

  function RefreshRank(g: Refresh): nat {
    match g
    case InFlight => 2
    case Answered(_) => 1
    case Released(_) => 0
  }

  function Total<T>(s: seq<T>, rank: T -> nat): nat {
    if s == [] then 0 else Total(s[..|s| - 1], rank) + rank(s[|s| - 1])
  }

  /** Work still to do. */
  function Measure(s: State): nat {
    Total(s.requests, RequestRank) + Total(s.refreshes, RefreshRank)
  }

  lemma {:induction false} TotalUpdate<T>(s: seq<T>, rank: T -> nat, i: nat, x: T)
    requires i < |s|
    ensures Total(s[i := x], rank) + rank(s[i]) == Total(s, rank) + rank(x)
    decreases |s|
  {
    var last := |s| - 1;
    if i == last {
      assert s[i := x][..last] == s[..last];
    } else {
      TotalUpdate(s[..last], rank, i, x);
      assert s[i := x][..last] == s[..last][i := x];
    }
  }

  lemma {:induction false} TotalZero<T>(s: seq<T>, rank: T -> nat)
    ensures Total(s, rank) == 0 <==> forall i :: 0 <= i < |s| ==> rank(s[i]) == 0
    decreases |s|
  {
    if s != [] {
      TotalZero(s[..|s| - 1], rank);
    }
  }

  predicate OfTheProtocol(step: Step) {
    step.Respond? || step.RefreshReplies? || step.RefreshFinally? || step.Resume?
  }

  /** Doing work on one request, and at most starting one refresh for it. */
  lemma RequestStepRank(s: State, s': State, i: nat)
    requires i < |s.requests| && |s'.requests| == |s.requests| && s'.requests == s.requests[i := s'.requests[i]]
    requires s'.refreshes == s.refreshes
             || (|s'.refreshes| == |s.refreshes| + 1 && s'.refreshes[..|s.refreshes|] == s.refreshes)
    ensures var started := if s'.refreshes == s.refreshes then 0 else RefreshRank(s'.refreshes[|s.refreshes|]);
            Measure(s') + RequestRank(s.requests[i]) == Measure(s) + RequestRank(s'.requests[i]) + started
  {
    TotalUpdate(s.requests, RequestRank, i, s'.requests[i]);
  }

  lemma RefreshStepRank(s: State, s': State, g: nat)
    requires g < |s.refreshes| && s'.requests == s.requests
    requires |s'.refreshes| == |s.refreshes| && s'.refreshes == s.refreshes[g := s'.refreshes[g]]
    ensures Measure(s') + RefreshRank(s.refreshes[g]) == Measure(s) + RefreshRank(s'.refreshes[g])
  {
    TotalUpdate(s.refreshes, RefreshRank, g, s'.refreshes[g]);
  }

  /** Every step of the protocol leaves less to do; a new request adds five units, the cookies none. */
  lemma MeasureDecreases(s: State, step: Step)
    requires Inv(s) && Enabled(s, step)
    ensures OfTheProtocol(step) ==> Measure(Next(s, step)) < Measure(s)
    ensures !OfTheProtocol(step) ==> Measure(Next(s, step)) == Measure(s) + if step.Issue? then 5 else 0
  {
    var s' := Next(s, step);
    match step
    case Issue(_) =>
      assert s'.requests[..|s.requests|] == s.requests;
    case Respond(i, _) =>
      assert RequestOk(s, s.requests[i]);
      RequestStepRank(s, s', i);
    case RefreshReplies(_) => RefreshStepRank(s, s', s.shared.value);
    case RefreshFinally => RefreshStepRank(s, s', s.shared.value);
    case Resume(i) =>
      assert RequestOk(s, s.requests[i]);
      RequestStepRank(s, s', i);
    case _ =>
  }

  function Count(steps: seq<Step>, which: Step -> bool): nat {
    if steps == [] then 0 else Count(steps[..|steps| - 1], which) + if which(steps[|steps| - 1]) then 1 else 0
  }

  const ISSUES := (step: Step) => step.Issue?

  /** No execution runs on: it has at most five protocol steps for each request issued. */
  lemma {:induction false} ExecutionsAreShort(states: seq<State>, steps: seq<Step>)
    requires Execution(states, steps)
    ensures Count(steps, OfTheProtocol) + Measure(states[|steps|]) <= 5 * Count(steps, ISSUES)
    decreases |steps|
  {
    if steps != [] {
      var n := |steps| - 1;
      ExecutionsAreShort(states[..n + 1], steps[..n]);
      InvExecution(states, steps, n);
      MeasureDecreases(states[n], steps[n]);
    }
  }

  /** As long as something is unfinished, some protocol step can be taken: the network's answer to a
      request or to the refresh, the `finally`, or a resumption. */
  lemma Progress(s: State) returns (step: Step)
    requires Inv(s) && Measure(s) > 0
    ensures OfTheProtocol(step) && Enabled(s, step)
  {
    TotalZero(s.requests, RequestRank);
    TotalZero(s.refreshes, RefreshRank);
    if g :| 0 <= g < |s.refreshes| && !s.refreshes[g].Released? {
      step := if s.refreshes[g].InFlight? then RefreshReplies(CallFailed) else RefreshFinally;
    } else {
      var i :| 0 <= i < |s.requests| && RequestRank(s.requests[i]) != 0;
      assert RequestOk(s, s.requests[i]);
      step := if s.requests[i].phase.OnWire? then Respond(i, Success) else Resume(i);
    }
  }

  /** An execution that cannot be continued has settled every request. */
  lemma StuckMeansSettled(states: seq<State>, steps: seq<Step>)
    requires Execution(states, steps)
    requires forall step :: OfTheProtocol(step) ==> !Enabled(states[|steps|], step)
    ensures var s := states[|steps|];
            && s.shared == None
            && forall i :: 0 <= i < |s.requests| ==> s.requests[i].phase.Settled? && s.requests[i].settlements == 1
  {
    var s := states[|steps|];
    InvExecution(states, steps, |steps|);
    if Measure(s) > 0 {
      var step := Progress(s);
    }
    TotalZero(s.requests, RequestRank);
    TotalZero(s.refreshes, RefreshRank);
    forall i | 0 <= i < |s.requests|
      ensures s.requests[i].phase.Settled? && s.requests[i].settlements == 1
    {
      assert RequestRank(s.requests[i]) == 0 && RequestOk(s, s.requests[i]);
    }
  }
}
