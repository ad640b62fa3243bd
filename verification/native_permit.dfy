/**
 The single-use native permit (modules/integration/native_finance_guard.py, idempiere_client.py `_call` and
 `_raw_request`, the scopes of modules/order_to_cash/service.py), in a protected runtime.

 Two context variables guard every financial write: the one request that is permitted, and whether the governed scope's
 write is spent. Scopes and permits nest and are undone however their bodies end. A program is a tree of such
 blocks. */
module NativePermit {
  import opened Prelude

  /** Method, path and digest of the body. */
  datatype Request = Request(method_: string, path: string, digest: string)

  datatype Reply = Answered | Unauthorised | Failed

  /** One native financial call: the other conditions of the gate hold or not (`bound`), logins succeed or not, and the
      engine replies to the first and, should there be one, the second send. */
  datatype Call = Call(request: Request, bound: bool, login: bool, reply: Reply, relogin: bool, second: Reply)

  datatype Program =
    | Skip
    | Raise
    | Then(first: Program, rest: Program)
    | Governed(body: Program)
    | Permitted(request: Request, body: Program)
    | Catching(body: Program)
    | Calls(call: Call)

  /** A permit in force, numbered when it was granted. */
  datatype Permit = Permit(id: nat, request: Request)

  /** What reached the engine, under which scope and permit. */
  datatype Sent = Sent(scope: nat, permit: nat, request: Request)

  /** The two context variables; which governed scope is innermost; and a history of numbers given out and requests
      sent. */
  datatype State = State(request: Option<Permit>, spent: bool, scope: Option<nat>, next: nat, log: seq<Sent>,
      granted: map<nat, Request>)

  /** The variables' defaults: nothing permitted, nothing to spend. */
  const START: State := State(None, true, None, 0, [], map[])

  /** How a block ends. */
  datatype Ending = Ending(state: State, raised: bool)

  predicate Allowed(s: State, request: Request) {
    s.request.Some? && s.request.value.request == request && !s.spent && s.scope.Some?
  }

  /** `_require_exact_request(consume=True)` and the send. */
  function Consumed(s: State, request: Request): State
    requires Allowed(s, request)
  {
    s.(request := None, spent := true, log := s.log + [Sent(s.scope.value, s.request.value.id, request)])
  }

  /** `_raw_request`. */
  function Raw(s: State, c: Call): Ending {
    if !c.bound || !Allowed(s, c.request) then Ending(s, true) else Ending(Consumed(s, c.request), c.reply.Failed?)
  }

  /** `_call`: denied before the login, denied again at the send, and after a 401 sent once more only if still
      allowed. */
  function Called(s: State, c: Call): Ending {
    if !c.bound || !Allowed(s, c.request) || !c.login then Ending(s, true)
    else
      var first := Raw(s, c);
      if !c.reply.Unauthorised? then first
      else if !c.relogin then Ending(first.state, true)
      else if !Allowed(first.state, c.request) then Ending(first.state, true)
      else Ending(Consumed(first.state, c.request), !c.second.Answered?)
  }

  function EnterScope(s: State): State {
    s.(spent := false, scope := Some(s.next), next := s.next + 1)
  }

  function EnterPermit(s: State, request: Request): State {
    s.(request := Some(Permit(s.next, request)), next := s.next + 1, granted := s.granted[s.next := request])
  }

  function Eval(p: Program, s: State): Ending
    decreases p
  {
    match p
    case Skip => Ending(s, false)
    case Raise => Ending(s, true)
    case Then(first, rest) =>
      var e := Eval(first, s);
      if e.raised then e else Eval(rest, e.state)
    case Governed(body) =>
      var e := Eval(body, EnterScope(s));
      Ending(e.state.(spent := s.spent, scope := s.scope), e.raised)
    case Permitted(request, body) =>
      var e := Eval(body, EnterPermit(s, request));
      Ending(e.state.(request := s.request), e.raised)
    case Catching(body) => Ending(Eval(body, s).state, false)
    case Calls(c) => Called(s, c)
  }

  // ---------------------------------------------------------------------------------------------------------------
  // One send per scope and per permit
  // ---------------------------------------------------------------------------------------------------------------

  predicate OnceEach(log: seq<Sent>) {
    forall i, j :: 0 <= i < j < |log| ==> log[i].scope != log[j].scope && log[i].permit != log[j].permit
  }

  /** Everything sent is known and matches its permit; what may still be sent has not been. */
  ghost predicate Fits(s: State) {
    && OnceEach(s.log)
    && (forall i :: 0 <= i < |s.log| ==>
          && s.log[i].scope < s.next && s.log[i].permit < s.next
          && s.log[i].permit in s.granted && s.granted[s.log[i].permit] == s.log[i].request)
    && (forall id :: id in s.granted ==> id < s.next)
    && (s.scope.Some? ==> s.scope.value < s.next)
    && (!s.spent ==> s.scope.Some? && forall i :: 0 <= i < |s.log| ==> s.log[i].scope != s.scope.value)
    && (s.request.Some? ==>
          && s.request.value.id in s.granted && s.granted[s.request.value.id] == s.request.value.request
          && forall i :: 0 <= i < |s.log| ==> s.log[i].permit != s.request.value.id)
  }

  /** What a block leaves as it was, and what its sends can be numbered with. */
  ghost predicate Extends(s: State, s': State) {
    && s.next <= s'.next && s'.scope == s.scope && (s.spent ==> s'.spent)
    && (forall id :: id in s.granted ==> id in s'.granted && s'.granted[id] == s.granted[id])
    && s.log <= s'.log
    && (s'.request.Some? ==> s'.request == s.request)
    && (forall i :: |s.log| <= i < |s'.log| ==>
          && (s'.log[i].scope >= s.next || (!s.spent && s.scope == Some(s'.log[i].scope)))
          && (s'.log[i].permit >= s.next || (s.request.Some? && s.request.value.id == s'.log[i].permit)))
  }

  lemma ConsumedFits(s: State, request: Request)
    requires Fits(s) && Allowed(s, request)
    ensures Fits(Consumed(s, request)) && Extends(s, Consumed(s, request))
  {
  }

  /** A 401 cannot lead to a second send: the first one has consumed the permit. */
  lemma RetrySendsNothing(s: State, c: Call)
    ensures var s' := Called(s, c).state;
            if c.bound && c.login && Allowed(s, c.request) then s' == Consumed(s, c.request) else s' == s
  {
  }

  /** A call goes through exactly when its gate holds, an unspent governed scope and a permit for just this request are
      in force, a login succeeds and the engine answers; anything else raises. */
  lemma CallSucceedsExactly(s: State, c: Call)
    ensures !Called(s, c).raised <==>
              && c.bound && c.login && c.reply.Answered?
              && s.scope.Some? && !s.spent && s.request.Some? && s.request.value.request == c.request
    ensures !Called(s, c).raised ==>
              Called(s, c).state.log == s.log + [Sent(s.scope.value, s.request.value.id, c.request)]
  {
    RetrySendsNothing(s, c);
  }

  lemma CalledFits(s: State, c: Call)
    requires Fits(s)
    ensures Fits(Called(s, c).state) && Extends(s, Called(s, c).state)
  {
    RetrySendsNothing(s, c);
    if Allowed(s, c.request) { ConsumedFits(s, c.request); }
  }

  lemma ScopeFits(s: State, inner: State)
    requires Fits(s) && Fits(inner) && Extends(EnterScope(s), inner)
    ensures Fits(inner.(spent := s.spent, scope := s.scope)) && Extends(s, inner.(spent := s.spent, scope := s.scope))
  {
    var after := inner.(spent := s.spent, scope := s.scope);
    forall i | 0 <= i < |after.log| && !s.spent ensures after.log[i].scope != s.scope.value {
      if i < |s.log| { assert after.log[i] == s.log[i]; }
    }
  }

  lemma PermitFits(s: State, request: Request, inner: State)
    requires Fits(s) && Fits(inner) && Extends(EnterPermit(s, request), inner)
    ensures Fits(inner.(request := s.request)) && Extends(s, inner.(request := s.request))
  {
    var after := inner.(request := s.request);
    forall i | 0 <= i < |after.log| && s.request.Some? ensures after.log[i].permit != s.request.value.id {
      if i < |s.log| { assert after.log[i] == s.log[i]; }
    }
  }

  lemma EnteredFits(s: State, request: Request)
    requires Fits(s)
    ensures Fits(EnterScope(s)) && Fits(EnterPermit(s, request))
  {
  }

  lemma ExtendsTrans(a: State, b: State, c: State)
    requires Extends(a, b) && Extends(b, c)
    ensures Extends(a, c)
  {
    forall i | |a.log| <= i < |c.log|
      ensures c.log[i].scope >= a.next || (!a.spent && a.scope == Some(c.log[i].scope))
      ensures c.log[i].permit >= a.next || (a.request.Some? && a.request.value.id == c.log[i].permit)
    {
      if i < |b.log| { assert c.log[i] == b.log[i]; }
    }
  }

  lemma {:induction false} EvalFits(p: Program, s: State)
    requires Fits(s)
    ensures Fits(Eval(p, s).state) && Extends(s, Eval(p, s).state)
    decreases p
  {
    match p
    case Skip =>
    case Raise =>
    case Then(first, rest) =>
      EvalFits(first, s);
      var e := Eval(first, s);
      if !e.raised {
        EvalFits(rest, e.state);
        ExtendsTrans(s, e.state, Eval(rest, e.state).state);
      }
    case Governed(body) =>
      EnteredFits(s, Request("", "", ""));
      EvalFits(body, EnterScope(s));
      ScopeFits(s, Eval(body, EnterScope(s)).state);
    case Permitted(request, body) =>
      EnteredFits(s, request);
      EvalFits(body, EnterPermit(s, request));
      PermitFits(s, request, Eval(body, EnterPermit(s, request)).state);
    case Catching(body) => EvalFits(body, s);
    case Calls(c) => CalledFits(s, c);
  }

  /** Whatever blocks nest in whatever way, and however they end: each governed scope, not counting the scopes inside
      it, and each permit lets at most one request through, and that request is exactly the one the permit was granted
      for. */
  lemma SingleUse(p: Program)
    ensures var s := Eval(p, START).state;
            && OnceEach(s.log)
            && (forall i :: 0 <= i < |s.log| ==>
                s.log[i].permit in s.granted && s.granted[s.log[i].permit] == s.log[i].request)
            && s.request.None? && s.spent && s.scope.None?
  {
    EvalFits(p, START);
  }

  /** No block of the program opens a governed scope. */
  predicate Scopeless(p: Program)
    decreases p
  {
    match p
    case Then(first, rest) => Scopeless(first) && Scopeless(rest)
    case Permitted(_, body) => Scopeless(body)
    case Catching(body) => Scopeless(body)
    case Governed(_) => false
    case _ => true
  }

  /** No block of the program grants a permit. */
  predicate Permitless(p: Program)
    decreases p
  {
    match p
    case Then(first, rest) => Permitless(first) && Permitless(rest)
    case Governed(body) => Permitless(body)
    case Catching(body) => Permitless(body)
    case Permitted(_, _) => false
    case _ => true
  }

  /** Outside every governed scope permits let nothing through. */
  lemma {:induction false} NoScopeNoSend(p: Program, s: State)
    requires s.spent && Scopeless(p)
    ensures Eval(p, s).state.log == s.log && Eval(p, s).state.spent
    decreases p
  {
    match p
    case Then(first, rest) =>
      NoScopeNoSend(first, s);
      if !Eval(first, s).raised { NoScopeNoSend(rest, Eval(first, s).state); }
    case Permitted(request, body) => NoScopeNoSend(body, EnterPermit(s, request));
    case Catching(body) => NoScopeNoSend(body, s);
    case _ =>
  }

  /** Without a permit a governed scope lets nothing through. */
  lemma {:induction false} NoPermitNoSend(p: Program, s: State)
    requires s.request.None? && Permitless(p)
    ensures Eval(p, s).state.log == s.log && Eval(p, s).state.request.None?
    decreases p
  {
    match p
    case Then(first, rest) =>
      NoPermitNoSend(first, s);
      if !Eval(first, s).raised { NoPermitNoSend(rest, Eval(first, s).state); }
    case Governed(body) => NoPermitNoSend(body, EnterScope(s));
    case Catching(body) => NoPermitNoSend(body, s);
    case _ =>
  }

  /** The permit does its work once: a governed scope around a permit around its call sends it, and a second try does
      not. */
  lemma PermittedCallIsSent(s: State, c: Call, again: Call)
    requires c.bound && c.login && c.reply.Answered?
    ensures var p := Governed(Permitted(c.request, Then(Calls(c), Calls(again))));
            && |Eval(p, s).state.log| == |s.log| + 1
            && Eval(p, s).state.log[|s.log|].request == c.request
  {
    var s1 := EnterPermit(EnterScope(s), c.request);
    assert Called(s1, c) == Ending(Consumed(s1, c.request), false);
    assert Called(Consumed(s1, c.request), again) == Ending(Consumed(s1, c.request), true);
    assert Eval(Calls(c), s1) == Called(s1, c);
    assert Eval(Calls(again), Consumed(s1, c.request)).state == Consumed(s1, c.request);
    assert Eval(Then(Calls(c), Calls(again)), s1).state == Consumed(s1, c.request);
    assert Eval(Permitted(c.request, Then(Calls(c), Calls(again))), EnterScope(s)).state.log == Consumed(s1,
        c.request).log;
  }

  // ---------------------------------------------------------------------------------------------------------------
  // The guard as it runs
  // ---------------------------------------------------------------------------------------------------------------

  class Guard {
    var request: Option<Permit>
    var spent: bool
    var scope: Option<nat>
    var next: nat
    var log: seq<Sent>
    var granted: map<nat, Request>

    function Snapshot(): State
      reads this
    {
      State(request, spent, scope, next, log, granted)
    }

    constructor ()
      ensures Snapshot() == START
    {
      request, spent, scope, next, log, granted := None, true, None, 0, [], map[];
    }

    /** `_require_exact_request`; false is a denial. */
    method RequireExact(wanted: Request, consume: bool) returns (allowed: bool)
      modifies this`request, this`spent, this`log
      ensures allowed == Allowed(old(Snapshot()), wanted)
      ensures Snapshot() == if allowed && consume then Consumed(old(Snapshot()), wanted) else old(Snapshot())
    {
      if request.None? || request.value.request != wanted || spent || scope.None? {
        return false;
      }
      if consume {
        log := log + [Sent(scope.value, request.value.id, wanted)];
        request := None;
        spent := true;
      }
      allowed := true;
    }

    method RawRequest(c: Call, reply: Reply) returns (raised: bool)
      modifies this`request, this`spent, this`log
      ensures raised <==> !c.bound || !Allowed(old(Snapshot()), c.request) || !reply.Answered?
      ensures Snapshot() == if c.bound && Allowed(old(Snapshot()), c.request) then Consumed(old(Snapshot()), c.request)
                            else old(Snapshot())
    {
      if !c.bound {
        return true;
      }
      var allowed := RequireExact(c.request, true);
      raised := !allowed || !reply.Answered?;
    }

    method CallEngine(c: Call) returns (raised: bool)
      modifies this`request, this`spent, this`log
      ensures Ending(Snapshot(), raised) == Called(old(Snapshot()), c)
    {
      if !c.bound {
        return true;
      }
      var allowed := RequireExact(c.request, false);
      if !allowed || !c.login {
        return true;
      }
      raised := RawRequest(c, c.reply);
      if raised && c.reply.Unauthorised? {
        if !c.relogin {
          return true;
        }
        raised := RawRequest(c, c.second);
      }
    }

    /** Runs a program; `finally` undoes each block's variable whatever happened inside. */
    method Execute(p: Program) returns (raised: bool)
      modifies this
      ensures Ending(Snapshot(), raised) == Eval(p, old(Snapshot()))
      decreases p
    {
      match p {
        case Skip => raised := false;
        case Raise => raised := true;
        case Then(first, rest) =>
          raised := Execute(first);
          if !raised {
            raised := Execute(rest);
          }
        case Governed(body) =>
          var token := (spent, scope);
          spent, scope, next := false, Some(next), next + 1;
          raised := Execute(body);
          spent, scope := token.0, token.1;
        case Permitted(wanted, body) =>
          var token := request;
          request, granted := Some(Permit(next, wanted)), granted[next := wanted];
          next := next + 1;
          raised := Execute(body);
          request := token;
        case Catching(body) =>
          var _ := Execute(body);
          raised := false;
        case Calls(c) => raised := CallEngine(c);
      }
    }
  }
}
