/**
 * Authentication by interchangeable strategies (package `patterns`, strategy.go).
 *
 * Each strategy checks a credential against the one literal it accepts and
 * answers with the Go pair (identity, error). An `AuthContext` holds one
 * strategy slot, replaced by `SetStrategy` and used by `Authenticate`.
 */
module Strategy {
  import opened Wrappers

  /** The identity every strategy returns on success. */
  const AuthenticatedUser := "user123"

  const ValidJWTToken := "valid-jwt-token"
  const ValidBasicCredentials := "user:password"
  const ValidOAuth2Token := "valid-oauth-token"

  /** The three error values the strategies return (their messages differ). */
  datatype Error = InvalidJWTToken | InvalidBasicCredentials | InvalidOAuth2Token

  /** The pair `(string, error)` that every `Authenticate` returns. */
  datatype AuthReply = AuthReply(userID: string, err: Option<Error>)

  /** A reply is well formed when it carries an identity exactly when it carries no
      error, and the identity is the fixed user or empty. */
  predicate WellFormed(r: AuthReply) {
    (r.err.None? <==> r.userID != "") &&
    (r.userID == AuthenticatedUser || r.userID == "")
  }

  /** The implementations of the `AuthStrategy` interface; all are stateless. */
  datatype AuthStrategy = JWTAuth | BasicAuth | OAuth2Auth

  /** The one credential a strategy accepts. */
  function AcceptedCredential(s: AuthStrategy): string {
    match s
    case JWTAuth => ValidJWTToken
    case BasicAuth => ValidBasicCredentials
    case OAuth2Auth => ValidOAuth2Token
  }

  /** `(*JWTAuth).Authenticate` */
  function JWTAuthenticate(token: string): (r: AuthReply)
    ensures r.err.None? <==> token == ValidJWTToken
    ensures r.err.None? ==> r.userID == AuthenticatedUser
    ensures r.err.Some? ==> r.userID == "" && r.err.value == InvalidJWTToken
  {
    if token == ValidJWTToken then AuthReply(AuthenticatedUser, None)
    else AuthReply("", Some(InvalidJWTToken))
  }

  /** `(*BasicAuth).Authenticate` */
  function BasicAuthenticate(credentials: string): (r: AuthReply)
    ensures r.err.None? <==> credentials == ValidBasicCredentials
    ensures r.err.None? ==> r.userID == AuthenticatedUser
    ensures r.err.Some? ==> r.userID == "" && r.err.value == InvalidBasicCredentials
  {
    if credentials == ValidBasicCredentials then AuthReply(AuthenticatedUser, None)
    else AuthReply("", Some(InvalidBasicCredentials))
  }

  /** `(*OAuth2Auth).Authenticate` */
  function OAuth2Authenticate(token: string): (r: AuthReply)
    ensures r.err.None? <==> token == ValidOAuth2Token
    ensures r.err.None? ==> r.userID == AuthenticatedUser
    ensures r.err.Some? ==> r.userID == "" && r.err.value == InvalidOAuth2Token
  {
    if token == ValidOAuth2Token then AuthReply(AuthenticatedUser, None)
    else AuthReply("", Some(InvalidOAuth2Token))
  }

  /** A call through the `AuthStrategy` interface: dynamic dispatch on the variant. */
  function StrategyAuthenticate(s: AuthStrategy, credentials: string): (r: AuthReply)
    ensures WellFormed(r)
    ensures r.err.None? <==> credentials == AcceptedCredential(s)
  {
    match s
    case JWTAuth => JWTAuthenticate(credentials)
    case BasicAuth => BasicAuthenticate(credentials)
    case OAuth2Auth => OAuth2Authenticate(credentials)
  }

  /** No credential is accepted by two different strategies, so a successful
      reply identifies the strategy that gave it. */
  lemma AcceptingStrategyIsUnique(s: AuthStrategy, t: AuthStrategy, credentials: string)
    requires StrategyAuthenticate(s, credentials).err.None?
    requires StrategyAuthenticate(t, credentials).err.None?
    ensures s == t
  {
  }

  /** The single-slot context. Its zero value `&AuthContext{}` has no strategy. */
  class AuthContext {
    var strategy: Option<AuthStrategy>

    /** `&AuthContext{}`: the slot starts empty. */
    constructor ()
      ensures strategy == None
    {
      strategy := None;
    }

    /** Replaces the slot wholesale; nothing else changes. */
    method SetStrategy(s: AuthStrategy)
      modifies this`strategy
      ensures strategy == Some(s)
    {
      strategy := Some(s);
    }

    /** Delegates to the strategy in the slot. With the slot empty the Go code
        calls a method on a nil interface and panics, so a strategy must be set. */
    method Authenticate(credentials: string) returns (userID: string, err: Option<Error>)
      requires strategy.Some?
      ensures AuthReply(userID, err) == StrategyAuthenticate(strategy.value, credentials)
    {
      var reply := StrategyAuthenticate(strategy.value, credentials);
      userID, err := reply.userID, reply.err;
    }
  }

  /** One call on an `AuthContext`. */
  datatype ContextCall = SetStrategyCall(strategy: AuthStrategy) | AuthenticateCall(credentials: string)

  /** The context's slot after a sequence of calls, starting from `slot`. */
  function SlotAfter(slot: Option<AuthStrategy>, calls: seq<ContextCall>): Option<AuthStrategy>
    decreases |calls|
  {
    if calls == [] then slot
    else
      var next := if calls[0].SetStrategyCall? then Some(calls[0].strategy) else slot;
      SlotAfter(next, calls[1..])
  }

  /** No `Authenticate` call of the sequence meets an empty slot (which in Go
      is a call on a nil interface, a panic). */
  predicate Configured(slot: Option<AuthStrategy>, calls: seq<ContextCall>)
    decreases |calls|
  {
    calls == [] ||
    ((calls[0].AuthenticateCall? ==> slot.Some?) &&
     Configured(if calls[0].SetStrategyCall? then Some(calls[0].strategy) else slot, calls[1..]))
  }

  /** The replies of the `Authenticate` calls of the sequence, in order: each is
      the answer of the strategy in the slot at that point. */
  function Replies(slot: Option<AuthStrategy>, calls: seq<ContextCall>): seq<AuthReply>
    requires Configured(slot, calls)
    decreases |calls|
  {
    if calls == [] then []
    else match calls[0]
      case SetStrategyCall(s) => Replies(Some(s), calls[1..])
      case AuthenticateCall(c) => [StrategyAuthenticate(slot.value, c)] + Replies(slot, calls[1..])
  }

  /** Once a strategy is set the slot never empties again, so every sequence of
      calls after it is safe. */
  lemma {:induction false} SetSlotStaysConfigured(slot: Option<AuthStrategy>, calls: seq<ContextCall>)
    requires slot.Some?
    ensures Configured(slot, calls)
    ensures SlotAfter(slot, calls).Some?
    decreases |calls|
  {
    if calls != [] {
      SetSlotStaysConfigured(if calls[0].SetStrategyCall? then Some(calls[0].strategy) else slot, calls[1..]);
    }
  }

  /** `Authenticate` calls leave the slot as it is. */
  lemma {:induction false} AuthenticateCallsKeepSlot(slot: Option<AuthStrategy>, calls: seq<ContextCall>)
    requires forall j :: 0 <= j < |calls| ==> calls[j].AuthenticateCall?
    ensures SlotAfter(slot, calls) == slot
    decreases |calls|
  {
    if calls != [] {
      AuthenticateCallsKeepSlot(slot, calls[1..]);
    }
  }

  /** Only the most recent `SetStrategy` decides the slot: whatever was set
      before it, and the initial slot, have no influence. */
  lemma {:induction false} LastSetStrategyWins(slot: Option<AuthStrategy>, calls: seq<ContextCall>, i: nat)
    requires i < |calls| && calls[i].SetStrategyCall?
    requires forall j :: i < j < |calls| ==> calls[j].AuthenticateCall?
    ensures SlotAfter(slot, calls) == Some(calls[i].strategy)
    decreases |calls|
  {
    if i == 0 {
      AuthenticateCallsKeepSlot(Some(calls[0].strategy), calls[1..]);
    } else {
      var next := if calls[0].SetStrategyCall? then Some(calls[0].strategy) else slot;
      LastSetStrategyWins(next, calls[1..], i - 1);
    }
  }

  /** A session that sets strategy `s` and then only authenticates answers every
      credential exactly as `s` does, whatever the context held before. */
  lemma SessionAnswersWithLastStrategy(slot: Option<AuthStrategy>, calls: seq<ContextCall>, s: AuthStrategy, credentials: string)
    requires forall j :: 0 <= j < |calls| ==> calls[j].AuthenticateCall?
    ensures SlotAfter(slot, [SetStrategyCall(s)] + calls).Some?
    ensures StrategyAuthenticate(SlotAfter(slot, [SetStrategyCall(s)] + calls).value, credentials)
         == StrategyAuthenticate(s, credentials)
  {
    LastSetStrategyWins(slot, [SetStrategyCall(s)] + calls, 0);
  }

  /** With strategy `s` in the slot, a run of `Authenticate` calls answers each
      credential exactly as `s` does. */
  lemma {:induction false} RepliesUnderOneStrategy(s: AuthStrategy, calls: seq<ContextCall>)
    requires forall j :: 0 <= j < |calls| ==> calls[j].AuthenticateCall?
    ensures Configured(Some(s), calls)
    ensures |Replies(Some(s), calls)| == |calls|
    ensures forall j :: 0 <= j < |calls| ==>
      Replies(Some(s), calls)[j] == StrategyAuthenticate(s, calls[j].credentials)
    decreases |calls|
  {
    SetSlotStaysConfigured(Some(s), calls);
    if calls != [] {
      RepliesUnderOneStrategy(s, calls[1..]);
      forall j | 0 <= j < |calls|
        ensures Replies(Some(s), calls)[j] == StrategyAuthenticate(s, calls[j].credentials)
      {
        if j > 0 {
          assert calls[1..][j - 1] == calls[j];
        }
      }
    }
  }

  /** Performs a sequence of calls on one context, collecting the replies of its
      `Authenticate` calls. The context ends with the slot `SlotAfter` gives,
      and the replies are those `Replies` gives. */
  method RunSession(context: AuthContext, calls: seq<ContextCall>) returns (replies: seq<AuthReply>)
    requires Configured(context.strategy, calls)
    modifies context
    ensures context.strategy == SlotAfter(old(context.strategy), calls)
    ensures replies == Replies(old(context.strategy), calls)
  {
    replies := [];
    var i := 0;
    while i < |calls|
      invariant 0 <= i <= |calls|
      invariant Configured(context.strategy, calls[i..])
      invariant SlotAfter(context.strategy, calls[i..]) == SlotAfter(old(context.strategy), calls)
      invariant replies + Replies(context.strategy, calls[i..]) == Replies(old(context.strategy), calls)
    {
      assert calls[i..][1..] == calls[i + 1..];
      match calls[i] {
        case SetStrategyCall(s) =>
          context.SetStrategy(s);
        case AuthenticateCall(c) =>
          var userID, err := context.Authenticate(c);
          replies := replies + [AuthReply(userID, err)];
      }
      i := i + 1;
    }
  }

  /** The calls of `main`: JWT, Basic and OAuth2 in turn on one context, each
      with its accepted credential. The final call, absent from `main`, shows the
      JWT token rejected once OAuth2 has replaced JWT. */
  method AuthenticationDemo() returns (ids: seq<string>, rejected: AuthReply)
    ensures ids == [AuthenticatedUser, AuthenticatedUser, AuthenticatedUser]
    ensures rejected == AuthReply("", Some(InvalidOAuth2Token))
  {
    var context := new AuthContext();
    context.SetStrategy(JWTAuth);
    var id1, _ := context.Authenticate(ValidJWTToken);
    context.SetStrategy(BasicAuth);
    var id2, _ := context.Authenticate(ValidBasicCredentials);
    context.SetStrategy(OAuth2Auth);
    var id3, _ := context.Authenticate(ValidOAuth2Token);
    ids := [id1, id2, id3];
    var id4, err4 := context.Authenticate(ValidJWTToken);
    rejected := AuthReply(id4, err4);
  }
}
