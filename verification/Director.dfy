/** internal/director/directorclient.go: the client of the Compass Director. The Director itself is
    the runtimes of the outside world; a request may be lost before or after it took effect. */
module Director {
  import opened Wrappers
  import opened Worlds
  import opened Protocol
  import opened Runs
  import opened AppErrors
  import opened OAuth
  import opened Platform

  /** The three mutations. `owner` is the Kyma that the controller is busy with. */
  datatype Request =
    | RegisterRuntime(owner: string, tenant: string)
    | UnregisterRuntime(owner: string, id: string, tenant: string)
    | RequestOneTimeToken(owner: string, id: string, tenant: string)

  datatype Result = Result(id: string, oneTimeToken: OneTimeToken)

  /** What comes back: an error, or data whose result may be nil. */
  datatype Reply = Rejected(err: GqlError) | Answered(result: Option<Result>)

  /** The controller makes a request only when the protocol is in the matching phase. */
  ghost predicate Permitted(w: World, request: Request) {
    match request
    case RegisterRuntime(owner, tenant) =>
      !w.dry && w.enabled && owner in w.profile && w.StageAt(owner) == Pending && tenant == w.Account(owner)
    case UnregisterRuntime(owner, id, tenant) =>
      (id, tenant) in w.deregistrations && id in w.runtimes && w.runtimes[id].owner == owner
    case RequestOneTimeToken(owner, id, tenant) => !w.dry && ConfigureDue(w, owner, id, tenant)
  }

  /** The effect that a request can have on the Director, `acts` being the step that it takes, if any: at
      most one runtime appears or goes, or one token is handed out. */
  ghost predicate Effect(w: World, w': World, request: Request, acts: seq<Action>) {
    if acts == [] then w' == w
    else
      |acts| == 1 &&
      match request
      case RegisterRuntime(owner, tenant) =>
        && acts[0].CreateRuntime? && acts[0] == CreateRuntime(owner, acts[0].id, tenant) && acts[0].id !in w.runtimes
        && w' == w.(runtimes := w.runtimes[acts[0].id := Runtime(owner, tenant, Unacknowledged)])
      case UnregisterRuntime(owner, id, tenant) =>
        && acts[0] == DeleteRuntime(owner, id, tenant) && w.Live(id, tenant)
        && w' == w.(runtimes := SetFate(w.runtimes, id, Deleted))
      case RequestOneTimeToken(owner, id, tenant) =>
        && acts[0].FetchToken? && acts[0] == FetchToken(owner, id, tenant, acts[0].token)
        && w' == w.(fetched := w.fetched[owner := Fetched(id, tenant, acts[0].token)])
  }

  /** The Director tells the truth: it names the runtime it created, confirms a deletion only when
      done, says "not found" only when the tenant has no such runtime, and answers with the token that it
      hands out. */
  ghost predicate Truthful(w': World, request: Request, acts: seq<Action>, reply: Reply) {
    match request
    case RegisterRuntime(owner, tenant) =>
      reply.Answered? && reply.result.Some? ==> acts == [CreateRuntime(owner, reply.result.value.id, tenant)]
    case UnregisterRuntime(_, id, tenant) => Confirms(reply, id) ==> !w'.Live(id, tenant)
    case RequestOneTimeToken(owner, id, tenant) =>
      acts == if reply.Answered? && reply.result.Some? then
        [FetchToken(owner, id, tenant, reply.result.value.oneTimeToken)]
              else []
  }

  predicate Confirms(reply: Reply, id: string) {
    match reply
    case Answered(result) => result.Some? && result.value.id == id
    case Rejected(err) => AsExtended(err) == Some(Float64(NotFoundError))
  }

  /** The registration is acknowledged with a UUID. */
  predicate Acknowledges(reply: Reply) {
    reply.Answered? && reply.result.Some? && IsUuid(reply.result.value.id)
  }

  /** The answer has a token. */
  predicate Hands(reply: Reply) {
    reply.Answered? && reply.result.Some?
  }

  /** The answer that the controller is after. */
  predicate Good(reply: Reply, request: Request, pattern: string) {
    match request
    case RegisterRuntime(_, _) => Acknowledges(reply)
    case UnregisterRuntime(_, id, _) => Confirms(reply, id)
    case RequestOneTimeToken(_, _, _) => Hands(reply) && Acceptable(reply.result.value.oneTimeToken, pattern)
  }

  /** What has to succeed before the request goes out. */
  function Preludes(request: Request): set<CallKind> {
    if request.RegisterRuntime? then {InputBuild, AccessTokenRequest} else {AccessTokenRequest}
  }

  function KindOf(request: Request): CallKind {
    match request
    case RegisterRuntime(_, _) => RegisterRequest
    case UnregisterRuntime(_, _, _) => UnregisterRequest
    case RequestOneTimeToken(_, _, _) => TokenRequest
  }

  /** The GraphQL endpoint. A request fails exactly when there is no good answer to it. */
  method Ask(outside: Outside, request: Request) returns (reply: Reply, ghost acts: seq<Action>)
    requires outside.Valid() && Permitted(outside.world, request) && request.owner == outside.focus
    modifies outside`world, outside`log, outside`deeds, outside`faults
    ensures outside.Valid() && old(outside.log) <= outside.log && outside.deeds == old(outside.deeds) + acts
    ensures Effect(old(outside.world), outside.world, request, acts)
    ensures Truthful(outside.world, request, acts, reply)
    ensures outside.faults == old(outside.faults) + if Good(reply, request, outside.world.pattern) then 0 else 1
    ensures !Good(reply, request, outside.world.pattern) ==>
              FailsIn(outside.log, |old(outside.log)|, {KindOf(request)})
  {
    match request
    case RegisterRuntime(owner, tenant) => reply, acts := AskToRegister(outside, owner, tenant);
    case UnregisterRuntime(owner, id, tenant) => reply, acts := AskToUnregister(outside, owner, id, tenant);
    case RequestOneTimeToken(owner, id, tenant) => reply, acts := AskForToken(outside, owner, id, tenant);
  }

  method AskToRegister(outside: Outside, owner: string, tenant: string) returns (reply: Reply, ghost acts: seq<Action>)
    requires outside.Valid() && Permitted(outside.world, RegisterRuntime(owner, tenant)) && owner == outside.focus
    modifies outside`world, outside`log, outside`deeds, outside`faults
    ensures outside.Valid() && old(outside.log) <= outside.log && outside.deeds == old(outside.deeds) + acts
    ensures Effect(old(outside.world), outside.world, RegisterRuntime(owner, tenant), acts)
    ensures Truthful(outside.world, RegisterRuntime(owner, tenant), acts, reply)
    ensures outside.faults == old(outside.faults) + if Acknowledges(reply) then 0 else 1
    ensures !Acknowledges(reply) ==> FailsIn(outside.log, |old(outside.log)|, {RegisterRequest})
  {
    hide StageOf;
    hide FailsIn;
    hide Recorded;
    acts := [];
    var fails, id := outside.TryRegister();
    ghost var log := outside.log;
    var arrives: bool := *;
    if fails {
      id := *;
    }
    var created := !fails || (arrives && id !in outside.world.runtimes);
    if created {
      acts := [CreateRuntime(owner, id, tenant)];
      DirectorStep(outside.world, CreateRuntime(owner, id, tenant));
      outside.Act(CreateRuntime(owner, id, tenant));
    }
    reply := *;
    if !fails {
      reply := Answered(Some(Result(id, OneTimeToken("", ""))));
    } else {
      FailsLater(log, |old(outside.log)|, {RegisterRequest}, outside.log, |old(outside.log)|, {RegisterRequest});
      if Hands(reply) && (!created || reply.result.value.id != id || IsUuid(id)) {
        reply := Answered(None);
      }
    }
  }

  method AskToUnregister(outside: Outside, owner: string, id: string, tenant: string)
    returns (reply: Reply, ghost acts: seq<Action>)
    requires outside.Valid() && Permitted(outside.world, UnregisterRuntime(owner, id, tenant)) && owner == outside.focus
    modifies outside`world, outside`log, outside`deeds, outside`faults
    ensures outside.Valid() && old(outside.log) <= outside.log && outside.deeds == old(outside.deeds) + acts
    ensures Effect(old(outside.world), outside.world, UnregisterRuntime(owner, id, tenant), acts)
    ensures Truthful(outside.world, UnregisterRuntime(owner, id, tenant), acts, reply)
    ensures outside.faults == old(outside.faults) + if Confirms(reply, id) then 0 else 1
    ensures !Confirms(reply, id) ==> FailsIn(outside.log, |old(outside.log)|, {UnregisterRequest})
  {
    hide Recorded;
    acts := [];
    var fails := outside.Try(UnregisterRequest);
    ghost var log := outside.log;
    var arrives: bool := *;
    if (!fails || arrives) && outside.world.Live(id, tenant) {
      acts := [DeleteRuntime(owner, id, tenant)];
      DirectorStep(outside.world, DeleteRuntime(owner, id, tenant));
      outside.Act(DeleteRuntime(owner, id, tenant));
    }
    reply := *;
    if !fails && !Confirms(reply, id) {
      reply := Answered(Some(Result(id, OneTimeToken("", ""))));
    }
    if fails {
      FailsLater(log, |old(outside.log)|, {UnregisterRequest}, outside.log, |old(outside.log)|, {UnregisterRequest});
      if Confirms(reply, id) {
        reply := Rejected(Plain);
      }
    }
  }

  method AskForToken(outside: Outside, owner: string, id: string, tenant: string)
    returns (reply: Reply, ghost acts: seq<Action>)
    requires outside.Valid() && Permitted(outside.world, RequestOneTimeToken(owner, id, tenant))
    requires owner == outside.focus
    modifies outside`world, outside`log, outside`deeds, outside`faults
    ensures outside.Valid() && old(outside.log) <= outside.log && outside.deeds == old(outside.deeds) + acts
    ensures Effect(old(outside.world), outside.world, RequestOneTimeToken(owner, id, tenant), acts)
    ensures Truthful(outside.world, RequestOneTimeToken(owner, id, tenant), acts, reply)
    ensures var good := Good(reply, RequestOneTimeToken(owner, id, tenant), outside.world.pattern);
            && outside.faults == old(outside.faults) + (if good then 0 else 1)
            && (!good ==> FailsIn(outside.log, |old(outside.log)|, {TokenRequest}))
  {
    hide ConfigureDue;
    hide Recorded;
    acts := [];
    var fails := outside.Try(TokenRequest);
    ghost var log := outside.log;
    reply := *;
    var good := Good(reply, RequestOneTimeToken(owner, id, tenant), outside.world.pattern);
    if fails && good {
      reply := Rejected(Plain);
    }
    if !fails && !good {
      reply := Answered(Some(Result("", OneTimeToken(outside.world.pattern, ""))));
    }
    if Hands(reply) {
      var token := reply.result.value.oneTimeToken;
      acts := [FetchToken(owner, id, tenant, token)];
      ForeignStep(outside.world, FetchToken(owner, id, tenant, token));
      outside.Act(FetchToken(owner, id, tenant, token));
      if fails {
        FailsLater(log, |old(outside.log)|, {TokenRequest}, outside.log, |old(outside.log)|, {TokenRequest});
      }
    }
  }

  /** A request that went out: its access token and the time when the token was last checked. */
  datatype Sent = Sent(accessToken: string, checkedAt: nat)

  ghost predicate InTime(s: Sent, grants: set<Grant>) {
    s.accessToken != "" && exists g :: g in grants && g.accessToken == s.accessToken && s.checkedAt <= g.End()
  }

  /** What a client leaves behind: the log, the number of failed calls, and the requests that went out. */
  datatype Trail = Trail(log: seq<Action>, faults: nat, sent: seq<Sent>)

  /** An attempt that got this reply: an answer is one to a request that was sent. Without a good answer there is
      a failed call in the log: of the request itself, or, without any answer, of what has to precede it. */
  ghost predicate Accounts(t: Trail, t': Trail, request: Request, reply: Option<Reply>, pattern: string) {
    && t.log <= t'.log && t.faults <= t'.faults
    && t.sent <= t'.sent && |t'.sent| == |t.sent| + (if reply.Some? then 1 else 0)
    && (reply == None ==> FailsIn(t'.log, |t.log|, Preludes(request)) && t.faults < t'.faults)
    && (reply.Some? && !Good(reply.value, request, pattern) ==>
          FailsIn(t'.log, |t.log|, {KindOf(request)}) && t.faults < t'.faults)
  }

  lemma RefreshFailed(t: Trail, t': Trail, kinds: set<CallKind>, request: Request, pattern: string)
    requires t.log <= t'.log && t.faults < t'.faults && t'.sent == t.sent
    requires FailsIn(t'.log, |t.log|, kinds) && kinds <= Preludes(request)
    ensures Accounts(t, t', request, None, pattern)
  {
    FailsLater(t'.log, |t.log|, kinds, t'.log, |t.log|, Preludes(request));
  }

  lemma RequestAnswered(t: Trail, mid: Trail, t': Trail, request: Request, reply: Reply, pattern: string)
    requires t.log <= mid.log <= t'.log && t.faults <= mid.faults
    requires t.sent <= t'.sent && |t'.sent| == |t.sent| + 1
    requires t'.faults == mid.faults + if Good(reply, request, pattern) then 0 else 1
    requires !Good(reply, request, pattern) ==> FailsIn(t'.log, |mid.log|, {KindOf(request)})
    ensures Accounts(t, t', request, Some(reply), pattern)
  {
    if !Good(reply, request, pattern) {
      FailsLater(t'.log, |mid.log|, {KindOf(request)}, t'.log, |t.log|, {KindOf(request)});
    }
  }

  class DirectorClient {
    const outside: Outside
    const oauth: OAuthClient
    var token: Token
    ghost var sent: seq<Sent>

    /** The cached token was granted and does not outlive its grant; every request so far carried a
        non-empty token within its lifetime. */
    ghost predicate TokensOk()
      reads this, oauth
    {
      && (token.accessToken != "" ==> exists g :: g in oauth.grants && BackedBy(token, g))
      && forall i :: 0 <= i < |sent| ==> InTime(sent[i], oauth.grants)
    }

    ghost predicate Valid()
      reads this, outside, oauth
    {
      oauth.outside == outside && oauth.Valid() && TokensOk()
    }

    ghost function SoFar(): Trail
      reads this, outside
    {
      Trail(outside.log, outside.faults, sent)
    }

    constructor (outside: Outside)
      requires outside.Valid()
      ensures Valid() && this.outside == outside && sent == [] && fresh(oauth)
    {
      this.outside := outside;
      oauth := new OAuthClient(outside);
      token, sent := Token("", 0), [];
    }

    lemma MoreGrants(before: set<Grant>)
      requires before <= oauth.grants
      ensures forall s :: InTime(s, before) ==> InTime(s, oauth.grants)
    {}

    /** The cached token is replaced only by one that is neither empty nor expired; and such a one is obtained
        unless the call fails. */
    method GetToken() returns (err: Option<AppError>, ghost checkedAt: nat)
      requires Valid()
      modifies `token, oauth, outside`log, outside`faults
      ensures Valid() && old(oauth.clock) <= oauth.clock
      ensures old(outside.log) <= outside.log && old(outside.faults) <= outside.faults
      ensures err == None ==> !token.EmptyOrExpired(checkedAt) && checkedAt == oauth.clock
      ensures err.Some? ==> token == old(token) && err.value.cause == Unknown
      ensures err.Some? ==> old(outside.faults) < outside.faults
                            && FailsIn(outside.log, |old(outside.log)|, {AccessTokenRequest})
    {
      hide Recorded;
      hide FailsIn;
      var fetched, failure, grant := oauth.GetAuthorizationToken();
      MoreGrants(old(oauth.grants));
      checkedAt := oauth.clock;
      if failure.Some? {
        return Some(failure.value.Append("Error while obtaining token")), checkedAt;
      }
      var now := oauth.Now();
      checkedAt := now;
      if fetched.EmptyOrExpired(now) {
        return Some(Internal("Obtained empty or expired token")), checkedAt;
      }
      token := fetched;
      err := None;
    }

    /** The first half of executeDirectorGraphQLCall: the cached token is refreshed only when it is
        empty or expired, and afterwards has just been found valid. */
    method EnsureToken() returns (err: Option<AppError>, ghost checkedAt: nat)
      requires Valid()
      modifies `token, oauth, outside`log, outside`faults
      ensures Valid() && old(outside.log) <= outside.log && old(outside.faults) <= outside.faults
      ensures err == None ==> InTime(Sent(token.accessToken, checkedAt), oauth.grants)
      ensures err.Some? ==> err.value.cause == Unknown
      ensures err.Some? ==> old(outside.faults) < outside.faults
                            && FailsIn(outside.log, |old(outside.log)|, {AccessTokenRequest})
      ensures token != old(token) ==> err == None
      ensures token != old(token) ==>
                old(token).accessToken == "" || oauth.clock > old(token).expiration * 1_000_000_000
    {
      hide Recorded;
      hide FailsIn;
      var now := oauth.Now();
      checkedAt := now;
      err := None;
      if token.EmptyOrExpired(now) {
        err, checkedAt := GetToken();
      }
    }

    /** Sends a request with a token that was just found valid. A failed refresh sends nothing. */
    method Execute(request: Request, graceful: bool)
      returns (response: Option<Result>, err: Option<AppError>, ghost reply: Option<Reply>, ghost acts: seq<Action>)
      requires Valid() && Permitted(outside.world, request) && request.owner == outside.focus
      modifies `token, `sent, oauth, outside`world, outside`log, outside`deeds, outside`faults
      ensures Valid() && old(outside.log) <= outside.log && outside.deeds == old(outside.deeds) + acts
      ensures Effect(old(outside.world), outside.world, request, acts)
      ensures reply.Some? ==> Truthful(outside.world, request, acts, reply.value)
      ensures err == None ==> reply == Some(Answered(response))
      ensures err.Some? ==> response == None && (reply.Some? ==> reply.value.Rejected?)
      ensures err.Some? && err.value.cause == RuntimeNotFound <==>
              graceful && reply.Some? && reply.value.Rejected?
                && AsExtended(reply.value.err) == Some(Float64(NotFoundError))
      ensures reply == None ==> acts == [] && outside.world == old(outside.world)
      ensures Accounts(old(SoFar()), SoFar(), request, reply, outside.world.pattern)
      ensures old(token) != token ==> old(token).EmptyOrExpired(oauth.clock)
    {
      hide Recorded;
      hide Truthful;
      hide CallError;
      hide FailsIn;
      hide Good;
      hide Accounts;
      response, reply, acts := None, None, [];
      var tokenErr, checkedAt := EnsureToken();
      if tokenErr.Some? {
        RefreshFailed(old(SoFar()), SoFar(), {AccessTokenRequest}, request, outside.world.pattern);
        return None, tokenErr, None, [];
      }
      ghost var mid := SoFar();
      hide Effect;
      sent := sent + [Sent(token.accessToken, checkedAt)];
      var answer;
      answer, acts := Ask(outside, request);
      RequestAnswered(old(SoFar()), mid, SoFar(), request, answer, outside.world.pattern);
      reply := Some(answer);
      match answer
      case Answered(result) => return result, None, reply, acts;
      case Rejected(gqlErr) =>
        NotFoundSurvives(gqlErr, graceful);
        return None, Some(CallError(gqlErr, graceful)), reply, acts;
    }

    method GraphqlizeInput(ghost request: Request) returns (fails: bool)
      requires Valid() && request.RegisterRuntime?
      modifies outside`log, outside`faults
      ensures Valid() && old(outside.log) <= outside.log
      ensures if fails then Accounts(old(SoFar()), SoFar(), request, None, outside.world.pattern)
              else SoFar() == old(SoFar())
    {
      hide Recorded;
      fails := outside.Try(InputBuild);
      if fails {
        RefreshFailed(old(SoFar()), SoFar(), {InputBuild}, request, outside.world.pattern);
      }
    }

    /** Succeeds exactly when the Director acknowledges with a UUID, which is then the id of a runtime that this
        very call created. */
    method CreateRuntime(owner: string, tenant: string)
      returns (id: string, err: Option<AppError>, ghost reply: Option<Reply>, ghost acts: seq<Action>)
      requires Valid() && Permitted(outside.world, RegisterRuntime(owner, tenant)) && owner == outside.focus
      modifies `token, `sent, oauth, outside`world, outside`log, outside`deeds, outside`faults
      ensures Valid() && old(outside.log) <= outside.log && outside.deeds == old(outside.deeds) + acts
      ensures Effect(old(outside.world), outside.world, RegisterRuntime(owner, tenant), acts)
      ensures err == None <==> reply.Some? && Acknowledges(reply.value)
      ensures err == None ==> id == reply.value.result.value.id && acts == [Action.CreateRuntime(owner, id, tenant)]
      ensures err.Some? ==> id == ""
      ensures Accounts(old(SoFar()), SoFar(), RegisterRuntime(owner, tenant), reply, outside.world.pattern)
    {
      hide OAuthClient.Valid;
      hide DirectorClient.TokensOk;
      hide Permitted;
      hide Recorded;
      hide Accounts;
      reply, acts := None, [];
      var unbuilt := GraphqlizeInput(RegisterRuntime(owner, tenant));
      if unbuilt {
        return "", Some(Internal("Failed to create graphQLized Runtime input")), None, acts;
      }
      var response, failure;
      response, failure, reply, acts := Execute(RegisterRuntime(owner, tenant), false);
      if failure.Some? {
        return "", Some(failure.value.Append("Failed to register runtime in Director. Request failed")), reply, acts;
      }
      if response == None {
        var message := "Failed to register runtime in Director: Received nil response.";
        return "", Some(Internal(message)), reply, acts;
      }
      if !IsUuid(response.value.id) {
        var message := "Failed to register runtime in Director: Received ID is not in UUID format";
        return "", Some(Internal(message)), reply, acts;
      }
      return response.value.id, None, reply, acts;
    }

    /** Succeeds exactly when the Director's answer has a token, which is then the one that it handed out. */
    method GetConnectionToken(owner: string, id: string, tenant: string)
      returns (oneTimeToken: OneTimeToken, err: Option<AppError>, ghost reply: Option<Reply>, ghost acts: seq<Action>)
      requires Valid() && Permitted(outside.world, RequestOneTimeToken(owner, id, tenant)) && owner == outside.focus
      modifies `token, `sent, oauth, outside`world, outside`log, outside`deeds, outside`faults
      ensures Valid() && old(outside.log) <= outside.log && outside.deeds == old(outside.deeds) + acts
      ensures Effect(old(outside.world), outside.world, RequestOneTimeToken(owner, id, tenant), acts)
      ensures err == None <==> reply.Some? && Hands(reply.value)
      ensures err == None ==> oneTimeToken == reply.value.result.value.oneTimeToken
      ensures acts == if err == None then [FetchToken(owner, id, tenant, oneTimeToken)] else []
      ensures err.Some? ==> oneTimeToken == OneTimeToken("", "")
      ensures Accounts(old(SoFar()), SoFar(), RequestOneTimeToken(owner, id, tenant), reply, outside.world.pattern)
    {
      hide Permitted;
      hide OAuthClient.Valid;
      hide Recorded;
      hide Accounts;
      oneTimeToken := OneTimeToken("", "");
      var response, failure;
      response, failure, reply, acts := Execute(RequestOneTimeToken(owner, id, tenant), false);
      if failure.Some? {
        var message := "Failed to get OneTimeToken for Runtime in Director";
        return oneTimeToken, Some(failure.value.Append(message)), reply, acts;
      }
      if response == None {
        var message := "Failed to get OneTimeToken for Runtime in Director: received nil response.";
        return oneTimeToken, Some(Internal(message)), reply, acts;
      }
      return response.value.oneTimeToken, None, reply, acts;
    }

    /** Succeeds exactly when the Director confirmed: it deleted this runtime, or has none of that id.
        So a retry after a lost answer succeeds, and success means that the runtime is gone. */
    method DeleteRuntime(owner: string, id: string, tenant: string)
      returns (err: Option<AppError>, ghost reply: Option<Reply>, ghost acts: seq<Action>)
      requires Valid() && Permitted(outside.world, UnregisterRuntime(owner, id, tenant)) && owner == outside.focus
      modifies `token, `sent, oauth, outside`world, outside`log, outside`deeds, outside`faults
      ensures Valid() && old(outside.log) <= outside.log && outside.deeds == old(outside.deeds) + acts
      ensures Effect(old(outside.world), outside.world, UnregisterRuntime(owner, id, tenant), acts)
      ensures err == None <==> reply.Some? && Confirms(reply.value, id)
      ensures err == None ==> !outside.world.Live(id, tenant)
      ensures Accounts(old(SoFar()), SoFar(), UnregisterRuntime(owner, id, tenant), reply, outside.world.pattern)
    {
      hide OAuthClient.Valid;
      hide Recorded;
      hide Accounts;
      var response, failure;
      response, failure, reply, acts := Execute(UnregisterRuntime(owner, id, tenant), true);
      if failure.Some? {
        if failure.value.cause == RuntimeNotFound {
          return None, reply, acts;
        }
        return Some(failure.value.Append("Failed to unregister runtime in Director")), reply, acts;
      }
      if response == None {
        var message := "Failed to unregister runtime in Director: received nil response.";
        return Some(Internal(message)), reply, acts;
      }
      if response.value.id != id {
        var message := "Failed to unregister runtime in Director: received unexpected RuntimeID.";
        return Some(Internal(message)), reply, acts;
      }
      return None, reply, acts;
    }
  }
}
