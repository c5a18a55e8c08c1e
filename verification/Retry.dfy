/** internal/util/retry.go, with the closures that it is given. */
module Retry {
  import opened Wrappers
  import opened Worlds
  import opened Registration
  import opened Runs
  import opened AppErrors
  import opened Director

  /** The outcomes of the calls that a bounded retry makes, and what it returns: it stops at the
      first success or after `count` calls, and returns the last outcome. */
  ghost predicate RetryTrace<E>(outcomes: seq<Option<E>>, count: int, err: Option<E>) {
    if count <= 0 then outcomes == [] && err == None
    else
      && 0 < |outcomes| <= count
      && (forall i :: 0 <= i < |outcomes| - 1 ==> outcomes[i] != None)
      && err == outcomes[|outcomes| - 1]
      && (err != None ==> |outcomes| == count)
  }

  /** For any stream of outcomes: the retry succeeds exactly when one of the first `count` calls does,
      has then made no call after the first success, and otherwise returns the last error. */
  lemma RetryIsExact<E>(stream: nat -> Option<E>, outcomes: seq<Option<E>>, count: nat, err: Option<E>)
    requires count > 0 && RetryTrace(outcomes, count, err)
    requires forall i: nat :: i < |outcomes| ==> outcomes[i] == stream(i)
    ensures err == None <==> exists i: nat :: i < count && stream(i) == None
    ensures err == None ==> stream(|outcomes| - 1) == None && forall i: nat :: i < |outcomes| - 1 ==> stream(i) != None
    ensures err != None ==> |outcomes| == count && err == stream(count - 1)
  {
    if err == None {
      assert stream(|outcomes| - 1) == None;
    } else {
      assert forall i: nat :: i < count ==> stream(i) == outcomes[i];
    }
  }

  ghost predicate Succeeded<E>(outcomes: seq<Option<E>>) {
    outcomes != [] && outcomes[|outcomes| - 1] == None
  }

  // ----- What the calls of one retry have done to the world since it was `start` -----

  ghost predicate Acknowledged(reply: Option<Reply>) {
    reply.Some? && Acknowledges(reply.value)
  }

  ghost predicate Confirmed(reply: Option<Reply>, id: string) {
    reply.Some? && Confirms(reply.value, id)
  }

  ghost predicate Handed(reply: Option<Reply>) {
    reply.Some? && Hands(reply.value)
  }

  /** The deliveries are what the Director's answers tell. */
  ghost predicate Told(ds: seq<Delivery>, replies: seq<Option<Reply>>) {
    |ds| == |replies| && forall i :: 0 <= i < |ds| ==> (ds[i].acknowledged <==> Acknowledged(replies[i]))
  }

  /** The number of requests that were answered, so of those that were sent. */
  ghost function Answers(replies: seq<Option<Reply>>): nat {
    if replies == [] then 0
    else Answers(replies[..|replies| - 1]) + if replies[|replies| - 1].Some? then 1 else 0
  }

  lemma AnswersStep(replies: seq<Option<Reply>>, reply: Option<Reply>)
    ensures Answers(replies + [reply]) == Answers(replies) + if reply.Some? then 1 else 0
  {
    assert (replies + [reply])[..|replies|] == replies;
  }

  /** Registrations: `ds` tells what became of each attempt, a success is an attempt that the Director
      acknowledged, and then `id` is what it acknowledged. */
  ghost predicate Enrolled(start: World, w: World, owner: string, tenant: string, outcomes: seq<Option<AppError>>,
          replies: seq<Option<Reply>>, ds: seq<Delivery>, acts: seq<Action>, id: string)
  {
    && Told(ds, replies) && |outcomes| == |replies|
    && (forall i :: 0 <= i < |replies| ==> (outcomes[i] == None <==> Acknowledged(replies[i])))
    && Possible(start, ds) && w == Adding(start, owner, tenant, CreatedBy(ds)) && acts == Creates(owner, tenant, ds)
    && First(ds) == (if Succeeded(outcomes) then |ds| - 1 else |ds|)
    && (Succeeded(outcomes) ==> ReturnedId(ds) == Some(id))
  }

  lemma {:induction false} EnrolledStep(start: World, w: World, w': World, owner: string, tenant: string,
          outcomes: seq<Option<AppError>>, replies: seq<Option<Reply>>, ds: seq<Delivery>, acts: seq<Action>,
          id: string, more: seq<Action>, id': string, reply: Option<Reply>, err: Option<AppError>)
    returns (d: Delivery)
    requires Enrolled(start, w, owner, tenant, outcomes, replies, ds, acts, id) && !Succeeded(outcomes)
    requires Effect(w, w', RegisterRuntime(owner, tenant), more)
    requires err == None <==> Acknowledged(reply)
    requires err == None ==> more == [CreateRuntime(owner, id', tenant)] && IsUuid(id')
    ensures Enrolled(start, w', owner, tenant, outcomes + [err], replies + [reply], ds + [d], acts + more, id')
  {
    hide Lost;
    hide Adding;
    hide Possible;
    hide IsUuid;
    hide Acknowledges;
    d := Delivery(if more == [] then None else Some(more[0].id), Acknowledged(reply));
    OneMore(ds, d);
    OneMoreCreate(owner, tenant, ds, d);
    StaysPossible(start, w, owner, tenant, ds, d);
    assert Creates(owner, tenant, [d]) == more by {
      assert [d][1..] == [];
    }
    assert CreatedBy(ds + [d]) == CreatedBy(ds) + Ids(d.arrived);
    AddingTwice(start, owner, tenant, CreatedBy(ds), Ids(d.arrived));
    AddingOne(w, owner, tenant, d.arrived);
  }

  lemma AddingOne(w: World, owner: string, tenant: string, id: Option<string>)
    ensures Adding(w, owner, tenant, Ids(id)) ==
            if id == None then w else w.(runtimes := w.runtimes[id.value := Runtime(owner, tenant, Unacknowledged)])
  {
    AddingNothing(w, owner, tenant);
    if id.Some? {
      assert Adding(w, owner, tenant, Ids(id)).runtimes ==
        w.runtimes[id.value := Runtime(owner, tenant, Unacknowledged)];
    }
  }

  lemma {:induction false} StaysPossible(start: World, w: World, owner: string, tenant: string, ds: seq<Delivery>,
          d: Delivery)
    requires Possible(start, ds) && First(ds) == |ds| && w == Adding(start, owner, tenant, CreatedBy(ds))
    requires d.arrived.Some? ==> d.arrived.value !in w.runtimes
    requires d.acknowledged ==> d.arrived.Some? && IsUuid(d.arrived.value)
    ensures Possible(start, ds + [d])
  {
    if d.arrived.Some? {
      assert d.arrived.value !in start.runtimes && d.arrived.value !in Lost(ds);
      LostAreArrived(ds, d.arrived.value);
    }
  }

  /** Deletions: `replies` are the Director's answers to the attempts. A success is one of them that confirms,
      and the runtime is deleted at most once. */
  ghost predicate Removed(start: World, w: World, owner: string, id: string, tenant: string,
          outcomes: seq<Option<AppError>>, replies: seq<Option<Reply>>, acts: seq<Action>)
  {
    && |replies| == |outcomes|
    && (forall i :: 0 <= i < |replies| ==> (outcomes[i] == None <==> Confirmed(replies[i], id)))
    && (if acts == [] then w == start
        else acts == [DeleteRuntime(owner, id, tenant)] && start.Live(id, tenant) && w == Deleting(start, id))
    && (Succeeded(outcomes) ==> !w.Live(id, tenant))
  }

  ghost function Deleting(w: World, id: string): World {
    w.(runtimes := SetFate(w.runtimes, id, Deleted))
  }

  lemma {:induction false} RemovedStep(start: World, w: World, w': World, owner: string, id: string, tenant: string,
          outcomes: seq<Option<AppError>>, replies: seq<Option<Reply>>, acts: seq<Action>,
          more: seq<Action>, reply: Option<Reply>, err: Option<AppError>)
    requires Removed(start, w, owner, id, tenant, outcomes, replies, acts) && !Succeeded(outcomes)
    requires Effect(w, w', UnregisterRuntime(owner, id, tenant), more)
    requires (err == None <==> Confirmed(reply, id)) && (err == None ==> !w'.Live(id, tenant))
    ensures Removed(start, w', owner, id, tenant, outcomes + [err], replies + [reply], acts + more)
  {
    if more != [] {
      assert acts == [];
    }
  }

  /** Token requests: only the last attempt can have been answered with a token, and `token` is that one. */
  ghost predicate Fetching(start: World, w: World, owner: string, id: string, tenant: string,
          outcomes: seq<Option<AppError>>, replies: seq<Option<Reply>>, token: OneTimeToken, acts: seq<Action>)
  {
    && |replies| == |outcomes|
    && (forall i :: 0 <= i < |replies| ==> (outcomes[i] == None <==> Handed(replies[i])))
    && (if Succeeded(outcomes) then
          && acts == [FetchToken(owner, id, tenant, token)]
          && w == start.(fetched := start.fetched[owner := Fetched(id, tenant, token)])
        else acts == [] && w == start)
  }

  lemma {:induction false} FetchingStep(start: World, w: World, w': World, owner: string, id: string, tenant: string,
          outcomes: seq<Option<AppError>>, replies: seq<Option<Reply>>, token: OneTimeToken, acts: seq<Action>,
          more: seq<Action>, reply: Option<Reply>, token': OneTimeToken, err: Option<AppError>)
    requires Fetching(start, w, owner, id, tenant, outcomes, replies, token, acts) && !Succeeded(outcomes)
    requires Effect(w, w', RequestOneTimeToken(owner, id, tenant), more) && (err == None <==> Handed(reply))
    requires more == if err == None then [FetchToken(owner, id, tenant, token')] else []
    ensures Fetching(start, w', owner, id, tenant, outcomes + [err], replies + [reply], token', acts + more)
  {}

  /** The requests whose failure can end an attempt. */
  ghost function Requests(request: Request): set<CallKind> {
    Preludes(request) + {KindOf(request)}
  }

  /** The number of attempts that did not succeed, when only the last one can have succeeded. */
  ghost function Misses(outcomes: seq<Option<AppError>>): nat {
    if Succeeded(outcomes) then |outcomes| - 1 else |outcomes|
  }

  /** Every attempt that missed has a failed call in the log; so has a token that is not acceptable. An answer is
      one to a request that was sent, and without one a call before the request failed. */
  ghost predicate Audited(t: Trail, t': Trail, request: Request, outcomes: seq<Option<AppError>>,
          replies: seq<Option<Reply>>, token: OneTimeToken, pattern: string)
  {
    && t.log <= t'.log && t.faults + Misses(outcomes) <= t'.faults
    && t.sent <= t'.sent && |t'.sent| == |t.sent| + Answers(replies)
    && (Misses(outcomes) > 0 ==> FailsIn(t'.log, |t.log|, Requests(request)))
    && (None in replies ==> FailsIn(t'.log, |t.log|, Preludes(request)))
    && (request.RequestOneTimeToken? && Succeeded(outcomes) && t.faults == t'.faults ==> Acceptable(token, pattern))
  }

  lemma {:induction false} AuditedStep(t0: Trail, t: Trail, t': Trail, request: Request,
          outcomes: seq<Option<AppError>>, replies: seq<Option<Reply>>, token: OneTimeToken,
          err: Option<AppError>, reply: Option<Reply>, token': OneTimeToken, pattern: string)
    requires Audited(t0, t, request, outcomes, replies, token, pattern) && !Succeeded(outcomes)
    requires Accounts(t, t', request, reply, pattern)
    requires err.Some? ==> reply == None || !Good(reply.value, request, pattern)
    requires err == None ==> reply.Some?
    requires err == None && request.RequestOneTimeToken? ==>
               Hands(reply.value) && token' == reply.value.result.value.oneTimeToken
    ensures Audited(t0, t', request, outcomes + [err], replies + [reply], token', pattern)
  {
    AnswersStep(replies, reply);
    if Misses(outcomes) > 0 {
      FailsLater(t.log, |t0.log|, Requests(request), t'.log, |t0.log|, Requests(request));
    }
    if None in replies {
      FailsLater(t.log, |t0.log|, Preludes(request), t'.log, |t0.log|, Preludes(request));
    }
    if reply == None {
      FailsLater(t'.log, |t.log|, Preludes(request), t'.log, |t0.log|, Preludes(request));
      FailsLater(t'.log, |t.log|, Preludes(request), t'.log, |t0.log|, Requests(request));
    } else if !Good(reply.value, request, pattern) {
      FailsLater(t'.log, |t.log|, {KindOf(request)}, t'.log, |t0.log|, Requests(request));
    }
  }

  /** A closure over the Director client that a retry calls: the variables it captures, and the record
      of its calls. */
  class Attempt {
    const client: DirectorClient
    const request: Request
    var id: string
    var oneTimeToken: OneTimeToken
    ghost const start: World
    ghost const before: seq<Action>
    ghost const since: Trail
    ghost var outcomes: seq<Option<AppError>>
    ghost var deliveries: seq<Delivery>
    ghost var replies: seq<Option<Reply>>
    ghost var acts: seq<Action>

    ghost predicate Valid()
      reads this, client, client.oauth, client.outside
    {
      && client.Valid() && Permitted(start, request) && request.owner == client.outside.focus
      && client.outside.deeds == before + acts
      && Progress(client.outside.world)
      && Audited(since, client.SoFar(), request, outcomes, replies, oneTimeToken, client.outside.world.pattern)
    }

    ghost predicate Progress(w: World)
      reads this
    {
      match request
      case RegisterRuntime(owner, tenant) =>
        Enrolled(start, w, owner, tenant, outcomes, replies, deliveries, acts, id)
      case UnregisterRuntime(owner, runtime, tenant) =>
        Removed(start, w, owner, runtime, tenant, outcomes, replies, acts)
      case RequestOneTimeToken(owner, runtime, tenant) =>
        Fetching(start, w, owner, runtime, tenant, outcomes, replies, oneTimeToken, acts)
    }

    constructor (client: DirectorClient, request: Request)
      requires client.Valid() && Permitted(client.outside.world, request) && request.owner == client.outside.focus
      ensures Valid() && this.client == client && this.request == request
      ensures outcomes == [] && start == client.outside.world && before == client.outside.deeds
      ensures since == client.SoFar()
    {
      this.client, this.request := client, request;
      id, oneTimeToken, outcomes, deliveries, replies, acts := "", OneTimeToken("", ""), [], [], [], [];
      start, before, since := client.outside.world, client.outside.deeds, client.SoFar();
      new;
      if request.RegisterRuntime? {
        assert CreatedBy([]) == {};
        AddingNothing(start, request.owner, request.tenant);
      }
    }

    lemma StillPermitted()
      requires Valid() && !Succeeded(outcomes)
      ensures Permitted(client.outside.world, request)
    {}

    method Create(owner: string, tenant: string) returns (err: Option<AppError>)
      requires Valid() && !Succeeded(outcomes) && request == RegisterRuntime(owner, tenant)
      modifies `id, `outcomes, `deliveries, `replies, `acts, client`token, client`sent, client.oauth
      modifies client.outside`world, client.outside`log, client.outside`deeds, client.outside`faults
      ensures Valid() && outcomes == old(outcomes) + [err]
    {
      hide Effect;
      hide Recorded;
      hide DirectorClient.TokensOk;
      hide Accounts;
      hide Audited;
      hide Enrolled;
      hide Permitted;
      StillPermitted();
      ghost var trail, w, reply, more := client.SoFar(), client.outside.world, None, [];
      var created;
      created, err, reply, more := client.CreateRuntime(owner, tenant);
      ghost var d := EnrolledStep(start, w, client.outside.world, owner, tenant, outcomes, replies, deliveries, acts,
        id, more, created, reply, err);
      AuditedStep(since, trail, client.SoFar(), request, outcomes, replies, oneTimeToken, err, reply, oneTimeToken,
        client.outside.world.pattern);
      id := created;
      outcomes, deliveries, replies, acts := outcomes + [err], deliveries + [d], replies + [reply], acts + more;
    }

    method Delete(owner: string, runtime: string, tenant: string) returns (err: Option<AppError>)
      requires Valid() && !Succeeded(outcomes) && request == UnregisterRuntime(owner, runtime, tenant)
      modifies `outcomes, `replies, `acts, client`token, client`sent, client.oauth
      modifies client.outside`world, client.outside`log, client.outside`deeds, client.outside`faults
      ensures Valid() && outcomes == old(outcomes) + [err]
    {
      hide Effect;
      hide Recorded;
      hide DirectorClient.TokensOk;
      hide Accounts;
      hide Audited;
      hide Removed;
      hide Permitted;
      StillPermitted();
      ghost var trail, w, reply, more := client.SoFar(), client.outside.world, None, [];
      err, reply, more := client.DeleteRuntime(owner, runtime, tenant);
      RemovedStep(start, w, client.outside.world, owner, runtime, tenant, outcomes, replies, acts, more, reply, err);
      AuditedStep(since, trail, client.SoFar(), request, outcomes, replies, oneTimeToken, err, reply, oneTimeToken,
        client.outside.world.pattern);
      outcomes, replies, acts := outcomes + [err], replies + [reply], acts + more;
    }

    method Fetch(owner: string, runtime: string, tenant: string) returns (err: Option<AppError>)
      requires Valid() && !Succeeded(outcomes) && request == RequestOneTimeToken(owner, runtime, tenant)
      modifies `oneTimeToken, `outcomes, `replies, `acts, client`token, client`sent, client.oauth
      modifies client.outside`world, client.outside`log, client.outside`deeds, client.outside`faults
      ensures Valid() && outcomes == old(outcomes) + [err]
    {
      hide ConfigureDue;
      hide Removed;
      hide Effect;
      hide Recorded;
      hide DirectorClient.TokensOk;
      hide Accounts;
      hide Audited;
      hide Fetching;
      hide Permitted;
      StillPermitted();
      ghost var trail, w, reply, more := client.SoFar(), client.outside.world, None, [];
      var handed;
      handed, err, reply, more := client.GetConnectionToken(owner, runtime, tenant);
      FetchingStep(start, w, client.outside.world, owner, runtime, tenant, outcomes, replies, oneTimeToken, acts, more,
        reply, handed, err);
      AuditedStep(since, trail, client.SoFar(), request, outcomes, replies, oneTimeToken, err, reply, handed,
        client.outside.world.pattern);
      oneTimeToken := handed;
      outcomes, replies, acts := outcomes + [err], replies + [reply], acts + more;
    }

    method Call() returns (err: Option<AppError>)
      requires Valid() && !Succeeded(outcomes)
      modifies `id, `oneTimeToken, `outcomes, `deliveries, `replies, `acts, client`token, client`sent, client.oauth
      modifies client.outside`world, client.outside`log, client.outside`deeds, client.outside`faults
      ensures Valid() && outcomes == old(outcomes) + [err]
    {
      hide Recorded;
      hide DirectorClient.TokensOk;
      hide Audited;
      match request
      case RegisterRuntime(owner, tenant) => err := Create(owner, tenant);
      case UnregisterRuntime(owner, runtime, tenant) => err := Delete(owner, runtime, tenant);
      case RequestOneTimeToken(owner, runtime, tenant) => err := Fetch(owner, runtime, tenant);
    }
  }

  method RetryOnError(count: int, closure: Attempt) returns (err: Option<AppError>)
    requires closure.Valid() && closure.outcomes == []
    modifies closure`id, closure`oneTimeToken, closure`outcomes, closure`deliveries, closure`replies, closure`acts
    modifies closure.client`token, closure.client`sent, closure.client.oauth
    modifies closure.client.outside`world, closure.client.outside`log, closure.client.outside`deeds
    modifies closure.client.outside`faults
    ensures closure.Valid() && RetryTrace(closure.outcomes, count, err)
  {
    hide Recorded;
    hide DirectorClient.TokensOk;
    hide Permitted;
    hide Attempt.Progress;
    hide Audited;
    err := None;
    var i := 0;
    while i < count
      invariant 0 <= i && (i <= count || i == 0) && |closure.outcomes| == i
      invariant closure.Valid() && !Succeeded(closure.outcomes)
      invariant forall j :: 0 <= j < i ==> closure.outcomes[j] != None
      invariant err == if i == 0 then None else closure.outcomes[i - 1]
    {
      err := closure.Call();
      if err == None {
        return None;
      }
      i := i + 1;
    }
  }
}
