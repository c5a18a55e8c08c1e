/** controllers/registrator.go: registration and deregistration with bounded retries. */
module Registrator {
  import opened Wrappers
  import opened Worlds
  import opened Protocol
  import opened Runs
  import opened AppErrors
  import opened Platform
  import opened Director
  import opened Registration
  import opened Retry

  const ATTEMPTS: int := 3

  /** The worlds that a deregistration can lead to. */
  ghost function AfterDeregistration(w: World, id: string, tenant: string, gone: bool, confirmed: bool): World {
    w.(deregistrations := w.deregistrations + {(id, tenant)},
       runtimes := if gone then SetFate(w.runtimes, id, Deleted) else w.runtimes,
       deregistered := if confirmed then w.deregistered + {id} else w.deregistered)
  }

  /** Everything that a deregistration does outside the control plane: it deletes the runtime at most once. */
  function DeregisterDeeds(owner: string, id: string, tenant: string, deleted: bool, confirmed: bool): seq<Action> {
    [CallDeregister(owner, id, tenant)]
    + (if deleted then [DeleteRuntime(owner, id, tenant)] else [])
    + (if confirmed then [ConfirmDeregister(owner, id, tenant)] else [])
  }

  /** The attempts of one call: at most three, none after the first acknowledged one, and the id of a
      successful call is what that one returned. */
  ghost predicate Attempted(w: World, ds: seq<Delivery>, success: bool, id: string) {
    && Possible(w, ds) && 0 < |ds| <= ATTEMPTS && |ds| - 1 <= First(ds)
    && (if success then First(ds) == |ds| - 1 && ReturnedId(ds) == Some(id) && id != "" && IsUuid(id)
        else First(ds) == |ds| == ATTEMPTS && ReturnedId(ds) == None)
  }

  lemma {:induction false} EnrolledResult(start: World, w: World, owner: string, tenant: string,
          outcomes: seq<Option<AppError>>, replies: seq<Option<Reply>>, ds: seq<Delivery>, acts: seq<Action>,
          id: string, err: Option<AppError>)
    requires Enrolled(start, w, owner, tenant, outcomes, replies, ds, acts, id)
    requires RetryTrace(outcomes, ATTEMPTS, err)
    ensures Attempted(start, ds, err == None, id)
    ensures w == Adding(start, owner, tenant, CreatedBy(ds)) && acts == Creates(owner, tenant, ds)
    ensures 0 < |replies| <= 3 && (err == None || |replies| == 3)
    ensures err == None <==> exists i :: 0 <= i < |replies| && Acknowledged(replies[i])
  {
    CreatedAreNew(start, ds);
    if err == None {
      assert Acknowledged(replies[|replies| - 1]);
    }
  }

  /** The record of a retried request: a failed call in the log for every attempt that missed, so many requests
      sent as were answered, and without an answer a call that failed before the request. */
  ghost predicate Explained(t: Trail, t': Trail, request: Request, replies: seq<Option<Reply>>, success: bool) {
    && t.log <= t'.log && t.faults + |replies| <= t'.faults + (if success then 1 else 0)
    && t.sent <= t'.sent && |t'.sent| == |t.sent| + Answers(replies)
    && (!success ==> FailsIn(t'.log, |t.log|, Requests(request)))
    && (None in replies ==> FailsIn(t'.log, |t.log|, Preludes(request)))
  }

  lemma {:induction false} AuditExplains(t: Trail, t': Trail, request: Request, outcomes: seq<Option<AppError>>,
          replies: seq<Option<Reply>>, token: OneTimeToken, pattern: string, err: Option<AppError>)
    requires Audited(t, t', request, outcomes, replies, token, pattern) && |replies| == |outcomes|
    requires RetryTrace(outcomes, ATTEMPTS, err)
    ensures Explained(t, t', request, replies, err == None)
  {}

  /** Steps that are no failed calls do not change the record. */
  lemma {:induction false} ExplainedAround(t0: Trail, t: Trail, t1: Trail, t2: Trail, request: Request,
          replies: seq<Option<Reply>>, success: bool)
    requires Explained(t, t1, request, replies, success)
    requires t0.log <= t.log && t0.faults == t.faults && t0.sent == t.sent
    requires t1.log <= t2.log && t1.faults == t2.faults && t1.sent == t2.sent
    ensures Explained(t0, t2, request, replies, success)
  {
    if !success {
      FailsLater(t1.log, |t.log|, Requests(request), t2.log, |t0.log|, Requests(request));
    }
    if None in replies {
      FailsLater(t1.log, |t.log|, Preludes(request), t2.log, |t0.log|, Preludes(request));
    }
  }

  class CompassRegistrator {
    const client: DirectorClient

    constructor (client: DirectorClient)
      ensures this.client == client
    {
      this.client := client;
    }

    /** Registers the Kyma in the Director. It succeeds exactly when one of at most three attempts is
        acknowledged. `ds` tells what became of the attempts, and so what happens to the world. */
    method RegisterInCompass(owner: string, labels: RuntimeLabels)
      returns (id: string, err: Option<AppError>, ghost ds: seq<Delivery>, ghost replies: seq<Option<Reply>>)
      requires client.Valid() && owner == client.outside.focus
      requires RegistrationDue(client.outside.world, owner)
      requires Describes(labels, client.outside.world.profile[owner])
      modifies client`token, client`sent, client.oauth
      modifies client.outside`world, client.outside`log, client.outside`deeds, client.outside`faults
      ensures client.Valid() && Told(ds, replies)
      ensures 0 < |replies| <= 3 && (err == None || |replies| == 3)
      ensures err == None <==> exists i :: 0 <= i < |replies| && Acknowledged(replies[i])
      ensures Explained(old(client.SoFar()), client.SoFar(), RegisterRuntime(owner, labels[GlobalAccountId]), replies,
                err == None)
      ensures Attempted(old(client.outside.world), ds, err == None, id)
      ensures client.outside.world == Registering(old(client.outside.world), owner, labels[GlobalAccountId], ds)
      ensures client.outside.deeds ==
              old(client.outside.deeds) + RegisterDeeds(owner, labels[GlobalAccountId], labels, ds)
    {
      hide Recorded;
      hide DirectorClient.TokensOk;
      hide Enabled;
      hide Apply;
      hide Possible;
      hide Creates;
      hide Registering;
      hide Adding;
      hide Explained;
      hide Told;
      hide Acknowledged;
      hide Describes;
      CallIsEnabled(client.outside.world, owner, labels);
      var tenant := labels[GlobalAccountId];
      client.outside.Act(CallRegister(owner, tenant, labels));
      ghost var w, trail := client.outside.world, client.SoFar();
      id, err, ds, replies := RetryCreate(owner, tenant);
      ghost var trail1 := client.SoFar();
      if err != None {
        WithoutReturn(w, owner, tenant, ds);
        ExplainedAround(old(client.SoFar()), trail, trail1, trail1, RegisterRuntime(owner, tenant), replies, false);
        return "", err, ds, replies;
      }
      ReturnsCreated(w, client.outside.world, owner, tenant, ds);
      client.outside.Act(ReturnRuntime(owner, id, tenant));
      ExplainedAround(old(client.SoFar()), trail, trail1, client.SoFar(), RegisterRuntime(owner, tenant), replies,
        true);
    }

    method RetryCreate(owner: string, tenant: string)
      returns (id: string, err: Option<AppError>, ghost ds: seq<Delivery>, ghost replies: seq<Option<Reply>>)
      requires client.Valid() && owner == client.outside.focus
      requires RegistrationDue(client.outside.world, owner) && tenant == client.outside.world.Account(owner)
      modifies client`token, client`sent, client.oauth
      modifies client.outside`world, client.outside`log, client.outside`deeds, client.outside`faults
      ensures client.Valid() && Told(ds, replies)
      ensures 0 < |replies| <= 3 && (err == None || |replies| == 3)
      ensures err == None <==> exists i :: 0 <= i < |replies| && Acknowledged(replies[i])
      ensures Explained(old(client.SoFar()), client.SoFar(), RegisterRuntime(owner, tenant), replies, err == None)
      ensures Attempted(old(client.outside.world), ds, err == None, id)
      ensures client.outside.world == Adding(old(client.outside.world), owner, tenant, CreatedBy(ds))
      ensures client.outside.deeds == old(client.outside.deeds) + Creates(owner, tenant, ds)
    {
      hide Recorded;
      hide DirectorClient.TokensOk;
      hide Adding;
      hide Creates;
      hide Explained;
      hide Acknowledged;
      hide Audited;
      hide RetryTrace;
      var closure := new Attempt(client, RegisterRuntime(owner, tenant));
      err := RetryOnError(ATTEMPTS, closure);
      id, ds, replies := closure.id, closure.deliveries, closure.replies;
      EnrolledResult(closure.start, client.outside.world, owner, tenant, closure.outcomes, replies, ds, closure.acts,
        id, err);
      AuditExplains(closure.since, client.SoFar(), closure.request, closure.outcomes, replies, closure.oneTimeToken,
        client.outside.world.pattern, err);
    }

    /** Deregisters a runtime. It succeeds exactly when one of the first three answers confirms: a deletion,
        or that there is no such runtime. So the effect of a call whose answer was lost does not prevent a
        later success. Success means that the runtime is gone, and it is deleted at most once. */
    method DeregisterFromCompass(owner: string, id: string, tenant: string)
      returns (err: Option<AppError>, ghost gone: bool, ghost deleted: bool, ghost replies: seq<Option<Reply>>)
      requires client.Valid() && owner == client.outside.focus
      requires Enabled(client.outside.world, CallDeregister(owner, id, tenant))
      modifies client`token, client`sent, client.oauth
      modifies client.outside`world, client.outside`log, client.outside`deeds, client.outside`faults
      ensures client.Valid()
      ensures 0 < |replies| <= 3 && (err == None || |replies| == 3)
      ensures err == None <==> exists i :: 0 <= i < |replies| && Confirmed(replies[i], id)
      ensures Explained(old(client.SoFar()), client.SoFar(), UnregisterRuntime(owner, id, tenant), replies, err == None)
      ensures err == None ==> gone
      ensures client.outside.world == AfterDeregistration(old(client.outside.world), id, tenant, gone, err == None)
      ensures client.outside.deeds == old(client.outside.deeds)
              + DeregisterDeeds(owner, id, tenant, deleted, err == None)
    {
      hide Recorded;
      hide DirectorClient.TokensOk;
      hide Enabled;
      hide Apply;
      hide SetFate;
      hide Confirmed;
      hide Permitted;
      hide Explained;
      hide AfterDeregistration;
      ghost var w := client.outside.world;
      OwnRuntime(client.outside, owner, id, tenant);
      DirectorStep(client.outside.world, CallDeregister(owner, id, tenant));
      DeletionIsPermitted(client.outside.world, owner, id, tenant);
      client.outside.Act(CallDeregister(owner, id, tenant));
      ghost var trail := client.SoFar();
      err, gone, deleted, replies := RetryDelete(owner, id, tenant);
      ghost var trail1 := client.SoFar();
      if err == None {
        ConfirmIsEnabled(client.outside.world, owner, id, tenant);
        DirectorStep(client.outside.world, ConfirmDeregister(owner, id, tenant));
        client.outside.Act(ConfirmDeregister(owner, id, tenant));
      }
      DeregistrationEnds(w, client.outside.world, id, tenant, gone, err == None);
      ExplainedAround(old(client.SoFar()), trail, trail1, client.SoFar(), UnregisterRuntime(owner, id, tenant), replies,
        err == None);
    }

    method RetryDelete(owner: string, id: string, tenant: string)
      returns (err: Option<AppError>, ghost gone: bool, ghost deleted: bool, ghost replies: seq<Option<Reply>>)
      requires client.Valid() && owner == client.outside.focus
      requires Permitted(client.outside.world, UnregisterRuntime(owner, id, tenant))
      requires client.outside.world.runtimes[id].tenant == tenant
      modifies client`token, client`sent, client.oauth
      modifies client.outside`world, client.outside`log, client.outside`deeds, client.outside`faults
      ensures client.Valid()
      ensures 0 < |replies| <= ATTEMPTS && (err == None || |replies| == ATTEMPTS)
      ensures err == None <==> exists i :: 0 <= i < |replies| && Confirmed(replies[i], id)
      ensures Explained(old(client.SoFar()), client.SoFar(), UnregisterRuntime(owner, id, tenant), replies, err == None)
      ensures err == None ==> gone && !client.outside.world.Live(id, tenant)
      ensures client.outside.world == if gone then Deleting(old(client.outside.world), id)
              else old(client.outside.world)
      ensures client.outside.deeds == old(client.outside.deeds) + if deleted then [DeleteRuntime(owner, id, tenant)]
              else []
    {
      hide Recorded;
      hide DirectorClient.TokensOk;
      hide Explained;
      hide Audited;
      ghost var w := client.outside.world;
      var closure := new Attempt(client, UnregisterRuntime(owner, id, tenant));
      err := RetryOnError(ATTEMPTS, closure);
      gone, deleted, replies := err == None || closure.acts != [], closure.acts != [], closure.replies;
      if err == None {
        assert Confirmed(replies[|replies| - 1], id);
        GoneIsDeleted(w, client.outside.world, id, tenant);
      }
      AuditExplains(closure.since, client.SoFar(), closure.request, closure.outcomes, replies, closure.oneTimeToken,
        client.outside.world.pattern, err);
    }
  }

  /** Two calls in a row register the Kyma twice, even if no answer is ever lost: that is the case if no call
      fails, and whenever both succeed. */
  method RegisterTwice(registrator: CompassRegistrator, owner: string, labels: RuntimeLabels)
    returns (id1: string, id2: string, err: Option<AppError>)
    requires registrator.client.Valid() && owner == registrator.client.outside.focus
    requires RegistrationDue(registrator.client.outside.world, owner)
    requires Describes(labels, registrator.client.outside.world.profile[owner])
    modifies registrator.client`token, registrator.client`sent, registrator.client.oauth
    modifies registrator.client.outside`world, registrator.client.outside`log, registrator.client.outside`deeds
    modifies registrator.client.outside`faults
    ensures registrator.client.Valid()
    ensures old(registrator.client.outside.faults) == registrator.client.outside.faults ==> err == None
    ensures err == None ==> id1 != id2
    ensures err == None ==> var before := old(registrator.client.outside.world);
                            {id1, id2} <= Live(registrator.client.outside.world, owner) - Live(before, owner)
  {
    hide Registering;
    hide RegisterDeeds;
    hide Possible;
    hide RegistrationDue;
    ghost var w := registrator.client.outside.world;
    ghost var ds1, ds2, replies;
    id2 := "";
    id1, err, ds1, replies := registrator.RegisterInCompass(owner, labels);
    if err != None {
      return;
    }
    ghost var w1 := registrator.client.outside.world;
    DueAfterRegistering(w, owner, labels[GlobalAccountId], ds1);
    id2, err, ds2, replies := registrator.RegisterInCompass(owner, labels);
    if err == None {
      SecondCallAddsAnother(w, owner, labels[GlobalAccountId], ds1, ds2);
    }
  }

  /** Not alive for its own tenant is the same as deleted. */
  lemma GoneIsDeleted(w: World, w': World, id: string, tenant: string)
    requires id in w.runtimes && w.runtimes[id].tenant == tenant && !w'.Live(id, tenant)
    requires w'.runtimes == w.runtimes || w'.runtimes == SetFate(w.runtimes, id, Deleted)
    ensures w'.runtimes == SetFate(w.runtimes, id, Deleted)
  {
    assert w'.runtimes[id].fate == Deleted;
  }

  lemma CallIsEnabled(w: World, owner: string, labels: RuntimeLabels)
    requires RegistrationDue(w, owner) && Describes(labels, w.profile[owner])
    ensures GlobalAccountId in labels && labels[GlobalAccountId] == w.Account(owner)
    ensures var call := CallRegister(owner, labels[GlobalAccountId], labels);
            Enabled(w, call) && Apply(w, call) == w
  {
    ForeignStep(w, CallRegister(owner, labels[GlobalAccountId], labels));
  }

  lemma DeregistrationEnds(w: World, w': World, id: string, tenant: string, gone: bool, confirmed: bool)
    requires var called := w.(deregistrations := w.deregistrations + {(id, tenant)});
             var left := if gone then Deleting(called, id) else called;
             w' == if confirmed then left.(deregistered := left.deregistered + {id}) else left
    ensures w' == AfterDeregistration(w, id, tenant, gone, confirmed)
  {}

  lemma DeletionIsPermitted(w: World, owner: string, id: string, tenant: string)
    requires id in w.runtimes && w.runtimes[id].owner == owner
    ensures Permitted(w.(deregistrations := w.deregistrations + {(id, tenant)}), UnregisterRuntime(owner, id, tenant))
  {}

  lemma ConfirmIsEnabled(w: World, owner: string, id: string, tenant: string)
    requires (id, tenant) in w.deregistrations && !w.Live(id, tenant)
    ensures Enabled(w, ConfirmDeregister(owner, id, tenant))
  {}

  lemma OwnRuntime(outside: Outside, owner: string, id: string, tenant: string)
    requires outside.Valid() && Enabled(outside.world, CallDeregister(owner, id, tenant))
    ensures id in outside.world.runtimes
    ensures outside.world.runtimes[id].owner == owner && outside.world.runtimes[id].tenant == tenant
  {
    outside.Sound();
    CalledForItsOwnRuntime(outside.world, CallDeregister(owner, id, tenant));
  }
}
