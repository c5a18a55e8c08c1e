/** controllers/configurator.go: the one-time token is fetched, checked, and written with the runtime id
    and the tenant into the agent secret of the client cluster. */
module Configurator {
  import opened Wrappers
  import opened Worlds
  import opened Protocol
  import opened Runs
  import opened AppErrors
  import opened Platform
  import opened Director
  import opened Registration
  import opened Retry
  import opened Registrator

  /** The world after token requests of which the last one, at most, was answered. */
  ghost function WithFetched(w: World, name: string, id: string, tenant: string, fetched: Option<OneTimeToken>): World {
    if fetched.Some? then w.(fetched := w.fetched[name := Fetched(id, tenant, fetched.value)]) else w
  }

  /** What a Configure call leaves behind: the fetched token, the record of the call, and the agent secret
      either as others left it or completely rewritten with that token. */
  ghost predicate Configured(w: World, w': World, name: string, kubeconfig: string, id: string, tenant: string,
          ok: bool, fetched: Option<OneTimeToken>, written: bool)
  {
    && (written ==> fetched.Some? && Holds(w', kubeconfig, Fetched(id, tenant, fetched.value)))
    && name in w'.lastConfigure
    && var call := w'.lastConfigure[name];
    && call.ok == ok && call.id == id && call.tenant == tenant
    && w' == WithFetched(w, name, id, tenant, fetched).(
         agents := w'.agents, lastConfigure := w.lastConfigure[name := call])
  }

  /** The agent secret of the cluster is the accepted one with this token. */
  ghost predicate Holds(w: World, kubeconfig: string, f: Fetched) {
    kubeconfig in w.agents && Carries(w.agents[kubeconfig], f.id, f.tenant, f.token) && Acceptable(f.token, w.pattern)
  }

  function FetchDeeds(name: string, id: string, tenant: string, fetched: Option<OneTimeToken>): seq<Action> {
    if fetched.Some? then [FetchToken(name, id, tenant, fetched.value)] else []
  }

  function WriteDeeds(name: string, kubeconfig: string, secret: AgentSecret, written: bool): seq<Action> {
    if written then [WriteAgentSecret(name, kubeconfig, secret)] else []
  }

  /** Everything that a Configure call does outside the control plane. */
  function ConfigureDeeds(name: string, kubeconfig: string, id: string, tenant: string, ok: bool,
          fetched: Option<OneTimeToken>, written: bool): seq<Action>
  {
    var token := fetched.GetOr(OneTimeToken("", ""));
    FetchDeeds(name, id, tenant, fetched) + WriteDeeds(name, kubeconfig, Fetched(id, tenant, token).Data(), written)
    + [FinishConfigure(name, kubeconfig, id, tenant, ok)]
  }

  /** Why a Configure call can fail: the kubeconfig is unusable, the Director does not hand out a token, the token
      is refused, or the client cluster refuses to be read or written. */
  ghost predicate Blocked(log: seq<Action>, from: nat, pattern: string, fetched: Option<OneTimeToken>) {
    if fetched == None then
      FailsIn(log, from, {ClientBuild}) || FailsIn(log, from, {AccessTokenRequest, TokenRequest})
    else !Acceptable(fetched.value, pattern) || FailsIn(log, from, {AgentSecretRead, AgentSecretWrite})
  }

  class RuntimeAgentConfigurator {
    const client: DirectorClient
    const connectorUrlPattern: string

    constructor (client: DirectorClient, pattern: string)
      ensures this.client == client && connectorUrlPattern == pattern
    {
      this.client, connectorUrlPattern := client, pattern;
    }

    /** A token is fetched exactly when one of at most three attempts is answered with one; it is then the one that
        the Director handed out. It is accepted exactly with a connector URL of the expected form, and if it is
        not too long. */
    method FetchCompassToken(name: string, id: string, tenant: string)
      returns (token: OneTimeToken, err: Option<Platform.Error>, ghost fetched: Option<OneTimeToken>,
            ghost replies: seq<Option<Reply>>)
      requires client.Valid() && name == client.outside.focus
      requires !client.outside.world.dry && ConfigureDue(client.outside.world, name, id, tenant)
      modifies client`token, client`sent, client.oauth
      modifies client.outside`world, client.outside`log, client.outside`deeds, client.outside`faults
      ensures client.Valid() && old(client.outside.log) <= client.outside.log
      ensures old(client.outside.faults) <= client.outside.faults
      ensures client.outside.world == WithFetched(old(client.outside.world), name, id, tenant, fetched)
      ensures client.outside.deeds == old(client.outside.deeds) + FetchDeeds(name, id, tenant, fetched)
      ensures 0 < |replies| <= 3 && (fetched == None ==> |replies| == 3)
      ensures fetched.Some? <==> exists i :: 0 <= i < |replies| && Handed(replies[i])
      ensures Explained(old(client.SoFar()), client.SoFar(), RequestOneTimeToken(name, id, tenant), replies,
                fetched.Some?)
      ensures err == None <==> fetched.Some? && Acceptable(fetched.value, connectorUrlPattern)
      ensures err == None <==> fetched.Some? && EndsWith(fetched.value.connectorUrl, connectorUrlPattern)
                               && |fetched.value.token| <= 100
      ensures token == if err == None then fetched.value else OneTimeToken("", "")
      ensures connectorUrlPattern == client.outside.world.pattern && err != None ==>
                old(client.outside.faults) < client.outside.faults
    {
      hide Recorded;
      hide DirectorClient.TokensOk;
      hide Explained;
      var closure := new Attempt(client, RequestOneTimeToken(name, id, tenant));
      var failure := RetryOnError(ATTEMPTS, closure);
      token, replies := closure.oneTimeToken, closure.replies;
      fetched := if failure == None then Some(token) else None;
      if failure == None {
        assert Handed(replies[|replies| - 1]);
      }
      SuffixIsEnd(token.connectorUrl, connectorUrlPattern);
      AuditExplains(closure.since, client.SoFar(), closure.request, closure.outcomes, replies, token,
        client.outside.world.pattern, failure);
      if failure != None {
        return OneTimeToken("", ""), Some(DirectorError), fetched, replies;
      }
      if !HasSuffix(token.connectorUrl, connectorUrlPattern) {
        return OneTimeToken("", ""), Some(OtherError), fetched, replies;
      }
      if |token.token| > MAX_TOKEN_LENGTH {
        return OneTimeToken("", ""), Some(OtherError), fetched, replies;
      }
      err := None;
    }

    /** A write to the client cluster: Create is refused when the secret exists, Update when not. It succeeds exactly
        when the call does not fail and is the one that fits. */
    method WriteSecret(name: string, kubeconfig: string, secret: AgentSecret, create: bool)
      returns (err: Option<Platform.Error>, ghost written: bool)
      requires client.outside.Valid() && name == client.outside.focus
      requires Enabled(client.outside.world, WriteAgentSecret(name, kubeconfig, secret))
      modifies client.outside`world, client.outside`log, client.outside`deeds, client.outside`faults
      ensures client.outside.Valid() && old(client.outside.log) <= client.outside.log
      ensures client.outside.world == old(client.outside.world).(agents := client.outside.world.agents)
      ensures client.outside.deeds == old(client.outside.deeds) + WriteDeeds(name, kubeconfig, secret, written)
      ensures written ==> kubeconfig in client.outside.world.agents && client.outside.world.agents[kubeconfig] == secret
      ensures err == None ==> written
      ensures err == None <==> client.outside.faults == old(client.outside.faults)
                               && create == (kubeconfig !in old(client.outside.world).agents)
      ensures old(client.outside.faults) <= client.outside.faults
      ensures if old(client.outside.faults) < client.outside.faults then
                FailsIn(client.outside.log, |old(client.outside.log)|, {AgentSecretWrite})
              else err != None ==>
                (kubeconfig in client.outside.world.agents <==> kubeconfig in old(client.outside.world).agents)
    {
      hide Recorded;
      hide Enabled;
      hide Apply;
      var outside := client.outside;
      var fails := outside.Try(AgentSecretWrite);
      ghost var log := outside.log;
      outside.Disturb(if fails then None else Some(kubeconfig));
      if fails {
        FailsLater(log, |old(outside.log)|, {AgentSecretWrite}, outside.log, |old(outside.log)|, {AgentSecretWrite});
      }
      if create && kubeconfig in outside.world.agents {
        return Some(AlreadyExists), false;
      }
      if !create && kubeconfig !in outside.world.agents {
        return Some(Platform.NotFound), false;
      }
      var lost: bool := *;
      if fails && lost {
        return Some(ApiError), false;
      }
      WritingStep(old(outside.world), outside.world, name, kubeconfig, secret);
      ghost var log1 := outside.log;
      outside.Act(WriteAgentSecret(name, kubeconfig, secret));
      if fails {
        FailsLater(log1, |old(outside.log)|, {AgentSecretWrite}, outside.log, |old(outside.log)|, {AgentSecretWrite});
      }
      return if fails then Some(ApiError) else None, true;
    }

    /** Creates the agent secret or replaces it as a whole. Only a read that finds nothing leads to
        Create; one that fails for another reason goes on to Update. Others may change the secret between
        the read and the write; only a failed call stands in the way. */
    method UpsertSecret(name: string, kubeconfig: string, token: OneTimeToken, id: string, tenant: string)
      returns (err: Option<Platform.Error>, ghost written: bool)
      requires client.outside.Valid() && name == client.outside.focus
      requires Enabled(client.outside.world, WriteAgentSecret(name, kubeconfig, Fetched(id, tenant, token).Data()))
      modifies client.outside`world, client.outside`log, client.outside`deeds, client.outside`faults
      ensures client.outside.Valid() && old(client.outside.log) <= client.outside.log
      ensures client.outside.world == old(client.outside.world).(agents := client.outside.world.agents)
      ensures client.outside.deeds ==
              old(client.outside.deeds) + WriteDeeds(name, kubeconfig, Fetched(id, tenant, token).Data(), written)
      ensures written ==> kubeconfig in client.outside.world.agents
      ensures written ==> client.outside.world.agents[kubeconfig] == Fetched(id, tenant, token).Data()
      ensures written ==> Carries(client.outside.world.agents[kubeconfig], id, tenant, token)
      ensures err == None ==> written
      ensures old(client.outside.faults) <= client.outside.faults
      ensures err != None ==>
                && old(client.outside.faults) < client.outside.faults
                && FailsIn(client.outside.log, |old(client.outside.log)|, {AgentSecretRead, AgentSecretWrite})
      ensures err != None && kubeconfig in client.outside.world.agents ==>
                FailsIn(client.outside.log, |old(client.outside.log)|, {AgentSecretWrite})
    {
      hide Recorded;
      hide Enabled;
      hide Carries;
      hide Apply;
      var outside := client.outside;
      var secret := AgentData(token.connectorUrl, id, tenant, token.token);
      OnlyThisCarries(secret, Fetched(id, tenant, token));
      outside.Disturb(None);
      ghost var log0 := outside.log;
      var unreadable := outside.Try(AgentSecretRead);
      ghost var log1 := outside.log;
      WritingStep(old(outside.world), outside.world, name, kubeconfig, secret);
      if !unreadable && kubeconfig !in outside.world.agents {
        err, written := WriteSecret(name, kubeconfig, secret, true);
      } else {
        err, written := WriteSecret(name, kubeconfig, secret, false);
      }
      ghost var kinds := {AgentSecretRead, AgentSecretWrite};
      if FailsIn(outside.log, |log1|, {AgentSecretWrite}) {
        FailsLater(outside.log, |log1|, {AgentSecretWrite}, outside.log, |old(outside.log)|, {AgentSecretWrite});
      }
      if unreadable {
        FailsLater(log1, |log0|, {AgentSecretRead}, outside.log, |old(outside.log)|, kinds);
      } else if err != None {
        FailsLater(outside.log, |log1|, {AgentSecretWrite}, outside.log, |old(outside.log)|, kinds);
      }
    }

    /** Before the end of the call is recorded: the secret is complete and in place, or as others left it. */
    method TryConfigure(name: string, kubeconfig: string, id: string, tenant: string)
      returns (err: Option<Platform.Error>, ghost fetched: Option<OneTimeToken>, ghost written: bool)
      requires client.Valid() && name == client.outside.focus && !client.outside.world.dry
      requires connectorUrlPattern == client.outside.world.pattern
      requires ConfigureDue(client.outside.world, name, id, tenant) && Offers(client.outside.world, name, kubeconfig)
      modifies client`token, client`sent, client.oauth
      modifies client.outside`world, client.outside`log, client.outside`deeds, client.outside`faults
      ensures client.Valid() && old(client.outside.log) <= client.outside.log
      ensures client.outside.world ==
              WithFetched(old(client.outside.world), name, id, tenant, fetched).(agents := client.outside.world.agents)
      ensures client.outside.deeds == old(client.outside.deeds) + FetchDeeds(name, id, tenant, fetched)
              + WriteDeeds(name, kubeconfig, Fetched(id, tenant, fetched.GetOr(OneTimeToken("", ""))).Data(), written)
      ensures written ==> fetched.Some? && Holds(client.outside.world, kubeconfig, Fetched(id, tenant, fetched.value))
      ensures err == None ==> written
      ensures old(client.outside.faults) <= client.outside.faults
      ensures err != None ==> old(client.outside.faults) < client.outside.faults
      ensures err != None ==> Blocked(client.outside.log, |old(client.outside.log)|, connectorUrlPattern, fetched)
    {
      hide Recorded;
      hide DirectorClient.TokensOk;
      hide ConfigureDue;
      hide Offers;
      hide HasSuffix;
      hide AgentData;
      hide Enabled;
      hide WellFormedSecret;
      hide FailsIn;
      hide Explained;
      fetched, written := None, false;
      var unusable := client.outside.Try(ClientBuild);
      if unusable {
        return Some(OtherError), None, false;
      }
      ghost var w, start := client.outside.world, client.SoFar();
      var token;
      ghost var replies;
      token, err, fetched, replies := FetchCompassToken(name, id, tenant);
      if err != None {
        NotHandedOut(start, client.SoFar(), name, id, tenant, replies, fetched);
        return;
      }
      WriteIsEnabled(w, name, kubeconfig, id, tenant, token);
      ghost var log := client.outside.log;
      err, written := UpsertSecret(name, kubeconfig, token, id, tenant);
      if err != None {
        ghost var kinds := {AgentSecretRead, AgentSecretWrite};
        FailsLater(client.outside.log, |log|, kinds, client.outside.log, |old(client.outside.log)|, kinds);
      }
    }

    /** It fails only for one of the listed reasons, and each of them is a failed call. */
    method ConfigureCompassRuntimeAgent(name: string, kubeconfig: string, id: string, tenant: string)
      returns (err: Option<Platform.Error>, ghost fetched: Option<OneTimeToken>, ghost written: bool)
      requires client.Valid() && name == client.outside.focus && !client.outside.world.dry
      requires connectorUrlPattern == client.outside.world.pattern
      requires ConfigureDue(client.outside.world, name, id, tenant) && Offers(client.outside.world, name, kubeconfig)
      modifies client`token, client`sent, client.oauth
      modifies client.outside`world, client.outside`log, client.outside`deeds, client.outside`faults
      ensures client.Valid() && old(client.outside.log) <= client.outside.log
      ensures Configured(old(client.outside.world), client.outside.world, name, kubeconfig, id, tenant, err == None,
                fetched, written)
      ensures client.outside.deeds ==
              old(client.outside.deeds) + ConfigureDeeds(name, kubeconfig, id, tenant, err == None, fetched, written)
      ensures err == None ==> written
      ensures old(client.outside.faults) <= client.outside.faults
      ensures err != None ==> old(client.outside.faults) < client.outside.faults
      ensures err != None ==> Blocked(client.outside.log, |old(client.outside.log)|, connectorUrlPattern, fetched)
    {
      hide Recorded;
      hide DirectorClient.TokensOk;
      hide ConfigureDue;
      hide Offers;
      hide Configured;
      hide Enabled;
      hide Holds;
      hide Blocked;
      ghost var w := client.outside.world;
      err, fetched, written := TryConfigure(name, kubeconfig, id, tenant);
      FinishIsAllowed(w, client.outside.world, name, kubeconfig, id, tenant, err == None, fetched, written);
      ghost var log := client.outside.log;
      client.outside.Act(FinishConfigure(name, kubeconfig, id, tenant, err == None));
      if err != None {
        BlockedLater(log, |old(client.outside.log)|, connectorUrlPattern, fetched, client.outside.log);
      }
    }
  }

  lemma {:induction false} NotHandedOut(t: Trail, t': Trail, name: string, id: string, tenant: string,
          replies: seq<Option<Reply>>, fetched: Option<OneTimeToken>)
    requires Explained(t, t', RequestOneTimeToken(name, id, tenant), replies, fetched.Some?)
    ensures t.log <= t'.log && (fetched == None ==> FailsIn(t'.log, |t.log|, {AccessTokenRequest, TokenRequest}))
  {
    if fetched == None {
      FailsLater(t'.log, |t.log|, Requests(RequestOneTimeToken(name, id, tenant)), t'.log, |t.log|,
        {AccessTokenRequest, TokenRequest});
    }
  }

  lemma {:induction false} BlockedLater(log: seq<Action>, from: nat, pattern: string, fetched: Option<OneTimeToken>,
          log': seq<Action>)
    requires Blocked(log, from, pattern, fetched) && log <= log'
    ensures Blocked(log', from, pattern, fetched)
  {
    forall kinds | FailsIn(log, from, kinds) ensures FailsIn(log', from, kinds) {
      FailsLater(log, from, kinds, log', from, kinds);
    }
  }

  /** Configuring is idempotent: whatever became of a first call, a second one that succeeds leaves what it would
      have left alone, the token fetched last, whole. Others may have changed agent secrets in between. */
  lemma ConfigureIsIdempotent(w: World, w1: World, between: World, w2: World, name: string, kubeconfig: string,
          id: string, tenant: string, ok: bool, fetched1: Option<OneTimeToken>, written1: bool,
          fetched2: Option<OneTimeToken>)
    requires Configured(w, w1, name, kubeconfig, id, tenant, ok, fetched1, written1)
    requires between == w1.(agents := between.agents)
    requires Configured(between, w2, name, kubeconfig, id, tenant, true, fetched2, true)
    ensures Configured(w, w2, name, kubeconfig, id, tenant, true, fetched2, true)
    ensures w2.fetched[name] == Fetched(id, tenant, fetched2.value) && Holds(w2, kubeconfig, w2.fetched[name])
  {
    hide Holds;
    assert w2.fetched == w.fetched[name := Fetched(id, tenant, fetched2.value)];
    assert w2.lastConfigure == w.lastConfigure[name := w2.lastConfigure[name]];
  }

  lemma StillDue(w: World, w1: World, name: string, kubeconfig: string, id: string, tenant: string, ok: bool,
          fetched: Option<OneTimeToken>, written: bool)
    requires ConfigureDue(w, name, id, tenant) && Offers(w, name, kubeconfig)
    requires Configured(w, w1, name, kubeconfig, id, tenant, ok, fetched, written)
    ensures ConfigureDue(w1, name, id, tenant) && w1.dry == w.dry && w1.pattern == w.pattern
    ensures Offers(w1, name, kubeconfig)
  {}

  /** Two calls in a row: after a success of the second the world is as it alone would have left it. */
  method ConfigureTwice(configurator: RuntimeAgentConfigurator, name: string, kubeconfig: string, id: string,
          tenant: string)
    returns (err1: Option<Platform.Error>, err2: Option<Platform.Error>, ghost fetched: Option<OneTimeToken>)
    requires configurator.client.Valid() && name == configurator.client.outside.focus
    requires !configurator.client.outside.world.dry
    requires configurator.connectorUrlPattern == configurator.client.outside.world.pattern
    requires ConfigureDue(configurator.client.outside.world, name, id, tenant)
    requires Offers(configurator.client.outside.world, name, kubeconfig)
    modifies configurator.client`token, configurator.client`sent, configurator.client.oauth
    modifies configurator.client.outside`world, configurator.client.outside`log, configurator.client.outside`deeds
    modifies configurator.client.outside`faults
    ensures configurator.client.Valid()
    ensures old(configurator.client.outside.faults) == configurator.client.outside.faults ==>
              err1 == None && err2 == None
    ensures err2 == None ==> Configured(old(configurator.client.outside.world), configurator.client.outside.world, name,
                               kubeconfig, id, tenant, true, fetched, true)
  {
    hide Recorded;
    hide DirectorClient.TokensOk;
    hide ConfigureDue;
    hide Offers;
    hide Configured;
    hide Blocked;
    ghost var w, fetched1, written1, written2 := configurator.client.outside.world, None, false, false;
    err1, fetched1, written1 := configurator.ConfigureCompassRuntimeAgent(name, kubeconfig, id, tenant);
    ghost var w1 := configurator.client.outside.world;
    StillDue(w, w1, name, kubeconfig, id, tenant, err1 == None, fetched1, written1);
    err2, fetched, written2 := configurator.ConfigureCompassRuntimeAgent(name, kubeconfig, id, tenant);
    if err2 == None {
      ConfigureIsIdempotent(w, w1, w1, configurator.client.outside.world, name, kubeconfig, id, tenant, err1 == None,
        fetched1, written1, fetched);
    }
  }

  lemma OnlyThisCarries(secret: AgentSecret, f: Fetched)
    ensures Carries(secret, f.id, f.tenant, f.token) <==> secret == f.Data()
  {}

  /** A write stays permitted while others change agent secrets. */
  lemma WritingStep(w: World, w1: World, name: string, kubeconfig: string, secret: AgentSecret)
    requires Enabled(w, WriteAgentSecret(name, kubeconfig, secret)) && w1 == w.(agents := w1.agents)
    ensures var write := WriteAgentSecret(name, kubeconfig, secret);
            Enabled(w1, write) && Apply(w1, write) == w1.(agents := w1.agents[kubeconfig := secret])
  {
    ForeignStep(w1, WriteAgentSecret(name, kubeconfig, secret));
  }

  lemma WriteIsEnabled(w: World, name: string, kubeconfig: string, id: string, tenant: string, token: OneTimeToken)
    requires !w.dry && ConfigureDue(w, name, id, tenant) && Offers(w, name, kubeconfig)
    requires Acceptable(token, w.pattern)
    ensures var secret := Fetched(id, tenant, token).Data();
            && Enabled(WithFetched(w, name, id, tenant, Some(token)), WriteAgentSecret(name, kubeconfig, secret))
            && WellFormedSecret(secret, w.pattern)
  {}

  lemma HeldIsWhole(w: World, kubeconfig: string, f: Fetched)
    requires Holds(w, kubeconfig, f)
    ensures kubeconfig in w.agents && w.agents[kubeconfig] == f.Data() && WellFormedSecret(f.Data(), w.pattern)
  {
    OnlyThisCarries(w.agents[kubeconfig], f);
  }

  lemma HeldStays(w: World, a: Action, kubeconfig: string, f: Fetched)
    requires Holds(w, kubeconfig, f) && a.FinishConfigure?
    ensures Holds(Apply(w, a), kubeconfig, f)
  {
    FinishingStep(w, a);
  }

  lemma FinishIsAllowed(w: World, w1: World, name: string, kubeconfig: string, id: string, tenant: string, ok: bool,
          fetched: Option<OneTimeToken>, written: bool)
    requires ConfigureDue(w, name, id, tenant) && Offers(w, name, kubeconfig) && (ok && !w.dry ==> written)
    requires w1 == WithFetched(w, name, id, tenant, fetched).(agents := w1.agents)
    requires written ==> fetched.Some? && Holds(w1, kubeconfig, Fetched(id, tenant, fetched.value))
    ensures var finish := FinishConfigure(name, kubeconfig, id, tenant, ok);
            && Enabled(w1, finish)
            && Configured(w, Apply(w1, finish), name, kubeconfig, id, tenant, ok, fetched, written)
  {
    hide Holds;
    hide WellFormedSecret;
    hide Fetched.Data;
    if written {
      HeldIsWhole(w1, kubeconfig, Fetched(id, tenant, fetched.value));
      HeldStays(w1, FinishConfigure(name, kubeconfig, id, tenant, ok), kubeconfig, Fetched(id, tenant, fetched.value));
    }
    FinishingStep(w1, FinishConfigure(name, kubeconfig, id, tenant, ok));
  }

  /** controllers/dryrun.go: every call succeeds and touches nothing outside. */
  class DryRunner {
    const outside: Outside

    constructor (outside: Outside)
      ensures this.outside == outside
    {
      this.outside := outside;
    }

    method RegisterInCompass(owner: string, labels: RuntimeLabels) returns (id: string, err: Option<AppError>)
      requires outside.Valid() && owner == outside.focus && GlobalAccountId in labels
      requires Enabled(outside.world, CallRegister(owner, labels[GlobalAccountId], labels))
      modifies outside`world, outside`log, outside`deeds
      ensures outside.Valid() && old(outside.log) <= outside.log && outside.world == old(outside.world)
      ensures outside.deeds == old(outside.deeds) + [CallRegister(owner, labels[GlobalAccountId], labels)]
      ensures err == None && IsUuid(id)
    {
      hide Recorded;
      ForeignStep(outside.world, CallRegister(owner, labels[GlobalAccountId], labels));
      outside.Act(CallRegister(owner, labels[GlobalAccountId], labels));
      id := *;
      if !IsUuid(id) {
        AreUuids();
        id := ID1;
      }
      err := None;
    }

    method DeregisterFromCompass() returns (err: Option<AppError>)
      ensures err == None
    {
      err := None;
    }

    method ConfigureCompassRuntimeAgent(name: string, kubeconfig: string, id: string, tenant: string)
      returns (err: Option<Platform.Error>)
      requires outside.Valid() && name == outside.focus && outside.world.dry
      requires ConfigureDue(outside.world, name, id, tenant) && Offers(outside.world, name, kubeconfig)
      modifies outside`world, outside`log, outside`deeds
      ensures outside.Valid() && old(outside.log) <= outside.log && err == None
      ensures outside.deeds == old(outside.deeds) + [FinishConfigure(name, kubeconfig, id, tenant, true)]
      ensures outside.world == old(outside.world).(lastConfigure := outside.world.lastConfigure)
      ensures Configured(old(outside.world), outside.world, name, kubeconfig, id, tenant, true, None, false)
    {
      hide Recorded;
      FinishIsAllowed(outside.world, outside.world, name, kubeconfig, id, tenant, true, None, false);
      FinishingStep(outside.world, FinishConfigure(name, kubeconfig, id, tenant, true));
      outside.Act(FinishConfigure(name, kubeconfig, id, tenant, true));
      err := None;
    }
  }
}
