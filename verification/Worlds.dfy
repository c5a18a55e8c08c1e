/** Everything outside the controller process, as one value: the control-plane cluster (Kymas, their
    kubeconfig secrets, CompassManagerMappings), the Compass Director's runtimes, the agent secrets
    in the client clusters, and what has happened so far. `Action` lists every atomic step that can
    change it, `Apply` says what the step does and `Enabled` when the protocol permits it. */
module Worlds {
  import opened Wrappers
  import opened StatusCode

  /** A finalizer of a mapping: `kyma-project.io/cm-protection`, or somebody else's. */
  datatype Finalizer = CmProtection | Foreign(text: string)

  const MAX_TOKEN_LENGTH: nat := 100

  /** The label keys of a Kyma resource that the controller reads, one constructor each. */
  datatype LabelKey =
    | InstanceId | PlanId | PlanName | GlobalAccount | KymaName | ShootName | Subaccount
    | OtherLabel(text: string)

  type Labels = map<LabelKey, string>

  /** Go's map index: the empty string for a missing key. */
  function Lookup(labels: Labels, key: LabelKey): string {
    if key in labels then labels[key] else ""
  }

  /** The labels of a CompassManagerMapping, by key; None where the key is missing. `managed` and
      `dryRun` stand for the managed-by and cm-dry-run labels, which have one possible value each. */
  datatype MappingLabels = MappingLabels(
    kymaName: Option<string>,
    compassId: Option<string>,
    globalAccount: Option<string>,
    subaccount: Option<string>,
    managed: bool,
    dryRun: bool)

  /** The labels that CreateCompassMapping and UpsertCompassMapping write. */
  function LabelsFor(kyma: Labels, id: string, dry: bool): MappingLabels {
    MappingLabels(
      Some(Lookup(kyma, KymaName)), Some(id), Some(Lookup(kyma, GlobalAccount)),
      Some(Lookup(kyma, Subaccount)), true, dry)
  }

  /** The labels of a runtime in the Director, by key. */
  datatype RuntimeLabelKey =
    | ConnectionManagedBy | BrokerInstanceId | GardenerClusterName | GlobalSubaccountId | GlobalAccountId
    | BrokerPlanId | BrokerPlanName
  type RuntimeLabels = map<RuntimeLabelKey, string>

  /** The labels are the seven that describe the Kyma to the Director. */
  predicate Describes(labels: RuntimeLabels, kyma: Labels) {
    && labels.Keys == {ConnectionManagedBy, BrokerInstanceId, GardenerClusterName, GlobalSubaccountId, GlobalAccountId,
                       BrokerPlanId, BrokerPlanName}
    && labels[ConnectionManagedBy] == "compass-manager"
    && labels[BrokerInstanceId] == Lookup(kyma, InstanceId) && labels[GardenerClusterName] == Lookup(kyma, ShootName)
    && labels[GlobalSubaccountId] == Lookup(kyma, Subaccount) && labels[GlobalAccountId] == Lookup(kyma, GlobalAccount)
    && labels[BrokerPlanId] == Lookup(kyma, PlanId) && labels[BrokerPlanName] == Lookup(kyma, PlanName)
  }

  /** A CompassManagerMapping object. */
  datatype Mapping = Mapping(
    name: string,
    labels: MappingLabels,
    finalizers: seq<Finalizer>,
    deleting: bool,
    status: MappingStatus)
  {
    function Id(): string { labels.compassId.GetOr("") }
    predicate Protected() { CmProtection in finalizers }
  }

  /** The phases of the reconcile protocol for one Kyma. `Broken` is every other combination. */
  datatype Stage = Unmapped | Fresh | Pending | Attached | Registered | Failed | ConfigFailed | Ready | Broken
  {
    predicate NeedsId() { Registered? || ConfigFailed? || Ready? }
  }

  function StageOf(m: Mapping): Stage {
    match m.status
    case MappingStatus(false, false, NoState) => if m.Id() == "" then Fresh else Broken
    case MappingStatus(false, false, ProcessingState) => if m.Id() == "" then Pending else Attached
    case MappingStatus(false, false, FailedState) => if m.Id() == "" then Failed else Broken
    case MappingStatus(true, false, ProcessingState) => Registered
    case MappingStatus(true, false, FailedState) => ConfigFailed
    case MappingStatus(true, true, ReadyState) => Ready
    case _ => Broken
  }

  /** What became of a runtime that the Director created: its creation was never acknowledged, its id
      was returned by RegisterInCompass, the id is the label of a mapping, or it was deleted. */
  datatype Fate = Unacknowledged | Returned | Claimed | Deleted

  /** `owner` is the Kyma on whose behalf the runtime was created, `tenant` its global account. */
  datatype Runtime = Runtime(owner: string, tenant: string, fate: Fate)

  datatype AgentKey = ConnectorUrlKey | RuntimeIdKey | TenantKey | TokenKey | OtherKey(text: string)
  type AgentSecret = map<AgentKey, string>

  /** What the Director hands out to connect a runtime. */
  datatype OneTimeToken = OneTimeToken(connectorUrl: string, token: string)

  /** The four keys of the agent secret, as upsertCompassRuntimeAgentSecret fills them. */
  function AgentData(url: string, id: string, tenant: string, token: string): AgentSecret {
    map[ConnectorUrlKey := url, RuntimeIdKey := id, TenantKey := tenant, TokenKey := token]
  }

  /** The secret has exactly the four keys, with this URL and token, id and tenant. */
  predicate Carries(secret: AgentSecret, id: string, tenant: string, token: OneTimeToken) {
    && secret.Keys == {ConnectorUrlKey, RuntimeIdKey, TenantKey, TokenKey}
    && secret[ConnectorUrlKey] == token.connectorUrl && secret[RuntimeIdKey] == id
    && secret[TenantKey] == tenant && secret[TokenKey] == token.token
  }

  /** The Director's answer to a token request for this runtime and tenant. */
  datatype Fetched = Fetched(id: string, tenant: string, token: OneTimeToken) {
    function Data(): AgentSecret { AgentData(token.connectorUrl, id, tenant, token.token) }
  }

  /** A finished ConfigureCompassRuntimeAgent call and the agent secret as it was at that moment. */
  datatype ConfigureCall = ConfigureCall(id: string, tenant: string, ok: bool, secret: Option<AgentSecret>)

  datatype World = World(
    // constant during a run: feature flags, the accepted connector URL, the labels that each Kyma
    // name carries, and the Kymas whose resource and kubeconfig the environment leaves in place
    enabled: bool,
    dry: bool,
    pattern: string,
    profile: map<string, Labels>,
    steady: set<string>,
    // the control plane; the kubeconfig secrets of a Kyma in the order in which they are listed, and of
    // each the data under the kubeconfig key, if it has that key
    kymas: set<string>,
    kubeconfigs: map<string, seq<Option<string>>>,
    mappings: map<string, Mapping>,
    // the Director and the client clusters (by kubeconfig)
    runtimes: map<string, Runtime>,
    agents: map<string, AgentSecret>,
    // history; `outdated` are the kubeconfigs that Kymas have had before the present one
    outdated: set<(string, string)>,
    deregistrations: set<(string, string)>,
    deregistered: set<string>,
    removed: set<(string, string)>,
    fetched: map<string, Fetched>,
    lastConfigure: map<string, ConfigureCall>)
  {
    function Account(name: string): string
      requires name in profile
    {
      Lookup(profile[name], GlobalAccount)
    }

    function StageAt(name: string): Stage {
      if name in mappings then StageOf(mappings[name]) else Unmapped
    }

    /** The data of the Kyma's first kubeconfig secret, or the empty string. */
    function Kubeconfig(name: string): string {
      if name in kubeconfigs && kubeconfigs[name] != [] then kubeconfigs[name][0].GetOr("") else ""
    }

    /** Is there a runtime with this id that the given tenant can see? */
    predicate Live(id: string, tenant: string) {
      id in runtimes && runtimes[id].tenant == tenant && runtimes[id].fate != Deleted
    }
  }

  predicate HasSuffix(s: string, suffix: string) {
    |suffix| <= |s| && s[|s| - |suffix|..] == suffix
  }

  /** What FetchCompassToken checks of a token. */
  predicate Acceptable(token: OneTimeToken, pattern: string) {
    HasSuffix(token.connectorUrl, pattern) && |token.token| <= MAX_TOKEN_LENGTH
  }

  predicate WellFormedSecret(secret: AgentSecret, pattern: string) {
    && secret.Keys == {ConnectorUrlKey, RuntimeIdKey, TenantKey, TokenKey}
    && HasSuffix(secret[ConnectorUrlKey], pattern)
    && |secret[TokenKey]| <= MAX_TOKEN_LENGTH
  }

  /** RemoveCMFinalizer's effect on the finalizer list: the first occurrence goes. */
  function WithoutFinalizer(finalizers: seq<Finalizer>): seq<Finalizer> {
    if finalizers == [] then []
    else if finalizers[0] == CmProtection then finalizers[1..]
    else [finalizers[0]] + WithoutFinalizer(finalizers[1..])
  }

  predicate AtMostOnce(finalizers: seq<Finalizer>) {
    CmProtection !in WithoutFinalizer(finalizers)
  }

  /** The canonical text form: 32 hexadecimal digits in groups of 8, 4, 4, 4 and 12. */
  predicate IsUuid(s: string) {
    && |s| == 36
    && forall i :: 0 <= i < 36 ==>
         if i in {8, 13, 18, 23} then s[i] == '-'
         else '0' <= s[i] <= '9' || 'a' <= s[i] <= 'f' || 'A' <= s[i] <= 'F'
  }

  /** The requests of the controller that can fail, or be answered in a way that it does not accept. */
  datatype CallKind =
    // to the control plane
    | KymaRead | MappingRead | SecretRead | MappingCreate | MappingUpdate | StatusUpdate | MappingDelete
    // to the Director and its token endpoint
    | InputBuild | AccessTokenRequest | RegisterRequest | UnregisterRequest | TokenRequest
    // to a client cluster
    | ClientBuild | AgentSecretRead | AgentSecretWrite

  datatype Action =
    // the environment
    | KymaAppears(name: string)
    | KymaDisappears(name: string)
    | KubeconfigChanges(name: string, secrets: seq<Option<string>>)
    | DeletionRequested(name: string)
    | FinalizersChanged(name: string, finalizers: seq<Finalizer>)
    | AgentSecretChanges(name: string, kubeconfig: string, content: Option<AgentSecret>)
    // the controller's calls to the API server
    | CreateMapping(name: string, labels: MappingLabels)
    | UpdateMapping(name: string, labels: MappingLabels, finalizers: seq<Finalizer>)
    | UpdateStatus(name: string, status: MappingStatus)
    | DeleteMapping(name: string)
    // the controller's calls to the Registrator and to the Director
    | CallRegister(name: string, tenant: string, described: RuntimeLabels)
    | CreateRuntime(name: string, id: string, tenant: string)
    | ReturnRuntime(name: string, id: string, tenant: string)
    | CallDeregister(name: string, id: string, tenant: string)
    | DeleteRuntime(name: string, id: string, tenant: string)
    | ConfirmDeregister(name: string, id: string, tenant: string)
    | FetchToken(name: string, id: string, tenant: string, token: OneTimeToken)
    // the controller's calls to a client cluster
    | WriteAgentSecret(name: string, kubeconfig: string, secret: AgentSecret)
    | FinishConfigure(name: string, kubeconfig: string, id: string, tenant: string, ok: bool)
    // a call of the controller fails, or the Director has only this unusable id to offer for a new runtime
    | CallFails(name: string, kind: CallKind, offered: Option<string>)
  {
    predicate FromEnvironment() {
      KymaAppears? || KymaDisappears? || KubeconfigChanges? || DeletionRequested? || FinalizersChanged?
      || AgentSecretChanges?
    }

    predicate ToDirector() {
      CreateRuntime? || ReturnRuntime? || CallDeregister? || DeleteRuntime? || ConfirmDeregister? || FetchToken?
    }

    /** The controller's steps outside the control plane. */
    predicate Outbound() {
      ToDirector() || CallRegister? || WriteAgentSecret? || FinishConfigure?
    }
  }

  predicate Vanishes(m: Mapping) {
    m.deleting && m.finalizers == []
  }

  /** The API server stores an object under its name; an object that is being deleted and has no
      finalizer left disappears instead. */
  function StoreIn(mappings: map<string, Mapping>, m: Mapping): map<string, Mapping> {
    if Vanishes(m) then mappings - {m.name} else mappings[m.name := m]
  }

  function Store(w: World, m: Mapping): World {
    w.(mappings := StoreIn(w.mappings, m),
       removed := if Vanishes(m) then w.removed + {(m.name, m.Id())} else w.removed)
  }

  function SetFate(runtimes: map<string, Runtime>, id: string, fate: Fate): map<string, Runtime> {
    if id in runtimes then runtimes[id := runtimes[id].(fate := fate)] else runtimes
  }

  predicate AttachAllowed(w: World, m: Mapping, labels: MappingLabels, finalizers: seq<Finalizer>) {
    var id := labels.compassId.GetOr("");
    && w.enabled && m.name in w.profile && m.Protected() && finalizers == m.finalizers
    && StageOf(m) == Pending && id != ""
    && labels == LabelsFor(w.profile[m.name], id, w.dry)
    && (!w.dry ==> id in w.runtimes && w.runtimes[id] == Runtime(m.name, w.Account(m.name), Returned))
  }

  predicate CutAllowed(w: World, m: Mapping, labels: MappingLabels, finalizers: seq<Finalizer>) {
    && labels == m.labels && finalizers == WithoutFinalizer(m.finalizers)
    && m.name !in w.kymas
    && (m.Id() == "" || w.dry || m.Id() in w.deregistered)
  }

  predicate ConfigureEnded(w: World, name: string, ok: bool) {
    && name in w.mappings && name in w.profile && name in w.lastConfigure
    && var call := w.lastConfigure[name];
    call.ok == ok && call.id == w.mappings[name].Id() && call.tenant == w.Account(name)
  }

  /** Which stage a status write may lead to, and from where. */
  predicate StatusAllowed(w: World, m: Mapping, status: MappingStatus) {
    var before, after := StageOf(m), StageOf(m.(status := status));
    match after
    case Pending => before == Fresh || before == Failed
    case Failed => before == Pending && w.enabled
    case Registered =>
      before == Attached || before == ConfigFailed || before == Ready || (before == Pending && !w.enabled)
    case ConfigFailed => before == Registered && ConfigureEnded(w, m.name, false)
    case Ready => before == Registered && ConfigureEnded(w, m.name, true)
    case _ => false
  }

  /** The Director can give the id to a new runtime. */
  predicate Usable(w: World, id: string) {
    IsUuid(id) && id !in w.runtimes
  }

  /** The Kyma has this kubeconfig, or has had it. */
  predicate Offers(w: World, name: string, kubeconfig: string) {
    kubeconfig == w.Kubeconfig(name) || (name, kubeconfig) in w.outdated
  }

  /** Configuration is due for the Kyma, with its own id and global account. */
  predicate ConfigureDue(w: World, name: string, id: string, tenant: string) {
    && w.StageAt(name) == Registered && name in w.profile
    && id == w.mappings[name].Id() && tenant == w.Account(name)
  }

  predicate Enabled(w: World, a: Action) {
    match a
    case KymaAppears(n) => n in w.profile && n !in w.kymas && n !in w.mappings
    case KymaDisappears(n) => n in w.kymas && n !in w.steady
    case KubeconfigChanges(n, _) => n !in w.steady
    case DeletionRequested(n) => n in w.mappings
    case FinalizersChanged(n, fs) =>
      && n in w.mappings && AtMostOnce(fs)
      && (CmProtection in fs <==> w.mappings[n].Protected())
    case AgentSecretChanges(_, _, _) => true
    case CreateMapping(n, labels) =>
      n in w.profile && n !in w.mappings && labels == LabelsFor(w.profile[n], "", w.dry)
    case UpdateMapping(n, labels, fs) =>
      && n in w.mappings
      && (AttachAllowed(w, w.mappings[n], labels, fs) || CutAllowed(w, w.mappings[n], labels, fs))
    case UpdateStatus(n, status) => n in w.mappings && StatusAllowed(w, w.mappings[n], status)
    case DeleteMapping(n) => n in w.mappings && n !in w.kymas && !w.mappings[n].Protected()
    case CallRegister(n, tenant, labels) =>
      && w.enabled && n in w.profile && tenant == w.Account(n) && w.StageAt(n) == Pending
      && Describes(labels, w.profile[n])
    case CreateRuntime(n, id, tenant) =>
      && !w.dry && w.enabled && id !in w.runtimes
      && n in w.profile && tenant == w.Account(n) && w.StageAt(n) == Pending
    case ReturnRuntime(n, id, tenant) =>
      id != "" && IsUuid(id) && id in w.runtimes && w.runtimes[id] == Runtime(n, tenant, Unacknowledged)
    case CallDeregister(n, id, tenant) =>
      && !w.dry && n in w.mappings && n !in w.kymas
      && id == w.mappings[n].Id() && id != "" && w.mappings[n].labels.globalAccount == Some(tenant)
    case DeleteRuntime(n, id, tenant) =>
      (id, tenant) in w.deregistrations && w.Live(id, tenant) && w.runtimes[id].owner == n
    case ConfirmDeregister(_, id, tenant) => (id, tenant) in w.deregistrations && !w.Live(id, tenant)
    case FetchToken(n, id, tenant, _) => !w.dry && ConfigureDue(w, n, id, tenant)
    case WriteAgentSecret(n, kubeconfig, secret) =>
      && Offers(w, n, kubeconfig) && !w.dry
      && n in w.fetched && ConfigureDue(w, n, w.fetched[n].id, w.fetched[n].tenant)
      && secret == w.fetched[n].Data() && WellFormedSecret(secret, w.pattern)
    case FinishConfigure(n, kubeconfig, id, tenant, ok) =>
      && Offers(w, n, kubeconfig) && ConfigureDue(w, n, id, tenant)
      && (ok && !w.dry ==>
            && kubeconfig in w.agents && n in w.fetched && w.fetched[n].id == id && w.fetched[n].tenant == tenant
            && w.agents[kubeconfig] == w.fetched[n].Data() && WellFormedSecret(w.agents[kubeconfig], w.pattern))
    case CallFails(_, kind, offered) => offered.Some? ==> kind == RegisterRequest && !Usable(w, offered.value)
  }

  /** The mapping object, if any, that an action makes the API server store. */
  function Stored(w: World, a: Action): Option<Mapping> {
    match a
    case CreateMapping(n, labels) => Some(Mapping(n, labels, [CmProtection], false, ZERO_STATUS))
    case _ =>
      if a.name !in w.mappings then None
      else
        var m := w.mappings[a.name];
        match a
        case DeletionRequested(_) => Some(m.(deleting := true))
        case DeleteMapping(_) => Some(m.(deleting := true))
        case FinalizersChanged(_, fs) => Some(m.(finalizers := fs))
        case UpdateMapping(_, labels, fs) => Some(m.(labels := labels, finalizers := fs))
        case UpdateStatus(_, status) => Some(m.(status := status))
        case _ => None
  }

  function KymasAfter(w: World, a: Action): set<string> {
    match a
    case KymaAppears(n) => w.kymas + {n}
    case KymaDisappears(n) => w.kymas - {n}
    case _ => w.kymas
  }

  function KubeconfigsAfter(w: World, a: Action): map<string, seq<Option<string>>> {
    match a
    case KubeconfigChanges(n, secrets) => w.kubeconfigs[n := secrets]
    case _ => w.kubeconfigs
  }

  function OutdatedAfter(w: World, a: Action): set<(string, string)> {
    match a
    case KubeconfigChanges(n, _) => w.outdated + {(n, w.Kubeconfig(n))}
    case _ => w.outdated
  }

  function RuntimesAfter(w: World, a: Action): map<string, Runtime> {
    match a
    case CreateRuntime(n, id, tenant) => w.runtimes[id := Runtime(n, tenant, Unacknowledged)]
    case ReturnRuntime(_, id, _) => SetFate(w.runtimes, id, Returned)
    case UpdateMapping(_, labels, _) =>
      var id := labels.compassId.GetOr("");
      if id in w.runtimes && w.runtimes[id].fate == Returned then SetFate(w.runtimes, id, Claimed) else w.runtimes
    case DeleteRuntime(_, id, _) => SetFate(w.runtimes, id, Deleted)
    case _ => w.runtimes
  }

  function AgentsAfter(w: World, a: Action): map<string, AgentSecret> {
    match a
    case AgentSecretChanges(_, kubeconfig, Some(secret)) => w.agents[kubeconfig := secret]
    case AgentSecretChanges(_, kubeconfig, None) => w.agents - {kubeconfig}
    case WriteAgentSecret(_, kubeconfig, secret) => w.agents[kubeconfig := secret]
    case _ => w.agents
  }

  function FetchedAfter(w: World, a: Action): map<string, Fetched> {
    match a
    case FetchToken(n, id, tenant, token) => w.fetched[n := Fetched(id, tenant, token)]
    case _ => w.fetched
  }

  function CallsAfter(w: World, a: Action): map<string, ConfigureCall> {
    match a
    case FinishConfigure(n, kubeconfig, id, tenant, ok) =>
      var secret := if kubeconfig in w.agents then Some(w.agents[kubeconfig]) else None;
      w.lastConfigure[n := ConfigureCall(id, tenant, ok, secret)]
    case _ => w.lastConfigure
  }

  /** The world after an action: each part changes only by the actions that concern it. */
  function Apply(w: World, a: Action): World {
    var stored := Stored(w, a);
    w.(mappings := if stored.Some? then StoreIn(w.mappings, stored.value) else w.mappings,
       removed := if stored.Some? && Vanishes(stored.value) then w.removed + {(stored.value.name, stored.value.Id())}
                  else w.removed,
       kymas := KymasAfter(w, a),
       kubeconfigs := KubeconfigsAfter(w, a),
       outdated := OutdatedAfter(w, a),
       runtimes := RuntimesAfter(w, a),
       agents := AgentsAfter(w, a),
       deregistrations := if a.CallDeregister? then w.deregistrations + {(a.id, a.tenant)} else w.deregistrations,
       deregistered := if a.ConfirmDeregister? then w.deregistered + {a.id} else w.deregistered,
       fetched := FetchedAfter(w, a),
       lastConfigure := CallsAfter(w, a))
  }
}
