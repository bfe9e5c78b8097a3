/** Minting and rotating the internal tokens (scripts/dev-mint-tokens.py), and what services accept
    while a rotation rolls out (packages/common bootstrap.py). */
module Tokens {
  import opened Wrappers

  /** The services with an inbound token; `Other` is any other name found in the gateway's map. */
  datatype Service =
    | OutboxWorker | WatcherAgent | PlannerAgent | ReasonerAgent | KnowledgeService | FeedbackService
    | Other(name: string)

  datatype Mode = Extended | Embed | Reason | OtherMode(name: string)

  type Token = nat

  const AGENT_SERVICES: seq<Service> :=
    [OutboxWorker, WatcherAgent, PlannerAgent, ReasonerAgent, KnowledgeService, FeedbackService]

  const DISPATCH_TARGETS: seq<Service> := [WatcherAgent, PlannerAgent, ReasonerAgent, FeedbackService]

  const GATEWAY_GRANTS: seq<(Service, seq<Mode>)> :=
    [(ReasonerAgent, [Extended]), (KnowledgeService, [Embed, Reason])]

  const WEBHOOK_SOURCES: seq<string> := ["prometheus", "kibana", "mock"]

  datatype Grant = Grant(service: Service, mode: Mode)

  function Modes(s: Service): seq<Mode> {
    match s
    case ReasonerAgent => [Extended]
    case KnowledgeService => [Embed, Reason]
    case _ => []
  }

  predicate Granted(g: Grant) {
    g.mode in Modes(g.service)
  }

  /** One service's secret. `fields` holds `gateway_token_<mode>`, `bare` the plain `gateway_token`,
      `rest` whatever else is kept there. */
  datatype Secret = Secret(
    agentToken: Option<Token>,
    previous: Option<Token>,
    knowledgeToken: Option<Token>,
    dispatchTokens: Option<map<Service, Token>>,
    fields: map<Mode, Token>,
    bare: Option<Token>,
    rest: map<string, string>)

  const EMPTY := Secret(None, None, None, None, map[], None, map[])

  datatype Store = Store(secrets: map<Service, Secret>, gateway: map<Token, Grant>, webhooks: map<string, Token>)

  function Read(secrets: map<Service, Secret>, s: Service): Secret {
    if s in secrets then secrets[s] else EMPTY
  }

  function TokenOf(st: Store, s: Service): Option<Token> {
    Read(st.secrets, s).agentToken
  }

  // ---------------------------------------------------------------- the goal

  predicate IsAgent(s: Service) {
    !s.Other?
  }

  predicate IsTarget(s: Service) {
    s.WatcherAgent? || s.PlannerAgent? || s.ReasonerAgent? || s.FeedbackService?
  }

  lemma Tables(s: Service)
    ensures s in AGENT_SERVICES <==> IsAgent(s)
    ensures s in DISPATCH_TARGETS <==> IsTarget(s)
    ensures forall k :: 0 <= k < |GATEWAY_GRANTS| ==> Modes(GATEWAY_GRANTS[k].0) == GATEWAY_GRANTS[k].1
    ensures IsAgent(s) <==> s == OutboxWorker || s == WatcherAgent || s == PlannerAgent || s == ReasonerAgent
                            || s == KnowledgeService || s == FeedbackService
    ensures IsTarget(s) <==> s == WatcherAgent || s == PlannerAgent || s == ReasonerAgent || s == FeedbackService
    ensures forall m :: Granted(Grant(s, m)) <==>
              || (s == ReasonerAgent && m == Extended) || (s == KnowledgeService && m == Embed) || (s == KnowledgeService && m == Reason)
    ensures WEBHOOK_SOURCES == ["prometheus", "kibana", "mock"]
    ensures Modes(s) != [] ==> exists k :: 0 <= k < |GATEWAY_GRANTS| && GATEWAY_GRANTS[k].0 == s
  {
    assert GATEWAY_GRANTS[0].0 == ReasonerAgent && GATEWAY_GRANTS[1].0 == KnowledgeService;
    assert AGENT_SERVICES[0] == OutboxWorker && AGENT_SERVICES[1] == WatcherAgent && AGENT_SERVICES[2] == PlannerAgent
        && AGENT_SERVICES[3] == ReasonerAgent && AGENT_SERVICES[4] == KnowledgeService && AGENT_SERVICES[5] == FeedbackService;
    assert DISPATCH_TARGETS[0] == WatcherAgent && DISPATCH_TARGETS[1] == PlannerAgent
        && DISPATCH_TARGETS[2] == ReasonerAgent && DISPATCH_TARGETS[3] == FeedbackService;
  }

  /** A dispatch map with the token of every target and nothing else. */
  ghost predicate Carries(m: map<Service, Token>, st: Store) {
    && (forall t :: t in m <==> IsTarget(t))
    && (forall t :: t in m ==> TokenOf(st, t) == Some(m[t]))
  }

  /** The worker sends each target what the target accepts now, and the reasoner likewise. */
  ghost predicate CallersAgree(st: Store) {
    && (forall s :: IsAgent(s) ==> TokenOf(st, s).Some?)
    && Read(st.secrets, OutboxWorker).dispatchTokens.Some?
    && Carries(Read(st.secrets, OutboxWorker).dispatchTokens.value, st)
    && Read(st.secrets, ReasonerAgent).knowledgeToken == TokenOf(st, KnowledgeService)
  }

  ghost predicate AtMostOne(gateway: map<Token, Grant>) {
    forall t, u :: t in gateway && u in gateway && gateway[t] == gateway[u] && Granted(gateway[t]) ==> t == u
  }

  predicate HoldsOwn(st: Store, g: Grant) {
    var fields := Read(st.secrets, g.service).fields;
    g.mode in fields && fields[g.mode] in st.gateway && st.gateway[fields[g.mode]] == g
  }

  /** Only a service with a single grant keeps the bare name, for that grant's token. */
  predicate BareAgrees(st: Store, s: Service) {
    var secret := Read(st.secrets, s);
    && (|Modes(s)| == 1 ==> Modes(s)[0] in secret.fields && secret.bare == Some(secret.fields[Modes(s)[0]]))
    && (|Modes(s)| > 1 ==> secret.bare == None)
  }

  /** Every granted pair has exactly one token, held in its own service's field, and no pair that
      is not granted has any. */
  ghost predicate GatewayAgrees(st: Store) {
    && AtMostOne(st.gateway)
    && (forall t :: t in st.gateway ==> Granted(st.gateway[t]))
    && (forall g :: Granted(g) ==> HoldsOwn(st, g))
    && (forall s :: BareAgrees(st, s))
  }

  // ---------------------------------------------------------------- what one run does

  predicate Rotates(rotate: Option<Service>, s: Service) {
    rotate == Some(s)
  }

  ghost predicate Unused(st: Store, t: Token) {
    t !in st.gateway && forall s :: TokenOf(st, s) != Some(t)
  }

  /** The agent tokens of a run, by service. */
  ghost predicate AgentTokens(before: Store, rotate: Option<Service>, tokens: map<Service, Token>) {
    && (forall s :: s in tokens <==> IsAgent(s))
    && (forall s :: s in tokens ==>
          if TokenOf(before, s).Some? && !Rotates(rotate, s) then TokenOf(before, s) == Some(tokens[s])
          else Unused(before, tokens[s]))
  }

  /** The agent token kept, minted, or rotated with the old one still there. */
  ghost predicate AgentPart(was: Secret, now: Secret, rotating: bool, token: Token) {
    && now.agentToken == Some(token)
    && now.previous == if was.agentToken.Some? && rotating then was.agentToken else was.previous
  }

  ghost predicate DispatchPart(was: Secret, now: Secret, s: Service, tokens: map<Service, Token>) {
    if s.OutboxWorker? then
      && now.dispatchTokens.Some?
      && (forall t :: t in now.dispatchTokens.value <==> IsTarget(t))
      && (forall t :: t in now.dispatchTokens.value ==> t in tokens && now.dispatchTokens.value[t] == tokens[t])
    else now.dispatchTokens == was.dispatchTokens
  }

  ghost predicate KnowledgePart(was: Secret, now: Secret, s: Service, tokens: map<Service, Token>) {
    if s.ReasonerAgent? then KnowledgeService in tokens && now.knowledgeToken == Some(tokens[KnowledgeService])
    else now.knowledgeToken == was.knowledgeToken
  }

  /** The gateway fields written for the pairs in `chosen`. */
  ghost predicate GatewayPart(was: Secret, now: Secret, s: Service, chosen: map<Grant, Token>) {
    && (forall m :: Grant(s, m) in chosen ==> m in now.fields && now.fields[m] == chosen[Grant(s, m)])
    && (forall m :: Grant(s, m) !in chosen && m in was.fields ==> m in now.fields && now.fields[m] == was.fields[m])
    && (forall m :: Grant(s, m) !in chosen && m in now.fields ==> m in was.fields)
    && ((forall m :: Grant(s, m) !in chosen) ==> now.bare == was.bare)
    && (forall m :: Grant(s, m) in chosen ==> now.bare == if |Modes(s)| == 1 then Some(chosen[Grant(s, m)]) else None)
  }

  /** Everything one run does to one secret. */
  ghost predicate SecretRan(was: Secret, now: Secret, s: Service, rotate: Option<Service>, tokens: map<Service, Token>,
                            chosen: map<Grant, Token>) {
    && (s in tokens ==> AgentPart(was, now, Rotates(rotate, s), tokens[s]))
    && (s !in tokens ==> now.agentToken == was.agentToken && now.previous == was.previous)
    && DispatchPart(was, now, s, tokens)
    && KnowledgePart(was, now, s, tokens)
    && GatewayPart(was, now, s, chosen)
    && now.rest == was.rest
  }

  /** For each granted pair that has a token, the one the run goes by. */
  ghost predicate ByPair(gateway: map<Token, Grant>, byPair: map<Grant, Token>) {
    && (forall g :: g in byPair ==> Granted(g) && byPair[g] in gateway && gateway[byPair[g]] == g)
    && (forall t :: t in gateway && Granted(gateway[t]) ==> gateway[t] in byPair)
  }

  /** The token a pair ends up with: the one it had, or a fresh one. */
  ghost predicate Chosen(before: map<Token, Grant>, rotate: Option<Service>, byPair: map<Grant, Token>, g: Grant, token: Token) {
    if g in byPair && !Rotates(rotate, g.service) then token == byPair[g] else token !in before
  }

  /** A token the run leaves in the gateway's map: its pair is granted, and it is not the one a
      rotation has replaced. */
  ghost predicate Survives(gateway: map<Token, Grant>, byPair: map<Grant, Token>, rotate: Option<Service>,
                           chosen: map<Grant, Token>, t: Token) {
    && t in gateway && Granted(gateway[t])
    && !(Rotates(rotate, gateway[t].service) && gateway[t] in chosen && gateway[t] in byPair && byPair[gateway[t]] == t)
  }

  ghost predicate PairAt(before: map<Token, Grant>, gateway: map<Token, Grant>, rotate: Option<Service>,
                         byPair: map<Grant, Token>, chosen: map<Grant, Token>, g: Grant) {
    g in chosen ==> chosen[g] in gateway && gateway[chosen[g]] == g && Chosen(before, rotate, byPair, g, chosen[g])
  }

  ghost predicate TokenAt(before: map<Token, Grant>, gateway: map<Token, Grant>, rotate: Option<Service>,
                          byPair: map<Grant, Token>, chosen: map<Grant, Token>, t: Token) {
    && (Survives(before, byPair, rotate, chosen, t) ==> t in gateway && gateway[t] == before[t])
    && (t in gateway ==>
          || (gateway[t] in chosen && chosen[gateway[t]] == t)
          || (Survives(before, byPair, rotate, chosen, t) && gateway[t] == before[t]))
  }

  /** The gateway's map once the pairs in `chosen` are done: their tokens, the survivors, no more. */
  ghost predicate GatewayMinted(before: map<Token, Grant>, gateway: map<Token, Grant>, rotate: Option<Service>,
                                byPair: map<Grant, Token>, chosen: map<Grant, Token>) {
    && (forall g :: PairAt(before, gateway, rotate, byPair, chosen, g))
    && (forall t :: TokenAt(before, gateway, rotate, byPair, chosen, t))
  }

  ghost predicate WebhooksMinted(before: map<string, Token>, after: map<string, Token>) {
    && (forall x :: x in after <==> x in before || x in WEBHOOK_SOURCES)
    && (forall x :: x in before ==> after[x] == before[x])
  }

  /** Where a token is accepted, beside the gateway: at an agent or from a webhook's source. */
  datatype Place = Agent(service: Service) | Webhook(source: string)

  function At(st: Store, place: Place): Option<Token> {
    match place
    case Agent(s) => TokenOf(st, s)
    case Webhook(x) => if x in st.webhooks then Some(st.webhooks[x]) else None
  }

  /** No token serves twice: no two places have the same, and none has one of the gateway's. */
  ghost predicate Apart(st: Store) {
    && (forall p, q :: p != q && At(st, p).Some? ==> At(st, p) != At(st, q))
    && (forall p :: At(st, p).Some? ==> At(st, p).value !in st.gateway)
  }

  ghost predicate RanWith(before: Store, after: Store, rotate: Option<Service>, tokens: map<Service, Token>,
                          byPair: map<Grant, Token>, chosen: map<Grant, Token>) {
    && AgentTokens(before, rotate, tokens)
    && ByPair(before.gateway, byPair)
    && (forall g :: g in chosen <==> Granted(g))
    && GatewayMinted(before.gateway, after.gateway, rotate, byPair, chosen)
    && (forall s :: s in after.secrets <==> s in before.secrets || IsAgent(s))
    && (forall s :: SecretRan(Read(before.secrets, s), Read(after.secrets, s), s, rotate, tokens, chosen))
    && WebhooksMinted(before.webhooks, after.webhooks)
    && (Apart(before) ==> Apart(after))
  }

  /** `after` is what one run, plain or rotating, makes of `before`. */
  ghost predicate Ran(before: Store, after: Store, rotate: Option<Service>) {
    exists tokens, byPair, chosen :: RanWith(before, after, rotate, tokens, byPair, chosen)
  }

  function Finalized(st: Store, s: Service): Store {
    if Read(st.secrets, s).previous.None? then st
    else st.(secrets := st.secrets[s := Read(st.secrets, s).(previous := None)])
  }

  // ---------------------------------------------------------------- runs converge

  lemma SecretAfter(before: Store, after: Store, rotate: Option<Service>, tokens: map<Service, Token>,
                    byPair: map<Grant, Token>, chosen: map<Grant, Token>, s: Service)
    requires RanWith(before, after, rotate, tokens, byPair, chosen)
    ensures SecretRan(Read(before.secrets, s), Read(after.secrets, s), s, rotate, tokens, chosen)
  {
  }

  lemma AgentsAfter(before: Store, after: Store, rotate: Option<Service>, tokens: map<Service, Token>,
                    byPair: map<Grant, Token>, chosen: map<Grant, Token>)
    requires RanWith(before, after, rotate, tokens, byPair, chosen)
    ensures forall s :: IsAgent(s) ==> TokenOf(after, s) == Some(tokens[s])
    ensures CallersAgree(after)
  {
    forall s | IsAgent(s) ensures TokenOf(after, s) == Some(tokens[s]) {
      SecretAfter(before, after, rotate, tokens, byPair, chosen, s);
    }
    SecretAfter(before, after, rotate, tokens, byPair, chosen, OutboxWorker);
    SecretAfter(before, after, rotate, tokens, byPair, chosen, ReasonerAgent);
  }

  /** One agent's secret after a run: a token kept, or replaced with the old one beside it when it is the
      one to rotate, or a fresh one where there was none. */
  lemma AgentRan(before: Store, after: Store, rotate: Option<Service>, s: Service, was: Secret)
    requires Ran(before, after, rotate) && !s.Other? && was == if s in before.secrets then before.secrets[s] else EMPTY
    ensures s in after.secrets
    ensures var now := after.secrets[s];
      && now.agentToken.Some? && now.rest == was.rest
      && (was.agentToken.Some? && rotate != Some(s) ==> now.agentToken == was.agentToken && now.previous == was.previous)
      && (was.agentToken.Some? && rotate == Some(s) ==> now.agentToken != was.agentToken && now.previous == was.agentToken)
      && (was.agentToken.None? ==> now.previous == was.previous)
      && (was.agentToken.None? || rotate == Some(s) ==>
            && now.agentToken.value !in before.gateway
            && forall u :: u in before.secrets ==> before.secrets[u].agentToken != now.agentToken)
  {
    var tokens, byPair, chosen :| RanWith(before, after, rotate, tokens, byPair, chosen);
    SecretAfter(before, after, rotate, tokens, byPair, chosen, s);
    assert was == Read(before.secrets, s);
    forall u | u in before.secrets ensures TokenOf(before, u) == before.secrets[u].agentToken {}
  }

  /** The callers after a run: the worker holds the token of each of its four targets and no other, the
      reasoner the knowledge service's. */
  lemma CallersRan(before: Store, after: Store, rotate: Option<Service>)
    requires Ran(before, after, rotate)
    ensures forall s :: s in {OutboxWorker, WatcherAgent, PlannerAgent, ReasonerAgent, KnowledgeService, FeedbackService} ==>
              s in after.secrets && after.secrets[s].agentToken.Some?
    ensures var held := after.secrets[OutboxWorker].dispatchTokens;
      && held.Some? && held.value.Keys == {WatcherAgent, PlannerAgent, ReasonerAgent, FeedbackService}
      && forall t :: t in held.value ==> after.secrets[t].agentToken == Some(held.value[t])
    ensures after.secrets[ReasonerAgent].knowledgeToken == after.secrets[KnowledgeService].agentToken
  {
    RunAgrees(before, after, rotate);
    AgreementMeans(after);
  }

  lemma RunAgrees(before: Store, after: Store, rotate: Option<Service>)
    requires Ran(before, after, rotate)
    ensures CallersAgree(after)
  {
    var tokens, byPair, chosen :| RanWith(before, after, rotate, tokens, byPair, chosen);
    AgentsAfter(before, after, rotate, tokens, byPair, chosen);
  }

  lemma AgreementMeans(st: Store)
    requires CallersAgree(st)
    ensures forall s :: s in {OutboxWorker, WatcherAgent, PlannerAgent, ReasonerAgent, KnowledgeService, FeedbackService} ==>
              s in st.secrets && st.secrets[s].agentToken.Some?
    ensures var held := st.secrets[OutboxWorker].dispatchTokens;
      && held.Some? && held.value.Keys == {WatcherAgent, PlannerAgent, ReasonerAgent, FeedbackService}
      && forall t :: t in held.value ==> st.secrets[t].agentToken == Some(held.value[t])
    ensures st.secrets[ReasonerAgent].knowledgeToken == st.secrets[KnowledgeService].agentToken
  {
    forall s | IsAgent(s) ensures s in st.secrets && st.secrets[s].agentToken.Some? { assert TokenOf(st, s).Some?; }
    var m := st.secrets[OutboxWorker].dispatchTokens.value;
    forall t ensures t in m <==> t in {WatcherAgent, PlannerAgent, ReasonerAgent, FeedbackService} {}
    forall t | t in m ensures st.secrets[t].agentToken == Some(m[t]) { assert TokenOf(st, t) == Some(m[t]); }
  }

  /** What a run leaves alone: every other secret, and the webhooks' tokens that are there. */
  lemma OthersRan(before: Store, after: Store, rotate: Option<Service>)
    requires Ran(before, after, rotate)
    ensures forall s :: s in after.secrets && s.Other? ==> s in before.secrets && after.secrets[s] == before.secrets[s]
    ensures forall x :: x in after.webhooks <==> x in before.webhooks || x == "prometheus" || x == "kibana" || x == "mock"
    ensures forall x :: x in before.webhooks ==> after.webhooks[x] == before.webhooks[x]
  {
    var tokens, byPair, chosen :| RanWith(before, after, rotate, tokens, byPair, chosen);
    forall s | s in after.secrets && s.Other? ensures s in before.secrets && after.secrets[s] == before.secrets[s] {
      SecretAfter(before, after, rotate, tokens, byPair, chosen, s);
      OtherSecretStays(Read(before.secrets, s), Read(after.secrets, s), s, chosen);
    }
    forall x ensures x in WEBHOOK_SOURCES <==> x == "prometheus" || x == "kibana" || x == "mock" { SourcesAre(x); }
  }

  lemma SourcesAre(x: string)
    ensures x in WEBHOOK_SOURCES <==> x == "prometheus" || x == "kibana" || x == "mock"
  {
    assert WEBHOOK_SOURCES[0] == "prometheus" && WEBHOOK_SOURCES[1] == "kibana" && WEBHOOK_SOURCES[2] == "mock";
  }

  lemma OtherSecretStays(was: Secret, now: Secret, s: Service, chosen: map<Grant, Token>)
    requires s.Other? && GatewayPart(was, now, s, chosen) && (forall g :: g in chosen ==> Granted(g))
    requires now == was.(fields := now.fields, bare := now.bare)
    ensures now == was
  {
    forall m ensures Grant(s, m) !in chosen {}
    assert now.fields == was.fields;
  }

  /** One pair in the gateway's map after a run over a map without doubles: its one token, the one it had
      unless it was to rotate. */
  lemma PairRan(before: Store, after: Store, rotate: Option<Service>, byPair: map<Grant, Token>, chosen: map<Grant, Token>,
                g: Grant, t: Token)
    requires ByPair(before.gateway, byPair) && (forall h :: h in chosen <==> Granted(h))
    requires GatewayMinted(before.gateway, after.gateway, rotate, byPair, chosen) && AtMostOne(before.gateway) && Granted(g)
    ensures t in after.gateway && after.gateway[t] == g <==> t == chosen[g]
    ensures t in before.gateway && before.gateway[t] == g ==> if rotate == Some(g.service) then t !in after.gateway else t == chosen[g]
  {
    assert PairAt(before.gateway, after.gateway, rotate, byPair, chosen, g);
    if t in after.gateway { OnlyChosen(before, after, rotate, byPair, chosen, t); }
    if t in before.gateway && before.gateway[t] == g { OldTokenRan(before, after, rotate, byPair, chosen, g, t); }
  }

  lemma OldTokenRan(before: Store, after: Store, rotate: Option<Service>, byPair: map<Grant, Token>, chosen: map<Grant, Token>,
                    g: Grant, t: Token)
    requires ByPair(before.gateway, byPair) && g in byPair && g in chosen && AtMostOne(before.gateway)
    requires PairAt(before.gateway, after.gateway, rotate, byPair, chosen, g)
    requires TokenAt(before.gateway, after.gateway, rotate, byPair, chosen, t)
    requires t in before.gateway && before.gateway[t] == g
    requires t in after.gateway ==>
               && after.gateway[t] in chosen && chosen[after.gateway[t]] == t
               && PairAt(before.gateway, after.gateway, rotate, byPair, chosen, after.gateway[t])
    ensures if rotate == Some(g.service) then t !in after.gateway else t == chosen[g]
  {
    assert byPair[g] == t;
  }

  /** The gateway after a run over a map without doubles: each of the three pairs has one token, in its
      service's own field, the one it had unless it was to rotate; every other token is gone. */
  lemma GatewayRan(before: Store, after: Store, rotate: Option<Service>, s: Service, m: Mode, t: Token)
    requires Ran(before, after, rotate) && AtMostOne(before.gateway)
    requires (s == ReasonerAgent && m == Extended) || (s == KnowledgeService && m == Embed) || (s == KnowledgeService && m == Reason)
    ensures s in after.secrets && m in after.secrets[s].fields
    ensures t in after.gateway && after.gateway[t] == Grant(s, m) <==> t == after.secrets[s].fields[m]
    ensures t in before.gateway && before.gateway[t] == Grant(s, m) ==>
              if rotate == Some(s) then t !in after.gateway else t == after.secrets[s].fields[m]
    ensures after.secrets[s].bare == if s == ReasonerAgent then Some(after.secrets[s].fields[m]) else None
  {
    var tokens, byPair, chosen :| RanWith(before, after, rotate, tokens, byPair, chosen);
    FieldsAfter(before, after, rotate, tokens, byPair, chosen);
    PairRan(before, after, rotate, byPair, chosen, Grant(s, m), t);
    OwnFields(after, Grant(s, m));
  }

  lemma OnlyPairsRan(before: Store, after: Store, rotate: Option<Service>, t: Token)
    requires Ran(before, after, rotate) && t in after.gateway
    ensures var g := after.gateway[t];
            g == Grant(ReasonerAgent, Extended) || g == Grant(KnowledgeService, Embed) || g == Grant(KnowledgeService, Reason)
  {
    var tokens, byPair, chosen :| RanWith(before, after, rotate, tokens, byPair, chosen);
    FieldsAfter(before, after, rotate, tokens, byPair, chosen);
    GrantedAre(after.gateway[t]);
  }

  lemma GrantedAre(g: Grant)
    ensures Granted(g) <==>
              g == Grant(ReasonerAgent, Extended) || g == Grant(KnowledgeService, Embed) || g == Grant(KnowledgeService, Reason)
  {
  }

  lemma OwnFields(st: Store, g: Grant)
    requires Granted(g) && HoldsOwn(st, g) && BareAgrees(st, g.service)
    ensures g.service in st.secrets && g.mode in st.secrets[g.service].fields
    ensures st.secrets[g.service].fields == Read(st.secrets, g.service).fields
    ensures st.secrets[g.service].bare == if g.service == ReasonerAgent then Some(st.secrets[g.service].fields[g.mode]) else None
  {
  }

  lemma FieldsAfter(before: Store, after: Store, rotate: Option<Service>, tokens: map<Service, Token>,
                    byPair: map<Grant, Token>, chosen: map<Grant, Token>)
    requires RanWith(before, after, rotate, tokens, byPair, chosen)
    ensures forall g :: Granted(g) ==> HoldsOwn(after, g) && Read(after.secrets, g.service).fields[g.mode] == chosen[g]
    ensures forall s :: BareAgrees(after, s)
    ensures forall t :: t in after.gateway ==> Granted(after.gateway[t])
  {
    forall g | Granted(g) ensures HoldsOwn(after, g) && Read(after.secrets, g.service).fields[g.mode] == chosen[g] {
      SecretAfter(before, after, rotate, tokens, byPair, chosen, g.service);
      assert PairAt(before.gateway, after.gateway, rotate, byPair, chosen, g);
      assert g == Grant(g.service, g.mode);
    }
    forall t | t in after.gateway ensures Granted(after.gateway[t]) {
      assert TokenAt(before.gateway, after.gateway, rotate, byPair, chosen, t);
    }
    forall s ensures BareAgrees(after, s) {
      SecretAfter(before, after, rotate, tokens, byPair, chosen, s);
      if Modes(s) != [] {
        assert Granted(Grant(s, Modes(s)[0]));
      }
    }
  }

  /** From any Vault, drifted or empty, plain or rotating: one run makes callers and targets agree,
      and gives each granted pair exactly one token, in its service's field, exactly when the
      gateway's map did not hold two for one pair to begin with. */
  lemma RunConverges(before: Store, after: Store, rotate: Option<Service>)
    requires Ran(before, after, rotate)
    ensures CallersAgree(after)
    ensures GatewayAgrees(after) <==> AtMostOne(before.gateway)
  {
    var tokens, byPair, chosen :| RanWith(before, after, rotate, tokens, byPair, chosen);
    AgentsAfter(before, after, rotate, tokens, byPair, chosen);
    FieldsAfter(before, after, rotate, tokens, byPair, chosen);
    DoublesStay(before, after, rotate, byPair, chosen);
  }

  lemma DoublesStay(before: Store, after: Store, rotate: Option<Service>, byPair: map<Grant, Token>, chosen: map<Grant, Token>)
    requires ByPair(before.gateway, byPair) && (forall g :: g in chosen <==> Granted(g))
    requires GatewayMinted(before.gateway, after.gateway, rotate, byPair, chosen)
    ensures AtMostOne(after.gateway) <==> AtMostOne(before.gateway)
  {
    if AtMostOne(before.gateway) {
      forall t | t in after.gateway ensures after.gateway[t] in chosen && chosen[after.gateway[t]] == t {
        OnlyChosen(before, after, rotate, byPair, chosen, t);
      }
    } else {
      var t, u :| t in before.gateway && u in before.gateway && before.gateway[t] == before.gateway[u]
                  && Granted(before.gateway[t]) && t != u;
      ExtraStays(before, after, rotate, byPair, chosen, if byPair[before.gateway[t]] == t then u else t);
    }
  }

  lemma OnlyChosen(before: Store, after: Store, rotate: Option<Service>, byPair: map<Grant, Token>, chosen: map<Grant, Token>,
                   t: Token)
    requires ByPair(before.gateway, byPair) && (forall g :: g in chosen <==> Granted(g))
    requires GatewayMinted(before.gateway, after.gateway, rotate, byPair, chosen) && AtMostOne(before.gateway) && t in after.gateway
    ensures after.gateway[t] in chosen && chosen[after.gateway[t]] == t
  {
    var g := after.gateway[t];
    assert TokenAt(before.gateway, after.gateway, rotate, byPair, chosen, t);
    assert after.gateway[t] in chosen ==> PairAt(before.gateway, after.gateway, rotate, byPair, chosen, after.gateway[t]);
    if Survives(before.gateway, byPair, rotate, chosen, t) && g == before.gateway[t] {
      assert before.gateway[t] in byPair && byPair[g] == t;
    }
  }

  lemma ExtraStays(before: Store, after: Store, rotate: Option<Service>, byPair: map<Grant, Token>, chosen: map<Grant, Token>,
                   extra: Token)
    requires ByPair(before.gateway, byPair) && (forall g :: g in chosen <==> Granted(g))
    requires GatewayMinted(before.gateway, after.gateway, rotate, byPair, chosen)
    requires extra in before.gateway && Granted(before.gateway[extra])
    requires before.gateway[extra] in byPair && byPair[before.gateway[extra]] != extra
    ensures !AtMostOne(after.gateway)
  {
    var g := before.gateway[extra];
    assert Survives(before.gateway, byPair, rotate, chosen, extra);
    assert TokenAt(before.gateway, after.gateway, rotate, byPair, chosen, extra);
    assert PairAt(before.gateway, after.gateway, rotate, byPair, chosen, g);
    assert chosen[g] in after.gateway && after.gateway[chosen[g]] == g && chosen[g] != extra;
  }

  /** A plain run right after any run changes nothing, unless a pair had two tokens. */
  lemma RerunChangesNothing(before: Store, after: Store, again: Store, rotate: Option<Service>)
    requires Ran(before, after, rotate) && Ran(after, again, None) && AtMostOne(before.gateway)
    ensures again == after
  {
    RunConverges(before, after, rotate);
    RunCovers(before, after, rotate);
    SteadyIdentity(after, again);
  }

  ghost predicate Covered(st: Store) {
    (forall s :: IsAgent(s) ==> s in st.secrets) && (forall x :: x in WEBHOOK_SOURCES ==> x in st.webhooks)
  }

  lemma RunCovers(before: Store, after: Store, rotate: Option<Service>)
    requires Ran(before, after, rotate)
    ensures Covered(after)
    ensures Covered(before) ==> after.secrets.Keys == before.secrets.Keys && after.webhooks == before.webhooks
  {
    var tokens, byPair, chosen :| RanWith(before, after, rotate, tokens, byPair, chosen);
    if Covered(before) { assert after.webhooks.Keys == before.webhooks.Keys; }
  }

  lemma SteadyIdentity(st: Store, again: Store)
    requires CallersAgree(st) && GatewayAgrees(st) && Covered(st) && Ran(st, again, None)
    ensures again == st
  {
    SteadyRun(st, again);
    RunCovers(st, again, None);
    SameSecrets(st.secrets, again.secrets);
  }

  lemma SameSecrets(a: map<Service, Secret>, b: map<Service, Secret>)
    requires a.Keys == b.Keys && forall s :: Read(b, s) == Read(a, s)
    ensures a == b
  {
    forall s | s in a ensures b[s] == a[s] { assert Read(b, s) == Read(a, s); }
  }

  lemma SteadyRun(st: Store, again: Store)
    requires CallersAgree(st) && GatewayAgrees(st) && Ran(st, again, None)
    ensures forall s :: Read(again.secrets, s) == Read(st.secrets, s)
    ensures again.gateway == st.gateway
  {
    var tokens, byPair, chosen :| RanWith(st, again, None, tokens, byPair, chosen);
    SteadyGateway(st, again.gateway, byPair, chosen);
    forall s ensures Read(again.secrets, s) == Read(st.secrets, s) {
      SecretAfter(st, again, None, tokens, byPair, chosen, s);
      SteadySecret(st, Read(again.secrets, s), tokens, chosen, s);
    }
  }

  lemma SteadyGateway(st: Store, gateway: map<Token, Grant>, byPair: map<Grant, Token>, chosen: map<Grant, Token>)
    requires GatewayAgrees(st) && ByPair(st.gateway, byPair) && (forall g :: g in chosen <==> Granted(g))
    requires GatewayMinted(st.gateway, gateway, None, byPair, chosen)
    ensures gateway == st.gateway
    ensures forall g :: Granted(g) ==>
              g.mode in Read(st.secrets, g.service).fields && chosen[g] == Read(st.secrets, g.service).fields[g.mode]
  {
    forall g | Granted(g)
      ensures g.mode in Read(st.secrets, g.service).fields && chosen[g] == Read(st.secrets, g.service).fields[g.mode] == byPair[g]
    {
      OwnIsChosen(st, byPair, g);
      assert PairAt(st.gateway, gateway, None, byPair, chosen, g);
    }
    forall t | t in gateway ensures t in st.gateway && gateway[t] == st.gateway[t] {
      assert TokenAt(st.gateway, gateway, None, byPair, chosen, t);
      if gateway[t] in chosen && chosen[gateway[t]] == t { OwnIsChosen(st, byPair, gateway[t]); }
    }
    forall t | t in st.gateway ensures t in gateway {
      assert TokenAt(st.gateway, gateway, None, byPair, chosen, t);
      assert Survives(st.gateway, byPair, None, chosen, t);
    }
  }

  lemma OwnIsChosen(st: Store, byPair: map<Grant, Token>, g: Grant)
    requires GatewayAgrees(st) && ByPair(st.gateway, byPair) && Granted(g)
    ensures g.mode in Read(st.secrets, g.service).fields && g in byPair && byPair[g] == Read(st.secrets, g.service).fields[g.mode]
  {
    assert HoldsOwn(st, g);
    assert st.gateway[Read(st.secrets, g.service).fields[g.mode]] in byPair;
  }

  lemma SteadySecret(st: Store, now: Secret, tokens: map<Service, Token>, chosen: map<Grant, Token>, s: Service)
    requires CallersAgree(st) && GatewayAgrees(st) && AgentTokens(st, None, tokens) && (forall g :: g in chosen <==> Granted(g))
    requires forall g :: Granted(g) ==>
               g.mode in Read(st.secrets, g.service).fields && chosen[g] == Read(st.secrets, g.service).fields[g.mode]
    requires SecretRan(Read(st.secrets, s), now, s, None, tokens, chosen)
    ensures now == Read(st.secrets, s)
  {
    var was := Read(st.secrets, s);
    SteadyFields(was, now, s, chosen);
    assert BareAgrees(st, s);
    if Modes(s) != [] { assert Granted(Grant(s, Modes(s)[0])); }
    if s.OutboxWorker? { assert now.dispatchTokens.value == was.dispatchTokens.value; }
  }

  lemma SteadyFields(was: Secret, now: Secret, s: Service, chosen: map<Grant, Token>)
    requires GatewayPart(was, now, s, chosen)
    requires forall m :: Grant(s, m) in chosen ==> m in was.fields && chosen[Grant(s, m)] == was.fields[m]
    ensures now.fields == was.fields
  {
    forall m ensures m in now.fields <==> m in was.fields { assert Grant(s, m) in chosen || Grant(s, m) !in chosen; }
    forall m | m in was.fields ensures now.fields[m] == was.fields[m] { assert Grant(s, m) in chosen || Grant(s, m) !in chosen; }
  }

  // ---------------------------------------------------------------- any number of runs

  datatype Command = Mint(rotate: Option<Service>) | Finalize(service: Service)

  ghost predicate Does(before: Store, c: Command, after: Store) {
    match c
    case Mint(rotate) => Ran(before, after, rotate)
    case Finalize(s) => after == Finalized(before, s)
  }

  ghost predicate DoesAt(states: seq<Store>, commands: seq<Command>, k: nat)
    requires |states| == |commands| + 1 && k < |commands|
  {
    Does(states[k], commands[k], states[k + 1])
  }

  ghost predicate History(states: seq<Store>, commands: seq<Command>) {
    && |states| == |commands| + 1
    && states[0] == Store(map[], map[], map[])
    && forall k :: 0 <= k < |commands| ==> DoesAt(states, commands, k)
  }

  /** A finalize drops the previous token of the one service, and does nothing else. */
  lemma FinalizeDrops(st: Store, s: Service)
    ensures Finalized(st, s).secrets.Keys == st.secrets.Keys && Finalized(st, s) == st.(secrets := Finalized(st, s).secrets)
    ensures forall u :: u in st.secrets ==>
              Finalized(st, s).secrets[u] == if u == s then st.secrets[u].(previous := None) else st.secrets[u]
  {
  }

  lemma FinalizeKeepsAgreement(st: Store, s: Service)
    ensures CallersAgree(Finalized(st, s)) <==> CallersAgree(st)
    ensures GatewayAgrees(Finalized(st, s)) <==> GatewayAgrees(st)
  {
    var after := Finalized(st, s);
    forall x ensures Read(after.secrets, x) == Read(st.secrets, x).(previous := Read(after.secrets, x).previous) {}
    assert forall x :: TokenOf(after, x) == TokenOf(st, x);
    assert forall x :: BareAgrees(after, x) <==> BareAgrees(st, x);
    assert forall g :: HoldsOwn(after, g) <==> HoldsOwn(st, g);
  }

  /** Whatever mints, rotations and finalizations there are, no token ever serves twice: not for two agents,
      nor for an agent and a webhook or a gateway pair. */
  lemma {:induction false} NoTokenServesTwice(states: seq<Store>, commands: seq<Command>, n: nat)
    requires History(states, commands) && n <= |commands|
    ensures Apart(states[n])
  {
    if n > 0 {
      NoTokenServesTwice(states, commands, n - 1);
      assert DoesAt(states, commands, n - 1);
      if commands[n - 1].Finalize? {
        forall p ensures At(states[n], p) == At(states[n - 1], p) {}
      }
    } else {
    }
  }

  ghost predicate Agrees(st: Store) {
    CallersAgree(st) && GatewayAgrees(st)
  }

  lemma CommandKeeps(before: Store, c: Command, after: Store)
    requires Does(before, c, after) && AtMostOne(before.gateway)
    ensures AtMostOne(after.gateway)
    ensures c.Mint? || Agrees(before) ==> Agrees(after)
  {
    match c
    case Mint(rotate) => RunConverges(before, after, rotate);
    case Finalize(s) => FinalizeKeepsAgreement(before, s);
  }

  lemma {:induction false} NeverTwo(states: seq<Store>, commands: seq<Command>, n: nat)
    requires History(states, commands) && n <= |commands|
    ensures AtMostOne(states[n].gateway)
  {
    if n > 0 {
      NeverTwo(states, commands, n - 1);
      assert DoesAt(states, commands, n - 1);
      CommandKeeps(states[n - 1], commands[n - 1], states[n]);
    } else {
    }
  }

  /** From an empty Vault, whatever mints, rotations and finalizations there are: from the first
      mint on everything agrees. */
  lemma {:induction false} HistoriesConverge(states: seq<Store>, commands: seq<Command>, k: nat, n: nat)
    requires History(states, commands) && k < n <= |commands| && commands[k].Mint?
    ensures Agrees(states[n])
    decreases n
  {
    MomentKeeps(states, commands, n - 1);
    if k < n - 1 {
      HistoriesConverge(states, commands, k, n - 1);
    } else {
    }
  }

  lemma MomentKeeps(states: seq<Store>, commands: seq<Command>, m: nat)
    requires History(states, commands) && m < |commands|
    ensures commands[m].Mint? || Agrees(states[m]) ==> Agrees(states[m + 1])
  {
    NeverTwo(states, commands, m);
    assert DoesAt(states, commands, m);
    CommandKeeps(states[m], commands[m], states[m + 1]);
  }

  // ---------------------------------------------------------------- rolling a rotation out

  /** The caller's token for one target, and the tokens that target accepts, as each last loaded them
      from the Vault. The outbox worker calls the dispatch targets, the reasoner the knowledge service. */
  datatype Fleet = Fleet(vault: Store, sent: Token, accepted: set<Token>)

  datatype Step = ReloadTarget | ReloadCaller | FinalizeTarget

  function Accepts(secret: Secret): set<Token> {
    (if secret.agentToken.Some? then {secret.agentToken.value} else {})
    + (if secret.previous.Some? then {secret.previous.value} else {})
  }

  /** A service accepts its token and, while a rotation is not finalized, the previous one. */
  lemma AcceptsBoth(secret: Secret, t: Token)
    ensures t in Accepts(secret) <==> secret.agentToken == Some(t) || secret.previous == Some(t)
  {
  }

  /** The token the caller of a target finds for it in its own secret. */
  function Held(vault: Store, target: Service): Option<Token> {
    if target.KnowledgeService? then Read(vault.secrets, ReasonerAgent).knowledgeToken
    else
      var loaded := Read(vault.secrets, OutboxWorker).dispatchTokens;
      if loaded.Some? && target in loaded.value then Some(loaded.value[target]) else None
  }

  function Stepped(f: Fleet, target: Service, step: Step): Fleet {
    match step
    case ReloadTarget => f.(accepted := Accepts(Read(f.vault.secrets, target)))
    case ReloadCaller =>
      var held := Held(f.vault, target);
      if held.Some? then f.(sent := held.value) else f
    case FinalizeTarget => f.(vault := Finalized(f.vault, target))
  }

  function RolledOut(f: Fleet, target: Service, steps: seq<Step>): Fleet {
    if steps == [] then f else Stepped(RolledOut(f, target, steps[..|steps| - 1]), target, steps[|steps| - 1])
  }

  /** The target reloads before its caller does, and once the rotation is finalized the target does not
      reload until the caller has. */
  predicate InOrder(steps: seq<Step>) {
    && (forall i :: 0 <= i < |steps| && steps[i] == ReloadCaller ==> ReloadTarget in steps[..i])
    && (forall i :: 0 <= i < |steps| && steps[i] == ReloadTarget && FinalizeTarget in steps[..i] ==> ReloadCaller in steps[..i])
  }

  predicate ReloadedAfterFinalize(steps: seq<Step>) {
    exists i :: 0 <= i < |steps| && steps[i] == ReloadTarget && FinalizeTarget in steps[..i]
  }

  ghost predicate Rotated(vault: Store, target: Service, outgoing: Token, incoming: Token) {
    && outgoing != incoming
    && Read(vault.secrets, target).agentToken == Some(incoming) && Read(vault.secrets, target).previous == Some(outgoing)
    && Held(vault, target) == Some(incoming)
  }

  /** Where a rollout stands: all that matters is which steps have happened, and whether the target
      reloaded after the finalize. */
  function Standing(vault: Store, target: Service, outgoing: Token, incoming: Token, steps: seq<Step>): Fleet {
    Fleet(if FinalizeTarget in steps then Finalized(vault, target) else vault,
          if ReloadCaller in steps then incoming else outgoing,
          if ReloadTarget !in steps then {outgoing}
          else if ReloadedAfterFinalize(steps) then {incoming} else {incoming, outgoing})
  }

  lemma FinalizedFacts(vault: Store, target: Service, outgoing: Token, incoming: Token)
    requires Rotated(vault, target, outgoing, incoming)
    ensures Finalized(Finalized(vault, target), target) == Finalized(vault, target)
    ensures Accepts(Read(Finalized(vault, target).secrets, target)) == {incoming}
    ensures Accepts(Read(vault.secrets, target)) == {incoming, outgoing}
    ensures Held(Finalized(vault, target), target) == Held(vault, target)
  {
  }

  lemma OneStepOn(front: seq<Step>, last: Step)
    ensures ReloadedAfterFinalize(front + [last])
            <==> ReloadedAfterFinalize(front) || (last == ReloadTarget && FinalizeTarget in front)
    ensures ReloadedAfterFinalize(front) ==> FinalizeTarget in front && ReloadTarget in front
  {
    var steps := front + [last];
    assert forall i :: 0 <= i < |front| ==> front[..i] == steps[..i] && front[i] == steps[i];
    assert steps[..|front|] == front && steps[|front|] == last;
    if ReloadedAfterFinalize(front) {
      var i :| 0 <= i < |front| && front[i] == ReloadTarget && FinalizeTarget in front[..i];
      assert steps[i] == ReloadTarget && FinalizeTarget in steps[..i];
    }
  }

  lemma {:induction false} RolloutState(vault: Store, target: Service, outgoing: Token, incoming: Token, steps: seq<Step>)
    requires Rotated(vault, target, outgoing, incoming)
    ensures RolledOut(Fleet(vault, outgoing, {outgoing}), target, steps) == Standing(vault, target, outgoing, incoming, steps)
  {
    if steps != [] {
      var front, last := steps[..|steps| - 1], steps[|steps| - 1];
      RolloutState(vault, target, outgoing, incoming, front);
      assert steps == front + [last];
      StandingSteps(vault, target, outgoing, incoming, front, last);
    } else {
    }
  }

  lemma StandingSteps(vault: Store, target: Service, outgoing: Token, incoming: Token, front: seq<Step>, last: Step)
    requires Rotated(vault, target, outgoing, incoming)
    ensures Stepped(Standing(vault, target, outgoing, incoming, front), target, last)
            == Standing(vault, target, outgoing, incoming, front + [last])
  {
    FinalizedFacts(vault, target, outgoing, incoming);
    OneStepOn(front, last);
    var steps := front + [last];
    assert forall x :: x in steps <==> x in front || x == last;
  }

  ghost predicate NeverRejected(f: Fleet, target: Service, steps: seq<Step>) {
    forall n :: 0 <= n <= |steps| ==> RolledOut(f, target, steps[..n]).sent in RolledOut(f, target, steps[..n]).accepted
  }

  /** Once a rotation is written, no dispatch is ever rejected exactly when the reloads and the
      finalize come in order. */
  lemma RolloutIsSafeInOrder(vault: Store, target: Service, outgoing: Token, incoming: Token, steps: seq<Step>)
    requires Rotated(vault, target, outgoing, incoming)
    ensures NeverRejected(Fleet(vault, outgoing, {outgoing}), target, steps) <==> InOrder(steps)
  {
    forall n | 0 <= n <= |steps|
      ensures var f := RolledOut(Fleet(vault, outgoing, {outgoing}), target, steps[..n]);
              f.sent in f.accepted <==> Accepted(steps[..n])
    {
      RolloutState(vault, target, outgoing, incoming, steps[..n]);
    }
    AcceptedThroughout(steps);
  }

  /** A service some other service calls. */
  predicate IsCalled(s: Service) {
    IsTarget(s) || s.KnowledgeService?
  }

  /** So it is after one rotating run from a steady state, whatever else was in the Vault. */
  lemma RotationRollsOutInOrder(before: Store, vault: Store, target: Service, steps: seq<Step>)
    requires target in {WatcherAgent, PlannerAgent, ReasonerAgent, FeedbackService, KnowledgeService}
    requires TokenOf(before, target).Some? && Ran(before, vault, Some(target))
    ensures NeverRejected(Fleet(vault, TokenOf(before, target).value, {TokenOf(before, target).value}), target, steps)
            <==> InOrder(steps)
  {
    var incoming := RotationWrites(before, vault, target);
    RolloutIsSafeInOrder(vault, target, TokenOf(before, target).value, incoming, steps);
  }

  lemma RotationWrites(before: Store, vault: Store, target: Service) returns (incoming: Token)
    requires IsCalled(target) && TokenOf(before, target).Some? && Ran(before, vault, Some(target))
    ensures Rotated(vault, target, TokenOf(before, target).value, incoming)
  {
    var tokens, byPair, chosen :| RanWith(before, vault, Some(target), tokens, byPair, chosen);
    incoming := tokens[target];
    SecretAfter(before, vault, Some(target), tokens, byPair, chosen, target);
    SecretAfter(before, vault, Some(target), tokens, byPair, chosen, OutboxWorker);
    SecretAfter(before, vault, Some(target), tokens, byPair, chosen, ReasonerAgent);
  }

  predicate Accepted(steps: seq<Step>) {
    if ReloadCaller in steps then ReloadTarget in steps else !ReloadedAfterFinalize(steps)
  }

  lemma AcceptedThroughout(steps: seq<Step>)
    ensures (forall n :: 0 <= n <= |steps| ==> Accepted(steps[..n])) <==> InOrder(steps)
  {
    if forall n :: 0 <= n <= |steps| ==> Accepted(steps[..n]) {
      forall i | 0 <= i < |steps|
        ensures steps[i] == ReloadCaller ==> ReloadTarget in steps[..i]
        ensures steps[i] == ReloadTarget && FinalizeTarget in steps[..i] ==> ReloadCaller in steps[..i]
      {
        var upTo := steps[..i + 1];
        assert Accepted(upTo) && upTo[i] == steps[i] && upTo[..i] == steps[..i] && upTo == steps[..i] + [steps[i]];
      }
    }
    if InOrder(steps) {
      forall n | 0 <= n <= |steps| ensures Accepted(steps[..n]) { InOrderIsAccepted(steps, n); }
    }
  }

  lemma InOrderIsAccepted(steps: seq<Step>, n: nat)
    requires InOrder(steps) && n <= |steps|
    ensures Accepted(steps[..n])
  {
    var s := steps[..n];
    assert forall i :: 0 <= i < n ==> s[i] == steps[i] && s[..i] == steps[..i];
    if ReloadCaller in s {
      var i :| 0 <= i < n && s[i] == ReloadCaller;
      assert ReloadTarget in s[..i];
    }
  }

  /** The order the script's own message allows, the caller first, has a dispatch rejected after every
      rotation; target, caller, finalize and then anything has none. */
  lemma WorkerFirstIsRejected(vault: Store, target: Service, outgoing: Token, incoming: Token)
    requires Rotated(vault, target, outgoing, incoming)
    ensures !NeverRejected(Fleet(vault, outgoing, {outgoing}), target, [ReloadCaller, ReloadTarget])
    ensures NeverRejected(Fleet(vault, outgoing, {outgoing}), target, [ReloadTarget, ReloadCaller, FinalizeTarget, ReloadTarget])
  {
    var bad, good := [ReloadCaller, ReloadTarget], [ReloadTarget, ReloadCaller, FinalizeTarget, ReloadTarget];
    assert bad[0] == ReloadCaller && ReloadTarget !in bad[..0];
    assert good[0] in good[..1] && good[1] in good[..3];
    RolloutIsSafeInOrder(vault, target, outgoing, incoming, bad);
    RolloutIsSafeInOrder(vault, target, outgoing, incoming, good);
  }
}
