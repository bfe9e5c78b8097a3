/** The minting script itself, writing the Vault secret by secret (scripts/dev-mint-tokens.py). */
module Minting {
  import opened Tokens
  import opened Wrappers

  /** One secret after the agent tokens: the part `SecretRan` asks of it, and nothing else touched. */
  ghost predicate AgentDone(start: Store, was: Secret, now: Secret, s: Service, rotate: Option<Service>, token: Token) {
    && AgentWritten(was, now, Rotates(rotate, s), token)
    && if was.agentToken.Some? && !Rotates(rotate, s) then was.agentToken == Some(token) else Unused(start, token)
  }

  ghost predicate AgentWritten(was: Secret, now: Secret, rotating: bool, token: Token) {
    now == was.(agentToken := now.agentToken, previous := now.previous) && AgentPart(was, now, rotating, token)
  }

  ghost predicate AgentsDone(start: Store, secrets: map<Service, Secret>, rotate: Option<Service>, tokens: map<Service, Token>) {
    (forall s :: AgentAt(start, secrets, rotate, tokens, s)) && secrets.Keys == start.secrets.Keys + tokens.Keys
  }

  ghost predicate AgentAt(start: Store, secrets: map<Service, Secret>, rotate: Option<Service>, tokens: map<Service, Token>, s: Service) {
    if s in tokens then AgentDone(start, Read(start.secrets, s), Read(secrets, s), s, rotate, tokens[s])
    else Read(secrets, s) == Read(start.secrets, s)
  }

  ghost predicate DispatchingAt(was: Secret, now: Secret, s: Service, tokens: map<Service, Token>) {
    now == was.(dispatchTokens := now.dispatchTokens) && DispatchPart(was, now, s, tokens)
  }

  ghost predicate Dispatching(before: map<Service, Secret>, secrets: map<Service, Secret>, tokens: map<Service, Token>) {
    (forall s :: DispatchingAt(Read(before, s), Read(secrets, s), s, tokens)) && secrets.Keys == before.Keys + {OutboxWorker}
  }

  ghost predicate InformedAt(was: Secret, now: Secret, s: Service, tokens: map<Service, Token>) {
    now == was.(knowledgeToken := now.knowledgeToken) && KnowledgePart(was, now, s, tokens)
  }

  ghost predicate Informed(before: map<Service, Secret>, secrets: map<Service, Secret>, tokens: map<Service, Token>) {
    (forall s :: InformedAt(Read(before, s), Read(secrets, s), s, tokens)) && secrets.Keys == before.Keys + {ReasonerAgent}
  }

  /** Every token in use is below `first`. */
  ghost predicate Below(st: Store, first: Token) {
    && (forall t :: t in st.gateway ==> t < first)
    && (forall s :: TokenOf(st, s).Some? ==> TokenOf(st, s).value < first)
    && (forall x :: x in st.webhooks ==> st.webhooks[x] < first)
  }

  /** A fresh token at one place leaves all places apart. */
  lemma FreshStaysApart(st: Store, now: Store, place: Place, token: Token)
    requires Below(st, token) && now.gateway == st.gateway
    requires forall p :: At(now, p) == if p == place then Some(token) else At(st, p)
    ensures Apart(st) ==> Apart(now)
  {
    assert forall p :: At(st, p).Some? ==> At(st, p).value < token;
  }

  /** And so does a fresh token in the gateway's map, or one that goes from it. */
  lemma GatewayStaysApart(st: Store, now: Store, token: Token)
    requires token in st.gateway || Below(st, token)
    requires (forall t :: t in now.gateway ==> t in st.gateway || t == token) && now.webhooks == st.webhooks
    requires forall s :: TokenOf(now, s) == TokenOf(st, s)
    ensures Apart(st) ==> Apart(now)
  {
    forall p ensures At(now, p) == At(st, p) {}
    forall p ensures token !in st.gateway && At(st, p).Some? ==> At(st, p).value < token {}
  }

  lemma ToldStaysApart(was: map<Service, Secret>, now: map<Service, Secret>, gateway: map<Token, Grant>, webhooks: map<string, Token>)
    requires forall s :: Read(now, s).agentToken == Read(was, s).agentToken
    ensures Apart(Store(was, gateway, webhooks)) ==> Apart(Store(now, gateway, webhooks))
    ensures forall first :: Below(Store(was, gateway, webhooks), first) ==> Below(Store(now, gateway, webhooks), first)
  {
    forall s ensures TokenOf(Store(now, gateway, webhooks), s) == TokenOf(Store(was, gateway, webhooks), s) {}
    forall p ensures At(Store(now, gateway, webhooks), p) == At(Store(was, gateway, webhooks), p) {}
  }

  lemma FewerStaysApart(st: Store, tokens: map<Token, Grant>)
    requires tokens.Keys <= st.gateway.Keys
    ensures Apart(st) ==> Apart(Store(st.secrets, tokens, st.webhooks))
  {
    var now := Store(st.secrets, tokens, st.webhooks);
    forall p ensures At(now, p) == At(st, p) {}
  }

  lemma OneAgentOn(start: Store, first: Token, before: map<Service, Secret>, secrets: map<Service, Secret>,
                   rotate: Option<Service>, tokens: map<Service, Token>, service: Service, token: Token)
    requires Below(start, first) && AgentsDone(start, before, rotate, tokens) && service !in tokens
    requires secrets.Keys == before.Keys + {service} && forall s :: s != service ==> Read(secrets, s) == Read(before, s)
    requires AgentWritten(Read(before, service), Read(secrets, service), Rotates(rotate, service), token)
    requires Read(before, service).agentToken != Some(token) ==> first <= token
    requires Read(before, service).agentToken == Some(token) ==> !Rotates(rotate, service)
    requires Read(before, service).agentToken.Some? && !Rotates(rotate, service) ==> Read(before, service).agentToken == Some(token)
    ensures AgentsDone(start, secrets, rotate, tokens[service := token])
  {
    var more := tokens[service := token];
    forall s ensures AgentAt(start, secrets, rotate, more, s) { assert AgentAt(start, before, rotate, tokens, s); }
    assert more.Keys == tokens.Keys + {service};
  }

  /** The secrets once the pairs in `chosen` are written. */
  ghost predicate FieldsDone(before: map<Service, Secret>, secrets: map<Service, Secret>, chosen: map<Grant, Token>) {
    && (forall s :: Read(secrets, s) == Read(before, s).(fields := Read(secrets, s).fields, bare := Read(secrets, s).bare))
    && (forall s :: GatewayPart(Read(before, s), Read(secrets, s), s, chosen))
    && secrets.Keys == before.Keys
  }

  lemma OnePairOn(before: map<Service, Secret>, secrets: map<Service, Secret>, chosen: map<Grant, Token>, g: Grant,
                  token: Token, secret: Secret)
    requires FieldsDone(before, secrets, chosen) && g !in chosen && Granted(g) && g.service in before
    requires forall h :: h in chosen ==> Granted(h)
    requires secret == secrets[g.service].(fields := secrets[g.service].fields[g.mode := token],
                                           bare := if |Modes(g.service)| == 1 then Some(token) else None)
    ensures FieldsDone(before, secrets[g.service := secret], chosen[g := token])
  {
    var after, more := secrets[g.service := secret], chosen[g := token];
    forall s ensures GatewayPart(Read(before, s), Read(after, s), s, more) {
      assert GatewayPart(Read(before, s), Read(secrets, s), s, chosen);
      if s == g.service {
        forall m ensures Grant(s, m) in more <==> Grant(s, m) in chosen || m == g.mode {}
      } else {
        forall m ensures Grant(s, m) in more <==> Grant(s, m) in chosen {}
      }
    }
  }

  class Vault {
    var secrets: map<Service, Secret>
    var gateway: map<Token, Grant>
    var webhooks: map<string, Token>
    /** The next token to be generated: a fresh one is none of those in use. */
    var next: Token

    ghost function State(): Store
      reads this
    {
      Store(secrets, gateway, webhooks)
    }

    ghost predicate Fresh()
      reads this
    {
      Below(State(), next)
    }

    constructor ()
      ensures Fresh() && State() == Store(map[], map[], map[])
    {
      secrets, gateway, webhooks, next := map[], map[], map[], 0;
    }

    method NewToken() returns (token: Token)
      modifies this`next
      ensures token == old(next) && next == token + 1
    {
      token := next;
      next := next + 1;
    }

    method MintAgentToken(service: Service, rotate: Option<Service>) returns (token: Token)
      requires Fresh()
      modifies this`secrets, this`next
      ensures Fresh() && old(next) <= next
      ensures secrets.Keys == old(secrets).Keys + {service}
      ensures forall s :: s != service ==> Read(secrets, s) == Read(old(secrets), s)
      ensures AgentWritten(Read(old(secrets), service), Read(secrets, service), Rotates(rotate, service), token)
      ensures Read(old(secrets), service).agentToken != Some(token) ==> old(next) <= token
      ensures Read(old(secrets), service).agentToken == Some(token) ==> !Rotates(rotate, service)
      ensures Read(old(secrets), service).agentToken.Some? && !Rotates(rotate, service) ==>
                Read(old(secrets), service).agentToken == Some(token)
      ensures Apart(old(State())) ==> Apart(State())
    {
      var secret := Read(secrets, service);
      assert TokenOf(State(), service) == secret.agentToken;
      if secret.agentToken.Some? && rotate != Some(service) {
        return secret.agentToken.value;
      }
      token := NewToken();
      if secret.agentToken.Some? {
        secret := secret.(previous := secret.agentToken);
      }
      secret := secret.(agentToken := Some(token));
      ghost var was := State();
      secrets := secrets[service := secret];
      forall s | TokenOf(State(), s).Some? ensures TokenOf(State(), s).value < next {
        assert s != service ==> TokenOf(State(), s) == TokenOf(was, s);
      }
      forall p ensures At(State(), p) == if p == Agent(service) then Some(token) else At(was, p) {}
      FreshStaysApart(was, State(), Agent(service), token);
    }

    /** A token for every service; those that have one keep it, but for the rotated one. */
    method MintAgentTokens(services: seq<Service>, rotate: Option<Service>) returns (tokens: map<Service, Token>)
      requires Fresh() && forall i, j :: 0 <= i < j < |services| ==> services[i] != services[j]
      modifies this`secrets, this`next
      ensures forall s :: s in tokens <==> s in services
      ensures AgentsDone(old(State()), secrets, rotate, tokens)
      ensures Fresh()
      ensures Apart(old(State())) ==> Apart(State())
    {
      ghost var start, first := State(), next;
      tokens := map[];
      for i := 0 to |services|
        invariant forall s :: s in tokens <==> s in services[..i]
        invariant AgentsDone(start, secrets, rotate, tokens)
        invariant Fresh() && first <= next && (Apart(start) ==> Apart(State()))
      {
        ghost var before := secrets;
        assert services[i] !in services[..i];
        var token := MintAgentToken(services[i], rotate);
        OneAgentOn(start, first, before, secrets, rotate, tokens, services[i], token);
        tokens := tokens[services[i] := token];
        assert services[..i + 1] == services[..i] + [services[i]];
      }
      assert services[..|services|] == services;
    }

    /** Drop a rotated service's previous token. */
    method FinalizeAgentRotation(service: Service)
      requires Fresh()
      modifies this`secrets
      ensures Fresh() && State() == Finalized(old(State()), service)
      ensures Apart(old(State())) ==> Apart(State())
    {
      ghost var was := State();
      var secret := Read(secrets, service);
      if secret.previous.None? { return; }
      secrets := secrets[service := secret.(previous := None)];
      ToldStaysApart(was.secrets, secrets, gateway, webhooks);
    }

    method RebuildDispatchMap(tokens: map<Service, Token>)
      requires Fresh() && forall s :: IsAgent(s) ==> s in tokens
      modifies this`secrets
      ensures Fresh() && Dispatching(old(secrets), secrets, tokens)
      ensures Apart(old(State())) ==> Apart(State())
    {
      ghost var was := State();
      TargetsListed();
      var mapping := map t | t in DISPATCH_TARGETS :: tokens[t];
      var secret := Read(secrets, OutboxWorker);
      secrets := secrets[OutboxWorker := secret.(dispatchTokens := Some(mapping))];
      ToldStaysApart(was.secrets, secrets, gateway, webhooks);
    }

    static lemma TargetsListed()
      ensures forall s :: s in DISPATCH_TARGETS <==> IsTarget(s)
    {
      forall s ensures s in DISPATCH_TARGETS <==> IsTarget(s) { Tables(s); }
    }

    method WriteKnowledgeGrant(tokens: map<Service, Token>)
      requires Fresh() && forall s :: IsAgent(s) ==> s in tokens
      modifies this`secrets
      ensures Fresh() && Informed(old(secrets), secrets, tokens)
      ensures Apart(old(State())) ==> Apart(State())
    {
      ghost var was := State();
      var secret := Read(secrets, ReasonerAgent);
      secrets := secrets[ReasonerAgent := secret.(knowledgeToken := Some(tokens[KnowledgeService]))];
      ToldStaysApart(was.secrets, secrets, gateway, webhooks);
    }

    /** Tokens for pairs that are no longer granted are revoked. */
    static method Prune(gateway: map<Token, Grant>) returns (tokens: map<Token, Grant>)
      ensures tokens == map t | t in gateway && Granted(gateway[t]) :: gateway[t]
    {
      tokens := gateway;
      var left := gateway.Keys;
      while left != {}
        invariant left <= gateway.Keys
        invariant forall t :: t in tokens <==> t in gateway && (t in left || Granted(gateway[t]))
        invariant forall t :: t in tokens ==> tokens[t] == gateway[t]
        decreases left
      {
        var t :| t in left;
        if !Granted(gateway[t]) { tokens := tokens - {t}; }
        left := left - {t};
      }
    }

    static method PairsOf(tokens: map<Token, Grant>) returns (byPair: map<Grant, Token>)
      ensures forall g :: g in byPair ==> byPair[g] in tokens && tokens[byPair[g]] == g
      ensures forall t :: t in tokens ==> tokens[t] in byPair
    {
      byPair := map[];
      var left := tokens.Keys;
      while left != {}
        invariant left <= tokens.Keys
        invariant forall g :: g in byPair ==> byPair[g] in tokens && tokens[byPair[g]] == g
        invariant forall t :: t in tokens && t !in left ==> tokens[t] in byPair
        decreases left
      {
        var t :| t in left;
        byPair := byPair[tokens[t] := t];
        left := left - {t};
      }
    }

    /** The pairs in `chosen` are done, in the gateway's map and in their services' secrets. */
    ghost predicate Progress(before: Store, tokens: map<Token, Grant>, rotate: Option<Service>, byPair: map<Grant, Token>,
                             chosen: map<Grant, Token>)
      reads this
    {
      && Below(before, next) && (forall t :: t in tokens ==> t < next)
      && ByPair(before.gateway, byPair) && (forall g :: g in chosen ==> Granted(g))
      && GatewayMinted(before.gateway, tokens, rotate, byPair, chosen)
      && FieldsDone(before.secrets, secrets, chosen)
      && before.webhooks == webhooks && (Apart(before) ==> Apart(Store(secrets, tokens, webhooks)))
    }

    /** One more pair: its token kept, or dropped and replaced by a fresh one; and its service told. */
    method MintPair(tokens: map<Token, Grant>, byPair: map<Grant, Token>, rotate: Option<Service>, g: Grant,
                    ghost before: Store, ghost chosen: map<Grant, Token>)
      returns (after: map<Token, Grant>, token: Token)
      requires Granted(g) && g !in chosen && g.service in before.secrets
      requires Progress(before, tokens, rotate, byPair, chosen)
      modifies this`secrets, this`next
      ensures Progress(before, after, rotate, byPair, chosen[g := token])
    {
      after := tokens;
      ghost var st := Store(secrets, tokens, webhooks);
      FieldsLeaveTokens(before, st, chosen);
      assert Below(st, next);
      if g in byPair && rotate != Some(g.service) {
        token := byPair[g];
        PairKept(before.gateway, tokens, rotate, byPair, chosen, g);
      } else {
        if g in byPair { after := after - {byPair[g]}; }
        token := NewToken();
        after := after[token := g];
        PairReplaced(before.gateway, tokens, after, rotate, byPair, chosen, g, token);
        GatewayStaysApart(st, Store(secrets, after, webhooks), token);
      }
      TellService(g, token, before.secrets, chosen);
      ToldStaysApart(st.secrets, secrets, after, webhooks);
    }

    /** The service's fields for one pair: the mode's own, and the bare name for a single grant only. */
    method TellService(g: Grant, token: Token, ghost before: map<Service, Secret>, ghost chosen: map<Grant, Token>)
      requires Granted(g) && g !in chosen && g.service in before && FieldsDone(before, secrets, chosen)
      requires forall h :: h in chosen ==> Granted(h)
      modifies this`secrets
      ensures FieldsDone(before, secrets, chosen[g := token])
      ensures forall s :: Read(secrets, s).agentToken == Read(old(secrets), s).agentToken
    {
      var secret := secrets[g.service];
      secret := secret.(fields := secret.fields[g.mode := token]);
      if |Modes(g.service)| == 1 {
        secret := secret.(bare := Some(token));
      } else if secret.bare.Some? {
        secret := secret.(bare := None);
      }
      OnePairOn(before, secrets, chosen, g, token, secret);
      secrets := secrets[g.service := secret];
    }

    static lemma FieldsLeaveTokens(before: Store, st: Store, chosen: map<Grant, Token>)
      requires FieldsDone(before.secrets, st.secrets, chosen)
      ensures forall s :: TokenOf(st, s) == TokenOf(before, s)
    {
    }

    static lemma NothingChosen(before: map<Token, Grant>, tokens: map<Token, Grant>, rotate: Option<Service>, byPair: map<Grant, Token>)
      requires tokens == map t | t in before && Granted(before[t]) :: before[t]
      requires forall g :: g in byPair ==> byPair[g] in tokens && tokens[byPair[g]] == g
      requires forall t :: t in tokens ==> tokens[t] in byPair
      ensures ByPair(before, byPair) && GatewayMinted(before, tokens, rotate, byPair, map[])
    {
      assert forall t :: t in before && Granted(before[t]) ==> t in tokens;
    }

    static lemma PairKept(before: map<Token, Grant>, tokens: map<Token, Grant>, rotate: Option<Service>,
                          byPair: map<Grant, Token>, chosen: map<Grant, Token>, g: Grant)
      requires g !in chosen && ByPair(before, byPair) && g in byPair && !Rotates(rotate, g.service)
      requires GatewayMinted(before, tokens, rotate, byPair, chosen)
      ensures GatewayMinted(before, tokens, rotate, byPair, chosen[g := byPair[g]])
    {
      var more := chosen[g := byPair[g]];
      OwnSurvives(before, rotate, byPair, chosen, g);
      forall h ensures PairAt(before, tokens, rotate, byPair, more, h) {
        assert PairAt(before, tokens, rotate, byPair, chosen, h) && TokenAt(before, tokens, rotate, byPair, chosen, byPair[g]);
      }
      forall t ensures TokenAt(before, tokens, rotate, byPair, more, t) {
        assert TokenAt(before, tokens, rotate, byPair, chosen, t);
        assert Survives(before, byPair, rotate, more, t) <==> Survives(before, byPair, rotate, chosen, t);
      }
    }

    static lemma OwnSurvives(before: map<Token, Grant>, rotate: Option<Service>, byPair: map<Grant, Token>,
                             chosen: map<Grant, Token>, g: Grant)
      requires g !in chosen && ByPair(before, byPair) && g in byPair
      ensures Survives(before, byPair, rotate, chosen, byPair[g]) && before[byPair[g]] == g
    {
    }

    /** Doing one more pair by replacing its token costs that token, and no other. */
    static lemma SurvivorsBut(before: map<Token, Grant>, rotate: Option<Service>, byPair: map<Grant, Token>, chosen: map<Grant, Token>,
                              g: Grant, token: Token, t: Token)
      requires g !in chosen && ByPair(before, byPair) && (g in byPair ==> Rotates(rotate, g.service))
      ensures Survives(before, byPair, rotate, chosen[g := token], t)
              <==> Survives(before, byPair, rotate, chosen, t) && !(g in byPair && byPair[g] == t)
    {
      if g in byPair && byPair[g] == t { assert before[byPair[g]] == g; }
    }

    static lemma PairReplaced(before: map<Token, Grant>, tokens: map<Token, Grant>, after: map<Token, Grant>, rotate: Option<Service>,
                              byPair: map<Grant, Token>, chosen: map<Grant, Token>, g: Grant, token: Token)
      requires g !in chosen && ByPair(before, byPair) && (g in byPair ==> Rotates(rotate, g.service))
      requires GatewayMinted(before, tokens, rotate, byPair, chosen)
      requires token !in tokens && token !in before
      requires after == (if g in byPair then tokens - {byPair[g]} else tokens)[token := g]
      ensures GatewayMinted(before, after, rotate, byPair, chosen[g := token])
    {
      var more := chosen[g := token];
      forall h ensures PairAt(before, after, rotate, byPair, more, h) {
        if h in chosen { OthersKeepTheirs(before, tokens, rotate, byPair, chosen, g, h); }
      }
      forall t ensures TokenAt(before, after, rotate, byPair, more, t) {
        assert TokenAt(before, tokens, rotate, byPair, chosen, t);
        SurvivorsBut(before, rotate, byPair, chosen, g, token, t);
      }
    }

    static lemma OthersKeepTheirs(before: map<Token, Grant>, tokens: map<Token, Grant>, rotate: Option<Service>,
                                  byPair: map<Grant, Token>, chosen: map<Grant, Token>, g: Grant, h: Grant)
      requires g !in chosen && h in chosen && ByPair(before, byPair)
      requires GatewayMinted(before, tokens, rotate, byPair, chosen)
      ensures PairAt(before, tokens, rotate, byPair, chosen, h) && (g in byPair ==> byPair[g] != chosen[h])
    {
      assert PairAt(before, tokens, rotate, byPair, chosen, h);
      if g in byPair {
        OwnSurvives(before, rotate, byPair, chosen, g);
        assert TokenAt(before, tokens, rotate, byPair, chosen, byPair[g]);
      }
    }

    method MintService(tokens: map<Token, Grant>, byPair: map<Grant, Token>, rotate: Option<Service>, k: nat,
                       ghost before: Store, ghost chosen: map<Grant, Token>)
      returns (after: map<Token, Grant>, ghost more: map<Grant, Token>)
      requires k < |GATEWAY_GRANTS| && (forall g :: g in chosen <==> PairDone(g, k, 0))
      requires forall s :: IsAgent(s) ==> s in before.secrets
      requires Progress(before, tokens, rotate, byPair, chosen)
      modifies this`secrets, this`next
      ensures forall g :: g in more <==> PairDone(g, k + 1, 0)
      ensures Progress(before, after, rotate, byPair, more)
    {
      var (service, modes) := GATEWAY_GRANTS[k];
      after, more := tokens, chosen;
      for j := 0 to |modes|
        invariant forall g :: g in more <==> PairDone(g, k, j)
        invariant Progress(before, after, rotate, byPair, more)
      {
        PairNext(k, j);
        var g := Grant(service, modes[j]);
        var token: Token;
        after, token := MintPair(after, byPair, rotate, g, before, more);
        more := more[g := token];
      }
      PairsNext(k);
    }

    /** Every granted pair gets its own token, in the gateway's map and in its service's secret. */
    method MintGatewayTokens(rotate: Option<Service>) returns (ghost byPair: map<Grant, Token>, ghost chosen: map<Grant, Token>)
      requires Fresh() && forall s :: IsAgent(s) ==> s in secrets
      modifies this`secrets, this`gateway, this`next
      ensures ByPair(old(gateway), byPair) && forall g :: g in chosen <==> Granted(g)
      ensures GatewayMinted(old(gateway), gateway, rotate, byPair, chosen)
      ensures FieldsDone(old(secrets), secrets, chosen)
      ensures Fresh()
      ensures Apart(old(State())) ==> Apart(State())
    {
      ghost var before := State();
      var tokens: map<Token, Grant> := Prune(gateway);
      var pairs: map<Grant, Token> := PairsOf(tokens);
      byPair, chosen := pairs, map[];
      NothingChosen(before.gateway, tokens, rotate, pairs);
      FewerStaysApart(before, tokens);
      for k := 0 to |GATEWAY_GRANTS|
        invariant forall g :: g in chosen <==> PairDone(g, k, 0)
        invariant Progress(before, tokens, rotate, pairs, chosen)
      {
        tokens, chosen := MintService(tokens, pairs, rotate, k, before, chosen);
      }
      AllPairsDone();
      gateway := tokens;
      forall s | TokenOf(State(), s).Some? ensures TokenOf(State(), s).value < next {
        assert TokenOf(State(), s) == TokenOf(before, s);
      }
    }

    /** The pairs up to the `j`th mode of the `k`th grant. */
    static predicate PairDone(g: Grant, k: nat, j: nat)
      requires k <= |GATEWAY_GRANTS|
    {
      (exists i :: 0 <= i < k && GATEWAY_GRANTS[i].0 == g.service && g.mode in GATEWAY_GRANTS[i].1)
      || (k < |GATEWAY_GRANTS| && j <= |GATEWAY_GRANTS[k].1| && GATEWAY_GRANTS[k].0 == g.service
          && g.mode in GATEWAY_GRANTS[k].1[..j])
    }

    static lemma PairNext(k: nat, j: nat)
      requires k < |GATEWAY_GRANTS| && j < |GATEWAY_GRANTS[k].1|
      ensures var g := Grant(GATEWAY_GRANTS[k].0, GATEWAY_GRANTS[k].1[j]);
              Granted(g) && IsAgent(g.service) && !PairDone(g, k, j) && forall h :: PairDone(h, k, j + 1) <==> PairDone(h, k, j) || h == g
    {
      var modes := GATEWAY_GRANTS[k].1;
      assert modes[..j + 1] == modes[..j] + [modes[j]];
    }

    static lemma PairsNext(k: nat)
      requires k < |GATEWAY_GRANTS|
      ensures forall g :: PairDone(g, k + 1, 0) <==> PairDone(g, k, |GATEWAY_GRANTS[k].1|)
    {
      assert GATEWAY_GRANTS[k].1[..|GATEWAY_GRANTS[k].1|] == GATEWAY_GRANTS[k].1;
    }

    static lemma AllPairsDone()
      ensures forall g :: PairDone(g, |GATEWAY_GRANTS|, 0) <==> Granted(g)
    {
      forall g ensures PairDone(g, |GATEWAY_GRANTS|, 0) <==> Granted(g) {
        Tables(g.service);
      }
    }

    method MintWebhookTokens()
      requires Fresh()
      modifies this`webhooks, this`next
      ensures Fresh() && WebhooksMinted(old(webhooks), webhooks)
      ensures Apart(old(State())) ==> Apart(State())
    {
      ghost var start, was := webhooks, State();
      for i := 0 to |WEBHOOK_SOURCES|
        invariant forall x :: x in webhooks <==> x in start || x in WEBHOOK_SOURCES[..i]
        invariant forall x :: x in start ==> webhooks[x] == start[x]
        invariant Fresh() && (Apart(was) ==> Apart(State()))
      {
        var source := WEBHOOK_SOURCES[i];
        if source !in webhooks {
          ghost var before := State();
          var token := NewToken();
          webhooks := webhooks[source := token];
          assert forall s :: TokenOf(State(), s) == TokenOf(before, s);
          forall p ensures At(State(), p) == if p == Webhook(source) then Some(token) else At(before, p) {}
          FreshStaysApart(before, State(), Webhook(source), token);
        }
        assert WEBHOOK_SOURCES[..i + 1] == WEBHOOK_SOURCES[..i] + [source];
      }
      assert WEBHOOK_SOURCES[..|WEBHOOK_SOURCES|] == WEBHOOK_SOURCES;
    }

    /** Agent tokens, then the dispatch map and the knowledge token derived from them. */
    method PrepareSecrets(rotate: Option<Service>) returns (tokens: map<Service, Token>)
      requires Fresh()
      modifies this`secrets, this`next
      ensures AgentTokens(old(State()), rotate, tokens)
      ensures AllPrepared(old(secrets), secrets, rotate, tokens)
      ensures Fresh()
      ensures Apart(old(State())) ==> Apart(State())
    {
      ghost var before := State();
      Agents();
      tokens := MintAgentTokens(AGENT_SERVICES, rotate);
      ghost var minted := secrets;
      RebuildDispatchMap(tokens);
      ghost var dispatching := secrets;
      WriteKnowledgeGrant(tokens);
      InThreeSteps(before, minted, dispatching, secrets, rotate, tokens);
    }

    /** One run of the script, plain or with `--rotate`. */
    method Run(rotate: Option<Service>)
      requires Fresh()
      modifies this
      ensures Fresh() && Ran(old(State()), State(), rotate)
    {
      ghost var before := State();
      var tokens := PrepareSecrets(rotate);
      ghost var prepared := secrets;
      ghost var byPair, chosen;
      byPair, chosen := MintGatewayTokens(rotate);
      ghost var granted := State();
      MintWebhookTokens();
      assert forall s :: TokenOf(State(), s) == TokenOf(granted, s);
      Assembled(before, prepared, State(), rotate, tokens, byPair, chosen);
    }

    static lemma Agents()
      ensures forall s :: s in AGENT_SERVICES <==> IsAgent(s)
      ensures forall i, j :: 0 <= i < j < |AGENT_SERVICES| ==> AGENT_SERVICES[i] != AGENT_SERVICES[j]
    {
      forall s ensures s in AGENT_SERVICES <==> IsAgent(s) { Tables(s); }
    }
  }

  /** One secret before the gateway's part of the run. */
  ghost predicate Prepared(was: Secret, now: Secret, s: Service, rotate: Option<Service>, tokens: map<Service, Token>) {
    && (s in tokens ==> AgentPart(was, now, Rotates(rotate, s), tokens[s]))
    && (s !in tokens ==> now.agentToken == was.agentToken && now.previous == was.previous)
    && DispatchPart(was, now, s, tokens)
    && KnowledgePart(was, now, s, tokens)
    && now.fields == was.fields && now.bare == was.bare && now.rest == was.rest
  }

  ghost predicate AllPrepared(before: map<Service, Secret>, secrets: map<Service, Secret>, rotate: Option<Service>,
                              tokens: map<Service, Token>) {
    && (forall s :: Prepared(Read(before, s), Read(secrets, s), s, rotate, tokens))
    && (forall s :: s in secrets <==> s in before || IsAgent(s))
  }

  lemma AgentsHaveTokens(before: Store, minted: map<Service, Secret>, rotate: Option<Service>, tokens: map<Service, Token>)
    requires AgentsDone(before, minted, rotate, tokens) && forall s :: s in tokens <==> IsAgent(s)
    ensures AgentTokens(before, rotate, tokens)
  {
    forall s | s in tokens
      ensures if TokenOf(before, s).Some? && !Rotates(rotate, s) then TokenOf(before, s) == Some(tokens[s]) else Unused(before, tokens[s])
    {
      assert AgentAt(before, minted, rotate, tokens, s);
    }
  }

  lemma OneInThreeSteps(before: Store, minted: map<Service, Secret>, dispatching: map<Service, Secret>,
                        informed: map<Service, Secret>, rotate: Option<Service>, tokens: map<Service, Token>, s: Service)
    requires AgentAt(before, minted, rotate, tokens, s)
    requires DispatchingAt(Read(minted, s), Read(dispatching, s), s, tokens)
    requires InformedAt(Read(dispatching, s), Read(informed, s), s, tokens)
    ensures Prepared(Read(before.secrets, s), Read(informed, s), s, rotate, tokens)
  {
  }

  lemma InThreeSteps(before: Store, minted: map<Service, Secret>, dispatching: map<Service, Secret>,
                     informed: map<Service, Secret>, rotate: Option<Service>, tokens: map<Service, Token>)
    requires AgentsDone(before, minted, rotate, tokens) && forall s :: s in tokens <==> IsAgent(s)
    requires Dispatching(minted, dispatching, tokens) && Informed(dispatching, informed, tokens)
    ensures AllPrepared(before.secrets, informed, rotate, tokens) && AgentTokens(before, rotate, tokens)
  {
    AgentsHaveTokens(before, minted, rotate, tokens);
    forall s ensures Prepared(Read(before.secrets, s), Read(informed, s), s, rotate, tokens) {
      assert AgentAt(before, minted, rotate, tokens, s);
      assert DispatchingAt(Read(minted, s), Read(dispatching, s), s, tokens);
      assert InformedAt(Read(dispatching, s), Read(informed, s), s, tokens);
      OneInThreeSteps(before, minted, dispatching, informed, rotate, tokens, s);
    }
  }

  lemma Assembled(before: Store, prepared: map<Service, Secret>, after: Store, rotate: Option<Service>,
                  tokens: map<Service, Token>, byPair: map<Grant, Token>, chosen: map<Grant, Token>)
    requires AgentTokens(before, rotate, tokens) && AllPrepared(before.secrets, prepared, rotate, tokens)
    requires ByPair(before.gateway, byPair) && forall g :: g in chosen <==> Granted(g)
    requires GatewayMinted(before.gateway, after.gateway, rotate, byPair, chosen)
    requires FieldsDone(prepared, after.secrets, chosen) && WebhooksMinted(before.webhooks, after.webhooks)
    requires Apart(before) ==> Apart(after)
    ensures Ran(before, after, rotate)
  {
    forall s ensures SecretRan(Read(before.secrets, s), Read(after.secrets, s), s, rotate, tokens, chosen) {
      assert Prepared(Read(before.secrets, s), Read(prepared, s), s, rotate, tokens);
      assert GatewayPart(Read(prepared, s), Read(after.secrets, s), s, chosen);
    }
    assert RanWith(before, after, rotate, tokens, byPair, chosen);
  }
}
