/** AuthService and its store: clients, and refresh tokens that are used once and replaced. The signer is
    ideal: a token's claims are what it was signed with, as in section 4.1 of RFC 7519. */
module RefreshTokens {
  import opened Collections
  import opened Messages

  datatype Tier = Free | Pro | Enterprise

  /** An ideal hash: equal only for equal texts. */
  datatype Hash = Hash(text: string)

  datatype ClientRecord = ClientRecord(
    clientId: Id, secretHash: Hash, hostId: Id, namespaceId: Id, tier: Tier, name: string,
    capabilities: seq<string>, publicKey: Option<string>, createdAt: int)

  /** Signed tokens; `exp` is in seconds. */
  datatype Token =
    | Access(sub: Id, namespaceId: Id, tier: Tier, exp: int)
    | Refresh(sub: Id, jti: Id, exp: int)
    | Unsigned(text: string)

  datatype Grant = Grant(hostId: Id, namespaceId: Id, expiresAt: int)

  datatype Store = Store(clients: map<Id, ClientRecord>, hostIndex: map<Id, Id>, grants: map<Token, Grant>)

  const NOBODY := Store(map[], map[], map[])

  datatype TokenPair = TokenPair(access: Token, refresh: Token)

  datatype Action =
    | Register(name: string, namespaceId: Id, capabilities: seq<string>, publicKey: Option<string>,
               clientId: Id, hostId: Id, secret: string, now: int)
    | IssueTokens(clientId: Id, secret: string, jti: Id, now: int)
    | RefreshTokens(token: Token, jti: Id, now: int)

  /** Seconds since the epoch. */
  function Seconds(now: int): int {
    now / 1000
  }

  function Signed(hostId: Id, namespaceId: Id, tier: Tier, jti: Id, now: int): TokenPair {
    TokenPair(Access(hostId, namespaceId, tier, Seconds(now) + 900), Refresh(hostId, jti, Seconds(now) + 2592000))
  }

  /** The host a refresh token was signed for, if it is one and not expired. */
  function VerifyRefresh(token: Token, now: int): Option<Id> {
    if token.Refresh? && Seconds(now) < token.exp && token.sub != "" then Some(token.sub) else None
  }

  function SaveGrant(s: Store, token: Token, hostId: Id, namespaceId: Id, now: int): Store {
    s.(grants := s.grants[token := Grant(hostId, namespaceId, now + 2592000000)])
  }

  function LiveGrant(s: Store, token: Token, now: int): Option<Grant> {
    if token in s.grants && now < s.grants[token].expiresAt then Some(s.grants[token]) else None
  }

  function VerifiedClient(s: Store, clientId: Id, secret: string): Option<ClientRecord> {
    if clientId in s.clients && s.clients[clientId].secretHash == Hash(secret) then Some(s.clients[clientId]) else None
  }

  function ClientByHost(s: Store, hostId: Id): Option<ClientRecord> {
    if hostId in s.hostIndex && s.hostIndex[hostId] in s.clients then Some(s.clients[s.hostIndex[hostId]]) else None
  }

  /** The tokens an action answers with, if it does. */
  function Answer(s: Store, a: Action): Option<TokenPair> {
    match a
    case Register(_, _, _, _, _, _, _, _) => None
    case IssueTokens(clientId, secret, jti, now) =>
      var client := VerifiedClient(s, clientId, secret);
      if client.None? then None
      else Some(Signed(client.value.hostId, client.value.namespaceId, client.value.tier, jti, now))
    case RefreshTokens(token, jti, now) =>
      if VerifyRefresh(token, now).None? || LiveGrant(s, token, now).None? then None
      else Some(Signed(s.grants[token].hostId, s.grants[token].namespaceId, Free, jti, now))
  }

  function Step(s: Store, a: Action): Store {
    match a
    case Register(name, namespaceId, capabilities, publicKey, clientId, hostId, secret, now) =>
      var record := ClientRecord(clientId, Hash(secret), hostId, namespaceId, Free, name, capabilities, publicKey, now);
      s.(clients := s.clients[clientId := record], hostIndex := s.hostIndex[hostId := clientId])
    case IssueTokens(clientId, secret, jti, now) =>
      var client := VerifiedClient(s, clientId, secret);
      if client.None? then s
      else SaveGrant(s, Answer(s, a).value.refresh, client.value.hostId, client.value.namespaceId, now)
    case RefreshTokens(token, jti, now) =>
      if Answer(s, a).None? then s
      else
        var grant := s.grants[token];
        SaveGrant(s.(grants := s.grants - {token}), Answer(s, a).value.refresh, grant.hostId, grant.namespaceId, now)
  }

  function Run(actions: seq<Action>): Store {
    if actions == [] then NOBODY else Step(Run(actions[..|actions| - 1]), actions[|actions| - 1])
  }

  function AnswerAt(actions: seq<Action>, i: nat): Option<TokenPair>
    requires i < |actions|
  {
    Answer(Run(actions[..i]), actions[i])
  }

  predicate Mints(a: Action, jti: Id) {
    !a.Register? && a.jti == jti
  }

  /** Random ids are never drawn twice. */
  ghost predicate FreshIds(actions: seq<Action>) {
    forall i, j :: 0 <= i < j < |actions| ==>
      && (!actions[i].Register? ==> !Mints(actions[j], actions[i].jti))
      && (actions[i].Register? && actions[j].Register? ==>
            actions[i].clientId != actions[j].clientId && actions[i].hostId != actions[j].hostId)
  }

  /** Stored tokens are refresh tokens minted by an earlier action. */
  ghost predicate Minted(actions: seq<Action>) {
    forall t :: t in Run(actions).grants ==> t.Refresh? && exists i :: 0 <= i < |actions| && Mints(actions[i], t.jti)
  }

  lemma {:induction false} AllMinted(actions: seq<Action>)
    ensures Minted(actions)
  {
    if actions != [] {
      var init, a := actions[..|actions| - 1], actions[|actions| - 1];
      AllMinted(init);
      forall t | t in Run(actions).grants
        ensures t.Refresh? && exists i :: 0 <= i < |actions| && Mints(actions[i], t.jti)
      {
        if t in Run(init).grants {
          var i :| 0 <= i < |init| && Mints(init[i], t.jti);
          assert Mints(actions[i], t.jti);
        } else {
          assert Mints(actions[|actions| - 1], t.jti);
        }
      }
    }
  }

  // ---------- one use ----------

  lemma StepAddsMinted(s: Store, a: Action, t: Token)
    requires t in Step(s, a).grants
    ensures t in s.grants || (t.Refresh? && Mints(a, t.jti))
    ensures a.RefreshTokens? && Answer(s, a).Some? && t == a.token ==> t.Refresh? && Mints(a, t.jti)
  {
  }

  /** A stored token was minted before, so not by the next action. */
  lemma NextIsFresh(actions: seq<Action>, n: nat, t: Token)
    requires FreshIds(actions) && n < |actions| && t in Run(actions[..n]).grants
    ensures t.Refresh? && forall m :: n <= m < |actions| ==> !Mints(actions[m], t.jti)
  {
    AllMinted(actions[..n]);
    var i :| 0 <= i < n && Mints(actions[..n][i], t.jti);
    assert actions[i].jti == t.jti;
  }

  lemma RunSnoc(actions: seq<Action>, a: Action)
    ensures Run(actions + [a]) == Step(Run(actions), a)
  {
    assert (actions + [a])[..|actions|] == actions;
  }

  lemma GoneStaysGone(s: Store, a: Action, token: Token)
    requires token !in s.grants && token.Refresh? && !Mints(a, token.jti)
    ensures token !in Step(s, a).grants
  {
    if token in Step(s, a).grants { StepAddsMinted(s, a, token); }
  }

  lemma UsedIsGone(s: Store, a: Action)
    requires a.RefreshTokens? && Answer(s, a).Some? && a.token.Refresh? && !Mints(a, a.token.jti)
    ensures a.token !in Step(s, a).grants
  {
    if a.token in Step(s, a).grants { StepAddsMinted(s, a, a.token); }
  }

  lemma {:induction false} UsedTokenStaysGone(actions: seq<Action>, i: nat, n: nat)
    requires FreshIds(actions) && i < n <= |actions|
    requires actions[i].RefreshTokens? && AnswerAt(actions, i).Some?
    ensures actions[i].token !in Run(actions[..n]).grants
  {
    var token, before := actions[i].token, actions[..n - 1];
    NextIsFresh(actions, i, token);
    assert actions[..n] == before + [actions[n - 1]];
    RunSnoc(before, actions[n - 1]);
    assert !Mints(actions[n - 1], token.jti);
    if i < n - 1 {
      UsedTokenStaysGone(actions, i, n - 1);
      GoneStaysGone(Run(before), actions[n - 1], token);
    } else {
      UsedIsGone(Run(before), actions[n - 1]);
    }
  }

  /** A refresh token is accepted at most once. */
  lemma RefreshedAtMostOnce(actions: seq<Action>, i: nat, j: nat)
    requires FreshIds(actions) && i < j < |actions|
    requires actions[i].RefreshTokens? && actions[j].RefreshTokens? && actions[i].token == actions[j].token
    requires AnswerAt(actions, i).Some?
    ensures AnswerAt(actions, j).None?
  {
    UsedTokenStaysGone(actions, i, j);
  }

  // ---------- logins ----------

  /** The record holds what the client was registered with. */
  predicate Records(r: ClientRecord, a: Action) {
    && a.Register? && r.clientId == a.clientId && r.secretHash == Hash(a.secret)
    && r.hostId == a.hostId && r.namespaceId == a.namespaceId && r.tier == Free
    && r.name == a.name && r.capabilities == a.capabilities && r.publicKey == a.publicKey && r.createdAt == a.now
  }

  lemma StepKeepsOtherClients(s: Store, a: Action, c: Id)
    requires a.Register? ==> a.clientId != c
    ensures c in Step(s, a).clients <==> c in s.clients
    ensures c in s.clients ==> Step(s, a).clients[c] == s.clients[c]
  {
  }

  lemma StepKeepsOtherHosts(s: Store, a: Action, h: Id)
    requires a.Register? ==> a.hostId != h
    ensures h in Step(s, a).hostIndex <==> h in s.hostIndex
    ensures h in s.hostIndex ==> Step(s, a).hostIndex[h] == s.hostIndex[h]
  {
  }

  /** Every client stored is as some action registered it. */
  lemma {:induction false} StoredIsRegistered(actions: seq<Action>)
    ensures forall c :: c in Run(actions).clients ==>
      exists i :: 0 <= i < |actions| && actions[i].Register? && actions[i].clientId == c && Records(Run(actions).clients[c], actions[i])
  {
    if actions != [] {
      var init, a := actions[..|actions| - 1], actions[|actions| - 1];
      StoredIsRegistered(init);
      forall c | c in Run(actions).clients
        ensures exists i :: 0 <= i < |actions| && actions[i].Register? && actions[i].clientId == c && Records(Run(actions).clients[c], actions[i])
      {
        if a.Register? && a.clientId == c {
          assert Records(Run(actions).clients[c], actions[|actions| - 1]);
        } else {
          StepKeepsOtherClients(Run(init), a, c);
          var i :| 0 <= i < |init| && init[i].Register? && init[i].clientId == c && Records(Run(init).clients[c], init[i]);
          assert actions[i] == init[i];
        }
      }
    }
  }

  /** A client once registered stays as it was, under its id and under its host's. */
  lemma {:induction false} RegisteredIsStored(actions: seq<Action>, i: nat)
    requires FreshIds(actions) && i < |actions| && actions[i].Register?
    ensures actions[i].clientId in Run(actions).clients && Records(Run(actions).clients[actions[i].clientId], actions[i])
    ensures actions[i].hostId in Run(actions).hostIndex && Run(actions).hostIndex[actions[i].hostId] == actions[i].clientId
    ensures ClientByHost(Run(actions), actions[i].hostId) == Some(Run(actions).clients[actions[i].clientId])
    decreases |actions|
  {
    var init := actions[..|actions| - 1];
    if i < |init| {
      assert init[i] == actions[i];
      RegisteredIsStored(init, i);
      StepKeepsOtherClients(Run(init), actions[|init|], actions[i].clientId);
      StepKeepsOtherHosts(Run(init), actions[|init|], actions[i].hostId);
    }
  }

  /** The action at i is a login with the secret of the client registered at r. */
  predicate LogsIn(actions: seq<Action>, i: nat, r: nat) {
    && r < i < |actions| && actions[i].IssueTokens? && actions[r].Register?
    && actions[i].clientId == actions[r].clientId && actions[i].secret == actions[r].secret
  }

  /** The tokens are for the host and namespace that the action registered, of the free tier: 15 minutes of
      access and 30 days to refresh. */
  predicate IsFor(pair: TokenPair, a: Action, jti: Id, now: int) {
    && a.Register?
    && pair.access == Access(a.hostId, a.namespaceId, Free, now / 1000 + 15 * 60)
    && pair.refresh == Refresh(a.hostId, jti, now / 1000 + 30 * 24 * 3600)
  }

  lemma AnsweredAs(s: Store, a: Action, client: Action)
    requires a.IssueTokens? && a.clientId in s.clients && Records(s.clients[a.clientId], client)
    ensures Answer(s, a).Some? <==> a.secret == client.secret
    ensures Answer(s, a).Some? ==> IsFor(Answer(s, a).value, client, a.jti, a.now)
  {
  }

  lemma AnsweredIsRegistered(actions: seq<Action>, i: nat)
    requires i < |actions| && actions[i].IssueTokens? && AnswerAt(actions, i).Some?
    ensures exists r: nat :: LogsIn(actions, i, r)
  {
    var before, c := actions[..i], actions[i].clientId;
    StoredIsRegistered(before);
    var r :| 0 <= r < i && before[r].Register? && before[r].clientId == c && Records(Run(before).clients[c], before[r]);
    AnsweredAs(Run(before), actions[i], before[r]);
    assert LogsIn(actions, i, r);
  }

  /** A login is answered exactly when an earlier action registered that client with that secret, and then
      with tokens for what was registered. */
  lemma LoginSucceedsExactly(actions: seq<Action>, i: nat)
    requires FreshIds(actions) && i < |actions| && actions[i].IssueTokens?
    ensures AnswerAt(actions, i).Some? <==> exists r: nat :: LogsIn(actions, i, r)
    ensures forall r: nat :: LogsIn(actions, i, r) ==>
      AnswerAt(actions, i).Some? && IsFor(AnswerAt(actions, i).value, actions[r], actions[i].jti, actions[i].now)
  {
    if AnswerAt(actions, i).Some? { AnsweredIsRegistered(actions, i); }
    forall r: nat | LogsIn(actions, i, r)
      ensures AnswerAt(actions, i).Some? && IsFor(AnswerAt(actions, i).value, actions[r], actions[i].jti, actions[i].now)
    {
      RegisteredIsStored(actions[..i], r);
      AnsweredAs(Run(actions[..i]), actions[i], actions[r]);
    }
  }

  // ---------- conservation ----------

  /** How many actions were logins with the secret of a client registered before. */
  ghost function Logins(actions: seq<Action>): nat {
    if actions == [] then 0
    else
      var n := |actions| - 1;
      Logins(actions[..n]) + if exists r: nat :: LogsIn(actions, n, r) then 1 else 0
  }

  /** Refreshing replaces a token by one: as many are stored as logins have succeeded. */
  lemma {:induction false} TokensAreLogins(actions: seq<Action>)
    requires FreshIds(actions)
    ensures |Run(actions).grants| == Logins(actions)
  {
    if actions != [] {
      var init, a := actions[..|actions| - 1], actions[|actions| - 1];
      TokensAreLogins(init);
      AllMinted(init);
      var s := Run(init);
      if a.IssueTokens? { LoginSucceedsExactly(actions, |init|); }
      if Answer(s, a).Some? {
        var next := Answer(s, a).value.refresh;
        if next in s.grants { NextIsFresh(actions, |init|, next); }
        if a.RefreshTokens? { Replaced(s.grants, a.token, next, Run(actions).grants[next]); }
      }
    }
  }

  lemma Replaced(grants: map<Token, Grant>, token: Token, next: Token, g: Grant)
    requires token in grants && next !in grants
    ensures |(grants - {token})[next := g]| == |grants|
  {
    assert (grants - {token}).Keys == grants.Keys - {token};
    assert (grants - {token})[next := g].Keys == grants.Keys - {token} + {next};
  }

  // ---------- identity ----------

  /** The login at the start of the chain of refreshes that led to a token. */
  function LoginOf(actions: seq<Action>, token: Token): Option<nat> {
    if actions == [] then None
    else
      var n := |actions| - 1;
      var (s, a) := (Run(actions[..n]), actions[n]);
      if Answer(s, a).Some? && Answer(s, a).value.refresh == token then
        if a.IssueTokens? then Some(n) else LoginOf(actions[..n], a.token)
      else LoginOf(actions[..n], token)
  }

  /** The token and what is stored for it are of the client registered at r, who logged in at i. */
  ghost predicate Began(actions: seq<Action>, login: Option<nat>, r: nat, token: Token, g: Grant) {
    && login.Some? && LogsIn(actions, login.value, r)
    && token.Refresh? && token.sub == actions[r].hostId
    && g.hostId == actions[r].hostId && g.namespaceId == actions[r].namespaceId
  }

  ghost predicate Rooted(actions: seq<Action>, login: Option<nat>, token: Token, g: Grant) {
    exists r: nat :: Began(actions, login, r, token, g)
  }

  lemma LoginBegins(actions: seq<Action>)
    requires FreshIds(actions) && actions != []
    requires actions[|actions| - 1].IssueTokens? && AnswerAt(actions, |actions| - 1).Some?
    ensures var token := AnswerAt(actions, |actions| - 1).value.refresh;
      token in Run(actions).grants && Rooted(actions, Some(|actions| - 1), token, Run(actions).grants[token])
  {
    var n := |actions| - 1;
    LoginSucceedsExactly(actions, n);
    var r: nat :| LogsIn(actions, n, r);
    RegisteredIsStored(actions[..n], r);
    var token := AnswerAt(actions, n).value.refresh;
    assert Began(actions, Some(n), r, token, Run(actions).grants[token]);
  }

  lemma {:induction false} ChainsCarryIdentity(actions: seq<Action>, token: Token)
    requires FreshIds(actions) && token in Run(actions).grants
    ensures Rooted(actions, LoginOf(actions, token), token, Run(actions).grants[token])
    decreases |actions|
  {
    var init, a := actions[..|actions| - 1], actions[|actions| - 1];
    var s := Run(init);
    if Answer(s, a).Some? && Answer(s, a).value.refresh == token && a.IssueTokens? {
      LoginBegins(actions);
    } else {
      var from := if Answer(s, a).Some? && Answer(s, a).value.refresh == token then a.token else token;
      ChainsCarryIdentity(init, from);
      var r: nat :| Began(init, LoginOf(init, from), r, from, s.grants[from]);
      assert Began(actions, LoginOf(actions, token), r, token, Run(actions).grants[token]);
    }
  }

  /** Whatever a refresh answers with is for the host and namespace that its chain's first client registered
      with, the one its token names, and of the free tier that registration gives. */
  lemma RefreshKeepsIdentity(actions: seq<Action>, i: nat)
    requires FreshIds(actions) && i < |actions| && actions[i].RefreshTokens? && AnswerAt(actions, i).Some?
    ensures var login := LoginOf(actions[..i], actions[i].token);
      && login.Some?
      && exists r: nat ::
        && LogsIn(actions[..i], login.value, r)
        && IsFor(AnswerAt(actions, i).value, actions[r], actions[i].jti, actions[i].now)
    ensures AnswerAt(actions, i).value.access.sub == actions[i].token.sub
  {
    var before, token := actions[..i], actions[i].token;
    ChainsCarryIdentity(before, token);
    var r: nat :| Began(before, LoginOf(before, token), r, token, Run(before).grants[token]);
    assert before[r] == actions[r];
  }

  lemma StepKeepsOtherGrants(s: Store, a: Action, token: Token)
    requires token.Refresh? && !Mints(a, token.jti)
    ensures token in Step(s, a).grants ==> token in s.grants && Step(s, a).grants[token] == s.grants[token]
  {
  }

  lemma StepGrants(s: Store, a: Action)
    requires Answer(s, a).Some?
    ensures var pair := Answer(s, a).value;
      && pair.refresh.Refresh? && Mints(a, pair.refresh.jti) && pair.refresh in Step(s, a).grants
      && Step(s, a).grants[pair.refresh]
           == Grant(pair.access.sub, pair.access.namespaceId, a.now + 30 * 24 * 3600 * 1000)
  {
  }

  /** One link of a chain: what is stored for a token handed out is what the access token beside it says,
      for 30 days. */
  lemma {:induction false} StoredAsHanded(actions: seq<Action>, i: nat)
    requires FreshIds(actions) && i < |actions| && AnswerAt(actions, i).Some?
    ensures var pair := AnswerAt(actions, i).value;
      pair.refresh in Run(actions).grants ==>
        Run(actions).grants[pair.refresh]
          == Grant(pair.access.sub, pair.access.namespaceId, actions[i].now + 30 * 24 * 3600 * 1000)
    decreases |actions|
  {
    var n := |actions| - 1;
    var init := actions[..n];
    if i < n {
      assert init[..i] == actions[..i];
      StoredAsHanded(init, i);
      StepGrants(Run(actions[..i]), actions[i]);
      StepKeepsOtherGrants(Run(init), actions[n], AnswerAt(actions, i).value.refresh);
    } else {
      StepGrants(Run(init), actions[n]);
    }
  }

  /** What an action does with one refresh token. */
  datatype Move = HandsOut | Accepts | Neither

  function MoveOf(answer: Option<TokenPair>, a: Action, token: Token): Move {
    if answer.None? then Neither
    else if answer.value.refresh == token then HandsOut
    else if a.RefreshTokens? && a.token == token then Accepts
    else Neither
  }

  function Moves(actions: seq<Action>, token: Token): (moves: seq<Move>)
    ensures |moves| == |actions|
  {
    if actions == [] then []
    else
      var n := |actions| - 1;
      Moves(actions[..n], token) + [MoveOf(Answer(Run(actions[..n]), actions[n]), actions[n], token)]
  }

  lemma {:induction false} MovesAt(actions: seq<Action>, token: Token, i: nat)
    requires i < |actions|
    ensures Moves(actions, token)[i] == MoveOf(AnswerAt(actions, i), actions[i], token)
    decreases |actions|
  {
    var init := actions[..|actions| - 1];
    if i < |init| {
      assert init[..i] == actions[..i];
      MovesAt(init, token, i);
    }
  }

  /** The token was handed out by some action, and accepted by none since. */
  ghost predicate Unused(moves: seq<Move>) {
    exists i :: 0 <= i < |moves| && moves[i].HandsOut? && forall j :: i < j < |moves| ==> !moves[j].Accepts?
  }

  lemma UnusedSnoc(moves: seq<Move>, m: Move)
    ensures Unused(moves + [m]) <==> m.HandsOut? || (m.Neither? && Unused(moves))
  {
    var more := moves + [m];
    if m.HandsOut? { assert more[|moves|].HandsOut?; }
    if m.Neither? && Unused(moves) {
      var i :| 0 <= i < |moves| && moves[i].HandsOut? && forall j :: i < j < |moves| ==> !moves[j].Accepts?;
      assert more[i].HandsOut?;
    }
    if Unused(more) && !m.HandsOut? {
      var i :| 0 <= i < |more| && more[i].HandsOut? && forall j :: i < j < |more| ==> !more[j].Accepts?;
      assert moves[i].HandsOut? && !more[|moves|].Accepts?;
      assert forall j :: i < j < |moves| ==> more[j] == moves[j];
    }
  }

  lemma StoredAfter(s: Store, a: Action, token: Token)
    ensures token in Step(s, a).grants <==>
      var m := MoveOf(Answer(s, a), a, token); m.HandsOut? || (m.Neither? && token in s.grants)
  {
  }

  /** What is stored is exactly what some login or refresh answered with and no refresh accepted since. */
  lemma {:induction false} StoredIsUnused(actions: seq<Action>, token: Token)
    ensures token in Run(actions).grants <==> Unused(Moves(actions, token))
  {
    if actions != [] {
      var init, a := actions[..|actions| - 1], actions[|actions| - 1];
      StoredIsUnused(init, token);
      StoredAfter(Run(init), a, token);
      UnusedSnoc(Moves(init, token), MoveOf(Answer(Run(init), a), a, token));
    }
  }

  lemma {:induction false} StoredOutlivesSignature(actions: seq<Action>)
    ensures forall t :: t in Run(actions).grants ==> t.Refresh? && t.exp * 1000 <= Run(actions).grants[t].expiresAt
  {
    if actions != [] { StoredOutlivesSignature(actions[..|actions| - 1]); }
  }

  /** A refresh succeeds exactly when the token was handed out and not accepted since, and its signature
      is of a host and not expired: what is stored for it does not expire before. */
  lemma {:induction false} RefreshSucceedsExactly(actions: seq<Action>, token: Token, jti: Id, now: int)
    ensures Answer(Run(actions), RefreshTokens(token, jti, now)).Some?
      <==> Unused(Moves(actions, token)) && token.Refresh? && token.sub != "" && now / 1000 < token.exp
  {
    StoredOutlivesSignature(actions);
    StoredIsUnused(actions, token);
  }

  // ---------- the service ----------

  class AuthService {
    var clients: map<Id, ClientRecord>
    var hostIndex: map<Id, Id>
    var grants: map<Token, Grant>
    var publicKeys: map<Id, string>

    ghost function View(): Store
      reads this
    {
      Store(clients, hostIndex, grants)
    }

    method Register(name: string, namespaceId: Id, capabilities: seq<string>, publicKey: Option<string>,
                    clientId: Id, hostId: Id, secret: string, now: int)
      modifies this
      ensures View() == Step(old(View()),
        Action.Register(name, namespaceId, capabilities, publicKey, clientId, hostId, secret, now))
      ensures publicKeys == if publicKey.Some? && publicKey.value != "" then old(publicKeys)[hostId := publicKey.value] else old(publicKeys)
    {
      clients := clients[clientId := ClientRecord(
        clientId, Hash(secret), hostId, namespaceId, Free, name, capabilities, publicKey, now)];
      hostIndex := hostIndex[hostId := clientId];
      if publicKey.Some? && publicKey.value != "" { publicKeys := publicKeys[hostId := publicKey.value]; }
    }

    method IssueTokens(clientId: Id, clientSecret: string, jti: Id, now: int) returns (tokens: Option<TokenPair>)
      modifies this`grants
      ensures View() == Step(old(View()), Action.IssueTokens(clientId, clientSecret, jti, now))
      ensures tokens == Answer(old(View()), Action.IssueTokens(clientId, clientSecret, jti, now))
      ensures tokens.Some? <==> clientId in clients && clients[clientId].secretHash == Hash(clientSecret)
    {
      if clientId !in clients || clients[clientId].secretHash != Hash(clientSecret) { return None; }
      var record := clients[clientId];
      var pair := Signed(record.hostId, record.namespaceId, record.tier, jti, now);
      grants := grants[pair.refresh := Grant(record.hostId, record.namespaceId, now + 2592000000)];
      return Some(pair);
    }

    method RefreshTokens(refreshToken: Token, jti: Id, now: int) returns (tokens: Option<TokenPair>)
      modifies this`grants
      ensures View() == Step(old(View()), Action.RefreshTokens(refreshToken, jti, now))
      ensures tokens == Answer(old(View()), Action.RefreshTokens(refreshToken, jti, now))
      ensures tokens.Some? ==> refreshToken in old(grants) && (refreshToken == tokens.value.refresh || refreshToken !in grants)
    {
      if VerifyRefresh(refreshToken, now).None? { return None; }
      if refreshToken !in grants || now >= grants[refreshToken].expiresAt { return None; }
      var stored := grants[refreshToken];
      grants := grants - {refreshToken};
      var pair := Signed(stored.hostId, stored.namespaceId, Free, jti, now);
      grants := grants[pair.refresh := Grant(stored.hostId, stored.namespaceId, now + 2592000000)];
      return Some(pair);
    }
  }
}
