/**
 * Refresh-token families (services/auth.py): issue, rotate and log out, and what holds of every
 * run of them. Rotation as in section 10.4 of RFC 6749.
 */
module RefreshTokens {
  import opened Common

  type TokenId = nat
  type FamilyId = nat
  type UserId = nat
  type Time = int

  datatype Reason = Rotated | Expired | ReuseDetected | LoggedOut

  datatype Token = Token(
    family: FamilyId, user: UserId, hash: string, parent: Option<TokenId>, expiresAt: Time,
    usedAt: Option<Time>, revokedAt: Option<Time>, reason: Option<Reason>)

  type Tokens = map<TokenId, Token>

  datatype TokenError = UnknownToken | ReuseOfToken | ExpiredToken | MissingUser

  // ---------------------------------------------------------------- transactions

  /** No two rows have one hash: the column is unique. */
  ghost predicate UniqueHashes(tokens: Tokens) {
    forall a, b :: a in tokens && b in tokens && tokens[a].hash == tokens[b].hash ==> a == b
  }

  predicate Known(tokens: Tokens, hash: string) {
    exists id :: id in tokens && tokens[id].hash == hash
  }

  /** The family-wide update of reuse detection and logout. */
  function RevokeFamily(tokens: Tokens, f: FamilyId, reason: Reason, now: Time): Tokens {
    map id | id in tokens ::
      if tokens[id].family == f then tokens[id].(revokedAt := Some(now), reason := Some(reason)) else tokens[id]
  }

  /** `_issue_session`: the root of a new family. Ids, family and hash are new. */
  function Issue(tokens: Tokens, id: TokenId, f: FamilyId, user: UserId, hash: string, expiresAt: Time): Tokens {
    tokens[id := Token(f, user, hash, None, expiresAt, None, None, None)]
  }

  predicate Spent(t: Token) {
    t.usedAt.Some? || t.revokedAt.Some?
  }

  /** `rotate_refresh_token` for the token `id` that has the presented hash. */
  function Rotate(tokens: Tokens, id: TokenId, newId: TokenId, newHash: string, userExists: bool, ttl: nat, now: Time)
    : (Tokens, Option<TokenError>)
    requires id in tokens
  {
    var t := tokens[id];
    if Spent(t) then (RevokeFamily(tokens, t.family, ReuseDetected, now), Some(ReuseOfToken))
    else if t.expiresAt <= now then
      (tokens[id := t.(revokedAt := Some(now), reason := Some(Expired))], Some(ExpiredToken))
    else if !userExists then (tokens, Some(MissingUser))
    else
      (tokens[id := t.(usedAt := Some(now), revokedAt := Some(now), reason := Some(Rotated))]
             [newId := Token(t.family, t.user, newHash, Some(id), now + ttl, None, None, None)], None)
  }

  function LogOut(tokens: Tokens, id: TokenId, now: Time): Tokens
    requires id in tokens
  {
    RevokeFamily(tokens, tokens[id].family, LoggedOut, now)
  }

  // ---------------------------------------------------------------- families

  predicate NewFamily(tokens: Tokens, f: FamilyId) {
    forall id :: id in tokens ==> tokens[id].family != f
  }

  /** A used token is revoked; a token that is not the last of its chain is used. */
  predicate LinkOk(t: Token, parent: Option<TokenId>, last: bool) {
    t.parent == parent && (t.usedAt.Some? ==> t.revokedAt.Some?) && (!last ==> t.usedAt.Some?)
  }

  predicate LinkAt(tokens: Tokens, chain: seq<TokenId>, i: nat)
    requires i < |chain|
  {
    chain[i] in tokens && LinkOk(tokens[chain[i]], if i == 0 then None else Some(chain[i - 1]), i == |chain| - 1)
  }

  /** A family as a chain: a root, then each token the child of the one before; all but the last are rotated. */
  ghost predicate IsChain(tokens: Tokens, f: FamilyId, chain: seq<TokenId>) {
    && (forall id :: id in chain <==> id in tokens && tokens[id].family == f)
    && (forall i, k :: 0 <= i < k < |chain| ==> chain[i] != chain[k])
    && (forall i :: 0 <= i < |chain| ==> LinkAt(tokens, chain, i))
    && (forall i, k :: 0 <= i < |chain| && 0 <= k < |chain| ==>
          chain[i] in tokens && chain[k] in tokens && tokens[chain[i]].user == tokens[chain[k]].user)
  }

  // ---------------------------------------------------------------- what a presentation means

  /** Every row of the family is revoked for this reason now; no other row changes. */
  ghost predicate FamilyRevoked(before: Tokens, after: Tokens, f: FamilyId, reason: Reason, now: Time) {
    && after.Keys == before.Keys
    && forall id :: id in before ==>
         after[id] == if before[id].family == f then before[id].(revokedAt := Some(now), reason := Some(reason)) else before[id]
  }

  /**
   * The four ways in which the presentation of `id` ends, and what each leaves behind. A rotation marks
   * the presented token as used, and issues its successor in the same family for another `ttl`.
   */
  ghost predicate Presented(before: Tokens, after: Tokens, error: Option<TokenError>, id: TokenId, newId: TokenId, newHash: string,
                            userExists: bool, ttl: nat, now: Time)
  {
    && id in before
    && var t := before[id];
       var spent := t.usedAt.Some? || t.revokedAt.Some?;
       && (error == None <==> !spent && t.expiresAt > now && userExists)
       && (error == Some(ReuseOfToken) <==> spent)
       && (error == Some(ExpiredToken) <==> !spent && t.expiresAt <= now)
       && (error == Some(MissingUser) <==> !spent && t.expiresAt > now && !userExists)
       && (error == None ==>
             && after.Keys == before.Keys + {newId}
             && after[newId] == Token(t.family, t.user, newHash, Some(id), now + ttl, None, None, None)
             && after[id] == t.(usedAt := Some(now), revokedAt := Some(now), reason := Some(Rotated))
             && forall k :: k in before && k != id ==> after[k] == before[k])
       && (error == Some(ReuseOfToken) ==> FamilyRevoked(before, after, t.family, ReuseDetected, now))
       && (error == Some(ExpiredToken) ==> after == before[id := t.(revokedAt := Some(now), reason := Some(Expired))])
       && (error == Some(MissingUser) ==> after == before)
  }

  lemma RotateIsPresented(tokens: Tokens, id: TokenId, newId: TokenId, newHash: string, userExists: bool, ttl: nat, now: Time)
    requires id in tokens && newId !in tokens
    ensures var (after, error) := Rotate(tokens, id, newId, newHash, userExists, ttl, now);
            Presented(tokens, after, error, id, newId, newHash, userExists, ttl, now)
  {
  }

  // ---------------------------------------------------------------- the service

  /** The service, with its table updated in place. */
  class TokenService {
    const ttl: nat
    var tokens: Tokens

    constructor (ttl: nat)
      ensures this.ttl == ttl && tokens == map[]
    {
      this.ttl := ttl;
      tokens := map[];
    }

    /** Ids, families and hashes are random, so they are new. */
    method IssueSession(id: TokenId, f: FamilyId, user: UserId, hash: string, now: Time)
      requires id !in tokens && NewFamily(tokens, f) && !Known(tokens, hash)
      modifies this`tokens
      ensures id in tokens && tokens - {id} == old(tokens) && IsChain(tokens, f, [id])
      ensures !Spent(tokens[id]) && tokens[id].user == user && tokens[id].hash == hash && tokens[id].expiresAt == now + ttl
      ensures UniqueHashes(old(tokens)) ==> UniqueHashes(tokens)
      ensures tokens == Issue(old(tokens), id, f, user, hash, now + ttl)
    {
      tokens := tokens[id := Token(f, user, hash, None, now + ttl, None, None, None)];
      assert LinkAt(tokens, [id], 0);
      assert forall x :: x in [id] <==> x == id;
    }

    method RotateRefreshToken(hash: string, newId: TokenId, newHash: string, userExists: bool, now: Time)
      returns (error: Option<TokenError>)
      requires newId !in tokens
      modifies this`tokens
      ensures error == Some(UnknownToken) <==> forall id :: id in old(tokens) ==> old(tokens)[id].hash != hash
      ensures error == Some(UnknownToken) ==> tokens == old(tokens)
      ensures error != Some(UnknownToken) ==>
                exists id :: id in old(tokens) && old(tokens)[id].hash == hash
                             && Presented(old(tokens), tokens, error, id, newId, newHash, userExists, ttl, now)
                             && (tokens, error) == Rotate(old(tokens), id, newId, newHash, userExists, ttl, now)
    {
      if !Known(tokens, hash) {
        return Some(UnknownToken);
      }
      var id :| id in tokens && tokens[id].hash == hash;
      ghost var before := tokens;
      var record := tokens[id];
      RotateIsPresented(tokens, id, newId, newHash, userExists, ttl, now);
      if record.usedAt != None || record.revokedAt != None {
        RevokeAll(record.family, ReuseDetected, now);
        return Some(ReuseOfToken);
      }
      if record.expiresAt <= now {
        record := record.(revokedAt := Some(now));
        tokens := tokens[id := record.(reason := Some(Expired))];
        return Some(ExpiredToken);
      }
      if !userExists {
        return Some(MissingUser);
      }
      record := record.(usedAt := Some(now));
      record := record.(revokedAt := Some(now));
      record := record.(reason := Some(Rotated));
      tokens := tokens[id := record];
      tokens := tokens[newId := Token(record.family, record.user, newHash, Some(id), now + ttl, None, None, None)];
      assert (tokens, None) == Rotate(before, id, newId, newHash, userExists, ttl, now);
      return None;
    }

    /** The UPDATE over a family, row by row. */
    method RevokeAll(f: FamilyId, reason: Reason, now: Time)
      modifies this`tokens
      ensures tokens == RevokeFamily(old(tokens), f, reason, now)
    {
      ghost var before := tokens;
      var todo := tokens.Keys;
      while todo != {}
        invariant todo <= before.Keys && tokens.Keys == before.Keys
        invariant forall id :: id in before ==>
                    tokens[id] == if id in todo then before[id] else RevokeFamily(before, f, reason, now)[id]
        decreases todo
      {
        var id :| id in todo;
        if tokens[id].family == f {
          tokens := tokens[id := tokens[id].(revokedAt := Some(now), reason := Some(reason))];
        }
        todo := todo - {id};
      }
      assert tokens == RevokeFamily(before, f, reason, now);
    }

    method Logout(hash: Option<string>, now: Time)
      modifies this`tokens
      ensures hash == None || (forall id :: id in old(tokens) ==> old(tokens)[id].hash != hash.value) ==> tokens == old(tokens)
      ensures hash.Some? && (exists id :: id in old(tokens) && old(tokens)[id].hash == hash.value) ==>
                exists id :: id in old(tokens) && old(tokens)[id].hash == hash.value && tokens == LogOut(old(tokens), id, now)
                             && FamilyRevoked(old(tokens), tokens, old(tokens)[id].family, LoggedOut, now)
    {
      if hash == None || !Known(tokens, hash.value) {
        return;
      }
      var id :| id in tokens && tokens[id].hash == hash.value;
      RevokeAll(tokens[id].family, LoggedOut, now);
    }
  }

  // ---------------------------------------------------------------- runs

  datatype System = System(tokens: Tokens, now: Time)

  const INITIAL := System(map[], 0)

  datatype Action =
    | Wait(elapsed: nat)
    | LogIn(id: TokenId, family: FamilyId, user: UserId, hash: string, ttl: nat)
    | Present(id: TokenId, newId: TokenId, newHash: string, userExists: bool, ttl: nat)
    | End(id: TokenId)

  /** A token is presented by its hash, which is unique, so the action names the row. Random values are new. */
  function Next(s: System, a: Action): System {
    match a
    case Wait(elapsed) => s.(now := s.now + elapsed)
    case LogIn(id, f, user, hash, ttl) =>
      if id in s.tokens || Known(s.tokens, hash) || !NewFamily(s.tokens, f) then s
      else s.(tokens := Issue(s.tokens, id, f, user, hash, s.now + ttl))
    case Present(id, newId, newHash, userExists, ttl) =>
      if id !in s.tokens || newId in s.tokens || Known(s.tokens, newHash) then s
      else s.(tokens := Rotate(s.tokens, id, newId, newHash, userExists, ttl, s.now).0)
    case End(id) => if id in s.tokens then s.(tokens := LogOut(s.tokens, id, s.now)) else s
  }

  function Perform(s: System, actions: seq<Action>): System {
    if actions == [] then s else Next(Perform(s, actions[..|actions| - 1]), actions[|actions| - 1])
  }

  ghost predicate HasChain(tokens: Tokens, f: FamilyId) {
    exists chain :: IsChain(tokens, f, chain)
  }

  ghost predicate FamiliesOk(tokens: Tokens) {
    UniqueHashes(tokens) && forall f :: HasChain(tokens, f)
  }

  lemma ChainOf(tokens: Tokens, f: FamilyId) returns (chain: seq<TokenId>)
    requires HasChain(tokens, f)
    ensures IsChain(tokens, f, chain)
  {
    chain :| IsChain(tokens, f, chain);
  }

  lemma ChainElsewhere(a: Tokens, b: Tokens, f: FamilyId)
    requires HasChain(a, f)
    requires forall id :: (id in a && a[id].family == f) || (id in b && b[id].family == f) ==> id in a && id in b && a[id] == b[id]
    ensures HasChain(b, f)
  {
    var chain := ChainOf(a, f);
    hide LinkOk;
    forall i | 0 <= i < |chain| ensures LinkAt(b, chain, i) { assert LinkAt(a, chain, i); }
    assert IsChain(b, f, chain);
  }

  lemma IssueKeeps(tokens: Tokens, id: TokenId, f: FamilyId, user: UserId, hash: string, expiresAt: Time)
    requires FamiliesOk(tokens) && id !in tokens && !Known(tokens, hash) && NewFamily(tokens, f)
    ensures FamiliesOk(Issue(tokens, id, f, user, hash, expiresAt))
  {
    var after := Issue(tokens, id, f, user, hash, expiresAt);
    assert UniqueHashes(after);
    forall g ensures HasChain(after, g) {
      if g == f {
        var root := [id];
        assert LinkAt(after, root, 0);
        assert forall x :: x in root <==> x == id;
        assert IsChain(after, f, root);
      } else {
        ChainElsewhere(tokens, after, g);
      }
    }
  }

  lemma RevokeKeeps(tokens: Tokens, f: FamilyId, reason: Reason, now: Time)
    requires FamiliesOk(tokens)
    ensures FamiliesOk(RevokeFamily(tokens, f, reason, now))
  {
    var after := RevokeFamily(tokens, f, reason, now);
    assert UniqueHashes(after);
    forall g ensures HasChain(after, g) {
      if g == f {
        var chain := ChainOf(tokens, f);
        forall i | 0 <= i < |chain| ensures LinkAt(after, chain, i) { assert LinkAt(tokens, chain, i); }
        assert IsChain(after, f, chain);
      } else {
        ChainElsewhere(tokens, after, g);
      }
    }
  }

  lemma ExpireKeeps(tokens: Tokens, id: TokenId, now: Time)
    requires FamiliesOk(tokens) && id in tokens
    ensures FamiliesOk(tokens[id := tokens[id].(revokedAt := Some(now), reason := Some(Expired))])
  {
    var after := tokens[id := tokens[id].(revokedAt := Some(now), reason := Some(Expired))];
    forall g ensures HasChain(after, g) {
      if g == tokens[id].family {
        var chain := ChainOf(tokens, g);
        forall i | 0 <= i < |chain| ensures LinkAt(after, chain, i) { assert LinkAt(tokens, chain, i); }
        assert IsChain(after, g, chain);
      } else {
        ChainElsewhere(tokens, after, g);
      }
    }
  }

  lemma RotatedChain(tokens: Tokens, id: TokenId, newId: TokenId, newHash: string, ttl: nat, now: Time)
    requires id in tokens && HasChain(tokens, tokens[id].family) && newId !in tokens
    requires !Spent(tokens[id]) && tokens[id].expiresAt > now
    ensures HasChain(Rotate(tokens, id, newId, newHash, true, ttl, now).0, tokens[id].family)
  {
    var f := tokens[id].family;
    var after := Rotate(tokens, id, newId, newHash, true, ttl, now).0;
    var chain := ChainOf(tokens, f);
    var i :| 0 <= i < |chain| && chain[i] == id;
    assert LinkAt(tokens, chain, i);
    assert i == |chain| - 1;
    var longer := chain + [newId];
    assert forall x :: x in longer <==> x in chain || x == newId;
    forall k | 0 <= k < |longer| ensures LinkAt(after, longer, k) {
      if k < |chain| { assert LinkAt(tokens, chain, k) && longer[k] == chain[k]; }
    }
    assert IsChain(after, f, longer);
  }

  /** Only the last token of a chain is not spent, and rotation appends to the chain. */
  lemma RotationKeeps(tokens: Tokens, id: TokenId, newId: TokenId, newHash: string, ttl: nat, now: Time)
    requires FamiliesOk(tokens) && id in tokens && newId !in tokens && !Known(tokens, newHash)
    requires !Spent(tokens[id]) && tokens[id].expiresAt > now
    ensures FamiliesOk(Rotate(tokens, id, newId, newHash, true, ttl, now).0)
  {
    var after := Rotate(tokens, id, newId, newHash, true, ttl, now).0;
    assert UniqueHashes(after);
    forall g ensures HasChain(after, g) {
      if g == tokens[id].family {
        RotatedChain(tokens, id, newId, newHash, ttl, now);
      } else {
        ChainElsewhere(tokens, after, g);
      }
    }
  }

  lemma NextKeeps(s: System, a: Action)
    requires FamiliesOk(s.tokens)
    ensures FamiliesOk(Next(s, a).tokens)
  {
    hide FamiliesOk, Known, NewFamily;
    match a
    case Wait(_) =>
    case LogIn(id, f, user, hash, ttl) =>
      if id !in s.tokens && !Known(s.tokens, hash) && NewFamily(s.tokens, f) { IssueKeeps(s.tokens, id, f, user, hash, s.now + ttl); }
    case End(id) => if id in s.tokens { RevokeKeeps(s.tokens, s.tokens[id].family, LoggedOut, s.now); }
    case Present(id, newId, newHash, userExists, ttl) =>
      if id in s.tokens && newId !in s.tokens && !Known(s.tokens, newHash) {
        if Spent(s.tokens[id]) {
          RevokeKeeps(s.tokens, s.tokens[id].family, ReuseDetected, s.now);
        } else if s.tokens[id].expiresAt <= s.now {
          ExpireKeeps(s.tokens, id, s.now);
        } else if userExists {
          RotationKeeps(s.tokens, id, newId, newHash, ttl, s.now);
        }
      }
  }

  lemma NothingIssued()
    ensures FamiliesOk(INITIAL.tokens)
  {
    forall f ensures HasChain(INITIAL.tokens, f) { assert IsChain(INITIAL.tokens, f, []); }
  }

  lemma {:induction false} PerformKeeps(s: System, actions: seq<Action>)
    requires FamiliesOk(s.tokens)
    ensures FamiliesOk(Perform(s, actions).tokens)
  {
    hide FamiliesOk, Next;
    if actions == [] {
    } else {
      PerformKeeps(s, actions[..|actions| - 1]);
      NextKeeps(Perform(s, actions[..|actions| - 1]), actions[|actions| - 1]);
    }
  }

  /** In every run, every family is a chain from one root. */
  lemma FamiliesAreChains(actions: seq<Action>, f: FamilyId) returns (chain: seq<TokenId>)
    ensures IsChain(Perform(INITIAL, actions).tokens, f, chain)
  {
    NothingIssued();
    PerformKeeps(INITIAL, actions);
    chain := ChainOf(Perform(INITIAL, actions).tokens, f);
  }

  /** So a family has at most one token that is not revoked, and no token was rotated twice. */
  lemma OneLiveToken(actions: seq<Action>, a: TokenId, b: TokenId)
    ensures var tokens := Perform(INITIAL, actions).tokens;
            a in tokens && b in tokens && tokens[a].family == tokens[b].family ==>
              && (tokens[a].revokedAt.None? && tokens[b].revokedAt.None? ==> a == b)
              && (tokens[a].parent == tokens[b].parent ==> a == b)
  {
    var tokens := Perform(INITIAL, actions).tokens;
    if a in tokens && b in tokens && tokens[a].family == tokens[b].family {
      var chain := FamiliesAreChains(actions, tokens[a].family);
      var i :| 0 <= i < |chain| && chain[i] == a;
      var k :| 0 <= k < |chain| && chain[k] == b;
      assert LinkAt(tokens, chain, i) && LinkAt(tokens, chain, k);
    }
  }

  // ---------------------------------------------------------------- dead families

  /** The family exists and every token of it is revoked. */
  ghost predicate Dead(tokens: Tokens, f: FamilyId) {
    !NewFamily(tokens, f) && forall id :: id in tokens && tokens[id].family == f ==> tokens[id].revokedAt.Some?
  }

  lemma NextStaysDead(s: System, a: Action, f: FamilyId)
    requires Dead(s.tokens, f)
    ensures Dead(Next(s, a).tokens, f)
  {
    var id :| id in s.tokens && s.tokens[id].family == f;
    assert id in Next(s, a).tokens && Next(s, a).tokens[id].family == f;
  }

  lemma {:induction false} StaysDead(s: System, actions: seq<Action>, f: FamilyId)
    requires Dead(s.tokens, f)
    ensures Dead(Perform(s, actions).tokens, f)
  {
    hide Dead, Next;
    if actions == [] {
    } else {
      StaysDead(s, actions[..|actions| - 1], f);
      NextStaysDead(Perform(s, actions[..|actions| - 1]), actions[|actions| - 1], f);
    }
  }

  /** After a spent token is presented, or after logout, the family never has a live token again. */
  lemma ReuseAndLogoutAreFinal(s: System, a: Action, after: seq<Action>)
    requires (a.End? || a.Present?) && a.id in s.tokens
    requires a.End? || (a.Present? && Spent(s.tokens[a.id]) && a.newId !in s.tokens && !Known(s.tokens, a.newHash))
    ensures Dead(Perform(Next(s, a), after).tokens, s.tokens[a.id].family)
  {
    var f := s.tokens[a.id].family;
    assert a.id in Next(s, a).tokens && Next(s, a).tokens[a.id].family == f;
    assert Dead(Next(s, a).tokens, f);
    StaysDead(Next(s, a), after, f);
  }

  // ---------------------------------------------------------------- live sessions

  /** A row keeps what it was issued with, and a spent one stays spent. */
  ghost predicate RowKept(a: Token, b: Token) {
    && (a.family, a.user, a.hash, a.parent, a.expiresAt) == (b.family, b.user, b.hash, b.parent, b.expiresAt)
    && (a.usedAt.Some? ==> b.usedAt.Some?) && (a.revokedAt.Some? ==> b.revokedAt.Some?)
  }

  ghost predicate RowsKept(a: Tokens, b: Tokens) {
    forall id :: id in a ==> id in b && RowKept(a[id], b[id])
  }

  lemma NextKeepsRows(s: System, a: Action)
    ensures RowsKept(s.tokens, Next(s, a).tokens)
  {
    hide Known, NewFamily;
  }

  lemma {:induction false} PerformKeepsRows(s: System, actions: seq<Action>)
    ensures RowsKept(s.tokens, Perform(s, actions).tokens)
  {
    hide Next;
    if actions == [] {
    } else {
      PerformKeepsRows(s, actions[..|actions| - 1]);
      NextKeepsRows(Perform(s, actions[..|actions| - 1]), actions[|actions| - 1]);
    }
  }

  /** The token that an action issued. */
  predicate Issues(s: System, a: Action, id: TokenId) {
    && id !in s.tokens && id in Next(s, a).tokens
    && ((a.LogIn? && id == a.id) || (a.Present? && id == a.newId))
  }

  lemma IssuedForTtl(s: System, a: Action, id: TokenId)
    requires Issues(s, a, id)
    ensures var t := Next(s, a).tokens[id]; t.expiresAt == s.now + a.ttl && t.usedAt == None && t.revokedAt == None
  {
  }

  /** Presented within its lifetime, while it is not spent and its user exists, a token always rotates, whatever else happened. */
  lemma IssuedTokenRotates(s: System, a: Action, id: TokenId, after: seq<Action>, newId: TokenId, newHash: string, ttl: nat)
    requires Issues(s, a, id)
    requires var s' := Perform(Next(s, a), after);
             && id in s'.tokens && s'.tokens[id].usedAt == None && s'.tokens[id].revokedAt == None
             && s'.now < s.now + a.ttl && newId !in s'.tokens && !Known(s'.tokens, newHash)
    ensures var s' := Perform(Next(s, a), after);
            var s'' := Next(s', Present(id, newId, newHash, true, ttl));
            var t := s'.tokens[id];
            && newId in s''.tokens && s''.tokens[newId] == Token(t.family, t.user, newHash, Some(id), s'.now + ttl, None, None, None)
            && s''.tokens[id].usedAt == Some(s'.now)
  {
    IssuedForTtl(s, a, id);
    PerformKeepsRows(Next(s, a), after);
    hide Perform, Known;
    var s' := Perform(Next(s, a), after);
    assert RowKept(Next(s, a).tokens[id], s'.tokens[id]);
  }

  /** The action presents or ends a session of this family. */
  predicate Touches(s: System, a: Action, f: FamilyId) {
    (a.Present? || a.End?) && a.id in s.tokens && s.tokens[a.id].family == f
  }

  /** No action of the run touches the family. */
  ghost predicate Undisturbed(s: System, actions: seq<Action>, f: FamilyId) {
    forall k :: 0 <= k < |actions| ==> !Touches(Perform(s, actions[..k]), actions[k], f)
  }

  lemma NextLeavesFamily(s: System, a: Action, id: TokenId)
    requires id in s.tokens && !Touches(s, a, s.tokens[id].family)
    ensures id in Next(s, a).tokens && Next(s, a).tokens[id] == s.tokens[id]
  {
    hide Known, NewFamily;
  }

  /** Only its own family can spend a token: until then it stays as it was issued. */
  lemma {:induction false} UndisturbedStaysLive(s: System, actions: seq<Action>, id: TokenId)
    requires id in s.tokens && Undisturbed(s, actions, s.tokens[id].family)
    ensures id in Perform(s, actions).tokens && Perform(s, actions).tokens[id] == s.tokens[id]
  {
    hide Next, Touches;
    if actions == [] {
    } else {
      var before := actions[..|actions| - 1];
      forall k | 0 <= k < |before| ensures !Touches(Perform(s, before[..k]), before[k], s.tokens[id].family) {
        assert before[..k] == actions[..k];
      }
      UndisturbedStaysLive(s, before, id);
      NextLeavesFamily(Perform(s, before), actions[|actions| - 1], id);
    }
  }

  /** So a session that is refreshed within each lifetime never ends by itself: the successor was issued in its turn. */
  lemma RefreshInTimeRotates(s: System, a: Action, id: TokenId, after: seq<Action>, newId: TokenId, newHash: string, ttl: nat)
    requires Issues(s, a, id) && Undisturbed(Next(s, a), after, Next(s, a).tokens[id].family)
    requires var s' := Perform(Next(s, a), after); s'.now < s.now + a.ttl && newId !in s'.tokens && !Known(s'.tokens, newHash)
    ensures var s' := Perform(Next(s, a), after);
            var next := Present(id, newId, newHash, true, ttl);
            && Issues(s', next, newId)
            && Next(s', next).tokens[newId].family == Next(s, a).tokens[id].family
            && Next(s', next).tokens[newId].user == Next(s, a).tokens[id].user
  {
    IssuedForTtl(s, a, id);
    UndisturbedStaysLive(Next(s, a), after, id);
    IssuedTokenRotates(s, a, id, after, newId, newHash, ttl);
    hide Perform, Known;
  }

  lemma {:induction false} TimePasses(s: System, actions: seq<Action>)
    ensures s.now <= Perform(s, actions).now
  {
    if actions == [] {
    } else {
      TimePasses(s, actions[..|actions| - 1]);
      hide Known, NewFamily, Rotate, Issue, LogOut;
    }
  }

  /** Once its lifetime is over a token never rotates again: presenting it issues nothing. */
  lemma ExpiredTokenNeverRotates(s: System, a: Action, id: TokenId, after: seq<Action>, newId: TokenId, newHash: string, userExists: bool, ttl: nat)
    requires Issues(s, a, id)
    requires newId !in Perform(Next(Next(s, a), Wait(a.ttl)), after).tokens
    ensures newId !in Next(Perform(Next(Next(s, a), Wait(a.ttl)), after), Present(id, newId, newHash, userExists, ttl)).tokens
  {
    IssuedForTtl(s, a, id);
    var waited := Next(Next(s, a), Wait(a.ttl));
    assert waited.now == s.now + a.ttl && waited.tokens == Next(s, a).tokens;
    PerformKeepsRows(waited, after);
    TimePasses(waited, after);
    hide Perform, Known;
    assert RowKept(waited.tokens[id], Perform(waited, after).tokens[id]);
  }
}
