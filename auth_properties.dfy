/**
 * What the challenge, verify and vote handlers promise: the order of their
 * checks, single-use challenges, the vote nonce that moves by exactly one on
 * each relayed vote and on nothing else, and the replay of a signed vote that
 * can never be relayed twice.
 */
module AuthProperties {
  import opened Optional
  import opened Text
  import opened Models
  import opened Ledger
  import opened Serializers
  import opened AuthViews

  // ---------------------------------------------------------------- challenges

  /** A missing or blank address is refused and nothing is stored. */
  lemma ChallengeRejectsBlankAddress(db: Db, address: Option<string>, now: Instant, token: string)
    requires AllSpace(address.GetOr(""))
    ensures ChallengeStep(db, address, now, token) == (Failure(400, "address required"), db)
  {
  }

  /**
   * A challenge request purges every expired challenge, then stores exactly one
   * challenge, under the lower-cased address, replacing any earlier one; the
   * nonce is the namespace tag followed by the random token and stays valid for
   * ten minutes. Nothing but the challenge table changes.
   */
  lemma ChallengeIssuesNonce(db: Db, address: Option<string>, now: Instant, token: string)
    requires !AllSpace(address.GetOr(""))
    ensures var (r, db') := ChallengeStep(db, address, now, token);
      var key := Lower(Field(address));
      && r.Status() == 200 && r.NonceIssued?
      && r.nonce[..|NoncePrefix|] == "evote:" && r.nonce[|NoncePrefix|..] == token
      && key in db'.challenges && db'.challenges[key] == Challenge(r.nonce, now + 10 * 60 * Second)
      && (forall a :: a != key ==> (a in db'.challenges <==> a in db.challenges && db.challenges[a].expiresAt >= now))
      && (forall a :: a != key && a in db'.challenges ==> db'.challenges[a] == db.challenges[a])
      && db'.sessions == db.sessions && db'.voters == db.voters
      && db'.elections == db.elections && db'.ledger == db.ledger
  {
  }

  /** Asking twice for the same address leaves only the second nonce answerable. */
  lemma ReissuedChallengeReplacesNonce(db: Db, address: Option<string>, now1: Instant, now2: Instant, t1: string, t2: string)
    requires !AllSpace(address.GetOr("")) && t1 != t2
    ensures var db1 := ChallengeStep(db, address, now1, t1).1;
      var db2 := ChallengeStep(db1, address, now2, t2).1;
      var key := Lower(Field(address));
      && db2.challenges[key].nonce == NoncePrefix + t2
      && db2.challenges[key].nonce != NoncePrefix + t1
  {
    assert (NoncePrefix + t1)[|NoncePrefix|..] == t1;
    assert (NoncePrefix + t2)[|NoncePrefix|..] == t2;
  }

  // ---------------------------------------------------------------- verify

  /**
   * The verify checks, in order: all five fields present (400), a challenge
   * for the lower-cased address (403), not expired (403), the challenge nonce
   * signed by the address (403; 500 where recovery raises), a voter with these
   * credentials (403). A request is answered 200 exactly when every check passes
   * and the new session id is unused; any other answer changes nothing.
   */
  lemma VerifyChecksInOrder(db: Db, req: VerifyRequest, now: Instant, env: Env, sessionId: string, voterSaved: bool)
    ensures var (r, db') := VerifyStep(db, req, now, env, sessionId, voterSaved);
      && (!VerifyFieldsPresent(req) ==> r == Failure(400, "Missing fields"))
      && (VerifyFieldsPresent(req) && !ChallengeFound(db, req) ==> r == Failure(403, "Challenge not found"))
      && (VerifyFieldsPresent(req) && ChallengeFound(db, req) && !ChallengeLive(db, req, now)
          ==> r == Failure(403, "Challenge expired"))
      && (VerifyFieldsPresent(req) && ChallengeFound(db, req) && ChallengeLive(db, req, now)
          && ChallengeSigner(db, req, env).Some? && !SignerIs(ChallengeSigner(db, req, env), Field(req.address))
          ==> r == Failure(403, "Bad signature"))
      && (VerifyFieldsPresent(req) && ChallengeFound(db, req) && ChallengeLive(db, req, now)
          && SignerIs(ChallengeSigner(db, req, env), Field(req.address)) && !CredentialsMatch(db, req)
          ==> r == Failure(403, "Invalid verification code"))
      && (r.Status() == 200 <==>
            VerifyFieldsPresent(req) && ChallengeFound(db, req) && ChallengeLive(db, req, now)
            && SignerIs(ChallengeSigner(db, req, env), Field(req.address)) && CredentialsMatch(db, req)
            && sessionId !in db.sessions)
      && (r.Status() != 200 ==> db' == db)
  {
  }

  /**
   * A successful verify creates exactly one session, verified, with vote nonce 1,
   * bound to the given pesel, the voter's email, the election and the address as
   * typed; it deletes the challenge, marks the voter authenticated when that
   * best-effort write succeeds, and changes nothing else.
   */
  lemma VerifySuccessEffects(db: Db, req: VerifyRequest, now: Instant, env: Env, sessionId: string, voterSaved: bool)
    requires VerifyStep(db, req, now, env, sessionId, voterSaved).0.Status() == 200
    ensures var (r, db') := VerifyStep(db, req, now, env, sessionId, voterSaved);
      var pesel, electionId := Field(req.pesel), req.electionId.value;
      && (pesel, electionId) in db.voters
      && r == SessionIssued(sessionId, Field(req.address), 1, AdvertisedLifetimeSeconds)
      && db'.sessions.Keys == db.sessions.Keys + {sessionId} && sessionId !in db.sessions
      && db'.sessions[sessionId] == Session(sessionId, pesel, db.voters[(pesel, electionId)].email, electionId,
                                            Field(req.address), now, true, false, 1)
      && (forall id :: id in db.sessions ==> db'.sessions[id] == db.sessions[id])
      && db'.challenges == db.challenges - {Lower(Field(req.address))}
      && db'.voters.Keys == db.voters.Keys
      && db'.voters[(pesel, electionId)]
         == db.voters[(pesel, electionId)].(isAuthenticated := voterSaved || db.voters[(pesel, electionId)].isAuthenticated)
      && (forall k :: k in db.voters && k != (pesel, electionId) ==> db'.voters[k] == db.voters[k])
      && db'.elections == db.elections && db'.ledger == db.ledger
  {
    VerifyChecksInOrder(db, req, now, env, sessionId, voterSaved);
    assert VerifyStep(db, req, now, env, sessionId, voterSaved) == OpenSession(db, req, now, sessionId, voterSaved);
  }

  /** A challenge answers one verify only: repeating a successful request finds no challenge. */
  lemma ChallengeIsSingleUse(db: Db, req: VerifyRequest, now: Instant, env: Env, id1: string, saved1: bool,
                             now2: Instant, id2: string, saved2: bool)
    requires VerifyStep(db, req, now, env, id1, saved1).0.Status() == 200
    ensures var db' := VerifyStep(db, req, now, env, id1, saved1).1;
      VerifyStep(db', req, now2, env, id2, saved2) == (Failure(403, "Challenge not found"), db')
  {
    VerifySuccessEffects(db, req, now, env, id1, saved1);
  }

  /** A request turned down for its credentials leaves the challenge in place: a corrected retry can still pass. */
  lemma RejectedCredentialsKeepChallenge(db: Db, req: VerifyRequest, now: Instant, env: Env, sessionId: string,
                                         voterSaved: bool, code: string)
    requires VerifyStep(db, req, now, env, sessionId, voterSaved).0 == Failure(403, "Invalid verification code")
    requires sessionId !in db.sessions
    requires Strip(code) != [] && ElectionIdGiven(req.electionId)
    requires (Field(req.pesel), req.electionId.value) in db.voters
    requires db.voters[(Field(req.pesel), req.electionId.value)].verificationCode == Strip(code)
    ensures VerifyStep(db, req, now, env, sessionId, voterSaved).1 == db
    ensures ChallengeFound(db, req)
    ensures VerifyStep(db, req.(code := Some(code)), now, env, sessionId, voterSaved).0.Status() == 200
  {
    var req' := req.(code := Some(code));
    VerifyChecksInOrder(db, req, now, env, sessionId, voterSaved);
    assert Field(req'.code) == Strip(code);
    assert req'.pesel == req.pesel && req'.address == req.address && req'.signature == req.signature;
    assert VerifyFieldsPresent(req');
    assert ChallengeKey(req') == ChallengeKey(req);
    assert ChallengeSigner(db, req', env) == ChallengeSigner(db, req, env);
    assert CredentialsMatch(db, req');
    VerifyChecksInOrder(db, req', now, env, sessionId, voterSaved);
  }

  /** A challenge is still accepted at the very instant it expires, and a purge at that instant keeps it. */
  lemma ChallengeUsableAtExpiryInstant(db: Db, req: VerifyRequest)
    requires ChallengeFound(db, req)
    ensures var now := db.challenges[ChallengeKey(req)].expiresAt;
      ChallengeLive(db, req, now) && ChallengeKey(req) in PurgeExpired(db.challenges, now)
      && !ChallengeLive(db, req, now + 1) && ChallengeKey(req) !in PurgeExpired(db.challenges, now + 1)
  {
  }

  /**
   * The verify response advertises a lifetime of 7200 seconds, but the session
   * it hands out is expired as soon as 3600 seconds and one microsecond have passed.
   */
  lemma AdvertisedLifetimeExceedsRealOne(db: Db, req: VerifyRequest, now: Instant, env: Env, sessionId: string,
                                         voterSaved: bool)
    requires VerifyStep(db, req, now, env, sessionId, voterSaved).0.Status() == 200
    ensures var (r, db') := VerifyStep(db, req, now, env, sessionId, voterSaved);
      var later := now + SessionLifetime + 1;
      && r.SessionIssued? && r.expiresInSeconds == 7200
      && later < now + r.expiresInSeconds * Second
      && IsExpired(db'.sessions[sessionId], later)
  {
    VerifySuccessEffects(db, req, now, env, sessionId, voterSaved);
  }

  // ---------------------------------------------------------------- cast vote

  /**
   * The vote checks, in order: fields (400), a verified session for this token
   * and election (403), not expired (401), the election exists (404) and is open,
   * both ends included (400), the voter exists (404) and has not voted locally
   * (409), the signature over the vote message with the session's current nonce
   * recovers to the session's address (403), the voter key is not spent on the
   * ledger (409). Only a request that passes them all and whose relay goes through
   * is answered 200; every other answer leaves sessions, voters and ledger alone.
   */
  lemma CastVoteChecksInOrder(db: Db, electionId: nat, req: VoteRequest, now: Instant, env: Env, io: LedgerIo,
                              voterSaved: bool)
    ensures var (r, db') := CastVoteStep(db, electionId, req, now, env, io, voterSaved);
      && (!VoteFieldsPresent(req) ==> r == Failure(400, "Missing fields"))
      && (VoteFieldsPresent(req) && !SessionFound(db, electionId, req) ==> r == Failure(403, "Invalid session"))
      && (VoteFieldsPresent(req) && SessionFound(db, electionId, req) ==>
            var session := SessionOf(db, electionId, req);
            && (IsExpired(session, now) ==> r == Failure(401, "Session expired"))
            && (!IsExpired(session, now) && electionId !in db.elections ==> r == Failure(404, "Election not found"))
            && (!IsExpired(session, now) && electionId in db.elections && !InVotingWindow(db.elections[electionId], now)
                ==> r == Failure(400, "Election not active"))
            && (!IsExpired(session, now) && electionId in db.elections && InVotingWindow(db.elections[electionId], now)
                ==> && ((session.pesel, electionId) !in db.voters ==> r == Failure(404, "Voter not found"))
                    && ((session.pesel, electionId) in db.voters && db.voters[(session.pesel, electionId)].hasVoted
                        ==> r == Failure(409, "Already voted (local)"))
                    && ((session.pesel, electionId) in db.voters && !db.voters[(session.pesel, electionId)].hasVoted
                        && VoteSigner(db, electionId, req, env).Some?
                        && !SignerIs(VoteSigner(db, electionId, req, env), session.publicAddress)
                        ==> r == Failure(403, "Bad signature"))
                    && ((session.pesel, electionId) in db.voters && !db.voters[(session.pesel, electionId)].hasVoted
                        && SignerIs(VoteSigner(db, electionId, req, env), session.publicAddress)
                        && io.hasVotedAnswered && HasVoted(db.ledger, VoterKeyOf(db, electionId, req, env))
                        ==> r == Failure(409, "Already voted on-chain"))))
      && (r.Status() == 200 <==> VotePasses(db, electionId, req, now, env, io))
      && (r.Status() != 200 ==> db' == db)
  {
  }

  /** Every check of the vote handler passes and the relay returns a transaction hash. */
  ghost predicate VotePasses(db: Db, electionId: nat, req: VoteRequest, now: Instant, env: Env, io: LedgerIo) {
    && VoteFieldsPresent(req)
    && SessionFound(db, electionId, req)
    && !IsExpired(SessionOf(db, electionId, req), now)
    && electionId in db.elections
    && InVotingWindow(db.elections[electionId], now)
    && (SessionOf(db, electionId, req).pesel, electionId) in db.voters
    && !db.voters[(SessionOf(db, electionId, req).pesel, electionId)].hasVoted
    && SignerIs(VoteSigner(db, electionId, req, env), SessionOf(db, electionId, req).publicAddress)
    && io.hasVotedAnswered
    && !HasVoted(db.ledger, VoterKeyOf(db, electionId, req, env))
    && io.txHash.Some?
  }

  /**
   * A relayed vote was signed by the session's address over the vote message
   * carrying the session's nonce; afterwards that session's nonce is one higher
   * and it is marked as having voted, the voter's key is spent and the choice has
   * one more vote, the voter row (not flagged before) is flagged when that
   * best-effort write succeeds, and challenges, elections, all other sessions,
   * voters and choice counts are untouched.
   */
  lemma CastVoteSuccessEffects(db: Db, electionId: nat, req: VoteRequest, now: Instant, env: Env, io: LedgerIo,
                               voterSaved: bool)
    requires CastVoteStep(db, electionId, req, now, env, io, voterSaved).0.Status() == 200
    ensures var (r, db') := CastVoteStep(db, electionId, req, now, env, io, voterSaved);
      var token := req.sessionToken.value;
      var session := db.sessions[token];
      var key := env.keccak(VoterKeyText(session.pesel, electionId, env.salt));
      && SignerIs(env.recover(VoteMessage(electionId, req.choiceId.value, session.nextNonce), req.signature.value),
                  session.publicAddress)
      && r == VoteRelayed(io.txHash.value, session.publicAddress, session.nextNonce + 1)
      && db'.sessions.Keys == db.sessions.Keys
      && db'.sessions[token] == session.(hasVoted := true, nextNonce := session.nextNonce + 1)
      && (forall id :: id in db.sessions && id != token ==> db'.sessions[id] == db.sessions[id])
      && key !in db.ledger.spent && db'.ledger.spent == db.ledger.spent + {key}
      && ChoiceCount(db'.ledger, electionId, req.choiceId.value) == ChoiceCount(db.ledger, electionId, req.choiceId.value) + 1
      && (forall e: nat, c :: (e, c) != (electionId, req.choiceId.value) ==>
            ChoiceCount(db'.ledger, e, c) == ChoiceCount(db.ledger, e, c))
      && db'.voters.Keys == db.voters.Keys
      && !db.voters[(session.pesel, electionId)].hasVoted
      && db'.voters[(session.pesel, electionId)] == db.voters[(session.pesel, electionId)].(hasVoted := voterSaved)
      && (forall k :: k in db.voters && k != (session.pesel, electionId) ==> db'.voters[k] == db.voters[k])
      && db'.challenges == db.challenges && db'.elections == db.elections
  {
  }

  /** The vote nonce of every session moves by exactly one on a relayed vote through it, and otherwise stays put. */
  lemma NonceAdvancesOnlyOnRelayedVote(db: Db, electionId: nat, req: VoteRequest, now: Instant, env: Env,
                                       io: LedgerIo, voterSaved: bool, id: string)
    requires id in db.sessions
    ensures var (r, db') := CastVoteStep(db, electionId, req, now, env, io, voterSaved);
      && id in db'.sessions
      && db'.sessions[id].nextNonce ==
           db.sessions[id].nextNonce + (if r.Status() == 200 && req.sessionToken == Some(id) then 1 else 0)
  {
  }

  /** A verify request never changes an existing session, so it never moves a vote nonce. */
  lemma VerifyKeepsExistingSessions(db: Db, req: VerifyRequest, now: Instant, env: Env, sessionId: string,
                                    voterSaved: bool, id: string)
    requires id in db.sessions
    ensures var db' := VerifyStep(db, req, now, env, sessionId, voterSaved).1;
      id in db'.sessions && db'.sessions[id] == db.sessions[id]
  {
    VerifyChecksInOrder(db, req, now, env, sessionId, voterSaved);
    if VerifyStep(db, req, now, env, sessionId, voterSaved).0.Status() == 200 {
      VerifySuccessEffects(db, req, now, env, sessionId, voterSaved);
    }
  }

  /**
   * A well-formed signature recovers to some address for every message, and to
   * the given address for at most one message: what signature recovery gives
   * (up to forgery) and the assumption under which a stale vote is refused.
   */
  ghost predicate BindsOneMessage(env: Env, signature: string, address: string) {
    && (forall m :: env.recover(m, signature).Some?)
    && (forall m1, m2 :: SignerIs(env.recover(m1, signature), address) && SignerIs(env.recover(m2, signature), address)
          ==> m1 == m2)
  }

  /** Vote messages that differ only in the nonce are different texts. */
  lemma VoteMessageDeterminesNonce(electionId: nat, choiceId: int, n1: int, n2: int)
    requires VoteMessage(electionId, choiceId, n1) == VoteMessage(electionId, choiceId, n2)
    ensures n1 == n2
  {
    var prefix := "vote:" + NatToString(electionId) + ":" + IntToString(choiceId) + ":";
    assert VoteMessage(electionId, choiceId, n1) == prefix + IntToString(n1);
    assert VoteMessage(electionId, choiceId, n2) == prefix + IntToString(n2);
    assert IntToString(n1) == (prefix + IntToString(n1))[|prefix|..];
    assert IntToString(n2) == (prefix + IntToString(n2))[|prefix|..];
    IntToStringInjective(n1, n2);
  }

  /**
   * A signature made over the vote message for any nonce other than the
   * session's current one is refused as a bad signature once the earlier checks pass.
   */
  lemma StaleNonceSignatureRejected(db: Db, electionId: nat, req: VoteRequest, now: Instant, env: Env,
                                    io: LedgerIo, voterSaved: bool, staleNonce: int)
    requires VoteFieldsPresent(req) && SessionFound(db, electionId, req)
    requires !IsExpired(SessionOf(db, electionId, req), now)
    requires electionId in db.elections && InVotingWindow(db.elections[electionId], now)
    requires (SessionOf(db, electionId, req).pesel, electionId) in db.voters
    requires !db.voters[(SessionOf(db, electionId, req).pesel, electionId)].hasVoted
    requires BindsOneMessage(env, req.signature.value, SessionOf(db, electionId, req).publicAddress)
    requires staleNonce != SessionOf(db, electionId, req).nextNonce
    requires SignerIs(env.recover(VoteMessage(electionId, req.choiceId.value, staleNonce), req.signature.value),
                      SessionOf(db, electionId, req).publicAddress)
    ensures CastVoteStep(db, electionId, req, now, env, io, voterSaved) == (Failure(403, "Bad signature"), db)
  {
    var session := SessionOf(db, electionId, req);
    var current := VoteMessage(electionId, req.choiceId.value, session.nextNonce);
    var stale := VoteMessage(electionId, req.choiceId.value, staleNonce);
    if SignerIs(env.recover(current, req.signature.value), session.publicAddress) {
      VoteMessageDeterminesNonce(electionId, req.choiceId.value, staleNonce, session.nextNonce);
    }
    assert env.recover(current, req.signature.value).Some?;
  }

  /**
   * Replaying a relayed vote request, at any later time and whatever the ledger
   * calls do, is never relayed again and changes nothing: the voter key it
   * spent stays spent.
   */
  lemma ReplayIsNeverRelayed(db: Db, electionId: nat, req: VoteRequest, now: Instant, env: Env, io: LedgerIo,
                             voterSaved: bool, now2: Instant, io2: LedgerIo, voterSaved2: bool)
    requires CastVoteStep(db, electionId, req, now, env, io, voterSaved).0.Status() == 200
    ensures var db' := CastVoteStep(db, electionId, req, now, env, io, voterSaved).1;
      && CastVoteStep(db', electionId, req, now2, env, io2, voterSaved2).0.Status() != 200
      && CastVoteStep(db', electionId, req, now2, env, io2, voterSaved2).1 == db'
  {
    var db' := CastVoteStep(db, electionId, req, now, env, io, voterSaved).1;
    CastVoteSuccessEffects(db, electionId, req, now, env, io, voterSaved);
    assert SessionFound(db', electionId, req);
    assert VoterKeyOf(db', electionId, req, env) == VoterKeyOf(db, electionId, req, env);
    CastVoteChecksInOrder(db', electionId, req, now2, env, io2, voterSaved2);
  }

  /**
   * The relayed transaction may still be unmined when the request comes again,
   * so the ledger shows neither the spent key nor the counted vote. Even then,
   * at any later time and whatever the ledger calls do, the replay is refused
   * and changes nothing: it stops at the local flag or at the signature, whose
   * message carried the nonce that has since moved on.
   */
  lemma ReplayRefusedWhileTransactionPending(db: Db, electionId: nat, req: VoteRequest, now: Instant, env: Env,
                                             io: LedgerIo, voterSaved: bool, now2: Instant, io2: LedgerIo,
                                             voterSaved2: bool)
    requires CastVoteStep(db, electionId, req, now, env, io, voterSaved).0.Status() == 200
    requires BindsOneMessage(env, req.signature.value, db.sessions[req.sessionToken.value].publicAddress)
    ensures var pending := CastVoteStep(db, electionId, req, now, env, io, voterSaved).1.(ledger := db.ledger);
      && CastVoteStep(pending, electionId, req, now2, env, io2, voterSaved2).0.Status() != 200
      && CastVoteStep(pending, electionId, req, now2, env, io2, voterSaved2).1 == pending
  {
    var pending := CastVoteStep(db, electionId, req, now, env, io, voterSaved).1.(ledger := db.ledger);
    CastVoteSuccessEffects(db, electionId, req, now, env, io, voterSaved);
    var before := db.sessions[req.sessionToken.value];
    assert SessionFound(pending, electionId, req);
    var session := SessionOf(pending, electionId, req);
    assert session == before.(hasVoted := true, nextNonce := before.nextNonce + 1);
    if !IsExpired(session, now2) && InVotingWindow(pending.elections[electionId], now2)
       && !pending.voters[(session.pesel, electionId)].hasVoted {
      StaleNonceSignatureRejected(pending, electionId, req, now2, env, io2, voterSaved2, before.nextNonce);
    }
  }

  /** When the voter row was flagged, an immediate replay stops at the local double-vote check. */
  lemma ReplayStopsAtLocalFlag(db: Db, electionId: nat, req: VoteRequest, now: Instant, env: Env, io: LedgerIo,
                               io2: LedgerIo, voterSaved2: bool)
    requires CastVoteStep(db, electionId, req, now, env, io, true).0.Status() == 200
    ensures var db' := CastVoteStep(db, electionId, req, now, env, io, true).1;
      CastVoteStep(db', electionId, req, now, env, io2, voterSaved2).0 == Failure(409, "Already voted (local)")
  {
    CastVoteSuccessEffects(db, electionId, req, now, env, io, true);
  }

  /**
   * When the best-effort voter write failed, an immediate replay of the same
   * signed request is refused as a bad signature, because the session's nonce
   * has moved on and the signature binds the old vote message only.
   */
  lemma ReplayStopsAtSignature(db: Db, electionId: nat, req: VoteRequest, now: Instant, env: Env, io: LedgerIo,
                               io2: LedgerIo, voterSaved2: bool)
    requires CastVoteStep(db, electionId, req, now, env, io, false).0.Status() == 200
    requires BindsOneMessage(env, req.signature.value, db.sessions[req.sessionToken.value].publicAddress)
    ensures var db' := CastVoteStep(db, electionId, req, now, env, io, false).1;
      CastVoteStep(db', electionId, req, now, env, io2, voterSaved2) == (Failure(403, "Bad signature"), db')
  {
    var db' := CastVoteStep(db, electionId, req, now, env, io, false).1;
    CastVoteSuccessEffects(db, electionId, req, now, env, io, false);
    var before := db.sessions[req.sessionToken.value];
    assert SessionOf(db', electionId, req) == before.(hasVoted := true, nextNonce := before.nextNonce + 1);
    StaleNonceSignatureRejected(db', electionId, req, now, env, io2, voterSaved2, before.nextNonce);
  }

  /** A relay that raises changes nothing, so the same signed request can be sent again and relayed. */
  lemma FailedRelayCanBeRetried(db: Db, electionId: nat, req: VoteRequest, now: Instant, env: Env, voterSaved: bool,
                                tx: string)
    requires var io := LedgerIo(true, None);
      CastVoteStep(db, electionId, req, now, env, io, voterSaved).0 == ServerError
      && VotePasses(db, electionId, req, now, env, io.(txHash := Some(tx)))
    ensures CastVoteStep(db, electionId, req, now, env, LedgerIo(true, None), voterSaved).1 == db
    ensures CastVoteStep(db, electionId, req, now, env, LedgerIo(true, Some(tx)), voterSaved).0.Status() == 200
  {
    CastVoteChecksInOrder(db, electionId, req, now, env, LedgerIo(true, Some(tx)), voterSaved);
  }

  /**
   * Results: an unknown election is 404, an unfinished one 400 (its end instant
   * counts as finished), a failing count call 500; otherwise one row per choice,
   * in choice order, carrying the ledger's count for it.
   */
  lemma ResultsStepRules(db: Db, electionId: nat, now: Instant, failedCalls: set<nat>)
    ensures var r := ResultsStep(db, electionId, now, failedCalls);
      && (electionId !in db.elections ==> r == Failure(404, "Election not found"))
      && (electionId in db.elections && db.elections[electionId].end > now ==> r == Failure(400, "Election not finished"))
      && (electionId in db.elections && db.elections[electionId].end <= now ==>
           var choices := db.elections[electionId].choices;
           && ((exists i :: i in failedCalls && i < |choices|) ==> r.Failure? && r.status == 500)
           && ((forall i :: i in failedCalls ==> i >= |choices|) ==>
                 && r.ResultsReady? && |r.results| == |choices|
                 && forall i :: 0 <= i < |choices| ==>
                      r.results[i] == ResultRow(choices[i].id, choices[i].name,
                                                ChoiceCount(db.ledger, electionId, choices[i].id))))
  {
  }

  /**
   * At the instant an election ends it still takes votes, and its results are
   * already served, with every choice's current count.
   */
  lemma VotingAndResultsOverlapAtEnd(db: Db, electionId: nat)
    requires electionId in db.elections
    requires db.elections[electionId].start <= db.elections[electionId].end
    ensures var e := db.elections[electionId];
      InVotingWindow(e, e.end) && GetStatus(e, e.end) == Active
    ensures var e := db.elections[electionId];
      var r := ResultsStep(db, electionId, e.end, {});
      && r.ResultsReady? && |r.results| == |e.choices|
      && forall i :: 0 <= i < |e.choices| ==> r.results[i].votes == ChoiceCount(db.ledger, electionId, e.choices[i].id)
  {
    ResultsStepRules(db, electionId, db.elections[electionId].end, {});
  }

  // ---------------------------------------------------------------- the stored-state invariant

  lemma ChallengePreservesValid(db: Db, address: Option<string>, now: Instant, token: string)
    requires Valid(db)
    ensures Valid(ChallengeStep(db, address, now, token).1)
  {
    LowerIdempotent(Field(address));
  }

  lemma VerifyPreservesValid(db: Db, req: VerifyRequest, now: Instant, env: Env, sessionId: string, voterSaved: bool)
    requires Valid(db)
    ensures Valid(VerifyStep(db, req, now, env, sessionId, voterSaved).1)
  {
    VerifyChecksInOrder(db, req, now, env, sessionId, voterSaved);
    if VerifyStep(db, req, now, env, sessionId, voterSaved).0.Status() == 200 {
      assert VerifyStep(db, req, now, env, sessionId, voterSaved) == OpenSession(db, req, now, sessionId, voterSaved);
      OpenSessionPreservesValid(db, req, now, sessionId, voterSaved);
    }
  }

  lemma OpenSessionPreservesValid(db: Db, req: VerifyRequest, now: Instant, sessionId: string, voterSaved: bool)
    requires Valid(db) && CredentialsMatch(db, req)
    ensures Valid(OpenSession(db, req, now, sessionId, voterSaved).1)
  {
    var db' := OpenSession(db, req, now, sessionId, voterSaved).1;
    assert db'.challenges.Keys <= db.challenges.Keys;
    assert db'.elections == db.elections;
  }

  lemma CastVotePreservesValid(db: Db, electionId: nat, req: VoteRequest, now: Instant, env: Env, io: LedgerIo,
                               voterSaved: bool)
    requires Valid(db)
    ensures Valid(CastVoteStep(db, electionId, req, now, env, io, voterSaved).1)
  {
  }
}
