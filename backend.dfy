/**
 * The backend's stored tables and the ledger as one object whose handler
 * methods update them in place (backend/authentication/views.py). Each
 * state-changing handler is proved to do exactly what the corresponding step
 * function of AuthViews says and keeps the stored-state invariant
 * AuthViews.Valid; the results handler only reads.
 */
module Backend {
  import opened Optional
  import opened Text
  import opened Models
  import opened Ledger
  import opened Serializers
  import opened AuthViews
  import opened AuthProperties

  class Server {
    var challenges: map<string, Challenge>
    var sessions: map<string, Session>
    var voters: VoterTable
    var elections: map<nat, Election>
    var ledger: Ledger
    const env: Env

    /** The current contents of the tables and the ledger. */
    function State(): Db
      reads this
    {
      Db(challenges, sessions, voters, elections, ledger)
    }

    /**
     * A backend with no challenges and no sessions yet, over voter and election
     * tables whose rows sit under their own keys, as the database's keys guarantee.
     */
    constructor (env: Env, elections: map<nat, Election>, voters: VoterTable, ledger: Ledger)
      requires VoterKeysConsistent(voters)
      requires forall id :: id in elections ==> elections[id].id == id
      ensures this.env == env
      ensures State() == Db(map[], map[], voters, elections, ledger)
      ensures Valid(State())
    {
      this.env := env;
      this.challenges := map[];
      this.sessions := map[];
      this.voters := voters;
      this.elections := elections;
      this.ledger := ledger;
    }

    /** `AuthChallenge.purge_expired`: deletes every challenge that expired before `now`. */
    method PurgeExpiredChallenges(now: Instant)
      modifies this`challenges
      ensures challenges == PurgeExpired(old(challenges), now)
    {
      challenges := map a | a in challenges && challenges[a].expiresAt >= now :: challenges[a];
    }

    /** `ChallengeView.post`; `token` is the fresh `secrets.token_hex(16)`. */
    method PostChallenge(address: Option<string>, now: Instant, token: string) returns (r: Response)
      requires Valid(State())
      modifies this
      ensures (r, State()) == ChallengeStep(old(State()), address, now, token)
      ensures Valid(State())
    {
      ChallengePreservesValid(State(), address, now, token);
      var addr := Strip(address.GetOr(""));
      if addr == [] {
        return Failure(400, "address required");
      }
      PurgeExpiredChallenges(now);
      var nonce := NoncePrefix + token;
      challenges := challenges[Lower(addr) := Challenge(nonce, now + ChallengeLifetime)];
      r := NonceIssued(nonce);
    }

    /** `VerifyView.post`; `sessionId` is the fresh `uuid4().hex`. */
    method PostVerify(req: VerifyRequest, now: Instant, sessionId: string, voterSaved: bool) returns (r: Response)
      requires Valid(State())
      modifies this
      ensures (r, State()) == VerifyStep(old(State()), req, now, env, sessionId, voterSaved)
      ensures Valid(State())
    {
      var pesel := Strip(req.pesel.GetOr(""));
      var code := Strip(req.code.GetOr(""));
      var address := Strip(req.address.GetOr(""));
      var signature := Strip(req.signature.GetOr(""));
      if pesel == [] || code == [] || req.electionId.None? || req.electionId.value == 0 || address == [] || signature == [] {
        return Failure(400, "Missing fields");
      }
      var electionId := req.electionId.value;
      var key := Lower(address);
      if key !in challenges {
        return Failure(403, "Challenge not found");
      }
      var ch := challenges[key];
      if ch.expiresAt < now {
        return Failure(403, "Challenge expired");
      }
      var signer := env.recover(ch.nonce, signature);
      if signer.None? {
        return ServerError;
      }
      if Lower(signer.value) != Lower(address) {
        return Failure(403, "Bad signature");
      }
      if (pesel, electionId) !in voters || voters[(pesel, electionId)].verificationCode != code {
        return Failure(403, "Invalid verification code");
      }
      var voter := voters[(pesel, electionId)];
      if sessionId in sessions {
        return ServerError;
      }
      var session := NewSession(sessionId, pesel, voter.email, electionId, address, now).(isVerified := true);
      sessions := sessions[sessionId := session];
      if voterSaved {
        voters := voters[(pesel, electionId) := voter.(isAuthenticated := true)];
      }
      challenges := challenges - {key};
      r := SessionIssued(sessionId, address, session.nextNonce, AdvertisedLifetimeSeconds);
      OpenSessionPreservesValid(old(State()), req, now, sessionId, voterSaved);
    }

    /** `CastVoteView.post` for the election in the request path. */
    method PostCastVote(electionId: nat, req: VoteRequest, now: Instant, io: LedgerIo, voterSaved: bool)
      returns (r: Response)
      requires Valid(State())
      modifies this
      ensures (r, State()) == CastVoteStep(old(State()), electionId, req, now, env, io, voterSaved)
      ensures Valid(State())
    {
      CastVotePreservesValid(State(), electionId, req, now, env, io, voterSaved);
      if req.sessionToken.None? || req.sessionToken.value == "" || req.choiceId.None?
         || req.signature.None? || req.signature.value == "" {
        return Failure(400, "Missing fields");
      }
      var token, choiceId, signature := req.sessionToken.value, req.choiceId.value, req.signature.value;
      if token !in sessions || sessions[token].electionId != electionId || !sessions[token].isVerified {
        return Failure(403, "Invalid session");
      }
      var session := sessions[token];
      if IsExpired(session, now) {
        return Failure(401, "Session expired");
      }
      if electionId !in elections {
        return Failure(404, "Election not found");
      }
      var election := elections[electionId];
      if !InVotingWindow(election, now) {
        return Failure(400, "Election not active");
      }
      if (session.pesel, electionId) !in voters {
        return Failure(404, "Voter not found");
      }
      var voter := voters[(session.pesel, electionId)];
      if voter.hasVoted {
        return Failure(409, "Already voted (local)");
      }
      var message := VoteMessage(electionId, choiceId, session.nextNonce);
      var signer := env.recover(message, signature);
      if signer.None? {
        return ServerError;
      }
      if Lower(signer.value) != Lower(session.publicAddress) {
        return Failure(403, "Bad signature");
      }
      var key := env.keccak(VoterKeyText(session.pesel, electionId, env.salt));
      if !io.hasVotedAnswered {
        return ServerError;
      }
      if HasVoted(ledger, key) {
        return Failure(409, "Already voted on-chain");
      }
      if io.txHash.None? {
        return ServerError;
      }
      ledger := MarkVotedAndCount(ledger, electionId, key, choiceId);
      session := session.(hasVoted := true, nextNonce := session.nextNonce + 1);
      sessions := sessions[token := session];
      if voterSaved {
        voters := voters[(session.pesel, electionId) := voter.(hasVoted := true)];
      }
      r := VoteRelayed(io.txHash.value, session.publicAddress, session.nextNonce);
    }

    /** `ElectionResultsView.get`, asking the ledger for one count per choice in choice order. */
    method GetResults(electionId: nat, now: Instant, failedCalls: set<nat>) returns (r: Response)
      ensures r == ResultsStep(State(), electionId, now, failedCalls)
    {
      if electionId !in elections {
        return Failure(404, "Election not found");
      }
      var election := elections[electionId];
      if election.end > now {
        return Failure(400, "Election not finished");
      }
      var results: seq<ResultRow> := [];
      var i := 0;
      while i < |election.choices|
        invariant 0 <= i <= |election.choices|
        invariant |results| == i
        invariant forall j :: 0 <= j < i ==> j !in failedCalls
        invariant forall j :: 0 <= j < i ==>
          results[j] == ResultRow(election.choices[j].id, election.choices[j].name,
                                  ChoiceCount(ledger, electionId, election.choices[j].id))
      {
        if i in failedCalls {
          return Failure(500, "Contract call failed");
        }
        var choice := election.choices[i];
        results := results + [ResultRow(choice.id, choice.name, ChoiceCount(ledger, electionId, choice.id))];
        i := i + 1;
      }
      r := ResultsReady(results);
      assert r == ResultsStep(State(), electionId, now, failedCalls);
    }
  }
}
