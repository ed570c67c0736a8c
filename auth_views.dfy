/**
 * The request handlers of backend/authentication/views.py that change
 * stored state, as functions from the state before a request to the
 * response and the state after it: ChallengeView.post, VerifyView.post
 * and CastVoteView.post. Every handler runs its checks in a fixed order,
 * answers the first one that fails with a fixed status, and writes only
 * once every check has passed.
 */
module AuthViews {
  import opened Optional
  import opened Text
  import opened Models
  import opened Ledger
  import opened Serializers

  /**
   * What the handlers call but this model does not implement:
   * `recover(text, signature)` is `Account.recover_message(encode_defunct(text=text), signature=signature)`,
   * None where that call raises; `keccak(text)` is the hex keccak-256 digest behind `voter_key`;
   * `salt` is the server's secret salt.
   */
  datatype Env = Env(recover: (string, string) -> Option<string>, keccak: string -> string, salt: string)

  /**
   * How the two ledger calls of a vote go: whether `hasVoted` answered at all,
   * and the transaction hash `markVotedAndCount` returned (None where it raised).
   */
  datatype LedgerIo = LedgerIo(hasVotedAnswered: bool, txHash: Option<string>)

  datatype ResultRow = ResultRow(choiceId: nat, name: string, votes: nat)

  /** A response: an error status with its detail, or one of the success bodies (status 200). */
  datatype Response =
    | Failure(status: int, detail: string)
    | NonceIssued(nonce: string)
    | SessionIssued(sessionToken: string, publicAddress: string, nextNonce: int, expiresInSeconds: int)
    | VoteRelayed(txHash: string, publicAddress: string, nextNonce: int)
    | ResultsReady(results: seq<ResultRow>)
  {
    function Status(): int {
      if Failure? then status else 200
    }
  }

  /** An exception that escapes a handler; the framework answers it with status 500. */
  const ServerError: Response := Failure(500, "Internal Server Error")

  /** The stored state the handlers read and write, and the ledger they consult. */
  datatype Db = Db(
    challenges: map<string, Challenge>,
    sessions: map<string, Session>,
    voters: VoterTable,
    elections: map<nat, Election>,
    ledger: Ledger)

  /**
   * What every handler keeps true of the stored state: challenge keys are
   * lower-cased, every row sits under its own key and vote nonces are positive.
   * The handlers keep it (the PreservesValid lemmas of AuthProperties and the
   * Server methods) without relying on it; it records what the database's keys
   * and defaults guarantee.
   */
  ghost predicate Valid(db: Db) {
    && (forall a :: a in db.challenges ==> Lower(a) == a)
    && (forall id :: id in db.sessions ==> db.sessions[id].sessionId == id && db.sessions[id].nextNonce >= 1)
    && VoterKeysConsistent(db.voters)
    && (forall id :: id in db.elections ==> db.elections[id].id == id)
  }

  const NoncePrefix: string := "evote:"

  /** The session lifetime the verify response advertises, in seconds. */
  const AdvertisedLifetimeSeconds: int := 7200

  /** `(request.data.get(name) or "").strip()` */
  function Field(raw: Option<string>): string {
    Strip(raw.GetOr(""))
  }

  /** Whether a recovered signer is the given address, compared lower-cased. */
  predicate SignerIs(signer: Option<string>, address: string) {
    signer.Some? && Lower(signer.value) == Lower(address)
  }

  // ---------------------------------------------------------------- ChallengeView

  /** POST /auth/challenge: purge expired challenges and store a fresh nonce under the lower-cased address. */
  function ChallengeStep(db: Db, address: Option<string>, now: Instant, token: string): (Response, Db) {
    var addr := Field(address);
    if addr == [] then (Failure(400, "address required"), db)
    else
      var nonce := NoncePrefix + token;
      var challenges := PurgeExpired(db.challenges, now)[Lower(addr) := Challenge(nonce, now + ChallengeLifetime)];
      (NonceIssued(nonce), db.(challenges := challenges))
  }

  // ---------------------------------------------------------------- VerifyView

  datatype VerifyRequest = VerifyRequest(
    pesel: Option<string>,
    code: Option<string>,
    electionId: Option<nat>,
    address: Option<string>,
    signature: Option<string>)

  /** `not election_id` holds for an absent id and for 0. */
  predicate ElectionIdGiven(id: Option<nat>) {
    id.Some? && id.value != 0
  }

  predicate VerifyFieldsPresent(req: VerifyRequest) {
    Field(req.pesel) != [] && Field(req.code) != [] && ElectionIdGiven(req.electionId)
    && Field(req.address) != [] && Field(req.signature) != []
  }

  function ChallengeKey(req: VerifyRequest): string {
    Lower(Field(req.address))
  }

  predicate ChallengeFound(db: Db, req: VerifyRequest) {
    ChallengeKey(req) in db.challenges
  }

  /** Not expired: the expiry instant itself still counts. */
  predicate ChallengeLive(db: Db, req: VerifyRequest, now: Instant)
    requires ChallengeFound(db, req)
  {
    !(db.challenges[ChallengeKey(req)].expiresAt < now)
  }

  function ChallengeSigner(db: Db, req: VerifyRequest, env: Env): Option<string>
    requires ChallengeFound(db, req)
  {
    env.recover(db.challenges[ChallengeKey(req)].nonce, Field(req.signature))
  }

  /** A voter registered for (pesel, election) whose verification code is exactly the one given. */
  predicate CredentialsMatch(db: Db, req: VerifyRequest) {
    && ElectionIdGiven(req.electionId)
    && (Field(req.pesel), req.electionId.value) in db.voters
    && db.voters[(Field(req.pesel), req.electionId.value)].verificationCode == Field(req.code)
  }

  /**
   * POST /auth/verify. `sessionId` is the fresh `uuid4().hex`; a clash with a
   * stored one violates the unique column and raises. `voterSaved` says whether
   * the best-effort write of the voter's `is_authenticated` flag went through.
   */
  function VerifyStep(db: Db, req: VerifyRequest, now: Instant, env: Env, sessionId: string, voterSaved: bool)
    : (Response, Db)
  {
    if !VerifyFieldsPresent(req) then (Failure(400, "Missing fields"), db)
    else if !ChallengeFound(db, req) then (Failure(403, "Challenge not found"), db)
    else if !ChallengeLive(db, req, now) then (Failure(403, "Challenge expired"), db)
    else if ChallengeSigner(db, req, env).None? then (ServerError, db)
    else if !SignerIs(ChallengeSigner(db, req, env), Field(req.address)) then (Failure(403, "Bad signature"), db)
    else if !CredentialsMatch(db, req) then (Failure(403, "Invalid verification code"), db)
    else if sessionId in db.sessions then (ServerError, db)
    else OpenSession(db, req, now, sessionId, voterSaved)
  }

  /**
   * The writes of an accepted verify request: the new verified session, the
   * voter's `is_authenticated` flag when that write goes through, and the
   * deletion of the challenge.
   */
  function OpenSession(db: Db, req: VerifyRequest, now: Instant, sessionId: string, voterSaved: bool): (Response, Db)
    requires CredentialsMatch(db, req)
  {
    var pesel, electionId, address := Field(req.pesel), req.electionId.value, Field(req.address);
    var voter := db.voters[(pesel, electionId)];
    var session := NewSession(sessionId, pesel, voter.email, electionId, address, now).(isVerified := true);
    var voters := if voterSaved then db.voters[(pesel, electionId) := voter.(isAuthenticated := true)] else db.voters;
    (SessionIssued(sessionId, address, session.nextNonce, AdvertisedLifetimeSeconds),
     db.(sessions := db.sessions[sessionId := session],
         voters := voters,
         challenges := db.challenges - {ChallengeKey(req)}))
  }

  // ---------------------------------------------------------------- CastVoteView

  datatype VoteRequest = VoteRequest(sessionToken: Option<string>, choiceId: Option<int>, signature: Option<string>)

  /** The text a voter signs to cast a vote: `f"vote:{election_id}:{choice_id}:{next_nonce}"`. */
  function VoteMessage(electionId: nat, choiceId: int, nonce: int): string {
    "vote:" + NatToString(electionId) + ":" + IntToString(choiceId) + ":" + IntToString(nonce)
  }

  /** Token and signature non-empty, choice given (a choice of 0 counts as given). */
  predicate VoteFieldsPresent(req: VoteRequest) {
    && req.sessionToken.Some? && req.sessionToken.value != ""
    && req.choiceId.Some?
    && req.signature.Some? && req.signature.value != ""
  }

  /** A stored, verified session for this token and this election. */
  predicate SessionFound(db: Db, electionId: nat, req: VoteRequest) {
    && req.sessionToken.Some?
    && req.sessionToken.value in db.sessions
    && db.sessions[req.sessionToken.value].electionId == electionId
    && db.sessions[req.sessionToken.value].isVerified
  }

  function SessionOf(db: Db, electionId: nat, req: VoteRequest): Session
    requires SessionFound(db, electionId, req)
  {
    db.sessions[req.sessionToken.value]
  }

  function VoterKeyOf(db: Db, electionId: nat, req: VoteRequest, env: Env): string
    requires SessionFound(db, electionId, req)
  {
    env.keccak(VoterKeyText(SessionOf(db, electionId, req).pesel, electionId, env.salt))
  }

  function VoteSigner(db: Db, electionId: nat, req: VoteRequest, env: Env): Option<string>
    requires SessionFound(db, electionId, req) && VoteFieldsPresent(req)
  {
    var session := SessionOf(db, electionId, req);
    env.recover(VoteMessage(electionId, req.choiceId.value, session.nextNonce), req.signature.value)
  }

  /**
   * POST /elections/{id}/vote. `io` says how the two ledger calls went and
   * `voterSaved` whether the best-effort write of the voter's `has_voted`
   * flag went through.
   */
  function CastVoteStep(db: Db, electionId: nat, req: VoteRequest, now: Instant, env: Env, io: LedgerIo, voterSaved: bool)
    : (Response, Db)
  {
    if !VoteFieldsPresent(req) then (Failure(400, "Missing fields"), db)
    else if !SessionFound(db, electionId, req) then (Failure(403, "Invalid session"), db)
    else
      var session := SessionOf(db, electionId, req);
      if IsExpired(session, now) then (Failure(401, "Session expired"), db)
      else if electionId !in db.elections then (Failure(404, "Election not found"), db)
      else if !InVotingWindow(db.elections[electionId], now) then (Failure(400, "Election not active"), db)
      else if (session.pesel, electionId) !in db.voters then (Failure(404, "Voter not found"), db)
      else
        var voter := db.voters[(session.pesel, electionId)];
        if voter.hasVoted then (Failure(409, "Already voted (local)"), db)
        else if VoteSigner(db, electionId, req, env).None? then (ServerError, db)
        else if !SignerIs(VoteSigner(db, electionId, req, env), session.publicAddress) then (Failure(403, "Bad signature"), db)
        else if !io.hasVotedAnswered then (ServerError, db)
        else if HasVoted(db.ledger, VoterKeyOf(db, electionId, req, env)) then (Failure(409, "Already voted on-chain"), db)
        else if io.txHash.None? then (ServerError, db)
        else
          var key := VoterKeyOf(db, electionId, req, env);
          var choiceId := req.choiceId.value;
          var session' := session.(hasVoted := true, nextNonce := session.nextNonce + 1);
          var voters := if voterSaved then db.voters[(session.pesel, electionId) := voter.(hasVoted := true)] else db.voters;
          (VoteRelayed(io.txHash.value, session.publicAddress, session'.nextNonce),
           db.(sessions := db.sessions[req.sessionToken.value := session'],
               voters := voters,
               ledger := MarkVotedAndCount(db.ledger, electionId, key, choiceId)))
  }

  // ---------------------------------------------------------------- ElectionResultsView

  /**
   * `ElectionResultsView.get` as a value. `failedCalls` holds the positions, in
   * choice order, at which the `getChoiceCount` call raises; the first such call
   * turns the whole answer into a 500 with no rows.
   */
  function ResultsStep(db: Db, electionId: nat, now: Instant, failedCalls: set<nat>): Response {
    if electionId !in db.elections then Failure(404, "Election not found")
    else
      var choices := db.elections[electionId].choices;
      if db.elections[electionId].end > now then Failure(400, "Election not finished")
      else if exists i :: i in failedCalls && i < |choices| then Failure(500, "Contract call failed")
      else ResultsReady(seq(|choices|, i requires 0 <= i < |choices| =>
                              ResultRow(choices[i].id, choices[i].name, ChoiceCount(db.ledger, electionId, choices[i].id))))
  }
}
