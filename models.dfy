/**
 * The stored records of backend/authentication/models.py: elections and their
 * choices, registered voters, voting sessions and authentication challenges,
 * with the field defaults and the two rules that live on the models
 * (session expiry and the purge of expired challenges).
 */
module Models {

  /** An instant, in microseconds since the epoch (the precision of a stored DateTimeField). */
  type Instant = int

  const Second: int := 1000000

  /** A session stays usable for 3600 seconds after its creation. */
  const SessionLifetime: int := 3600 * Second

  /** A challenge may be answered for ten minutes after it is issued. */
  const ChallengeLifetime: int := 10 * 60 * Second

  datatype Choice = Choice(id: nat, name: string)

  /** An election with its voting window and its choices in stored order. */
  datatype Election = Election(id: nat, name: string, start: Instant, end: Instant, choices: seq<Choice>)

  datatype Voter = Voter(
    pesel: string,
    electionId: nat,
    verificationCode: string,
    email: string,
    isAuthenticated: bool,
    hasVoted: bool)

  /** A VotingSession row; `publicAddress` is "" where the column is NULL. */
  datatype Session = Session(
    sessionId: string,
    pesel: string,
    email: string,
    electionId: nat,
    publicAddress: string,
    createdAt: Instant,
    isVerified: bool,
    hasVoted: bool,
    nextNonce: int)

  /** An AuthChallenge row, stored under its lower-cased address. */
  datatype Challenge = Challenge(nonce: string, expiresAt: Instant)

  /** The voter table: one row per (pesel, election id), the `unique_together` constraint. */
  type VoterTable = map<(string, nat), Voter>

  /** A voter row as created with only the required columns given. */
  function NewVoter(pesel: string, electionId: nat, code: string, email: string): (v: Voter)
    ensures v.pesel == pesel && v.electionId == electionId
    ensures v.verificationCode == code && v.email == email
    ensures !v.isAuthenticated && !v.hasVoted
  {
    Voter(pesel, electionId, code, email, false, false)
  }

  /** A session row as created with only the required columns given; `createdAt` is the creation instant. */
  function NewSession(id: string, pesel: string, email: string, electionId: nat, address: string, now: Instant): (s: Session)
    ensures s.sessionId == id && s.pesel == pesel && s.email == email
    ensures s.electionId == electionId && s.publicAddress == address && s.createdAt == now
    ensures !s.isVerified && !s.hasVoted && s.nextNonce == 1
  {
    Session(id, pesel, email, electionId, address, now, false, false, 1)
  }

  /** `VotingSession.is_expired`: strictly more than an hour has passed since creation. */
  predicate IsExpired(s: Session, now: Instant) {
    now - s.createdAt > SessionLifetime
  }

  /** The session is still usable at the very instant its hour runs out, and not one microsecond later. */
  lemma SessionExpiryBoundary(s: Session)
    ensures !IsExpired(s, s.createdAt + SessionLifetime)
    ensures IsExpired(s, s.createdAt + SessionLifetime + 1)
    ensures forall now :: IsExpired(s, now) <==> now > s.createdAt + 3600 * Second
  {
  }

  /** `AuthChallenge.purge_expired`: drops the challenges whose expiry lies strictly before `now`. */
  function PurgeExpired(challenges: map<string, Challenge>, now: Instant): (r: map<string, Challenge>)
    ensures forall a :: a in r <==> a in challenges && challenges[a].expiresAt >= now
    ensures forall a :: a in r ==> r[a] == challenges[a]
  {
    map a | a in challenges && challenges[a].expiresAt >= now :: challenges[a]
  }

  /** Every row is stored under its own (pesel, election id). */
  predicate VoterKeysConsistent(t: VoterTable) {
    forall k :: k in t ==> t[k].pesel == k.0 && t[k].electionId == k.1
  }

  /** No two rows share a (pesel, election id) pair. */
  predicate AtMostOneVoterPerPair(t: VoterTable) {
    forall k1, k2 :: k1 in t && k2 in t && t[k1].pesel == t[k2].pesel && t[k1].electionId == t[k2].electionId
      ==> k1 == k2
  }

  /** Keying the table by (pesel, election id) is what enforces the uniqueness constraint. */
  lemma ConsistentKeysGiveUniqueVoters(t: VoterTable)
    requires VoterKeysConsistent(t)
    ensures AtMostOneVoterPerPair(t)
  {
  }
}
