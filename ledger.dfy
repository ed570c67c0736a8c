/**
 * The on-chain election contract as the backend sees it through
 * backend/authentication/client.py: a set of spent voter keys and a vote
 * count per (election, choice). The transport (RPC, transaction building,
 * the relayer's own transaction counter) is not part of this model.
 */
module Ledger {
  import opened Text

  datatype Ledger = Ledger(spent: set<string>, counts: map<(nat, int), nat>)

  /** The text hashed into a voter key: `f"{pesel}:{election_id}:{salt}"`. */
  function VoterKeyText(pesel: string, electionId: nat, salt: string): string {
    pesel + ":" + NatToString(electionId) + ":" + salt
  }

  /** `hasVoted(key)` as the contract answers it. */
  predicate HasVoted(l: Ledger, key: string) {
    key in l.spent
  }

  /** `getChoiceCount(election_id, choice_id)`: zero for a pair never voted for. */
  function ChoiceCount(l: Ledger, electionId: nat, choiceId: int): nat {
    if (electionId, choiceId) in l.counts then l.counts[(electionId, choiceId)] else 0
  }

  /** `markVotedAndCount`: spends the key and adds one vote to the choice, leaving every other count alone. */
  function MarkVotedAndCount(l: Ledger, electionId: nat, key: string, choiceId: int): (r: Ledger)
    ensures r.spent == l.spent + {key}
    ensures ChoiceCount(r, electionId, choiceId) == ChoiceCount(l, electionId, choiceId) + 1
    ensures forall e: nat, c :: (e, c) != (electionId, choiceId) ==> ChoiceCount(r, e, c) == ChoiceCount(l, e, c)
  {
    Ledger(l.spent + {key}, l.counts[(electionId, choiceId) := ChoiceCount(l, electionId, choiceId) + 1])
  }
}
