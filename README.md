# E-voting backend core and browser wallet, modelled in Dafny

This project models the parts of the e-voting system that decide who may vote
and what gets counted:

- the challenge–response login: a nonce is issued for a wallet address; the
  signed nonce and the voter's PESEL and verification code are exchanged for a
  voting session;
- the vote relay: a session's signed vote is checked and forwarded to the
  on-chain contract, and the session's vote nonce then advances;
- the results endpoint;
- the election listing: the status label, the status filter and the date
  filters;
- the CSV voter-roll import command;
- the browser wallet's in-memory password cache and its keystore in
  `localStorage`.

Time is an integer number of microseconds. Each request sees one instant,
`now`. The stored tables are maps:
- challenges, keyed by lower-cased address;
- sessions, keyed by session id;
- voters, keyed by (PESEL, election id);
- elections, keyed by id.

The contract is a set of spent voter keys plus a vote count per
(election, choice).

Module layout:
- `Text`: Python's `strip`, `lower` and integer rendering.
- `Models`: rows, defaults, expiry, the purge of expired challenges and voter
  uniqueness.
- `Ledger`: the contract.
- `Serializers`: the status label.
- `ElectionList`: the listing query.
- `AuthViews`: each state-changing handler as a pure step function from the
  stored state to a response and the new state.
- `AuthProperties`: what those handlers guarantee.
- `Backend`: a `Server` class. Its handler methods update the tables in
  place, and each is proved to do exactly what its step function says.
- `VotersCsvImport`: the import command. Its row loop writes into the
  server's voter table.
- `WalletCache`: the wallet. A `WalletStore` class mirrors the module-level
  variables, and step functions specify each of its methods.

Foreign calls become parameters:
- signature recovery, keccak-256 and the server's salt form an `Env` value;
- how the two ledger calls of a vote go is a `LedgerIo` value;
- whether a best-effort voter write went through is a boolean;
- fresh tokens, session ids, random code draws and newly created wallets are
  arguments;
- the ethers keystore encryption and decryption form a `Crypto` value.

Where the code and its documentation differ, the model follows the code:
- A verify response advertises a 7200-second session, but sessions expire
  after 3600 seconds.
- An immediate replay of a relayed vote is refused as "Already voted (local)"
  when the voter row was flagged. It gets "Bad signature" only when that
  best-effort write failed. Either way it is never relayed twice, provided
  the session write after the relay succeeds.
- A verify rejected for its credentials keeps the challenge, so the voter can
  retry.
- Addresses are stored as typed but compared lower-cased.
- A choice id of 0 counts as given in a vote. An election id of 0 counts as
  missing in verify.
- At the instant an election ends it still takes votes, and its results are
  already published.
- The contract records a relayed vote only once its transaction is mined.
  Until then a replay is still refused, because the local flag or the moved
  nonce stops it before the ledger is asked.
- The "upcoming" filter and the "archive" label disagree for an election
  whose start lies after its end.

## Model

| member | source | states |
|---|---|---|
| Text.Strip | backend/authentication/views.py:93-97 | the result is a contiguous piece of the input with only whitespace cut off before and after it; it is empty exactly when the input is all whitespace, and otherwise neither starts nor ends with whitespace |
| Text.Lower | backend/authentication/views.py:78 | lower-casing keeps the length and maps every character independently |
| Text.LowerIdempotent | backend/authentication/views.py:103 | a lower-cased address is its own lower-case form, so challenge keys are normalised |
| Text.NatToString | backend/authentication/views.py:191 | an election id renders as a non-empty string of decimal digits |
| Text.DigitsValueOfNatToString | backend/authentication/views.py:191 | reading the rendered digits back gives the number again |
| Text.IntToStringInjective | backend/authentication/views.py:191 | distinct integers render as distinct texts |
| Models.NewVoter | backend/authentication/models.py:26-36 | a new voter has the given PESEL, election, code and email, and is neither authenticated nor has voted |
| Models.NewSession | backend/authentication/models.py:42-53 | a new session carries the given identity and creation instant, is unverified, has not voted and has vote nonce 1 |
| Models.IsExpired | backend/authentication/models.py:55-56 | the expiry test; its boundary is stated by Models.SessionExpiryBoundary |
| Models.SessionExpiryBoundary | backend/authentication/models.py:55-56 | a session is expired exactly when more than 3600 seconds have passed since its creation; at exactly 3600 it is not |
| Models.PurgeExpired | backend/authentication/models.py:68-70 | exactly the challenges expiring strictly before now are removed, and the rest are kept unchanged |
| Models.ConsistentKeysGiveUniqueVoters | backend/authentication/models.py:38-39 | a voter table keyed by (PESEL, election) holds at most one voter per pair |
| Ledger.VoterKeyText | backend/authentication/client.py:21-22 | the text "pesel:election:salt" whose keccak hash is the voter key; AuthProperties.CastVoteSuccessEffects states that exactly this key is spent |
| Ledger.MarkVotedAndCount | backend/authentication/client.py:29-32 | relaying a vote spends the voter key, adds one vote to the chosen (election, choice), and leaves every other count alone |
| Serializers.GetStatus | backend/authentication/serializers.py:13-19 | the label is "archive" iff the end has passed, "upcoming" iff the start is ahead and the end has not passed, and "active" iff now lies in the inclusive window |
| Serializers.ArchiveWinsOverUpcoming | backend/authentication/serializers.py:15-18 | an election that has ended is "archive" even if its start lies ahead |
| Serializers.ActiveAtBothEnds | backend/authentication/serializers.py:13-19 | an election is "active" at its start and end instants, "upcoming" just before and "archive" just after |
| ElectionList.SortByStartDesc | backend/authentication/views.py:36 | the ordering is a permutation of the elections, sorted by start date, latest first |
| ElectionList.ParseDate | backend/authentication/views.py:20-27 | an absent or empty parameter gives no date; otherwise the date is whatever the strict parser returns |
| ElectionList.SelectKeepsRows | backend/authentication/views.py:38-54 | filtering keeps each election that passes the filters, as often as it occurs, and drops every other |
| ElectionList.SelectKeepsOrder | backend/authentication/views.py:36-54 | filtering a sorted list leaves it sorted |
| ElectionList.GetQueryset | backend/authentication/views.py:35-55 | the listing is sorted latest start first and holds exactly the stored elections that pass the status and date filters, with multiplicity |
| ElectionList.ActiveAndArchiveFiltersMatchLabels | backend/authentication/views.py:39-42 | the "active" and "archive" filters keep exactly the elections whose label is that word |
| ElectionList.UpcomingFilterMatchesLabel | backend/authentication/views.py:43-44 | for an election whose start is not after its end, the "upcoming" filter matches the label |
| ElectionList.UpcomingFilterDisagreesOnInvertedWindow | backend/authentication/views.py:43-44 | an election whose start is after its end can be listed as "upcoming" while labelled "archive" |
| ElectionList.StatusKeywordDefaults | backend/authentication/views.py:38 | a missing or empty status means "all", which filters nothing, and every keyword is case-insensitive: it selects the same filter as its lower-cased form |
| ElectionList.DateToCoversTheDay | backend/authentication/views.py:50-54 | `date_to` keeps an election starting at 23:59:59 of that day and drops one starting a microsecond later |
| AuthViews.ChallengeStep | backend/authentication/views.py:70-84 | `ChallengeView.post` as a step function; specified by AuthProperties.ChallengeRejectsBlankAddress, ChallengeIssuesNonce and ChallengePreservesValid |
| AuthViews.VerifyStep | backend/authentication/views.py:92-148 | `VerifyView.post` as a step function; specified by AuthProperties.VerifyChecksInOrder, VerifySuccessEffects and VerifyPreservesValid |
| AuthViews.OpenSession | backend/authentication/views.py:122-148 | the writes and response of an accepted verify; specified by AuthProperties.VerifySuccessEffects and OpenSessionPreservesValid |
| AuthViews.VoteMessage | backend/authentication/views.py:191 | the signed vote text; AuthProperties.VoteMessageDeterminesNonce shows that it pins down the nonce |
| AuthViews.CastVoteStep | backend/authentication/views.py:156-221 | `CastVoteView.post` as a step function; specified by AuthProperties.CastVoteChecksInOrder, CastVoteSuccessEffects and CastVotePreservesValid |
| AuthViews.ResultsStep | backend/authentication/views.py:229-249 | `ElectionResultsView.get` as a function of the stored state; specified by AuthProperties.ResultsStepRules |
| AuthProperties.ChallengeRejectsBlankAddress | backend/authentication/views.py:71-73 | a missing or whitespace-only address gets 400 and changes nothing |
| AuthProperties.ChallengeIssuesNonce | backend/authentication/views.py:75-84 | expired challenges are purged; exactly one challenge is stored under the lower-cased address, replacing any earlier one; the nonce is "evote:" plus the token; it expires ten minutes later; nothing else changes |
| AuthProperties.ReissuedChallengeReplacesNonce | backend/authentication/views.py:77-83 | a second challenge for the same address replaces the first nonce |
| AuthProperties.VerifyChecksInOrder | backend/authentication/views.py:99-120 | the verify checks run in order (fields 400, challenge 403, expiry 403, signer 403, credentials 403); success iff all pass and the session id is unused; any failure changes nothing |
| AuthProperties.VerifySuccessEffects | backend/authentication/views.py:122-148 | a successful verify creates exactly one verified session with nonce 1 bound to the PESEL, voter email, election and address, deletes the challenge, leaves the voter row as it was except that it is flagged authenticated when that write succeeds, and changes no other session, voter, election or ledger entry |
| AuthProperties.ChallengeIsSingleUse | backend/authentication/views.py:138 | repeating a successful verify fails with "Challenge not found" |
| AuthProperties.RejectedCredentialsKeepChallenge | backend/authentication/views.py:115-120 | a wrong verification code leaves the challenge in place, so the corrected request then succeeds |
| AuthProperties.ChallengeUsableAtExpiryInstant | backend/authentication/views.py:106-107 | a challenge is accepted and survives a purge at its expiry instant, and is neither one microsecond later |
| AuthProperties.AdvertisedLifetimeExceedsRealOne | backend/authentication/views.py:145 | the response advertises 7200 seconds, but the session is expired once 3600 seconds and a microsecond have passed |
| AuthProperties.CastVoteChecksInOrder | backend/authentication/views.py:161-202 | the vote checks run in order (fields 400, session 403, expiry 401, election 404, window 400, voter 404, local flag 409, signature 403, on-chain 409); success iff all pass and the relay returns a hash; any failure changes nothing |
| AuthProperties.CastVoteSuccessEffects | backend/authentication/views.py:191-221 | a relayed vote was signed by the session's address over the message with the current nonce; the nonce goes up by one, the session is marked voted, the key is spent, the choice gains one vote, the (unflagged) voter row changes only in its flag, set when that write succeeds; every other session, voter, choice count, challenge and election is unchanged |
| AuthProperties.NonceAdvancesOnlyOnRelayedVote | backend/authentication/views.py:204-206 | a session's vote nonce rises by exactly one on a vote relayed through it and is otherwise unchanged, with the session write taken to succeed |
| AuthProperties.VerifyKeepsExistingSessions | backend/authentication/views.py:122-130 | verify never changes an existing session, so it never moves a vote nonce |
| AuthProperties.VoteMessageDeterminesNonce | backend/authentication/views.py:191 | two vote messages that agree on election and choice are equal only if their nonces are equal |
| AuthProperties.StaleNonceSignatureRejected | backend/authentication/views.py:191-196 | a signature over the vote message for any other nonce than the session's current one gets "Bad signature" and changes nothing |
| AuthProperties.ReplayIsNeverRelayed | backend/authentication/views.py:188-206 | resending a relayed vote request is never relayed again and changes nothing |
| AuthProperties.ReplayRefusedWhileTransactionPending | backend/authentication/views.py:188-206 | while the relayed transaction is still unmined and the ledger shows nothing of it, a replay at any later time is still refused and changes nothing, given that a signature recovers to its address for one message only |
| AuthProperties.ReplayStopsAtLocalFlag | backend/authentication/views.py:188-189 | when the voter row was flagged, an immediate replay gets "Already voted (local)" |
| AuthProperties.ReplayStopsAtSignature | backend/authentication/views.py:191-196 | when the voter row was not flagged, an immediate replay gets "Bad signature", because the nonce moved |
| AuthProperties.FailedRelayCanBeRetried | backend/authentication/views.py:202-206 | a relay that raises changes nothing, so the same request is relayed on retry |
| AuthProperties.ResultsStepRules | backend/authentication/views.py:229-249 | unknown election 404; unfinished election 400, its end instant counting as finished; a failing count call 500; otherwise one row per choice in choice order, with the ledger's count |
| AuthProperties.VotingAndResultsOverlapAtEnd | backend/authentication/views.py:179-249 | at an election's end instant, votes are accepted and the results endpoint already answers with every choice's current count |
| AuthProperties.ChallengePreservesValid | backend/authentication/views.py:70-84 | issuing a challenge keeps every stored invariant |
| AuthProperties.VerifyPreservesValid | backend/authentication/views.py:92-148 | verify keeps every stored invariant |
| AuthProperties.OpenSessionPreservesValid | backend/authentication/views.py:122-138 | the writes of an accepted verify keep every stored invariant |
| AuthProperties.CastVotePreservesValid | backend/authentication/views.py:156-221 | casting a vote keeps every stored invariant, including one voter per (PESEL, election) and positive nonces |
| Backend.Server.PurgeExpiredChallenges | backend/authentication/models.py:68-70 | the challenge table becomes its purge at now |
| Backend.Server.PostChallenge | backend/authentication/views.py:70-84 | the in-place handler leaves the response and tables that the challenge step function specifies, and keeps the stored invariant |
| Backend.Server.PostVerify | backend/authentication/views.py:92-148 | the in-place handler leaves the response and tables that the verify step function specifies, and keeps the stored invariant |
| Backend.Server.PostCastVote | backend/authentication/views.py:156-221 | the in-place handler leaves the response and tables that the vote step function specifies, and keeps the stored invariant |
| Backend.Server.GetResults | backend/authentication/views.py:229-249 | the loop over the choices returns exactly the response the results step function gives |
| VotersCsvImport.GenerateCode | backend/tools/management/commands/voters_csv_import.py:64-65 | a code is ten characters from A-Z and 0-9, so never empty |
| VotersCsvImport.ApplyRow | backend/tools/management/commands/voters_csv_import.py:35-55 | one row's `get_or_create` and optional update; specified by VotersCsvImport.ApplyRowRules |
| VotersCsvImport.ImportCommand | backend/tools/management/commands/voters_csv_import.py:19-62 | the whole command on the voter table; specified by VotersCsvImport.UnknownElectionWritesNothing, ImportStopsAtFirstBadRow, ImportKeepsOneVoterPerPair and ImportTouchesOnlyItsElection |
| VotersCsvImport.Handle | backend/tools/management/commands/voters_csv_import.py:19-62 | the row loop leaves the outcome and voter table that the import specification gives |
| VotersCsvImport.UnknownElectionWritesNothing | backend/tools/management/commands/voters_csv_import.py:23-26 | an unknown election id stops the command before any voter is written |
| VotersCsvImport.ApplyRowRules | backend/tools/management/commands/voters_csv_import.py:31-55 | a new pair gets a fresh unflagged voter; an existing voter is kept as is, or with the update flag takes the new code and any non-empty email; no other row changes |
| VotersCsvImport.RowFieldDefaults | backend/tools/management/commands/voters_csv_import.py:31-32 | a missing email column means an empty email; a missing PESEL column or a short row raises |
| VotersCsvImport.ApplyRowKeepsKeysConsistent | backend/tools/management/commands/voters_csv_import.py:35-55 | one row keeps every voter stored under its own (PESEL, election) |
| VotersCsvImport.ImportKeepsOneVoterPerPair | backend/tools/management/commands/voters_csv_import.py:35-42 | after any import there is still at most one voter per (PESEL, election) |
| VotersCsvImport.ImportKeepsValid | backend/tools/management/commands/voters_csv_import.py:19-62 | the import keeps the backend's stored invariant |
| VotersCsvImport.ImportTouchesOnlyItsElection | backend/tools/management/commands/voters_csv_import.py:35-55 | voters of other elections are neither created, changed nor removed |
| VotersCsvImport.FirstBadRow | backend/tools/management/commands/voters_csv_import.py:30-32 | the index where the row loop stops is that of the first row that raises, every row before it is well formed, and it is the number of rows when no row raises |
| VotersCsvImport.ImportStopsAtFirstBadRow | backend/tools/management/commands/voters_csv_import.py:30-35 | the import completes iff no row raises, and otherwise reports the first row that raises; the table it leaves is the one a clean import of the rows before that row leaves |
| VotersCsvImport.RepeatedPeselKeepsFirstRow | backend/tools/management/commands/voters_csv_import.py:35-62 | without the update flag, a PESEL listed twice keeps its first row's email and code |
| VotersCsvImport.RepeatedPeselTakesSecondRow | backend/tools/management/commands/voters_csv_import.py:49-55 | with the update flag, a PESEL listed twice ends with the second row's code, and with its email unless that one is empty |
| WalletCache.PasswordStep | frontend/src/utils/wallet.ts:12-18 | `defaultPasswordGetter` as a function of the cache and the prompt's answer; specified by WalletCache.CachedPasswordSkipsPrompt and PromptAnswerRules |
| WalletCache.EnsureWalletStep | frontend/src/utils/wallet.ts:23-48 | `ensureWallet` as a step function; specified by WalletCache.ExistingKeystoreIsNeverReplaced, WrongPasswordClearsCache, MissingKeystoreIsCreated and StorageHoldsOnlyEncryptedKeystore |
| WalletCache.ClearWalletSessionStep | frontend/src/utils/wallet.ts:73-75 | `clearWalletSession` as a step function; specified by WalletCache.ClearRules |
| WalletCache.ClearWalletStep | frontend/src/utils/wallet.ts:77-82 | `clearWallet` as a step function; specified by WalletCache.ClearRules |
| WalletCache.ResetWalletStep | frontend/src/utils/wallet.ts:84-87 | `resetWalletForNewElection` as a step function; specified by WalletCache.ResetCreatesFreshKeystore |
| WalletCache.WalletStore.constructor | frontend/src/utils/wallet.ts:4-5 | a page load starts with no cached password and the stored keystore as it was |
| WalletCache.WalletStore.DefaultPasswordGetter | frontend/src/utils/wallet.ts:12-18 | the in-place getter leaves the result and cache that the password step function specifies |
| WalletCache.WalletStore.EnsureWallet | frontend/src/utils/wallet.ts:23-48 | the in-place method leaves the result, cache and storage that the ensure-wallet step function specifies |
| WalletCache.WalletStore.ClearWalletSession | frontend/src/utils/wallet.ts:73-75 | only the cached password is dropped |
| WalletCache.WalletStore.ClearWallet | frontend/src/utils/wallet.ts:77-82 | the cached password and the keystore entry are dropped |
| WalletCache.WalletStore.ResetWalletForNewElection | frontend/src/utils/wallet.ts:84-87 | clearing then ensuring with the default getter gives the reset step function's result and state |
| WalletCache.CachedPasswordSkipsPrompt | frontend/src/utils/wallet.ts:13 | a cached password is returned whatever the prompt would answer |
| WalletCache.ValidCacheIsNeverReprompted | frontend/src/utils/wallet.ts:13 | under the cache invariant, any cached password is returned without prompting |
| WalletCache.PromptAnswerRules | frontend/src/utils/wallet.ts:14-17 | with nothing cached, an empty or cancelled prompt rejects with "Password is required" and leaves the cache alone; any other answer is cached and returned |
| WalletCache.ExistingKeystoreIsNeverReplaced | frontend/src/utils/wallet.ts:28-41 | with a keystore stored, storage is not written and the wallet returned is what the keystore decrypts to |
| WalletCache.WrongPasswordClearsCache | frontend/src/utils/wallet.ts:37-40 | a password that fails to decrypt clears the cache and rejects with "You entered wrong wallet password" |
| WalletCache.MissingKeystoreIsCreated | frontend/src/utils/wallet.ts:43-47 | with no keystore, the new wallet is stored encrypted under the password; without a password nothing is stored |
| WalletCache.StorageHoldsOnlyEncryptedKeystore | frontend/src/utils/wallet.ts:5-47 | only the keystore entry is ever written, and only with the new wallet encrypted under some password |
| WalletCache.ClearRules | frontend/src/utils/wallet.ts:73-82 | clearing the session keeps the keystore; clearing the wallet removes the keystore entry and the password, and nothing else |
| WalletCache.ResetCreatesFreshKeystore | frontend/src/utils/wallet.ts:84-87 | a reset always prompts: an answer leaves the fresh wallet's keystore and caches the answer; no answer leaves neither |
| WalletCache.OperationsPreserveValid | frontend/src/utils/wallet.ts:13-17 | no operation ever caches the empty password |
| WalletCache.CachedPasswordOpensKeystore | frontend/src/utils/wallet.ts:23-48 | after a successful default-getter call, the cached password decrypts the stored keystore to the returned wallet |
| WalletCache.SecondEnsureReusesWallet | frontend/src/utils/wallet.ts:12-36 | a second call in the same page session returns the same wallet without prompting and changes nothing |

## Left out

- AuthViews.Valid, the stored-state invariant, is kept by the three state-changing handlers of Backend.Server and by the import as VotersCsvImport.ImportKeepsValid states; VotersCsvImport.Handle itself does not restate it.
- The stored tables are maps, and one request runs to completion at a time. The database's transactions and concurrent requests are not modelled. In particular, two concurrent votes could both pass the checks, and nothing here claims otherwise.
- Signature recovery (EIP-191 `recover_message`), keccak-256, the secret salt, `secrets.token_hex`, `uuid4` and `random.choices` are parameters. The replay lemmas about signatures rest on the stated hypothesis that a signature recovers to its address for at most one message.
- The contract transport in backend/authentication/client.py is not part of this model: RPC, transaction building, the relayer's transaction counter and receipts. A later on-chain revert is not modelled.
- AuthViews.CastVoteStep: every database write other than the two best-effort voter saves is taken to succeed. The session save after a relayed vote (backend/authentication/views.py:204-206) has no `try` around it. If it raised, the answer would be 500 after the vote was already relayed, with the nonce unmoved and neither flag set. The same signed request would then pass every local check and, while the first transaction is unmined, be relayed a second time. That failure is not modelled. AuthViews.VerifyStep likewise takes the session creation and `ch.delete()` (backend/authentication/views.py:122-138) to succeed.
- AuthProperties.ReplayIsNeverRelayed: it takes a relayed vote as recorded on the ledger at once, although `mark_voted_and_count` returns after `send_raw_transaction` without waiting for the transaction to be mined (backend/authentication/client.py:54-55). AuthProperties.ReplayRefusedWhileTransactionPending covers the window before mining, under the one-message signature hypothesis.
- The 500 detail of a failing count call carries the exception text in the source. The model keeps only the fixed prefix.
- `choice_id` is a JSON integer here. String or boolean values, and an `int()` conversion that raises, are not modelled.
- `election_id` in a verify request is a natural number or absent. Other JSON types are not modelled.
- ElectionList.ParseDate: the strict `%Y-%m-%d` parse and its time-zone handling are a parameter `parser`. The 23:59:59 offset ignores days that are not 86400 seconds long (daylight-saving changes).
- Text.Lower: lower-cases ASCII letters only, because Python's Unicode case mapping is not modelled. Addresses are hexadecimal.
- The CSV reader itself is not modelled: file opening, encoding and quoting. The command's progress messages and the 11-character PESEL and 50-character column limits are also left out.
- VotersCsvImport.GenerateCode: the random draws are an argument, so randomness and code collisions are not modelled.
- WalletCache.WalletStore.EnsureWallet: a getter passed in by the caller is given by its outcome only. The model assumes it does not itself change the cache or storage.
- The wallet functions are taken to run one at a time, each to completion. In the browser `ensureWallet` pauses at `await pwGetter()`, `await Wallet.fromEncryptedJson(...)` and `await wallet.encrypt(...)`. Two overlapping calls on empty storage could then each create a wallet, with the later `setItem` overwriting the earlier keystore. A `clearWallet()` during a pending create could be undone by that create's write. Neither interleaving is modelled.
- The ethers calls are parameters: `Wallet.createRandom`, `encrypt` and `fromEncryptedJson`. `localStorage` exceptions (quota, disabled storage) are not modelled, nor is the swallowed exception in `clearWallet`.
- `getAddress` and `signMessage` in frontend/src/utils/wallet.ts are thin wrappers that call `ensureWallet` and then foreign signing. They are not modelled separately.
- Mail, URL routing, the admin site, the detail endpoint, the serializers' field lists, the printing management commands and the scripts are outside the modelled core.
