/**
 * The `voters_csv_import` management command
 * (backend/tools/management/commands/voters_csv_import.py): reads a voter
 * roll row by row and creates, keeps or updates the voter registered under
 * each (pesel, election). Rows are written one at a time, so a row that
 * raises leaves the rows before it written.
 */
module VotersCsvImport {
  import opened Optional
  import opened Text
  import opened Models
  import opened AuthViews
  import opened Backend

  /**
   * A cell as `csv.DictReader` hands it over: the header has no such column,
   * the column exists but this row is too short (the reader fills in None),
   * or a value.
   */
  datatype Cell = NoColumn | ShortRow | Value(text: string)

  datatype Row = Row(pesel: Cell, email: Cell)

  datatype ImportOutcome =
    | Imported
    | ElectionMissing   // CommandError: no election with that id
    | RowFailed(index: nat)   // the row at this index raised (KeyError or AttributeError)

  /** `string.ascii_uppercase + string.digits` */
  const CodeAlphabet: string := "ABCDEFGHIJKLMNOPQRSTUVWXYZ0123456789"

  predicate IsCodePicks(picks: seq<nat>) {
    |picks| == 10 && forall i :: 0 <= i < |picks| ==> picks[i] < |CodeAlphabet|
  }

  /** One set of draws for every row. */
  predicate AllCodePicks(picks: seq<seq<nat>>) {
    forall j :: 0 <= j < |picks| ==> IsCodePicks(picks[j])
  }

  predicate IsCode(code: string) {
    |code| == 10 && forall i :: 0 <= i < |code| ==> code[i] in CodeAlphabet
  }

  /** `generate_code`: ten characters drawn from A-Z and 0-9; `picks` are the random draws. */
  function GenerateCode(picks: seq<nat>): (code: string)
    requires IsCodePicks(picks)
    ensures IsCode(code) && code != []
  {
    seq(10, i requires 0 <= i < 10 => CodeAlphabet[picks[i]])
  }

  /** A row that raises before anything is written for it. */
  predicate Malformed(row: Row) {
    !row.pesel.Value? || row.email.ShortRow?
  }

  /** No row at an index in [from, to) raises. */
  predicate WellFormedBetween(rows: seq<Row>, from: nat, to: nat)
    requires to <= |rows|
  {
    forall j :: from <= j < to ==> !Malformed(rows[j])
  }

  /** `row["pesel"].strip()` */
  function RowPesel(row: Row): string
    requires !Malformed(row)
  {
    Strip(row.pesel.text)
  }

  /** `row.get("email", "").strip()` */
  function RowEmail(row: Row): string
    requires !Malformed(row)
  {
    if row.email.Value? then Strip(row.email.text) else ""
  }

  /**
   * One row: create the voter when (pesel, election) is new; otherwise leave it
   * alone, or with `updateExisting` take the row's email when it is non-empty
   * and the new code when it is non-empty.
   */
  function ApplyRow(t: VoterTable, electionId: nat, row: Row, code: string, updateExisting: bool): VoterTable
    requires !Malformed(row)
  {
    var key := (RowPesel(row), electionId);
    if key !in t then t[key := NewVoter(RowPesel(row), electionId, code, RowEmail(row))]
    else if !updateExisting then t
    else
      var v := t[key];
      t[key := v.(email := if RowEmail(row) != "" then RowEmail(row) else v.email,
                  verificationCode := if code != "" then code else v.verificationCode)]
  }

  /** The rows from index `i` on, each with the code drawn for it. */
  function ImportFrom(t: VoterTable, electionId: nat, rows: seq<Row>, picks: seq<seq<nat>>, updateExisting: bool, i: nat)
    : (ImportOutcome, VoterTable)
    requires |picks| == |rows| && i <= |rows|
    requires AllCodePicks(picks)
    decreases |rows| - i
  {
    if i == |rows| then (Imported, t)
    else if Malformed(rows[i]) then (RowFailed(i), t)
    else ImportFrom(ApplyRow(t, electionId, rows[i], GenerateCode(picks[i]), updateExisting),
                    electionId, rows, picks, updateExisting, i + 1)
  }

  /** The whole command: the election must exist before any row is read. */
  function ImportCommand(elections: map<nat, Election>, t: VoterTable, votingId: nat, rows: seq<Row>,
                         picks: seq<seq<nat>>, updateExisting: bool): (ImportOutcome, VoterTable)
    requires |picks| == |rows|
    requires AllCodePicks(picks)
  {
    if votingId !in elections then (ElectionMissing, t)
    else ImportFrom(t, votingId, rows, picks, updateExisting, 0)
  }

  /** `Command.handle`, writing into the server's voter table row by row. */
  method Handle(server: Server, votingId: nat, rows: seq<Row>, picks: seq<seq<nat>>, updateExisting: bool)
    returns (outcome: ImportOutcome)
    requires |picks| == |rows|
    requires AllCodePicks(picks)
    modifies server`voters
    ensures (outcome, server.voters) == ImportCommand(server.elections, old(server.voters), votingId, rows, picks, updateExisting)
  {
    if votingId !in server.elections {
      return ElectionMissing;
    }
    var i := 0;
    while i < |rows|
      invariant 0 <= i <= |rows|
      invariant ImportFrom(old(server.voters), votingId, rows, picks, updateExisting, 0)
             == ImportFrom(server.voters, votingId, rows, picks, updateExisting, i)
    {
      var row := rows[i];
      if !row.pesel.Value? || row.email.ShortRow? {
        assert ImportFrom(server.voters, votingId, rows, picks, updateExisting, i) == (RowFailed(i), server.voters);
        return RowFailed(i);
      }
      ghost var before := server.voters;
      var pesel := Strip(row.pesel.text);
      var email := if row.email.Value? then Strip(row.email.text) else "";
      var code := GenerateCode(picks[i]);
      var key := (pesel, votingId);
      if key !in server.voters {
        server.voters := server.voters[key := NewVoter(pesel, votingId, code, email)];
      } else if updateExisting {
        var voter := server.voters[key];
        voter := voter.(email := if email != "" then email else voter.email,
                        verificationCode := if code != "" then code else voter.verificationCode);
        server.voters := server.voters[key := voter];
      }
      assert server.voters == ApplyRow(before, votingId, row, code, updateExisting);
      i := i + 1;
    }
    outcome := Imported;
  }

  // ---------------------------------------------------------------- properties

  /** An unknown election id stops the command before any voter is written. */
  lemma UnknownElectionWritesNothing(elections: map<nat, Election>, t: VoterTable, votingId: nat, rows: seq<Row>,
                                     picks: seq<seq<nat>>, updateExisting: bool)
    requires |picks| == |rows| && AllCodePicks(picks)
    requires votingId !in elections
    ensures ImportCommand(elections, t, votingId, rows, picks, updateExisting) == (ElectionMissing, t)
  {
  }

  /**
   * The three rules for one row: a new (pesel, election) gets a voter with the
   * row's email, the fresh code and both flags false; without `updateExisting`
   * an existing voter is left exactly as it was; with it, the email changes only
   * to a non-empty one and the code always changes. No other row is touched.
   */
  lemma ApplyRowRules(t: VoterTable, electionId: nat, row: Row, picks: seq<nat>, updateExisting: bool)
    requires !Malformed(row) && IsCodePicks(picks)
    ensures var code := GenerateCode(picks);
      var t' := ApplyRow(t, electionId, row, code, updateExisting);
      var key := (RowPesel(row), electionId);
      && t'.Keys == t.Keys + {key}
      && (forall k :: k in t && k != key ==> t'[k] == t[k])
      && (key !in t ==> t'[key] == Voter(RowPesel(row), electionId, code, RowEmail(row), false, false))
      && (key in t && !updateExisting ==> t' == t)
      && (key in t && updateExisting ==>
            && t'[key].verificationCode == code
            && t'[key].email == (if RowEmail(row) == "" then t[key].email else RowEmail(row))
            && t'[key].pesel == t[key].pesel && t'[key].electionId == t[key].electionId
            && t'[key].isAuthenticated == t[key].isAuthenticated && t'[key].hasVoted == t[key].hasVoted)
  {
  }

  /** A missing email column gives the empty email; a short row or a missing pesel column raises. */
  lemma RowFieldDefaults(pesel: string)
    ensures RowEmail(Row(Value(pesel), NoColumn)) == ""
    ensures Malformed(Row(NoColumn, Value(pesel))) && Malformed(Row(Value(pesel), ShortRow))
  {
  }

  /** One row keeps every voter stored under its own (pesel, election). */
  lemma ApplyRowKeepsKeysConsistent(t: VoterTable, electionId: nat, row: Row, code: string, updateExisting: bool)
    requires !Malformed(row) && VoterKeysConsistent(t)
    ensures VoterKeysConsistent(ApplyRow(t, electionId, row, code, updateExisting))
  {
  }

  /**
   * The import keeps the backend's stored-state invariant: applied to the
   * server's tables, the table `Handle` leaves is again valid, since the import
   * only writes voters under their own keys.
   */
  lemma ImportKeepsValid(db: Db, votingId: nat, rows: seq<Row>, picks: seq<seq<nat>>, updateExisting: bool)
    requires |picks| == |rows| && AllCodePicks(picks)
    requires Valid(db)
    ensures Valid(db.(voters := ImportCommand(db.elections, db.voters, votingId, rows, picks, updateExisting).1))
  {
    ImportKeepsOneVoterPerPair(db.voters, votingId, rows, picks, updateExisting, 0);
  }

  /** However the rows go, every voter stays stored under its own (pesel, election): at most one per pair. */
  lemma {:induction false} ImportKeepsOneVoterPerPair(t: VoterTable, electionId: nat, rows: seq<Row>,
                                                      picks: seq<seq<nat>>, updateExisting: bool, i: nat)
    requires |picks| == |rows| && i <= |rows| && AllCodePicks(picks)
    requires VoterKeysConsistent(t)
    ensures VoterKeysConsistent(ImportFrom(t, electionId, rows, picks, updateExisting, i).1)
    ensures AtMostOneVoterPerPair(ImportFrom(t, electionId, rows, picks, updateExisting, i).1)
    decreases |rows| - i
  {
    if i < |rows| && !Malformed(rows[i]) {
      var t1 := ApplyRow(t, electionId, rows[i], GenerateCode(picks[i]), updateExisting);
      ApplyRowKeepsKeysConsistent(t, electionId, rows[i], GenerateCode(picks[i]), updateExisting);
      assert ImportFrom(t, electionId, rows, picks, updateExisting, i)
          == ImportFrom(t1, electionId, rows, picks, updateExisting, i + 1);
      ImportKeepsOneVoterPerPair(t1, electionId, rows, picks, updateExisting, i + 1);
    } else {
      ConsistentKeysGiveUniqueVoters(t);
    }
  }

  /** The import never creates, changes or removes a voter of another election. */
  lemma {:induction false} ImportTouchesOnlyItsElection(t: VoterTable, electionId: nat, rows: seq<Row>,
                                                        picks: seq<seq<nat>>, updateExisting: bool, i: nat)
    requires |picks| == |rows| && i <= |rows| && AllCodePicks(picks)
    ensures var t' := ImportFrom(t, electionId, rows, picks, updateExisting, i).1;
      forall k: (string, nat) :: k.1 != electionId ==> (k in t' <==> k in t) && (k in t ==> t'[k] == t[k])
    decreases |rows| - i
  {
    if i < |rows| && !Malformed(rows[i]) {
      ImportTouchesOnlyItsElection(ApplyRow(t, electionId, rows[i], GenerateCode(picks[i]), updateExisting),
                                   electionId, rows, picks, updateExisting, i + 1);
    }
  }

  /** Where the row loop stops: the first row from `i` on that raises, or the number of rows when none does. */
  function FirstBadRow(rows: seq<Row>, i: nat): (k: nat)
    requires i <= |rows|
    ensures i <= k <= |rows|
    ensures WellFormedBetween(rows, i, k)
    ensures k < |rows| ==> Malformed(rows[k])
    decreases |rows| - i
  {
    if i == |rows| then |rows|
    else if Malformed(rows[i]) then i
    else FirstBadRow(rows, i + 1)
  }

  /**
   * The command completes exactly when no row raises; otherwise it reports the
   * first row that raises, after writing every row before it: the table it
   * leaves is the one a clean import of just those earlier rows would leave.
   */
  lemma {:induction false} ImportStopsAtFirstBadRow(t: VoterTable, electionId: nat, rows: seq<Row>,
                                                    picks: seq<seq<nat>>, updateExisting: bool, i: nat)
    requires |picks| == |rows| && i <= |rows| && AllCodePicks(picks)
    ensures ImportFrom(t, electionId, rows, picks, updateExisting, i).0
         == if FirstBadRow(rows, i) == |rows| then Imported else RowFailed(FirstBadRow(rows, i))
    ensures var k := FirstBadRow(rows, i);
      && ImportFrom(t, electionId, rows[..k], picks[..k], updateExisting, i).0 == Imported
      && ImportFrom(t, electionId, rows, picks, updateExisting, i).1
         == ImportFrom(t, electionId, rows[..k], picks[..k], updateExisting, i).1
    decreases |rows| - i
  {
    if i < |rows| && !Malformed(rows[i]) {
      var t1 := ApplyRow(t, electionId, rows[i], GenerateCode(picks[i]), updateExisting);
      assert ImportFrom(t, electionId, rows, picks, updateExisting, i)
          == ImportFrom(t1, electionId, rows, picks, updateExisting, i + 1);
      ImportStopsAtFirstBadRow(t1, electionId, rows, picks, updateExisting, i + 1);
      ImportPrefixStep(t, electionId, rows, picks, updateExisting, i, FirstBadRow(rows, i));
    } else {
      ImportPrefixEnd(t, electionId, rows, picks, updateExisting, i);
    }
  }

  /** A clean import of the rows before the first bad one takes the same first step as the full import. */
  lemma ImportPrefixStep(t: VoterTable, electionId: nat, rows: seq<Row>, picks: seq<seq<nat>>, updateExisting: bool,
                         i: nat, k: nat)
    requires |picks| == |rows| && i < |rows| && AllCodePicks(picks)
    requires !Malformed(rows[i]) && k == FirstBadRow(rows, i)
    ensures k == FirstBadRow(rows, i + 1)
    ensures ImportFrom(t, electionId, rows[..k], picks[..k], updateExisting, i)
         == ImportFrom(ApplyRow(t, electionId, rows[i], GenerateCode(picks[i]), updateExisting),
                       electionId, rows[..k], picks[..k], updateExisting, i + 1)
  {
    assert rows[..k][i] == rows[i] && picks[..k][i] == picks[i];
  }

  /** Where the import stops at row `i`, the rows before it are exactly the prefix a clean import reads. */
  lemma ImportPrefixEnd(t: VoterTable, electionId: nat, rows: seq<Row>, picks: seq<seq<nat>>, updateExisting: bool,
                        i: nat)
    requires |picks| == |rows| && i <= |rows| && AllCodePicks(picks)
    requires i == |rows| || Malformed(rows[i])
    ensures FirstBadRow(rows, i) == i
    ensures ImportFrom(t, electionId, rows[..i], picks[..i], updateExisting, i) == (Imported, t)
    ensures ImportFrom(t, electionId, rows, picks, updateExisting, i).1 == t
  {
  }

  /**
   * A pesel listed twice without `updateExisting`: the voter keeps the email and
   * code of its first row.
   */
  lemma RepeatedPeselKeepsFirstRow(t: VoterTable, electionId: nat, r1: Row, r2: Row, picks: seq<seq<nat>>)
    requires !Malformed(r1) && !Malformed(r2) && RowPesel(r1) == RowPesel(r2)
    requires (RowPesel(r1), electionId) !in t
    requires |picks| == 2 && AllCodePicks(picks)
    ensures var t' := ImportFrom(t, electionId, [r1, r2], picks, false, 0).1;
      (RowPesel(r1), electionId) in t'
      && t'[(RowPesel(r1), electionId)] == NewVoter(RowPesel(r1), electionId, GenerateCode(picks[0]), RowEmail(r1))
  {
    var rows := [r1, r2];
    var t1 := ApplyRow(t, electionId, r1, GenerateCode(picks[0]), false);
    var t2 := ApplyRow(t1, electionId, r2, GenerateCode(picks[1]), false);
    ApplyRowRules(t, electionId, r1, picks[0], false);
    ApplyRowRules(t1, electionId, r2, picks[1], false);
    assert ImportFrom(t1, electionId, rows, picks, false, 1) == ImportFrom(t2, electionId, rows, picks, false, 2);
    assert ImportFrom(t, electionId, rows, picks, false, 0) == ImportFrom(t1, electionId, rows, picks, false, 1);
  }

  /**
   * A pesel listed twice with `updateExisting`: the voter ends with the second
   * row's code, and with its email unless that one is empty.
   */
  lemma RepeatedPeselTakesSecondRow(t: VoterTable, electionId: nat, r1: Row, r2: Row, picks: seq<seq<nat>>)
    requires !Malformed(r1) && !Malformed(r2) && RowPesel(r1) == RowPesel(r2)
    requires (RowPesel(r1), electionId) !in t
    requires |picks| == 2 && AllCodePicks(picks)
    ensures var t' := ImportFrom(t, electionId, [r1, r2], picks, true, 0).1;
      (RowPesel(r1), electionId) in t'
      && t'[(RowPesel(r1), electionId)].verificationCode == GenerateCode(picks[1])
      && t'[(RowPesel(r1), electionId)].email == (if RowEmail(r2) == "" then RowEmail(r1) else RowEmail(r2))
  {
    var rows := [r1, r2];
    var t1 := ApplyRow(t, electionId, r1, GenerateCode(picks[0]), true);
    var t2 := ApplyRow(t1, electionId, r2, GenerateCode(picks[1]), true);
    ApplyRowRules(t, electionId, r1, picks[0], true);
    ApplyRowRules(t1, electionId, r2, picks[1], true);
    assert ImportFrom(t1, electionId, rows, picks, true, 1) == ImportFrom(t2, electionId, rows, picks, true, 2);
    assert ImportFrom(t, electionId, rows, picks, true, 0) == ImportFrom(t1, electionId, rows, picks, true, 1);
  }
}
