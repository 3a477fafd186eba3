/** The run ledger: `src/replay/ledger.ts`. */
module Ledger {
  import opened Prelude
  import opened Capabilities
  import KeyText

  datatype Status = Success | BusinessAnswer | Escalation | Failed | PersonNeeded | InvalidRun | DryRunReport

  datatype LedgerEntry = LedgerEntry(capabilityId: string, key: string, status: Status)

  /** The text behind `idempotencyKeyFor(capability, inputs)`. */
  function KeyFor(cap: Capability, inputs: map<string, string>): string {
    var declared := seq(|cap.parameters|, i requires 0 <= i < |cap.parameters| => cap.parameters[i].name);
    KeyText.KeyText(cap.id, cap.keyFrom.Or(declared), inputs)
  }

  /** How many success rows a (capability, key) pair has. */
  function Wins(rows: seq<LedgerEntry>, id: string, key: string): nat {
    if rows == [] then 0
    else Wins(rows[..|rows| - 1], id, key) + (if rows[|rows| - 1] == LedgerEntry(id, key, Success) then 1 else 0)
  }

  lemma WinsOfAppend(rows: seq<LedgerEntry>, row: LedgerEntry, id: string, key: string)
    ensures Wins(rows + [row], id, key) == Wins(rows, id, key) + (if row == LedgerEntry(id, key, Success) then 1 else 0)
  {
    assert (rows + [row])[..|rows|] == rows;
  }

  /** `MemoryRunLedger.find`: is there a success row for the pair? Scans backwards, as the source does. */
  method Find(rows: seq<LedgerEntry>, id: string, key: string) returns (found: bool)
    ensures found <==> Wins(rows, id, key) > 0
  {
    var i := |rows|;
    assert rows[..i] == rows;
    while i > 0
      invariant 0 <= i <= |rows|
      invariant Wins(rows, id, key) == Wins(rows[..i], id, key)
    {
      assert rows[..i] == rows[..i - 1] + [rows[i - 1]];
      WinsOfAppend(rows[..i - 1], rows[i - 1], id, key);
      i := i - 1;
      if rows[i] == LedgerEntry(id, key, Success) {
        return true;
      }
    }
    return false;
  }

  /** Two ledgers hold the same number of success rows for every pair. */
  ghost predicate SameWins(a: seq<LedgerEntry>, b: seq<LedgerEntry>) {
    forall id, key :: Wins(a, id, key) == Wins(b, id, key)
  }

  /** A success row at index `i`, and again at `j`: the pair has at least two wins. */
  lemma {:induction false} WinsCountRows(rows: seq<LedgerEntry>, id: string, key: string)
    ensures Wins(rows, id, key) > 0 <==> LedgerEntry(id, key, Success) in rows
    ensures Wins(rows, id, key) <= 1 <==>
            forall i, j | 0 <= i < j < |rows| :: rows[i] == LedgerEntry(id, key, Success) ==> rows[j] != LedgerEntry(id, key, Success)
  {
    if rows != [] {
      var front, last := rows[..|rows| - 1], rows[|rows| - 1];
      var row := LedgerEntry(id, key, Success);
      WinsCountRows(front, id, key);
      assert rows == front + [last];
      assert forall i | 0 <= i < |front| :: rows[i] == front[i];
      if row in front && last == row {
        var i :| 0 <= i < |front| && front[i] == row;
        assert rows[i] == row && rows[|rows| - 1] == row;
      }
    }
  }
}
