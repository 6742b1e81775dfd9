/**
 * The `STATUS_CODES` table that both src/utilities/configuration.ts and
 * src/utilities/constants.ts build at load time from the runtime's
 * `http.STATUS_CODES` (code -> reason phrase): every entry becomes
 * `code -> [code, reason]`, the pair `writeHead` is spread with.
 */
module StatusCodes {
  import opened Wrappers

  /** `STATUS_CODES`: numeric code -> `[code, reason phrase]`. */
  type Table = map<int, (int, string)>

  /** The reason phrase the runtime entries give `code`; a later entry overrides an earlier one. */
  function ReasonIn(entries: seq<(int, string)>, code: int): (reason: Option<string>)
    ensures reason.Some? <==> exists i :: 0 <= i < |entries| && entries[i].0 == code
  {
    if entries == [] then None
    else if entries[|entries| - 1].0 == code then Some(entries[|entries| - 1].1)
    else ReasonIn(entries[..|entries| - 1], code)
  }

  /** Every entry of the table is `[c, reason]` under its own key `c`. */
  predicate WellFormed(table: Table)
  {
    forall c :: c in table ==> table[c].0 == c
  }

  /**
   * The `forEach` loop that fills `STATUS_CODES`: a key for every runtime code
   * and no other, each holding the code itself and the runtime's reason phrase.
   */
  method BuildStatusCodes(entries: seq<(int, string)>) returns (table: Table)
    ensures WellFormed(table)
    ensures forall c :: c in table <==> ReasonIn(entries, c).Some?
    ensures forall c :: c in table ==> table[c] == (c, ReasonIn(entries, c).value)
  {
    table := map[];
    for i := 0 to |entries|
      invariant WellFormed(table)
      invariant forall c :: c in table <==> ReasonIn(entries[..i], c).Some?
      invariant forall c :: c in table ==> table[c] == (c, ReasonIn(entries[..i], c).value)
    {
      var code := entries[i].0;
      var status := entries[i].1;
      table := table[code := (code, status)];
      assert entries[..i + 1][..i] == entries[..i];
    }
    assert entries[..|entries|] == entries;
  }

  /**
   * The runtime table has one entry per code, so the phrase stored for the
   * code of entry `i` is exactly that entry's phrase.
   */
  lemma {:induction false} DistinctCodesKeepTheirReason(entries: seq<(int, string)>, i: nat)
    requires forall j, k :: 0 <= j < k < |entries| ==> entries[j].0 != entries[k].0
    requires i < |entries|
    ensures ReasonIn(entries, entries[i].0) == Some(entries[i].1)
  {
    var n := |entries| - 1;
    if i < n {
      assert entries[n].0 != entries[i].0;
      var front := entries[..n];
      assert front[i] == entries[i];
      DistinctCodesKeepTheirReason(front, i);
    }
  }
}
