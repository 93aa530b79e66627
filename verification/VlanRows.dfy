/** The rows of the VLAN tagging tables that the rule parser accepts (internal/vlan/rule.go). */
module VlanRows {
  import opened KeyedRows

  const CLASSIC_SIZE: nat := 16
  const ENHANCED_SIZE: nat := 28

  predicate ValidFilter(priority: nat, vid: nat, tpid: nat) {
    && (priority <= 8 || priority == 14 || priority == 15)
    && vid <= 4096 && vid != 4095
    && (tpid == 0 || tpid >= 4)
  }

  predicate ValidTreatment(priority: nat, vid: nat, tpid: nat) {
    && (priority <= 10 || priority == 15)
    && vid <= 4097 && vid != 4095
    && tpid != 5
  }

  /** A filter word: four bits of priority, thirteen of VLAN identifier, three of TPID, twelve others. */
  predicate FilterWord(row: Row, at: nat)
    requires at + 4 <= |row|
  {
    ValidFilter(row[at] as nat / 16, row[at] as nat % 16 * 512 + row[at + 1] as nat * 2 + row[at + 2] as nat / 128,
                row[at + 2] as nat / 16 % 8)
  }

  /** A treatment word: twelve other bits, four of priority, thirteen of VLAN identifier, three of TPID. */
  predicate TreatmentWord(row: Row, at: nat)
    requires at + 4 <= |row|
  {
    ValidTreatment(row[at + 1] as nat % 16, row[at + 2] as nat * 32 + row[at + 3] as nat / 8, row[at + 3] as nat % 8)
  }

  /** The four words of a rule: the other bits of the outer filter are reserved, those of the inner filter
      hold the extended criteria and the Ethertype, and a treatment leaves all but the two bits with the
      number of tags to remove zero. */
  predicate RuleWords(row: Row, at: nat)
    requires at + 16 <= |row|
  {
    && FilterWord(row, at) && row[at + 2] % 16 == 0 && row[at + 3] == 0
    && FilterWord(row, at + 4) && row[at + 7] % 16 <= 5 && row[at + 6] as nat % 16 * 16 + row[at + 7] as nat / 16 <= 2
    && TreatmentWord(row, at + 8) && row[at + 8] % 64 == 0 && row[at + 9] / 16 == 0
    && TreatmentWord(row, at + 12) && row[at + 12] == 0 && row[at + 13] / 16 == 0
  }

  predicate ParsesClassic(row: Row) { |row| == CLASSIC_SIZE && RuleWords(row, 0) }

  /** The set control of a stored row is zero, direction 3 and the other header bits are reserved. */
  predicate ParsesEnhanced(row: Row) {
    && |row| == ENHANCED_SIZE
    && row[0] as nat / 64 == 0 && row[0] as nat / 16 % 4 != 3 && row[0] % 16 == 0 && row[1] == 0
    && AllBytes(row[20..28], 0)
    && RuleWords(row, 4)
  }

  /** A row whose treatment half is all ones asks for deletion. */
  predicate Deletes(row: Row) { |row| == CLASSIC_SIZE && AllBytes(row[8..], 0xff) }

  /** No rule reads as a deletion. */
  lemma DeletionIsNoRule(row: Row)
    ensures !(Deletes(row) && ParsesClassic(row))
  {
    if |row| == CLASSIC_SIZE {
      assert row[8..][0] == row[8];
    }
  }
}
