/** SQL Server operator and warning names, mapped to the plan representation. */
module OperatorMap {
  import opened Wrappers
  import opened PlanIr
  import Text

  const PHYSICAL_OP_MAP: map<string, OperatorType> := map[
    "Table Scan" := TableScan,
    "Index Seek" := IndexSeek,
    "Clustered Index Seek" := IndexSeek,
    "Index Scan" := IndexScan,
    "Clustered Index Scan" := IndexScan,
    "Nested Loops" := JoinNestedLoop,
    "Merge Join" := JoinMerge,
    "Sort" := Sort,
    "Stream Aggregate" := Aggregate
  ]

  const LOOKUP_CAPABLE_PHYSICAL_OPS := {"Clustered Index Seek", "Index Seek", "RID Lookup"}

  const HASH_MATCH_LOGICAL_OP_MAP: map<string, OperatorType> := map[
    "Inner Join" := JoinHash,
    "Left Outer Join" := JoinHash,
    "Right Outer Join" := JoinHash,
    "Full Outer Join" := JoinHash,
    "Left Semi Join" := JoinHash,
    "Left Anti Semi Join" := JoinHash,
    "Aggregate" := Aggregate,
    "Partial Aggregate" := Aggregate,
    "Distinct" := Aggregate
  ]

  const HASH_JOIN_LOGICAL_OPS := {
    "Inner Join", "Left Outer Join", "Right Outer Join", "Full Outer Join", "Left Semi Join", "Left Anti Semi Join"
  }

  const WARNING_TAG_MAP: map<string, WarningType> := map[
    "SpillToTempDb" := TempdbSpill,
    "NoJoinPredicate" := NoJoinPredicate,
    "ColumnsWithNoStatistics" := ColumnWithNoStats,
    "PlanAffectingConvert" := ImplicitConversion,
    "MemoryGrantWarning" := MemoryGrantExcessive
  ]

  function WarningOf(tag: string): WarningType {
    if tag in WARNING_TAG_MAP then WARNING_TAG_MAP[tag] else OtherWarning
  }

  function MapOperatorType(physicalOp: string, logicalOp: string, isLookup: bool): OperatorType {
    if isLookup && physicalOp in LOOKUP_CAPABLE_PHYSICAL_OPS then BookmarkLookup
    else if physicalOp == "Hash Match" then
      if logicalOp in HASH_MATCH_LOGICAL_OP_MAP then HASH_MATCH_LOGICAL_OP_MAP[logicalOp] else Other
    else if physicalOp in PHYSICAL_OP_MAP then PHYSICAL_OP_MAP[physicalOp]
    else Other
  }

  function MapAccessType(physicalOp: string, isLookup: bool): Option<AccessType> {
    if isLookup then Some(LookupAccess)
    else if Text.Contains(physicalOp, "Seek") then Some(Seek)
    else if physicalOp == "Table Scan" then Some(FullScan)
    else if Text.Contains(physicalOp, "Scan") then Some(Scan)
    else None
  }

  function MapJoinType(physicalOp: string, logicalOp: string): Option<JoinType> {
    if physicalOp == "Nested Loops" then Some(NestedLoop)
    else if physicalOp == "Merge Join" then Some(MergeJoin)
    else if physicalOp == "Hash Match" && logicalOp in HASH_JOIN_LOGICAL_OPS then Some(Hash)
    else None
  }

  lemma WarningTagMeaning(tag: string)
    ensures WarningOf(tag)
         == if tag == "SpillToTempDb" then TempdbSpill
            else if tag == "NoJoinPredicate" then NoJoinPredicate
            else if tag == "ColumnsWithNoStatistics" then ColumnWithNoStats
            else if tag == "PlanAffectingConvert" then ImplicitConversion
            else if tag == "MemoryGrantWarning" then MemoryGrantExcessive
            else OtherWarning
  {
  }

  lemma ScanAccessMeaning(physicalOp: string, isLookup: bool)
    ensures MapAccessType(physicalOp, isLookup) in {Some(Scan), Some(FullScan)}
       <==> !isLookup && Text.Contains(physicalOp, "Scan") && !Text.Contains(physicalOp, "Seek")
  {
    NamesOfScansAndSeeks();
    assert Text.OccursAt("Table Scan", "Scan", 6);
  }

  /** A scan's operator type, read off its name. */
  lemma ScanTypeMeaning(physicalOp: string, logicalOp: string)
    requires Text.Contains(physicalOp, "Scan") && !Text.Contains(physicalOp, "Seek")
    ensures MapOperatorType(physicalOp, logicalOp, false)
         == if physicalOp == "Table Scan" then TableScan
            else if physicalOp in {"Index Scan", "Clustered Index Scan"} then IndexScan
            else Other
  {
    hide Text.Contains;
    ScanNamesOnly(physicalOp);
  }

  lemma ScanNamesOnly(physicalOp: string)
    requires Text.Contains(physicalOp, "Scan") && !Text.Contains(physicalOp, "Seek")
    ensures physicalOp !in {"Hash Match", "Nested Loops", "Merge Join", "Sort", "Stream Aggregate"}
    ensures physicalOp !in {"Index Seek", "Clustered Index Seek"}
  {
    NamesOfScansAndSeeks();
    Text.ContainsChars("Hash Match", "Scan", 3);
    Text.ContainsChars("Nested Loops", "Scan", 3);
    Text.ContainsChars("Merge Join", "Scan", 0);
    Text.ContainsChars("Sort", "Scan", 3);
    Text.ContainsChars("Stream Aggregate", "Scan", 3);
  }

  lemma JoinClassesAgree(physicalOp: string, logicalOp: string, isLookup: bool)
    ensures var kind, join := MapOperatorType(physicalOp, logicalOp, isLookup), MapJoinType(physicalOp, logicalOp);
      (kind == JoinNestedLoop <==> join == Some(NestedLoop))
      && (kind == JoinMerge <==> join == Some(MergeJoin))
      && (kind == JoinHash <==> join == Some(Hash))
  {
  }

  lemma LookupTypeMeaning(physicalOp: string, logicalOp: string, isLookup: bool)
    ensures MapOperatorType(physicalOp, logicalOp, isLookup) == BookmarkLookup
       <==> isLookup && physicalOp in {"Clustered Index Seek", "Index Seek", "RID Lookup"}
  {
  }

  lemma NamesOfScansAndSeeks()
    ensures Text.Contains("Index Seek", "Seek") && Text.Contains("Clustered Index Seek", "Seek")
    ensures Text.Contains("Index Scan", "Scan") && Text.Contains("Clustered Index Scan", "Scan")
    ensures !Text.Contains("Table Scan", "Seek")
    ensures !Text.Contains("Index Scan", "Seek") && !Text.Contains("Clustered Index Scan", "Seek")
  {
    assert Text.OccursAt("Index Seek", "Seek", 6) && Text.OccursAt("Clustered Index Seek", "Seek", 16);
    assert Text.OccursAt("Index Scan", "Scan", 6) && Text.OccursAt("Clustered Index Scan", "Scan", 16);
    Text.ContainsChars("Table Scan", "Seek", 3);
    Text.ContainsChars("Index Scan", "Seek", 3);
    Text.ContainsChars("Clustered Index Scan", "Seek", 3);
  }

  /** How an operator's type and its access path, computed from the same names by separate tables, agree. */
  lemma AccessClassesAgree(physicalOp: string, logicalOp: string, isLookup: bool)
    ensures var kind, access := MapOperatorType(physicalOp, logicalOp, isLookup), MapAccessType(physicalOp, isLookup);
      (access == Some(LookupAccess) <==> isLookup)
      && (access == Some(FullScan) <==> kind == TableScan && !isLookup)
      && (kind == IndexSeek ==> access == Some(Seek))
      && (kind == IndexScan && !isLookup ==> access == Some(Scan))
      && (kind == BookmarkLookup ==> access == Some(LookupAccess))
  {
    NamesOfScansAndSeeks();
  }
}
