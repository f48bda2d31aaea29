/** Fresh ids of the workflow builder: node numbers (workflowBuilderIds.ts) and edge ids (`buildEdgeId`). */
module BuilderIds {
  import opened Options
  import Decimal

  predicate StartsWith(text: string, prefix: string) {
    |prefix| <= |text| && text[..|prefix|] == prefix
  }

  /** The number `parseInt` finds behind the prefix. */
  function SuffixOf(id: string, prefix: string): Option<int> {
    if StartsWith(id, prefix) then Decimal.ParseInt(id[|prefix|..]) else None
  }

  /** The next number: one more than the largest suffix in use, and at least one. */
  method GetNextBuilderNodeNumber(nodeIds: seq<string>, prefix: string) returns (next: nat)
    ensures next >= 1
    ensures forall k :: 0 <= k < |nodeIds| && SuffixOf(nodeIds[k], prefix).Some? ==>
      SuffixOf(nodeIds[k], prefix).value < next
    ensures next == 1 || exists k :: 0 <= k < |nodeIds| && SuffixOf(nodeIds[k], prefix) == Some(next - 1)
    ensures next == NextNumber(nodeIds, prefix)
  {
    var maxSuffix := 0;
    for i := 0 to |nodeIds|
      invariant 0 <= maxSuffix
      invariant forall k :: 0 <= k < i && SuffixOf(nodeIds[k], prefix).Some? ==>
        SuffixOf(nodeIds[k], prefix).value <= maxSuffix
      invariant maxSuffix == 0 || exists k :: 0 <= k < i && SuffixOf(nodeIds[k], prefix) == Some(maxSuffix)
      invariant maxSuffix + 1 == NextNumber(nodeIds[..i], prefix)
    {
      assert nodeIds[..i + 1][..i] == nodeIds[..i];
      var nodeId := nodeIds[i];
      if !StartsWith(nodeId, prefix) {
        continue;
      }
      var suffix := Decimal.ParseInt(nodeId[|prefix|..]);
      if suffix.None? {
        continue;
      }
      assert SuffixOf(nodeIds[i], prefix) == suffix;
      if suffix.value > maxSuffix {
        maxSuffix := suffix.value;
      }
    }
    assert nodeIds[..|nodeIds|] == nodeIds;
    next := maxSuffix + 1;
  }

  function NextNumber(nodeIds: seq<string>, prefix: string): (next: nat)
    ensures next >= 1
    ensures forall k :: 0 <= k < |nodeIds| && SuffixOf(nodeIds[k], prefix).Some? ==>
      SuffixOf(nodeIds[k], prefix).value < next
  {
    if nodeIds == [] then 1
    else
      var before, suffix := NextNumber(nodeIds[..|nodeIds| - 1], prefix), SuffixOf(nodeIds[|nodeIds| - 1], prefix);
      if suffix.Some? && suffix.value >= before then suffix.value + 1 else before
  }

  function NumberedId(prefix: string, n: nat): string {
    prefix + Decimal.Print(n)
  }

  /** The id made from the next number is not in use: reading a printed number gives the number back. */
  lemma NextNumberIsFresh(nodeIds: seq<string>, prefix: string)
    ensures NumberedId(prefix, NextNumber(nodeIds, prefix)) !in nodeIds
  {
    var n := NextNumber(nodeIds, prefix);
    var id := NumberedId(prefix, n);
    assert id[..|prefix|] == prefix && id[|prefix|..] == Decimal.Print(n);
    Decimal.ParseIntPrint(n);
    assert SuffixOf(id, prefix) == Some(n);
  }

  // ---------------------------------------------------------------- edge ids

  function EdgeBase(source: string, target: string): string {
    "edge-" + source + "-" + target
  }

  function Candidate(base: string, k: nat): string {
    base + "-" + Decimal.Print(k)
  }

  lemma CandidatesDiffer(base: string, j: nat, k: nat)
    requires Candidate(base, j) == Candidate(base, k)
    ensures j == k
  {
    Decimal.DashedInjective(base, j, base, k);
  }

  /** Distinct strings that all occur in `ids` are no more than `ids` has places. */
  lemma {:induction false} Pigeonhole(names: seq<string>, ids: seq<string>)
    requires forall k :: 0 <= k < |names| ==> names[k] in ids
    requires forall j, k :: 0 <= j < k < |names| ==> names[j] != names[k]
    ensures |names| <= |ids|
  {
    if names != [] {
      var p :| 0 <= p < |ids| && ids[p] == names[0];
      var rest := ids[..p] + ids[p + 1..];
      forall k | 0 <= k < |names[1..]| ensures names[1..][k] in rest {
        var q :| 0 <= q < |ids| && ids[q] == names[k + 1];
        assert q != p;
        assert rest[if q < p then q else q - 1] == ids[q];
      }
      Pigeonhole(names[1..], rest);
    }
  }

  lemma TakenCandidates(base: string, ids: seq<string>, k: nat)
    requires k >= 2 && forall j: nat :: 2 <= j < k ==> Candidate(base, j) in ids
    ensures k - 2 <= |ids|
  {
    var names := seq(k - 2, i requires 0 <= i < k - 2 => Candidate(base, i + 2));
    forall i, j | 0 <= i < j < |names| ensures names[i] != names[j] {
      if names[i] == names[j] {
        CandidatesDiffer(base, i + 2, j + 2);
      }
    }
    Pigeonhole(names, ids);
  }

  /** The first candidate from `k` on that is not in use. */
  function FirstFree(base: string, ids: seq<string>, k: nat): (id: string)
    requires k >= 2 && forall j: nat :: 2 <= j < k ==> Candidate(base, j) in ids
    ensures id !in ids
    decreases |ids| + 2 - k
  {
    if Candidate(base, k) !in ids then Candidate(base, k)
    else
      TakenCandidates(base, ids, k + 1);
      FirstFree(base, ids, k + 1)
  }

  function EdgeId(source: string, target: string, ids: seq<string>): (id: string)
    ensures id !in ids
  {
    var base := EdgeBase(source, target);
    if base !in ids then base else FirstFree(base, ids, 2)
  }

  /** `buildEdgeId`: the search ends because every suffix it passes is another edge's id. */
  method BuildEdgeId(source: string, target: string, ids: seq<string>) returns (id: string)
    ensures id !in ids
    ensures id == EdgeId(source, target, ids)
  {
    var baseId := EdgeBase(source, target);
    if baseId !in ids {
      return baseId;
    }
    var suffix := 2;
    while Candidate(baseId, suffix) in ids
      invariant suffix >= 2 && forall j: nat :: 2 <= j < suffix ==> Candidate(baseId, j) in ids
      invariant FirstFree(baseId, ids, 2) == FirstFree(baseId, ids, suffix)
      decreases |ids| + 2 - suffix
    {
      TakenCandidates(baseId, ids, suffix + 1);
      suffix := suffix + 1;
    }
    id := Candidate(baseId, suffix);
  }
}
