/** The conflict resolver: classifies a baseline record by its override chain. */
module ConflictResolver {
  import opened Records

  datatype Classification = AlreadyWinning | UseBaseline | HasBetterFacegen

  /** The head parts of a record with every link resolved through the cache, as a set:
      their order and repetitions are dropped, and all unresolved links become the one
      value None. */
  function ResolvedHeadParts(n: Npc, cache: LinkCache): (r: set<Option<FormKey>>)
    ensures forall i :: 0 <= i < |n.headParts| ==> cache.resolve(n.headParts[i]) in r
    ensures forall t :: t in r ==> exists i :: 0 <= i < |n.headParts| && cache.resolve(n.headParts[i]) == t
  {
    set l | l in n.headParts :: cache.resolve(l)
  }

  /** Whether the head parts of master and winner resolve to the same targets. */
  predicate HeadPartsMatch(master: Npc, winner: Npc, cache: LinkCache) {
    ResolvedHeadParts(master, cache) == ResolvedHeadParts(winner, cache)
  }

  /** The resolution of each head part of a record, in list order. */
  function ResolvedHeadPartList(n: Npc, cache: LinkCache): (r: seq<Option<FormKey>>)
    ensures |r| == |n.headParts|
    ensures forall i :: 0 <= i < |r| ==> r[i] == cache.resolve(n.headParts[i])
    ensures forall t :: t in r <==> t in ResolvedHeadParts(n, cache)
  {
    seq(|n.headParts|, i requires 0 <= i < |n.headParts| => cache.resolve(n.headParts[i]))
  }

  /** Every head part of a resolves to the same target as some head part of b. */
  ghost predicate EachHeadPartFound(a: Npc, b: Npc, cache: LinkCache) {
    forall i :: 0 <= i < |a.headParts| ==> cache.resolve(a.headParts[i]) in ResolvedHeadPartList(b, cache)
  }

  /** Head-part matching stated element by element, without sets: each side's head
      parts resolve to targets the other side also has. */
  lemma HeadPartsMatchIff(master: Npc, winner: Npc, cache: LinkCache)
    ensures HeadPartsMatch(master, winner, cache)
            <==> EachHeadPartFound(master, winner, cache) && EachHeadPartFound(winner, master, cache)
  {
  }

  /** Reordering or repeating head parts never changes the comparison: only which links
      occur matters. */
  lemma HeadPartsOrderIndependent(master: Npc, master': Npc, winner: Npc, cache: LinkCache)
    requires forall l :: l in master.headParts <==> l in master'.headParts
    ensures HeadPartsMatch(master, winner, cache) == HeadPartsMatch(master', winner, cache)
  {
  }

  /** The three-way decision on a record's override chain (winner first, master last). */
  function Classify(baselineModKey: ModKey, contexts: seq<Context>, cache: LinkCache): (r: Classification)
    requires |contexts| > 0
    ensures r == AlreadyWinning <==> contexts[0].modKey == baselineModKey
    ensures r == UseBaseline <==>
              contexts[0].modKey != baselineModKey
              && EachHeadPartFound(contexts[|contexts| - 1].record, contexts[0].record, cache)
              && EachHeadPartFound(contexts[0].record, contexts[|contexts| - 1].record, cache)
  {
    var currentWinner := contexts[0];
    if currentWinner.modKey == baselineModKey then AlreadyWinning
    else
      var master := contexts[|contexts| - 1];
      HeadPartsMatchIff(master.record, currentWinner.record, cache);
      if HeadPartsMatch(master.record, currentWinner.record, cache) then UseBaseline else HasBetterFacegen
  }
}
