/** Small runs of the pass on one or two baseline plugins, worked out in full. */
module Scenarios {
  import opened Records
  import opened ConflictResolver
  import opened Forwarder
  import opened FacegenBaseline

  const MOD_A: ModKey := "ModA.esp"
  const MOD_B: ModKey := "ModB.esp"
  const OTHER: ModKey := "Other.esp"

  function OneBaseline(getProtectedFlag: bool): (r: Settings) {
    Settings([MOD_A], [], getProtectedFlag)
  }

  function LoadOrderOf(mods: map<ModKey, seq<Option<Npc>>>): (r: LoadOrder) {
    map k | k in mods :: ModListing(Some(SkyrimMod(mods[k])))
  }

  /** Head parts listed in the opposite order still match. */
  lemma SwappedHeadPartsUseBaseline(baselineModKey: ModKey, master: Npc, winner: Npc, winnerMod: ModKey,
                                    x: FormLink, y: FormLink, cache: LinkCache)
    requires winnerMod != baselineModKey
    requires master.headParts == [x, y] && winner.headParts == [y, x]
    ensures Classify(baselineModKey, [Context(winnerMod, winner), Context(baselineModKey, master)], cache) == UseBaseline
  {
  }

  /** A winner that changed some other appearance field, such as its head texture, but
      kept the master's head parts, still takes the baseline appearance: only head parts
      are compared. */
  lemma OnlyHeadPartsCompared(baselineModKey: ModKey, master: Npc, winnerMod: ModKey, texture: FormLink,
                              cache: LinkCache)
    requires winnerMod != baselineModKey && texture != master.headTexture
    ensures var winner := master.(headTexture := texture);
            Classify(baselineModKey, [Context(winnerMod, winner), Context(baselineModKey, master)], cache) == UseBaseline
  {
  }

  /** One baseline plugin with one record whose winner, from another plugin, kept the
      master's head parts: the record is forwarded and counted as UseBaseline. */
  lemma UseBaselineScenario(baseline: Npc, winner: Npc, cache: LinkCache)
    requires cache.contexts(baseline.formKey) == [Context(OTHER, winner), Context(MOD_A, baseline)]
    requires winner.headParts == baseline.headParts
    ensures RunSpec(OneBaseline(true), LoadOrderOf(map[MOD_A := [Some(baseline)]]), cache, map[])
            == RunOutcome(PassState(Counters(1, 0, 1, 0), {baseline.formKey},
                                    map[baseline.formKey := ForwardAppearance(winner, baseline, true)]), None)
  {
    var settings, loadOrder := OneBaseline(true), LoadOrderOf(map[MOD_A := [Some(baseline)]]);
    assert FindSource(loadOrder, MOD_A) == Some([Some(baseline)]);
    var counted := PassState(Counters(1, 0, 0, 0), {}, map[]);
    assert [Some(baseline)][..0] == [];
    assert Examined(counted, settings, Some(baseline));
    assert Classify(MOD_A, cache.contexts(baseline.formKey), cache) == UseBaseline;
    assert winner.formKey == baseline.formKey by {
      assert cache.contexts(baseline.formKey)[0].record.formKey == baseline.formKey;
    }
    var done := PassState(Counters(1, 0, 1, 0), {baseline.formKey},
                          map[baseline.formKey := ForwardAppearance(winner, baseline, true)]);
    assert ProcessRecord(counted, settings, cache, MOD_A, Some(baseline)) == done;
    assert ProcessRecords(counted, settings, cache, MOD_A, [Some(baseline)]) == done;
    assert ProcessSource(InitialState(map[]), settings, loadOrder, cache, MOD_A) == RunOutcome(done, None);
    assert [MOD_A][..0] == [];
    assert RunSources(InitialState(map[]), settings, loadOrder, cache, [MOD_A]) == RunOutcome(done, None);
  }

  /** The same run when the winner's head parts resolve to other targets: the record is
      counted as HasBetterFacegen and nothing is written. */
  lemma HasBetterFacegenScenario(baseline: Npc, winner: Npc, cache: LinkCache)
    requires cache.contexts(baseline.formKey) == [Context(OTHER, winner), Context(MOD_A, baseline)]
    requires ResolvedHeadParts(winner, cache) != ResolvedHeadParts(baseline, cache)
    ensures RunSpec(OneBaseline(true), LoadOrderOf(map[MOD_A := [Some(baseline)]]), cache, map[])
            == RunOutcome(PassState(Counters(1, 0, 0, 1), {baseline.formKey}, map[]), None)
  {
    var settings, loadOrder := OneBaseline(true), LoadOrderOf(map[MOD_A := [Some(baseline)]]);
    assert FindSource(loadOrder, MOD_A) == Some([Some(baseline)]);
    var counted := PassState(Counters(1, 0, 0, 0), {}, map[]);
    assert [Some(baseline)][..0] == [];
    assert Examined(counted, settings, Some(baseline));
    assert Classify(MOD_A, cache.contexts(baseline.formKey), cache) == HasBetterFacegen;
    var done := PassState(Counters(1, 0, 0, 1), {baseline.formKey}, map[]);
    assert ProcessRecords(counted, settings, cache, MOD_A, [Some(baseline)]) == done;
    assert [MOD_A][..0] == [];
    assert RunSources(InitialState(map[]), settings, loadOrder, cache, [MOD_A]) == RunOutcome(done, None);
  }

  /** The same run when the baseline plugin already supplies the winning version: the
      record is counted as AlreadyWinning, its key is not marked and nothing is written. */
  lemma AlreadyWinningScenario(baseline: Npc, master: Npc, cache: LinkCache)
    requires cache.contexts(baseline.formKey) == [Context(MOD_A, baseline), Context(OTHER, master)]
    ensures RunSpec(OneBaseline(true), LoadOrderOf(map[MOD_A := [Some(baseline)]]), cache, map[])
            == RunOutcome(PassState(Counters(1, 1, 0, 0), {}, map[]), None)
  {
    var settings, loadOrder := OneBaseline(true), LoadOrderOf(map[MOD_A := [Some(baseline)]]);
    assert FindSource(loadOrder, MOD_A) == Some([Some(baseline)]);
    var counted := PassState(Counters(1, 0, 0, 0), {}, map[]);
    assert [Some(baseline)][..0] == [];
    assert Examined(counted, settings, Some(baseline));
    var done := PassState(Counters(1, 1, 0, 0), {}, map[]);
    assert ProcessRecords(counted, settings, cache, MOD_A, [Some(baseline)]) == done;
    assert [MOD_A][..0] == [];
    assert RunSources(InitialState(map[]), settings, loadOrder, cache, [MOD_A]) == RunOutcome(done, None);
  }

  /** Two baseline plugins define the same record and the first of them already wins.
      The first counts it as AlreadyWinning without marking its key, so the second
      classifies it again and forwards its own appearance onto the first plugin's
      winning version: the record is counted twice. */
  lemma AlreadyWinningCountedAgain(a: Npc, b: Npc, master: Npc, cache: LinkCache)
    requires a.formKey == b.formKey
    requires cache.contexts(a.formKey) == [Context(MOD_A, a), Context(MOD_B, b), Context(OTHER, master)]
    requires a.headParts == master.headParts
    ensures RunSpec(Settings([MOD_A, MOD_B], [], true), LoadOrderOf(map[MOD_A := [Some(a)], MOD_B := [Some(b)]]),
                    cache, map[])
            == RunOutcome(PassState(Counters(2, 1, 1, 0), {a.formKey},
                                    map[a.formKey := ForwardAppearance(a, b, true)]), None)
  {
    var settings := Settings([MOD_A, MOD_B], [], true);
    var loadOrder := LoadOrderOf(map[MOD_A := [Some(a)], MOD_B := [Some(b)]]);
    assert FindSource(loadOrder, MOD_A) == Some([Some(a)]);
    assert FindSource(loadOrder, MOD_B) == Some([Some(b)]);
    assert [Some(a)][..0] == [] && [Some(b)][..0] == [];
    var countedA := PassState(Counters(1, 0, 0, 0), {}, map[]);
    assert Examined(countedA, settings, Some(a));
    var afterA := PassState(Counters(1, 1, 0, 0), {}, map[]);
    assert ProcessRecords(countedA, settings, cache, MOD_A, [Some(a)]) == afterA;
    assert [MOD_A, MOD_B][..1] == [MOD_A] && [MOD_A][..0] == [];
    assert RunSources(InitialState(map[]), settings, loadOrder, cache, [MOD_A]) == RunOutcome(afterA, None);
    var countedB := PassState(Counters(2, 1, 0, 0), {}, map[]);
    assert Examined(countedB, settings, Some(b));
    assert Classify(MOD_B, cache.contexts(b.formKey), cache) == UseBaseline;
    var done := PassState(Counters(2, 1, 1, 0), {a.formKey}, map[a.formKey := ForwardAppearance(a, b, true)]);
    assert ProcessRecord(countedB, settings, cache, MOD_B, Some(b)) == done;
    assert ProcessRecords(countedB, settings, cache, MOD_B, [Some(b)]) == done;
    assert RunSources(InitialState(map[]), settings, loadOrder, cache, [MOD_A, MOD_B]) == RunOutcome(done, None);
  }

  /** Two baseline plugins define the same record and another plugin wins it: the first
      baseline plugin's version is classified and forwarded, the second's is skipped. */
  lemma FirstBaselineWins(a: Npc, b: Npc, winner: Npc, cache: LinkCache)
    requires a.formKey == b.formKey
    requires cache.contexts(a.formKey) == [Context(OTHER, winner), Context(MOD_B, b), Context(MOD_A, a)]
    requires winner.headParts == a.headParts
    ensures RunSpec(Settings([MOD_A, MOD_B], [], true), LoadOrderOf(map[MOD_A := [Some(a)], MOD_B := [Some(b)]]),
                    cache, map[])
            == RunOutcome(PassState(Counters(2, 0, 1, 0), {a.formKey},
                                    map[a.formKey := ForwardAppearance(winner, a, true)]), None)
  {
    var settings := Settings([MOD_A, MOD_B], [], true);
    var loadOrder := LoadOrderOf(map[MOD_A := [Some(a)], MOD_B := [Some(b)]]);
    assert FindSource(loadOrder, MOD_A) == Some([Some(a)]);
    assert FindSource(loadOrder, MOD_B) == Some([Some(b)]);
    assert [Some(a)][..0] == [] && [Some(b)][..0] == [];
    assert winner.formKey == a.formKey by {
      assert cache.contexts(a.formKey)[0].record.formKey == a.formKey;
    }
    var countedA := PassState(Counters(1, 0, 0, 0), {}, map[]);
    assert Examined(countedA, settings, Some(a));
    assert Classify(MOD_A, cache.contexts(a.formKey), cache) == UseBaseline;
    var afterA := PassState(Counters(1, 0, 1, 0), {a.formKey}, map[a.formKey := ForwardAppearance(winner, a, true)]);
    assert ProcessRecord(countedA, settings, cache, MOD_A, Some(a)) == afterA;
    assert ProcessRecords(countedA, settings, cache, MOD_A, [Some(a)]) == afterA;
    assert [MOD_A, MOD_B][..1] == [MOD_A] && [MOD_A][..0] == [];
    assert RunSources(InitialState(map[]), settings, loadOrder, cache, [MOD_A]) == RunOutcome(afterA, None);
    var countedB := afterA.(counters := Counters(2, 0, 1, 0));
    assert !Examined(countedB, settings, Some(b));
    assert ProcessRecords(countedB, settings, cache, MOD_B, [Some(b)]) == countedB;
  }
}
