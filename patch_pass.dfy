/** The patch pass: every NPC of every baseline plugin is filtered, classified by its
    override chain, counted, and on UseBaseline forwarded into the patch plugin.
    The functions state the pass one record and one plugin at a time; RunPatch runs it
    with loops over a PatchMod and is proved to end in the state they describe. */
module FacegenBaseline {
  import opened Records
  import opened Exclusion
  import opened ConflictResolver
  import opened Forwarder

  /** The totals the pass reports at its end. */
  datatype Counters = Counters(npcRecordsCount: nat, alreadyWins: nat, useBaseline: nat, hasBetterFacegen: nat)

  /** The pass's state: its counters, the keys already classified, and the patch group. */
  datatype PassState = PassState(counters: Counters, parsedNpcs: set<FormKey>, patch: map<FormKey, Npc>)

  datatype RunError =
    | EmptyBaselineList            // no baseline plugin configured
    | BaselineNotLoaded(mod: ModKey)  // a configured plugin is missing from the load order

  /** Where the pass stopped: the state reached and, when it stopped early, why. */
  datatype RunOutcome = RunOutcome(state: PassState, error: Option<RunError>)

  function Classified(c: Counters): (r: nat) {
    c.alreadyWins + c.useBaseline + c.hasBetterFacegen
  }

  function InitialState(patch0: map<FormKey, Npc>): (r: PassState) {
    PassState(Counters(0, 0, 0, 0), {}, patch0)
  }

  /** Whether the pass examines a record: it is present, its key was not classified
      yet, and its EditorID is not excluded. */
  predicate Examined(st: PassState, settings: Settings, rec: Option<Npc>) {
    rec.Some? && rec.value.formKey !in st.parsedNpcs && !Excluded(rec.value.editorID, settings.excludeKeywords)
  }

  /** Each classified key was counted exactly once as UseBaseline or HasBetterFacegen. */
  predicate ClassifiedOnce(st: PassState) {
    st.counters.useBaseline + st.counters.hasBetterFacegen == |st.parsedNpcs|
  }

  /** The group p agrees with q on every key outside keys. */
  ghost predicate UntouchedOutside(p: map<FormKey, Npc>, q: map<FormKey, Npc>, keys: set<FormKey>) {
    forall k :: k !in keys ==> (k in p <==> k in q) && (k in q ==> p[k] == q[k])
  }

  /** One record of a baseline plugin: skip, or classify, count and maybe forward. */
  function ProcessRecord(st: PassState, settings: Settings, cache: LinkCache, baselineModKey: ModKey,
                         rec: Option<Npc>): (r: PassState)
  {
    if !Examined(st, settings, rec) then st
    else
      var npc := rec.value;
      var contexts := cache.contexts(npc.formKey);
      var c := st.counters;
      match Classify(baselineModKey, contexts, cache)
      case AlreadyWinning => st.(counters := c.(alreadyWins := c.alreadyWins + 1))
      case UseBaseline =>
        var winner := contexts[0].record;
        PassState(c.(useBaseline := c.useBaseline + 1), st.parsedNpcs + {npc.formKey},
                  st.patch[winner.formKey := ForwardAppearance(OverrideBase(st.patch, winner), npc,
                                                               settings.getProtectedFlag)])
      case HasBetterFacegen =>
        PassState(c.(hasBetterFacegen := c.hasBetterFacegen + 1), st.parsedNpcs + {npc.formKey}, st.patch)
  }

  /** What one record step does to the counters and keys: a skipped record changes
      nothing, an examined one adds one to exactly one of the three counters, and keys
      are only ever added, each with one UseBaseline or HasBetterFacegen count. */
  lemma ProcessRecordCounts(st: PassState, settings: Settings, cache: LinkCache, baselineModKey: ModKey,
                            rec: Option<Npc>)
    ensures var r := ProcessRecord(st, settings, cache, baselineModKey, rec);
            r.counters.npcRecordsCount == st.counters.npcRecordsCount
            && Classified(r.counters) == Classified(st.counters) + (if Examined(st, settings, rec) then 1 else 0)
            && st.parsedNpcs <= r.parsedNpcs
            && (ClassifiedOnce(st) ==> ClassifiedOnce(r))
            && (!Examined(st, settings, rec) ==> r == st)
  {
  }

  /** What one record step does to the patch group: it stays valid and changes only at
      a key the step has just marked parsed. */
  lemma ProcessRecordWrites(st: PassState, settings: Settings, cache: LinkCache, baselineModKey: ModKey,
                            rec: Option<Npc>)
    requires GroupValid(st.patch)
    ensures var r := ProcessRecord(st, settings, cache, baselineModKey, rec);
            GroupValid(r.patch) && UntouchedOutside(r.patch, st.patch, r.parsedNpcs - st.parsedNpcs)
  {
  }

  /** What happens to an examined record, by its classification: AlreadyWinning only
      counts; UseBaseline marks the key, counts and forwards the appearance onto the
      override of the winner; HasBetterFacegen marks the key and counts, writing nothing. */
  lemma ProcessRecordOutcome(st: PassState, settings: Settings, cache: LinkCache, baselineModKey: ModKey,
                             rec: Option<Npc>)
    requires Examined(st, settings, rec)
    ensures var r := ProcessRecord(st, settings, cache, baselineModKey, rec);
            var key := rec.value.formKey;
            var contexts := cache.contexts(key);
            match Classify(baselineModKey, contexts, cache)
            case AlreadyWinning =>
              r == st.(counters := st.counters.(alreadyWins := st.counters.alreadyWins + 1))
            case UseBaseline =>
              r.parsedNpcs == st.parsedNpcs + {key}
              && r.counters == st.counters.(useBaseline := st.counters.useBaseline + 1)
              && r.patch == st.patch[key := ForwardAppearance(OverrideBase(st.patch, contexts[0].record),
                                                              rec.value, settings.getProtectedFlag)]
            case HasBetterFacegen =>
              r.parsedNpcs == st.parsedNpcs + {key}
              && r.counters == st.counters.(hasBetterFacegen := st.counters.hasBetterFacegen + 1)
              && r.patch == st.patch
  {
  }

  /** The records of one baseline plugin, in group order. */
  function ProcessRecords(st: PassState, settings: Settings, cache: LinkCache, baselineModKey: ModKey,
                          recs: seq<Option<Npc>>): (r: PassState)
    decreases |recs|
  {
    if |recs| == 0 then st
    else
      var prev := ProcessRecords(st, settings, cache, baselineModKey, recs[..|recs| - 1]);
      ProcessRecord(prev, settings, cache, baselineModKey, recs[|recs| - 1])
  }

  /** What the records of one plugin keep: at most one classification per record. */
  lemma {:induction false} ProcessRecordsInvariant(st: PassState, settings: Settings, cache: LinkCache,
                                                   baselineModKey: ModKey, recs: seq<Option<Npc>>)
    requires GroupValid(st.patch)
    ensures var r := ProcessRecords(st, settings, cache, baselineModKey, recs);
            GroupValid(r.patch)
            && r.counters.npcRecordsCount == st.counters.npcRecordsCount
            && Classified(r.counters) <= Classified(st.counters) + |recs|
            && st.parsedNpcs <= r.parsedNpcs
            && (ClassifiedOnce(st) ==> ClassifiedOnce(r))
            && UntouchedOutside(r.patch, st.patch, r.parsedNpcs)
    decreases |recs|
  {
    if |recs| > 0 {
      var init := recs[..|recs| - 1];
      ProcessRecordsInvariant(st, settings, cache, baselineModKey, init);
      var prev := ProcessRecords(st, settings, cache, baselineModKey, init);
      ProcessRecordCounts(prev, settings, cache, baselineModKey, recs[|recs| - 1]);
      ProcessRecordWrites(prev, settings, cache, baselineModKey, recs[|recs| - 1]);
    }
  }

  /** One baseline plugin: add its group size to the record count and process its
      records, or stop when the load order does not supply it. */
  function ProcessSource(st: PassState, settings: Settings, loadOrder: LoadOrder, cache: LinkCache,
                         baselineModKey: ModKey): (r: RunOutcome)
  {
    match FindSource(loadOrder, baselineModKey)
    case None => RunOutcome(st, Some(BaselineNotLoaded(baselineModKey)))
    case Some(baselineNpcs) =>
      var counted := st.(counters := st.counters.(npcRecordsCount := st.counters.npcRecordsCount + |baselineNpcs|));
      RunOutcome(ProcessRecords(counted, settings, cache, baselineModKey, baselineNpcs), None)
  }

  /** The baseline plugins in order, stopping at the first one that is not loaded. */
  function RunSources(st: PassState, settings: Settings, loadOrder: LoadOrder, cache: LinkCache,
                      mods: seq<ModKey>): (r: RunOutcome)
    decreases |mods|
  {
    if |mods| == 0 then RunOutcome(st, None)
    else
      var prev := RunSources(st, settings, loadOrder, cache, mods[..|mods| - 1]);
      if prev.error.Some? then prev
      else ProcessSource(prev.state, settings, loadOrder, cache, mods[|mods| - 1])
  }

  /** What the plugins keep: no more classifications than records counted, exactly one
      UseBaseline or HasBetterFacegen per classified key, and no write outside them. */
  lemma {:induction false} RunSourcesInvariant(st: PassState, settings: Settings, loadOrder: LoadOrder,
                                               cache: LinkCache, mods: seq<ModKey>)
    requires GroupValid(st.patch)
    ensures var r := RunSources(st, settings, loadOrder, cache, mods);
            GroupValid(r.state.patch)
            && st.parsedNpcs <= r.state.parsedNpcs
            && (ClassifiedOnce(st) ==> ClassifiedOnce(r.state))
            && (Classified(st.counters) <= st.counters.npcRecordsCount
                ==> Classified(r.state.counters) <= r.state.counters.npcRecordsCount)
            && UntouchedOutside(r.state.patch, st.patch, r.state.parsedNpcs)
    decreases |mods|
  {
    if |mods| > 0 {
      var init := mods[..|mods| - 1];
      RunSourcesInvariant(st, settings, loadOrder, cache, init);
      var prev := RunSources(st, settings, loadOrder, cache, init);
      var key := mods[|mods| - 1];
      if prev.error.None? && FindSource(loadOrder, key).Some? {
        var recs := FindSource(loadOrder, key).value;
        var counted := prev.state.(counters := prev.state.counters.(
                         npcRecordsCount := prev.state.counters.npcRecordsCount + |recs|));
        ProcessRecordsInvariant(counted, settings, cache, key, recs);
      }
    }
  }

  /** The whole pass over an initial patch group patch0: no plugin configured is an
      error before any record is looked at. */
  function RunSpec(settings: Settings, loadOrder: LoadOrder, cache: LinkCache,
                   patch0: map<FormKey, Npc>): (r: RunOutcome)
  {
    if |settings.baselineMods| == 0 then RunOutcome(InitialState(patch0), Some(EmptyBaselineList))
    else RunSources(InitialState(patch0), settings, loadOrder, cache, settings.baselineMods)
  }

  /** What the whole pass guarantees: an empty plugin list fails with nothing counted,
      classified or written; otherwise the three counters together never exceed the
      records counted, each classified key was classified once, and the patch group
      differs from its initial state only at classified keys. */
  lemma RunSpecInvariant(settings: Settings, loadOrder: LoadOrder, cache: LinkCache, patch0: map<FormKey, Npc>)
    requires GroupValid(patch0)
    ensures var r := RunSpec(settings, loadOrder, cache, patch0);
            (|settings.baselineMods| == 0 ==> r == RunOutcome(InitialState(patch0), Some(EmptyBaselineList)))
            && GroupValid(r.state.patch)
            && ClassifiedOnce(r.state)
            && Classified(r.state.counters) <= r.state.counters.npcRecordsCount
            && UntouchedOutside(r.state.patch, patch0, r.state.parsedNpcs)
  {
    var init := InitialState(patch0);
    assert ClassifiedOnce(init) && UntouchedOutside(init.patch, patch0, {});
    RunSourcesInvariant(init, settings, loadOrder, cache, settings.baselineMods);
  }

  /** The plugins stop the pass exactly when one of them is not loaded, and the error
      names the first such plugin. */
  lemma {:induction false} RunSourcesStops(st: PassState, settings: Settings, loadOrder: LoadOrder,
                                           cache: LinkCache, mods: seq<ModKey>)
    ensures var r := RunSources(st, settings, loadOrder, cache, mods);
            (r.error.None? <==> forall i :: 0 <= i < |mods| ==> FindSource(loadOrder, mods[i]).Some?)
            && (r.error.Some? ==>
                  exists i :: 0 <= i < |mods| && r.error.value == BaselineNotLoaded(mods[i])
                              && FindSource(loadOrder, mods[i]).None?
                              && forall j :: 0 <= j < i ==> FindSource(loadOrder, mods[j]).Some?)
    decreases |mods|
  {
    if |mods| > 0 {
      var init := mods[..|mods| - 1];
      RunSourcesStops(st, settings, loadOrder, cache, init);
      assert forall i :: 0 <= i < |init| ==> init[i] == mods[i];
    }
  }

  /** The whole pass completes exactly when at least one baseline plugin is configured
      and every configured plugin is loaded. */
  lemma RunCompletesIff(settings: Settings, loadOrder: LoadOrder, cache: LinkCache, patch0: map<FormKey, Npc>)
    ensures RunSpec(settings, loadOrder, cache, patch0).error.None?
            <==> |settings.baselineMods| > 0
                 && forall i :: 0 <= i < |settings.baselineMods| ==> FindSource(loadOrder, settings.baselineMods[i]).Some?
  {
    RunSourcesStops(InitialState(patch0), settings, loadOrder, cache, settings.baselineMods);
  }

  /** What the run reports: its counters, or the error that ended it. */
  function Report(o: RunOutcome): (r: Result<Counters, RunError>) {
    if o.error.Some? then Err(o.error.value) else Ok(o.state.counters)
  }

  /** Once the pass has stopped on a missing plugin, later plugins change nothing. */
  lemma {:induction false} StoppedStaysStopped(st: PassState, settings: Settings, loadOrder: LoadOrder,
                                               cache: LinkCache, mods: seq<ModKey>, k: nat)
    requires k <= |mods|
    requires RunSources(st, settings, loadOrder, cache, mods[..k]).error.Some?
    ensures RunSources(st, settings, loadOrder, cache, mods) == RunSources(st, settings, loadOrder, cache, mods[..k])
    decreases |mods|
  {
    if k < |mods| {
      var init := mods[..|mods| - 1];
      assert init[..k] == mods[..k];
      StoppedStaysStopped(st, settings, loadOrder, cache, init, k);
    } else {
      assert mods[..k] == mods;
    }
  }

  /** Processing one more plugin after a prefix that did not stop. */
  lemma RunSourcesStep(st: PassState, settings: Settings, loadOrder: LoadOrder, cache: LinkCache,
                       mods: seq<ModKey>, j: nat)
    requires j < |mods|
    requires RunSources(st, settings, loadOrder, cache, mods[..j]).error.None?
    ensures RunSources(st, settings, loadOrder, cache, mods[..j + 1])
            == ProcessSource(RunSources(st, settings, loadOrder, cache, mods[..j]).state, settings, loadOrder, cache, mods[j])
  {
    assert mods[..j + 1][..j] == mods[..j];
  }

  /** One record of a baseline plugin, as the body of the pass's inner loop: the early
      returns are the loop's skips. */
  method ProcessNpc(counters: Counters, parsedNpcs: set<FormKey>, settings: Settings, cache: LinkCache,
                    baselineModKey: ModKey, baselineNpc: Option<Npc>, patch: PatchMod)
    returns (counters': Counters, parsedNpcs': set<FormKey>)
    requires patch.Valid()
    modifies patch
    ensures patch.Valid()
    ensures PassState(counters', parsedNpcs', patch.npcs)
            == ProcessRecord(PassState(counters, parsedNpcs, old(patch.npcs)), settings, cache, baselineModKey, baselineNpc)
  {
    counters', parsedNpcs' := counters, parsedNpcs;
    if baselineNpc.None? { return; }
    var npc := baselineNpc.value;
    if npc.formKey in parsedNpcs { return; }
    if Excluded(npc.editorID, settings.excludeKeywords) { return; }
    var contexts := cache.contexts(npc.formKey);
    var currentWinner := contexts[0];
    if currentWinner.modKey == baselineModKey {
      counters' := counters'.(alreadyWins := counters'.alreadyWins + 1);
      return;
    }
    parsedNpcs' := parsedNpcs' + {npc.formKey};
    var master := contexts[|contexts| - 1];
    if HeadPartsMatch(master.record, currentWinner.record, cache) {
      UseBaselineAppearance(patch, npc, currentWinner.record, settings.getProtectedFlag);
      counters' := counters'.(useBaseline := counters'.useBaseline + 1);
    } else {
      counters' := counters'.(hasBetterFacegen := counters'.hasBetterFacegen + 1);
    }
  }

  /** The records of one loaded baseline plugin, as the pass's inner loop. */
  method ProcessNpcs(counters: Counters, parsedNpcs: set<FormKey>, settings: Settings, cache: LinkCache,
                     baselineModKey: ModKey, baselineNpcs: seq<Option<Npc>>, patch: PatchMod)
    returns (counters': Counters, parsedNpcs': set<FormKey>)
    requires patch.Valid()
    modifies patch
    ensures patch.Valid()
    ensures PassState(counters', parsedNpcs', patch.npcs)
            == ProcessRecords(PassState(counters, parsedNpcs, old(patch.npcs)), settings, cache, baselineModKey, baselineNpcs)
  {
    counters', parsedNpcs' := counters, parsedNpcs;
    ghost var start := PassState(counters, parsedNpcs, patch.npcs);
    for i := 0 to |baselineNpcs|
      invariant patch.Valid()
      invariant ProcessRecords(start, settings, cache, baselineModKey, baselineNpcs[..i])
                == PassState(counters', parsedNpcs', patch.npcs)
    {
      assert baselineNpcs[..i + 1][..i] == baselineNpcs[..i];
      counters', parsedNpcs' := ProcessNpc(counters', parsedNpcs', settings, cache, baselineModKey, baselineNpcs[i], patch);
    }
    assert baselineNpcs[..|baselineNpcs|] == baselineNpcs;
  }

  /** One configured baseline plugin, as the body of the pass's outer loop: look it up,
      add its group size to the record count, then process its records. A plugin that is
      not loaded ends the pass, so loaded is false and nothing changes. */
  method ProcessBaselineMod(counters: Counters, parsedNpcs: set<FormKey>, settings: Settings,
                            loadOrder: LoadOrder, cache: LinkCache, baselineModKey: ModKey, patch: PatchMod)
    returns (counters': Counters, parsedNpcs': set<FormKey>, loaded: bool)
    requires patch.Valid()
    modifies patch
    ensures patch.Valid()
    ensures ProcessSource(PassState(counters, parsedNpcs, old(patch.npcs)), settings, loadOrder, cache, baselineModKey)
            == RunOutcome(PassState(counters', parsedNpcs', patch.npcs),
                          if loaded then None else Some(BaselineNotLoaded(baselineModKey)))
  {
    counters', parsedNpcs' := counters, parsedNpcs;
    var baselineMod := FindSource(loadOrder, baselineModKey);
    if baselineMod.None? {
      return counters', parsedNpcs', false;
    }
    var baselineNpcs := baselineMod.value;
    counters' := counters'.(npcRecordsCount := counters'.npcRecordsCount + |baselineNpcs|);
    counters', parsedNpcs' := ProcessNpcs(counters', parsedNpcs', settings, cache, baselineModKey, baselineNpcs, patch);
    loaded := true;
  }

  /** The pass itself, over the patch plugin's group. */
  method RunPatch(settings: Settings, loadOrder: LoadOrder, cache: LinkCache, patch: PatchMod)
    returns (r: Result<Counters, RunError>)
    requires patch.Valid()
    modifies patch
    ensures patch.Valid()
    ensures var spec := RunSpec(settings, loadOrder, cache, old(patch.npcs));
            patch.npcs == spec.state.patch && r == Report(spec)
    ensures r.Ok? ==> Classified(r.value) <= r.value.npcRecordsCount
  {
    RunSpecInvariant(settings, loadOrder, cache, patch.npcs);
    var counters := Counters(0, 0, 0, 0);
    if |settings.baselineMods| == 0 {
      return Err(EmptyBaselineList);
    }
    // The plugins are visited in the given order: the reversed sequence is never used.
    var parsedNpcs: set<FormKey> := {};
    ghost var patch0 := patch.npcs;
    var mods := settings.baselineMods;
    for j := 0 to |mods|
      invariant patch.Valid()
      invariant RunSources(InitialState(patch0), settings, loadOrder, cache, mods[..j])
                == RunOutcome(PassState(counters, parsedNpcs, patch.npcs), None)
    {
      RunSourcesStep(InitialState(patch0), settings, loadOrder, cache, mods, j);
      var loaded;
      counters, parsedNpcs, loaded := ProcessBaselineMod(counters, parsedNpcs, settings, loadOrder, cache, mods[j], patch);
      if !loaded {
        StoppedStaysStopped(InitialState(patch0), settings, loadOrder, cache, mods, j + 1);
        return Err(BaselineNotLoaded(mods[j]));
      }
    }
    assert mods[..|mods|] == mods;
    r := Ok(counters);
  }
}
