# FacegenBaseline in Dafny

FacegenBaseline is a Synthesis patcher for Skyrim. It loads a list of baseline plugins that change NPC appearance. For every NPC record of every baseline plugin, it looks at the record's override chain in the load order.

- The plugin that supplies the winning version may be the baseline plugin itself. The record is then counted as *AlreadyWinning*.
- The winner may keep the master's head parts, meaning no other plugin changed the face. The baseline's appearance fields are then copied onto an override of the winner in the patch plugin. The record is counted as *UseBaseline*.
- Otherwise another plugin already supplies a better face. The record is counted as *HasBetterFacegen* and nothing is written.

Records that are null, already classified, or whose EditorID contains an exclusion keyword are skipped.

The model has one module per part of the pass:

- `Records` (records.dfy) holds the data model:
  - keys, links and the NPC record with its appearance fields and its configuration flag word;
  - the run's settings and the load order;
  - an abstract link cache. The cache resolves a key to its override chain (winner first, master last) and a head-part link to its target. Its type guarantees that every chain is non-empty and holds versions of the requested key.
- `Exclusion` (exclusion.dfy) is the EditorID keyword filter. It covers .NET's `IsNullOrWhiteSpace` and the ordinal `Contains`.
- `ConflictResolver` (conflict.dfy) is the three-way classification of an override chain and the head-part set comparison.
- `Forwarder` (forwarding.dfy) has three parts:
  - the patch plugin's NPC group, as a class `PatchMod` with a map field;
  - get-or-add of an override;
  - the field-by-field forwarding in `UseBaselineAppearance`, which is proved to produce `ForwardAppearance`.
- `FacegenBaseline` (patch_pass.dfy) is the pass, in two forms.
  - Specification functions: `ProcessRecord`, `ProcessRecords`, `ProcessSource`, `RunSources` and `RunSpec` state the pass one record and one plugin at a time. Lemmas prove what the pass keeps.
  - Methods: `RunPatch` and its loop bodies run the pass with nested loops over a `PatchMod`. They are proved to end in exactly the state and counters that `RunSpec` describes.
- `Scenarios` (scenarios.dfy) works out small runs in full.

The model follows what the code does, also where its comments or names suggest otherwise:

- **Plugin order.** The comment at Program.cs:43 says the list is reversed "to parse first with more priority". But `BaselineMods` is a `HashSet` (Settings.cs:10), and the result of the LINQ `Reverse()` is discarded. The model visits the plugins in the order given.
- **Missing plugin.** The comment at Program.cs:53 says missing plugins are skipped. The code prints a line, does not `continue`, and then dereferences the missing plugin (Program.cs:55-60), which throws. The model ends the run there with the error `BaselineNotLoaded`. The patch group keeps whatever earlier plugins wrote.
- **Winner and master.** The winner is `contexts[0]` and the master is `contexts.Last()` (Program.cs:74, 85).
- **Only head parts are compared.** The comment at Program.cs:84 speaks of a record "already overriding the appearance". The test compares only the sets of resolved head parts (Program.cs:86-88). `Scenarios.OnlyHeadPartsCompared` shows that a winner with a changed head texture but the master's head parts still takes the baseline appearance.
- **AlreadyWinning keys are not marked.** A key is added to the parsed set only after the AlreadyWinning check (Program.cs:75-82). An AlreadyWinning key can therefore be classified again by a later baseline plugin. `Scenarios.AlreadyWinningCountedAgain` shows this: the record is counted twice, and the second plugin's appearance is forwarded onto the first plugin's winning version.
- **Keyword setting name.** The code reads `ExcludeNPCByKeywords` (Program.cs:46, 67), while Settings.cs:13 declares `ExcludeNPCEditorId`. The model has one keyword list, `Settings.excludeKeywords`.

## Model

| member | source | states |
|---|---|---|
| Exclusion.AnyKeywordMatches | FacegenBaseline/Program.cs:67-70 | true exactly when some keyword of the list is non-blank and occurs as a substring of the EditorID |
| Exclusion.Excluded | FacegenBaseline/Program.cs:67-70 | a record is excluded exactly when its EditorID is present and not blank and some non-blank keyword is a case-sensitive substring of it; a null or blank EditorID is never excluded; the guard on a non-empty list (line 46) changes nothing |
| ConflictResolver.ResolvedHeadParts | FacegenBaseline/Program.cs:86-87 | the set holds the resolution of every head part, unresolved links as None, and nothing else |
| ConflictResolver.ResolvedHeadPartList | FacegenBaseline/Program.cs:86-87 | the resolutions of the head parts, one per link, in order; a target occurs in the list exactly when it is in the resolved head-part set |
| ConflictResolver.HeadPartsMatchIff | FacegenBaseline/Program.cs:88 | `SetEquals` of the two resolved sets holds exactly when every head part of each side resolves to a target that the other side also has (both directions) |
| ConflictResolver.HeadPartsOrderIndependent | FacegenBaseline/Program.cs:86-88 | the comparison depends only on which links occur: reordering or repeating head parts never changes it |
| ConflictResolver.Classify | FacegenBaseline/Program.cs:73-98 | AlreadyWinning exactly when the winner (first context) comes from the baseline plugin; UseBaseline exactly when it does not and the master (last context) and the winner have the same resolved head parts; HasBetterFacegen otherwise |
| Forwarder.RecordDetermined | FacegenBaseline/Program.cs:111-139 | an NPC is fully determined by its forwarded appearance fields, its other fields and its Protected bit, so these cover the whole record |
| Forwarder.ForwardAppearance | FacegenBaseline/Program.cs:111-139 | the result has exactly the baseline's twelve appearance fields and the target's key, EditorID, other data and flags other than Protected; it is Protected exactly when the target is, or the setting is on and the baseline is; no flag of the target is cleared |
| Forwarder.ForwardIdempotent | FacegenBaseline/Program.cs:111-139 | forwarding the same baseline onto an already forwarded override leaves it unchanged |
| Forwarder.OverrideBase | FacegenBaseline/Program.cs:109 | an existing override for the winner's key is reused; otherwise the override starts from the winner itself; in a valid group it has the winner's key |
| Forwarder.PatchMod.GetOrAddAsOverride | FacegenBaseline/Program.cs:109 | returns the group's existing override of the record, or adds the record as a new one; afterwards the group holds exactly that override under the record's key and is otherwise unchanged |
| Forwarder.PatchMod.SetOverride | FacegenBaseline/Program.cs:109-135 | the edited override is the group's entry under its key, every other entry unchanged, and the group stays keyed by record key |
| Forwarder.UseBaselineAppearance | FacegenBaseline/Program.cs:106-140 | after the field-by-field copy, with HeadParts and TintLayers cleared and refilled and the Protected flag OR-ed in conditionally, the group's entry for the winner's key is `ForwardAppearance` of the prior override (or of the winner) and every other entry is unchanged |
| FacegenBaseline.ProcessRecordCounts | FacegenBaseline/Program.cs:63-98 | a skipped record (null, already parsed, excluded) changes nothing; an examined one raises the sum of the three counters by exactly one (`ProcessRecordOutcome` says which counter); the parsed set only grows and keeps one UseBaseline or HasBetterFacegen count per key |
| FacegenBaseline.ProcessRecordWrites | FacegenBaseline/Program.cs:82-93 | one record step keeps the patch group keyed by record key and changes it only at a key that this step newly marks parsed |
| FacegenBaseline.ProcessRecordOutcome | FacegenBaseline/Program.cs:74-98 | an examined AlreadyWinning record increments only alreadyWins and is not marked parsed; UseBaseline marks the key, increments useBaseline and no other counter, and writes the forwarded override under the key; HasBetterFacegen marks the key, increments hasBetterFacegen and no other counter, and writes nothing |
| FacegenBaseline.ProcessRecordsInvariant | FacegenBaseline/Program.cs:63-99 | over one plugin's group: no more classifications than records, the record count untouched, the parsed set grows, one count per parsed key, writes only at parsed keys |
| FacegenBaseline.RunSourcesInvariant | FacegenBaseline/Program.cs:51-100 | over the baseline plugins: the sum of the three counters never exceeds the running record count, one count per parsed key, the parsed set grows, writes only at parsed keys |
| FacegenBaseline.RunSpecInvariant | FacegenBaseline/Program.cs:33-104 | an empty plugin list fails with nothing counted, parsed or written; every run keeps the sum of the counters at or below npcRecordsCount, one UseBaseline or HasBetterFacegen per parsed key, and changes the patch group only at parsed keys |
| FacegenBaseline.RunSourcesStops | FacegenBaseline/Program.cs:51-60 | the pass stops exactly when some plugin is not loaded, and then the error names the first such plugin |
| FacegenBaseline.RunCompletesIff | FacegenBaseline/Program.cs:41-60 | the pass completes exactly when the plugin list is non-empty and every plugin in it is loaded |
| FacegenBaseline.StoppedStaysStopped | FacegenBaseline/Program.cs:55-60 | after the pass stopped on a missing plugin, later plugins change nothing |
| FacegenBaseline.RunSourcesStep | FacegenBaseline/Program.cs:51-61 | one more iteration of the outer loop processes the next plugin from the state reached |
| FacegenBaseline.ProcessNpc | FacegenBaseline/Program.cs:63-98 | the inner loop body, with its `continue`s as early returns, ends in the state `ProcessRecord` describes, including the write to the patch group |
| FacegenBaseline.ProcessNpcs | FacegenBaseline/Program.cs:63-99 | the inner loop over a plugin's group ends in the state `ProcessRecords` describes |
| FacegenBaseline.ProcessBaselineMod | FacegenBaseline/Program.cs:54-99 | the outer loop body looks up the plugin, adds its group size to npcRecordsCount and processes its records, or reports that it is not loaded with nothing changed, as `ProcessSource` describes |
| FacegenBaseline.RunPatch | FacegenBaseline/Program.cs:33-104 | the pass fails on an empty list or on the first missing plugin, and otherwise returns the four counters; the patch group it leaves and the result it returns are those of `RunSpec`; on success the three counters sum to at most npcRecordsCount |
| Scenarios.SwappedHeadPartsUseBaseline | FacegenBaseline/Program.cs:86-88 | a master with head parts [x, y] and a winner from another plugin with [y, x] classify as UseBaseline |
| Scenarios.OnlyHeadPartsCompared | FacegenBaseline/Program.cs:85-93 | a winner that changed only its head texture still classifies as UseBaseline |
| Scenarios.UseBaselineScenario | FacegenBaseline/Program.cs:51-93 | one plugin, one record whose winner kept the master's head parts: counters (1, 0, 1, 0), the key parsed, and the forwarded override written |
| Scenarios.HasBetterFacegenScenario | FacegenBaseline/Program.cs:51-98 | one plugin, one record whose winner resolves to other head parts: counters (1, 0, 0, 1), the key parsed, nothing written |
| Scenarios.AlreadyWinningScenario | FacegenBaseline/Program.cs:51-80 | one plugin whose own version wins: counters (1, 1, 0, 0), the key not parsed, nothing written |
| Scenarios.AlreadyWinningCountedAgain | FacegenBaseline/Program.cs:66-92 | two plugins with the same record, the first winning: counted once as AlreadyWinning and once more as UseBaseline, with the second plugin's appearance forwarded onto the first's version |
| Scenarios.FirstBaselineWins | FacegenBaseline/Program.cs:66-93 | two plugins with the same record won by a third: the first plugin's appearance is forwarded and the second plugin's version is skipped |

## Left out

- `Main` and the Synthesis pipeline setup (Program.cs:24-31) are framework plumbing. They are not part of this model.
- The lazily loaded settings and the patcher-state singletons (Program.cs:16-23) become explicit parameters: `Settings`, the load order, the link cache and the `PatchMod`.
- All console output (Program.cs:47, 57, 77, 90, 96, 102) is informational I/O and is not modelled.
- Mutagen's link cache is abstract:
  - `ResolveAllContexts` is a given function from a key to a non-empty chain of versions of that key;
  - `TryResolve` is a given function from a link to an optional target key.
  - The cache is fixed for the run. The patch plugin's own overrides are not fed back into it.
- Plugin loading and parsing are not modelled. The load order is a map from plugin name to an optional plugin with an NPC group.
- `DeepCopy` is not needed. Datatype values are never shared, so each copy is already independent.
- Height, Weight and the other floats are opaque 32-bit patterns that are only copied.
- Only the Protected bit (0x800) of the configuration flags is interpreted. The other configuration fields and the rest of the record are an opaque `OtherNpcData`.
- Plugin names are taken as already normalised and compared exactly, both as load-order keys and against the winner's plugin. Mutagen compares plugin names ignoring case, so a configured "skyrim.esm" would find a loaded "Skyrim.esm", but in the model it fails with `BaselineNotLoaded`.
- A null keyword in the list is not modelled; keywords are strings. The code would skip it as blank.
- `HashSet` iteration order of `BaselineMods` is taken as the given sequence. Its entries are not required to be distinct.
- The patch override is a value. It is read with `GetOrAddAsOverride`, edited field by field, and stored back with `SetOverride`. The in-place mutation through a shared reference is not modelled as aliasing.
- An exception thrown on a missing plugin is the error `BaselineNotLoaded`. A thrown exception would also skip the final summary line.
- FacegenBaseline.RunPatch: the counters are unbounded. The `uint` counters and the `int` record count would wrap around above 2^32 - 1 and 2^31 - 1 records, which is not modelled.
