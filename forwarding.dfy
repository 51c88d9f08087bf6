/** The appearance forwarder: the patch plugin's NPC group and the copying of a
    baseline record's appearance onto the override of the winning record. */
module Forwarder {
  import opened Records

  /** The appearance fields of an NPC that the patcher forwards. */
  datatype Appearance = Appearance(
    faceMorph: Option<FaceMorph>,
    faceParts: Option<FaceParts>,
    farAwayModel: FormLink,
    hairColor: FormLink,
    headParts: seq<FormLink>,
    headTexture: FormLink,
    height: Float32,
    race: FormLink,
    textureLighting: Option<Color>,
    tintLayers: seq<TintLayer>,
    weight: Float32,
    wornArmor: FormLink)

  function AppearanceOf(n: Npc): (r: Appearance) {
    Appearance(n.faceMorph, n.faceParts, n.farAwayModel, n.hairColor, n.headParts, n.headTexture,
               n.height, n.race, n.textureLighting, n.tintLayers, n.weight, n.wornArmor)
  }

  /** Everything of an NPC outside its appearance, with the Protected bit masked out
      of the configuration flags. */
  datatype Identity = Identity(formKey: FormKey, editorID: Option<string>, otherFlags: set<FlagBit>, other: OtherNpcData)

  function IdentityOf(n: Npc): (r: Identity) {
    Identity(n.formKey, n.editorID, n.configurationFlags - {PROTECTED}, n.other)
  }

  /** A record is fully known from its appearance, its identity and its Protected bit. */
  lemma RecordDetermined(a: Npc, b: Npc)
    requires AppearanceOf(a) == AppearanceOf(b) && IdentityOf(a) == IdentityOf(b)
    requires IsProtected(a) == IsProtected(b)
    ensures a == b
  {
    assert a.configurationFlags == b.configurationFlags by {
      assert a.configurationFlags == (a.configurationFlags - {PROTECTED}) + (a.configurationFlags * {PROTECTED});
      assert b.configurationFlags == (b.configurationFlags - {PROTECTED}) + (b.configurationFlags * {PROTECTED});
    }
  }

  /** The override's state after forwarding: target is the override obtained for the
      winner, baseline the baseline plugin's version of the record. */
  function ForwardAppearance(target: Npc, baseline: Npc, getProtectedFlag: bool): (r: Npc)
    ensures AppearanceOf(r) == AppearanceOf(baseline)
    ensures IdentityOf(r) == IdentityOf(target)
    ensures IsProtected(r) <==> IsProtected(target) || (getProtectedFlag && IsProtected(baseline))
    ensures target.configurationFlags <= r.configurationFlags
  {
    var copied := target.(
      faceMorph := baseline.faceMorph, faceParts := baseline.faceParts,
      farAwayModel := baseline.farAwayModel, hairColor := baseline.hairColor,
      headParts := baseline.headParts, headTexture := baseline.headTexture,
      height := baseline.height, race := baseline.race, textureLighting := baseline.textureLighting,
      tintLayers := baseline.tintLayers, weight := baseline.weight, wornArmor := baseline.wornArmor);
    if getProtectedFlag && IsProtected(baseline) then
      copied.(configurationFlags := copied.configurationFlags + {PROTECTED})
    else copied
  }

  /** Forwarding the same baseline twice gives the same record as forwarding it once. */
  lemma ForwardIdempotent(target: Npc, baseline: Npc, getProtectedFlag: bool)
    ensures var once := ForwardAppearance(target, baseline, getProtectedFlag);
            ForwardAppearance(once, baseline, getProtectedFlag) == once
  {
  }

  /** Every key of a record group names a record with that key. */
  ghost predicate GroupValid(npcs: map<FormKey, Npc>) {
    forall k :: k in npcs ==> npcs[k].formKey == k
  }

  /** The record the override starts from: the group's existing override, else the winner. */
  function OverrideBase(npcs: map<FormKey, Npc>, winner: Npc): (r: Npc)
    ensures GroupValid(npcs) ==> r.formKey == winner.formKey
    ensures winner.formKey in npcs ==> r == npcs[winner.formKey]
    ensures winner.formKey !in npcs ==> r == winner
  {
    if winner.formKey in npcs then npcs[winner.formKey] else winner
  }

  /** The patch plugin's NPC group: at most one override per key. */
  class PatchMod {
    var npcs: map<FormKey, Npc>

    ghost predicate Valid()
      reads this
    {
      GroupValid(npcs)
    }

    constructor ()
      ensures Valid() && npcs == map[]
    {
      npcs := map[];
    }

    /** The override of rec already in the group, or a copy of rec added to it. */
    method GetOrAddAsOverride(rec: Npc) returns (o: Npc)
      requires Valid()
      modifies this
      ensures Valid()
      ensures o == OverrideBase(old(npcs), rec)
      ensures npcs == old(npcs)[rec.formKey := o]
    {
      if rec.formKey in npcs {
        o := npcs[rec.formKey];
      } else {
        o := rec;
        npcs := npcs[rec.formKey := o];
      }
    }

    /** Stores the changed override back under its key. */
    method SetOverride(o: Npc)
      requires Valid()
      modifies this
      ensures Valid()
      ensures npcs == old(npcs)[o.formKey := o]
    {
      npcs := npcs[o.formKey := o];
    }
  }

  /** Copies the baseline record's appearance onto the patch's override of the winner,
      field by field; head parts and tint layers are cleared and then refilled. */
  method UseBaselineAppearance(patch: PatchMod, baselineNpc: Npc, currentWinner: Npc, getProtectedFlag: bool)
    requires patch.Valid()
    modifies patch
    ensures patch.Valid()
    ensures patch.npcs == old(patch.npcs)[currentWinner.formKey :=
              ForwardAppearance(OverrideBase(old(patch.npcs), currentWinner), baselineNpc, getProtectedFlag)]
  {
    var synthesisNpc := patch.GetOrAddAsOverride(currentWinner);
    synthesisNpc := synthesisNpc.(faceMorph := baselineNpc.faceMorph);
    synthesisNpc := synthesisNpc.(faceParts := baselineNpc.faceParts);
    synthesisNpc := synthesisNpc.(farAwayModel := baselineNpc.farAwayModel);
    synthesisNpc := synthesisNpc.(hairColor := baselineNpc.hairColor);
    synthesisNpc := synthesisNpc.(headParts := []);
    synthesisNpc := synthesisNpc.(headParts := synthesisNpc.headParts + baselineNpc.headParts);
    assert synthesisNpc.headParts == baselineNpc.headParts;
    synthesisNpc := synthesisNpc.(headTexture := baselineNpc.headTexture);
    synthesisNpc := synthesisNpc.(height := baselineNpc.height);
    synthesisNpc := synthesisNpc.(race := baselineNpc.race);
    synthesisNpc := synthesisNpc.(textureLighting := baselineNpc.textureLighting);
    synthesisNpc := synthesisNpc.(tintLayers := []);
    synthesisNpc := synthesisNpc.(tintLayers := synthesisNpc.tintLayers + baselineNpc.tintLayers);
    assert synthesisNpc.tintLayers == baselineNpc.tintLayers;
    synthesisNpc := synthesisNpc.(weight := baselineNpc.weight);
    synthesisNpc := synthesisNpc.(wornArmor := baselineNpc.wornArmor);
    if getProtectedFlag && IsProtected(baselineNpc) {
      synthesisNpc := synthesisNpc.(configurationFlags := synthesisNpc.configurationFlags + {PROTECTED});
    }
    patch.SetOverride(synthesisNpc);
  }
}
