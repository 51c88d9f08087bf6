/** The record data of the patcher: plugin and record keys, links, the NPC record with
    its appearance fields, the configuration of a run, the load order and the link cache. */
module Records {

  datatype Option<T> = None | Some(value: T)

  datatype Result<T, E> = Ok(value: T) | Err(error: E)

  /** A plugin file name, such as "Skyrim.esm". */
  type ModKey = string

  /** The stable identity of one record across all plugins: the plugin that first
      defined it and its index inside that plugin. */
  datatype FormKey = FormKey(origin: ModKey, id: nat)

  /** A reference from one record to another, possibly null. */
  datatype FormLink = NullLink | Link(target: FormKey)

  /** A single-precision float kept as its bit pattern; it is only copied, never computed with. */
  datatype Float32 = Float32(bits: bv32)

  datatype Color = Color(red: bv8, green: bv8, blue: bv8, alpha: bv8)

  /** The face morph sliders of an NPC. */
  datatype FaceMorph = FaceMorph(sliders: seq<Float32>)

  /** The face part indices of an NPC. */
  datatype FaceParts = FaceParts(nose: bv32, unknown: bv32, eyes: bv32, mouth: bv32)

  datatype TintLayer = TintLayer(index: Option<int>, color: Option<Color>, interpolation: Option<Float32>, preset: Option<int>)

  /** Everything in an NPC record that the patcher neither reads nor writes,
      including the configuration fields other than the flags. */
  datatype OtherNpcData = OtherNpcData(name: Option<string>, subrecords: seq<bv8>)

  /** An NPC record. The fields from faceMorph to wornArmor are the appearance fields
      that are forwarded; configurationFlags holds the configuration flag word. */
  datatype Npc = Npc(
    formKey: FormKey,
    editorID: Option<string>,
    faceMorph: Option<FaceMorph>,
    faceParts: Option<FaceParts>,
    farAwayModel: FormLink,
    hairColor: FormLink,
    headParts: seq<FormLink>,
    headTexture: FormLink,
    height: Float32,
    race: FormLink,
    textureLighting: Option<Color>,
    tintLayers: seq<TintLayer>,
    weight: Float32,
    wornArmor: FormLink,
    configurationFlags: set<FlagBit>,
    other: OtherNpcData)

  /** A bit position of the 32-bit NPC configuration flag word; a flag word is the set
      of its bits that are set. */
  type FlagBit = b: nat | b < 32

  /** The Protected flag, 0x800 in the flag word. */
  const PROTECTED: FlagBit := 11

  predicate IsProtected(n: Npc) {
    PROTECTED in n.configurationFlags
  }

  /** The run's configuration: the baseline plugins in iteration order, the EditorID
      exclusion keywords, and whether the Protected flag is forwarded. */
  datatype Settings = Settings(baselineMods: seq<ModKey>, excludeKeywords: seq<string>, getProtectedFlag: bool)

  /** A plugin's NPC group; an entry may be null. */
  datatype SkyrimMod = SkyrimMod(npcs: seq<Option<Npc>>)

  /** A load-order entry; the plugin itself may be missing. */
  datatype ModListing = ModListing(mod: Option<SkyrimMod>)

  type LoadOrder = map<ModKey, ModListing>

  /** The NPC group of a loaded baseline plugin, or None when the load order has no
      entry for it or the entry has no plugin. */
  function FindSource(loadOrder: LoadOrder, key: ModKey): (r: Option<seq<Option<Npc>>>) {
    if key in loadOrder && loadOrder[key].mod.Some? then Some(loadOrder[key].mod.value.npcs) else None
  }

  /** One entry of an override chain: the plugin that supplies a version of a record. */
  datatype Context = Context(modKey: ModKey, record: Npc)

  /** The two services of the link cache the patcher uses: the override chain of a
      key (winner first, master last) and the resolution of a head-part link to the
      identity of its target, None when it does not resolve. */
  datatype LinkCacheData = LinkCacheData(contexts: FormKey -> seq<Context>, resolve: FormLink -> Option<FormKey>)

  /** Every chain the cache returns is non-empty and holds versions of the requested key. */
  ghost predicate ChainsWellFormed(c: LinkCacheData) {
    forall k :: |c.contexts(k)| > 0 &&
      forall i :: 0 <= i < |c.contexts(k)| ==> c.contexts(k)[i].record.formKey == k
  }

  function BlankNpc(k: FormKey): (r: Npc) {
    Npc(k, None, None, None, NullLink, NullLink, [], NullLink, Float32(0), NullLink, None, [], Float32(0), NullLink, {},
        OtherNpcData(None, []))
  }

  type LinkCache = c: LinkCacheData | ChainsWellFormed(c)
    witness LinkCacheData(k => [Context("", BlankNpc(k))], l => None)
}
