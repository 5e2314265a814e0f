/** Materials of the loaded model, how a channel name picks a texture slot, and the
    single texture assignment `createAndApplyTexture`. */
module Materials {
  import opened Wrappers
  import opened Strings
  import opened Search

  /** A texture slot: top level on the material, or inside its `pbrMetallicRoughness` group. */
  datatype Slot = TopLevel(channel: string) | PbrMetallicRoughness(channel: string)

  /** The slot a channel name is written to: nested when the name contains `base` or `metallic`. */
  function Route(channel: string): (slot: Slot)
    ensures slot.channel == channel
  {
    if Includes(channel, "base") || Includes(channel, "metallic") then PbrMetallicRoughness(channel)
    else TopLevel(channel)
  }

  /** Two channel names share a slot only when they are the same name. */
  lemma RouteInjective(a: string, b: string)
    ensures Route(a) == Route(b) <==> a == b
  {
  }

  /** A channel name containing `base` or `metallic` is written inside `pbrMetallicRoughness`. */
  lemma NestedRoute(channel: string)
    requires Includes(channel, "base") || Includes(channel, "metallic")
    ensures Route(channel) == PbrMetallicRoughness(channel)
  {
  }

  /** A channel name containing neither `base` nor `metallic` is written at top level. */
  lemma PlainRoute(channel: string)
    requires !Includes(channel, "base") && !Includes(channel, "metallic")
    ensures Route(channel) == TopLevel(channel)
  {
  }

  /** A string in which `sub` does not occur as a contiguous run. */
  lemma NotIncludes(s: string, sub: string, k: nat)
    requires 0 < k < |sub|
    requires forall i :: 0 <= i && i + k < |s| ==> s[i] != sub[0] || s[i + k] != sub[k]
    ensures !Includes(s, sub)
  {
    forall i | 0 <= i && i + |sub| <= |s| ensures !OccursAt(s, sub, i) {
      assert s[i..i + |sub|][0] == s[i] && s[i..i + |sub|][k] == s[i + k];
    }
  }

  const BaseColor := "baseColorTexture"
  const Normal := "normalTexture"
  const MetallicRoughness := "metallicRoughnessTexture"
  const Occlusion := "occlusionTexture"

  lemma BaseColorRoute()
    ensures Route(BaseColor) == PbrMetallicRoughness(BaseColor)
  {
  }

  lemma MetallicRoughnessRoute()
    ensures Route(MetallicRoughness) == PbrMetallicRoughness(MetallicRoughness)
  {
  }

  /** A sufficient test for `PlainRoute` that is cheap on literal names: no "ba" and no "me". */
  lemma NoPairRoute(channel: string)
    requires forall i :: 0 <= i && i + 1 < |channel| ==> channel[i] != 'b' || channel[i + 1] != 'a'
    requires forall i :: 0 <= i && i + 1 < |channel| ==> channel[i] != 'm' || channel[i + 1] != 'e'
    ensures Route(channel) == TopLevel(channel)
  {
    NotIncludes(channel, "base", 1);
    NotIncludes(channel, "metallic", 1);
    PlainRoute(channel);
  }

  lemma NormalRoute()
    ensures Route(Normal) == TopLevel(Normal)
  {
    NoPairRoute(Normal);
  }

  lemma OcclusionRoute()
    ensures Route(Occlusion) == TopLevel(Occlusion)
  {
    NoPairRoute(Occlusion);
  }

  /** A material of the model: its name and activity are fixed by the viewer; its slots
      are what the switcher writes. */
  class Material<Tex> {
    const name: string
    const isActive: bool
    var slots: map<Slot, Tex>

    constructor (name: string, isActive: bool, slots: map<Slot, Tex>)
      ensures this.name == name && this.isActive == isActive && this.slots == slots
    {
      this.name := name;
      this.isActive := isActive;
      this.slots := slots;
    }
  }

  /** The `<model-viewer>` element as far as the switcher touches it. */
  class ModelViewer<Tex> {
    var variantName: string
    const materials: seq<Material<Tex>>

    constructor (variantName: string, materials: seq<Material<Tex>>)
      ensures this.variantName == variantName && this.materials == materials
    {
      this.variantName := variantName;
      this.materials := materials;
    }
  }

  /** The test `findActiveMaterial` applies to each material. */
  predicate IsActiveMatch<Tex>(m: Material<Tex>, prefix: string)
  {
    m.isActive && StartsWith(m.name, prefix)
  }

  /** The first active material whose name starts with `prefix`, or `None`. */
  function FindActiveMaterial<Tex>(materials: seq<Material<Tex>>, prefix: string): (r: Option<Material<Tex>>)
    ensures r.Some? ==> r.value in materials && r.value.isActive && StartsWith(r.value.name, prefix)
    ensures r.Some? ==> exists i :: 0 <= i < |materials| && materials[i] == r.value &&
                                    forall j :: 0 <= j < i ==> !IsActiveMatch(materials[j], prefix)
    ensures r.None? <==> forall m :: m in materials ==> !(m.isActive && StartsWith(m.name, prefix))
  {
    Find(materials, (m: Material<Tex>) => IsActiveMatch(m, prefix))
  }

  /** `createAndApplyTexture`: create the texture for `textureName` and set it on the
      channel's slot; nothing else of the material changes. */
  method CreateAndApplyTexture<Tex>(createTexture: string -> Tex, material: Material<Tex>, channel: string, textureName: string)
    modifies material
    ensures material.slots == old(material.slots)[Route(channel) := createTexture(textureName)]
  {
    var texture := createTexture(textureName);
    material.slots := material.slots[Route(channel) := texture];
  }

  /** The slots the pairs write to. */
  function RoutedSlots(assignments: seq<(string, string)>): (written: set<Slot>)
  {
    set p | p in assignments :: Route(p.0)
  }

  /** Appending one pair adds its slot to the routed slots. */
  lemma RoutedSlotsSnoc(assignments: seq<(string, string)>)
    requires assignments != []
    ensures var n := |assignments| - 1;
      RoutedSlots(assignments) == RoutedSlots(assignments[..n]) + {Route(assignments[n].0)}
  {
  }

  /** The slots after applying `(channel, url)` pairs one after another: the material gains
      exactly the pairs' routed slots. */
  function Applied<Tex>(slots: map<Slot, Tex>, assignments: seq<(string, string)>, createTexture: string -> Tex): (r: map<Slot, Tex>)
    ensures r.Keys == slots.Keys + RoutedSlots(assignments)
  {
    if assignments == [] then slots
    else
      var n := |assignments| - 1;
      RoutedSlotsSnoc(assignments);
      Applied(slots, assignments[..n], createTexture)[Route(assignments[n].0) := createTexture(assignments[n].1)]
  }

  /** No channel appears twice. */
  predicate DistinctChannels(assignments: seq<(string, string)>)
  {
    forall i, j :: 0 <= i < j < |assignments| ==> assignments[i].0 != assignments[j].0
  }

  /** Slots no pair is routed to keep their texture. */
  lemma {:induction false} AppliedUntouched<Tex>(slots: map<Slot, Tex>, assignments: seq<(string, string)>, createTexture: string -> Tex, s: Slot)
    requires s in slots && s !in RoutedSlots(assignments)
    ensures s in Applied(slots, assignments, createTexture)
    ensures Applied(slots, assignments, createTexture)[s] == slots[s]
  {
    if assignments != [] {
      RoutedSlotsSnoc(assignments);
      AppliedUntouched(slots, assignments[..|assignments| - 1], createTexture, s);
    }
  }

  /** With distinct channels, each pair's slot ends up holding the texture of that pair's url,
      whatever order the pairs are applied in. */
  lemma {:induction false} AppliedWritten<Tex>(slots: map<Slot, Tex>, assignments: seq<(string, string)>, createTexture: string -> Tex, k: int)
    requires DistinctChannels(assignments) && 0 <= k < |assignments|
    ensures Route(assignments[k].0) in Applied(slots, assignments, createTexture)
    ensures Applied(slots, assignments, createTexture)[Route(assignments[k].0)] == createTexture(assignments[k].1)
  {
    var n := |assignments| - 1;
    if k < n {
      var init := assignments[..n];
      assert DistinctChannels(init);
      assert init[k] == assignments[k];
      AppliedWritten(slots, init, createTexture, k);
      RouteInjective(assignments[k].0, assignments[n].0);
    }
  }
}
