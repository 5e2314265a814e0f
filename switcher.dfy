/** `updateMaterials` and the `change` handler `onTextureChange`. */
module Switcher {
  import opened Wrappers
  import opened MaterialConfigs
  import opened TexturePaths
  import opened Materials
  import opened Strings

  /** The four `(channel, url)` pairs `updateMaterials` hands to `createAndApplyTexture`, in
      source order. */
  function Assignments(config: MaterialConfig): (pairs: seq<(string, string)>)
    ensures |pairs| == 4 && DistinctChannels(pairs)
    ensures forall k :: 0 <= k < |pairs| ==> StartsWith(pairs[k].1, MaterialTexturesUrl(config.texture))
    ensures forall i, j :: 0 <= i < j < |pairs| ==> pairs[i].1 != pairs[j].1
  {
    var urls := DeriveUrls(config.texture);
    UrlsDistinct(config.texture);
    [(BaseColor, urls.albedo), (Normal, urls.normal),
     (MetallicRoughness, urls.metallicRoughness), (Occlusion, urls.occlusion)]
  }

  /** The four slots a config writes. */
  const WrittenSlots: set<Slot> := {
    PbrMetallicRoughness(BaseColor), TopLevel(Normal),
    PbrMetallicRoughness(MetallicRoughness), TopLevel(Occlusion)
  }

  /** Every config names four different channels, routed to the four slots above. */
  lemma AssignmentsShape(config: MaterialConfig)
    ensures DistinctChannels(Assignments(config))
    ensures RoutedSlots(Assignments(config)) == WrittenSlots
  {
    var a := Assignments(config);
    BaseColorRoute();
    NormalRoute();
    MetallicRoughnessRoute();
    OcclusionRoute();
  }

  /** Applying a config: albedo goes to the nested base colour slot, normal to the top-level
      normal slot, roughness to the nested metallic-roughness slot and ao to the top-level
      occlusion slot; those four slots are added and no other slot changes. */
  lemma UpdateWritesFourSlots<Tex>(config: MaterialConfig, slots: map<Slot, Tex>, createTexture: string -> Tex)
    ensures var r, urls := Applied(slots, Assignments(config), createTexture), DeriveUrls(config.texture);
      && r.Keys == slots.Keys + WrittenSlots
      && r[PbrMetallicRoughness(BaseColor)] == createTexture(urls.albedo)
      && r[TopLevel(Normal)] == createTexture(urls.normal)
      && r[PbrMetallicRoughness(MetallicRoughness)] == createTexture(urls.metallicRoughness)
      && r[TopLevel(Occlusion)] == createTexture(urls.occlusion)
      && forall s :: s in slots && s !in WrittenSlots ==> r[s] == slots[s]
  {
    var a := Assignments(config);
    AssignmentsShape(config);
    BaseColorRoute();
    NormalRoute();
    MetallicRoughnessRoute();
    OcclusionRoute();
    AppliedWritten(slots, a, createTexture, 0);
    AppliedWritten(slots, a, createTexture, 1);
    AppliedWritten(slots, a, createTexture, 2);
    AppliedWritten(slots, a, createTexture, 3);
    forall s | s in slots && s !in WrittenSlots
      ensures Applied(slots, a, createTexture)[s] == slots[s]
    {
      AppliedUntouched(slots, a, createTexture, s);
    }
  }

  /** `updateMaterials`: resolve the active material for the config's name prefix and set
      the four textures on it. The variant is left as it was: the source wraps the
      assignment in an arrow function that is never called. */
  method UpdateMaterials<Tex>(viewer: ModelViewer<Tex>, config: MaterialConfig, createTexture: string -> Tex)
    requires FindActiveMaterial(viewer.materials, config.materialName).Some?
    modifies FindActiveMaterial(viewer.materials, config.materialName).value
    ensures var m := FindActiveMaterial(viewer.materials, config.materialName).value;
      m.slots == Applied(old(m.slots), Assignments(config), createTexture)
    ensures viewer.variantName == old(viewer.variantName)
  {
    var material := FindActiveMaterial(viewer.materials, config.materialName).value;
    var assignments := Assignments(config);
    var i := 0;
    while i < |assignments|
      invariant 0 <= i <= |assignments|
      invariant material.slots == Applied(old(material.slots), assignments[..i], createTexture)
    {
      assert assignments[..i + 1][..i] == assignments[..i];
      CreateAndApplyTexture(createTexture, material, assignments[i].0, assignments[i].1);
      i := i + 1;
    }
    assert assignments[..i] == assignments;
  }

  /** `onTextureChange`: look the selected id up in the table; an unknown id throws and
      touches nothing, a known one updates the resolved material and no other. */
  method OnTextureChange<Tex>(viewer: ModelViewer<Tex>, materialId: string, createTexture: string -> Tex)
    returns (r: Outcome<Error>)
    requires FindConfig(Configs(), materialId).Success? ==>
      FindActiveMaterial(viewer.materials, FindConfig(Configs(), materialId).value.materialName).Some?
    modifies set m: Material<Tex> | m in viewer.materials
    ensures r.Fail? <==> FindConfig(Configs(), materialId).Failure?
    ensures r.Fail? ==> r.error == ConfigNotFound(materialId)
    ensures r.Fail? ==> forall m :: m in viewer.materials ==> m.slots == old(m.slots)
    ensures r.Pass? ==>
      var config := FindConfig(Configs(), materialId).value;
      var target := FindActiveMaterial(viewer.materials, config.materialName).value;
      && target.slots == Applied(old(target.slots), Assignments(config), createTexture)
      && forall m :: m in viewer.materials && m != target ==> m.slots == old(m.slots)
    ensures viewer.variantName == old(viewer.variantName)
  {
    match FindConfig(Configs(), materialId)
    case Failure(e) =>
      r := Fail(e);
    case Success(config) =>
      UpdateMaterials(viewer, config, createTexture);
      r := Pass;
  }

  /** The urls of the Rustic2 texture set, spelled out. */
  lemma Rustic2Urls()
    ensures DeriveUrls("TexturesCom_Brick_Rustic2_512") == TextureUrls(
      "textures/TexturesCom_Brick_Rustic2_512_albedo.png",
      "textures/TexturesCom_Brick_Rustic2_512_normal.png",
      "textures/TexturesCom_Brick_Rustic2_512_roughness.png",
      "textures/TexturesCom_Brick_Rustic2_512_ao.png")
  {
    var base := MaterialTexturesUrl("TexturesCom_Brick_Rustic2_512");
    assert base == "textures/TexturesCom_Brick_Rustic2_512";
    assert base + AlbedoSuffix == "textures/TexturesCom_Brick_Rustic2_512_albedo.png";
    assert base + NormalSuffix == "textures/TexturesCom_Brick_Rustic2_512_normal.png";
    assert base + RoughnessSuffix == "textures/TexturesCom_Brick_Rustic2_512_roughness.png";
    assert base + OcclusionSuffix == "textures/TexturesCom_Brick_Rustic2_512_ao.png";
  }

  /** Selecting "mat-2" picks variant "rough", the prefix "body_" and the four Rustic2 urls,
      routed to base colour, normal, metallic-roughness and occlusion. */
  lemma Mat2Example()
    ensures FindConfig(Configs(), "mat-2").Success?
    ensures var config := FindConfig(Configs(), "mat-2").value;
      && config.variant == "rough"
      && config.materialName == "body_"
      && Assignments(config) == [
        ("baseColorTexture", "textures/TexturesCom_Brick_Rustic2_512_albedo.png"),
        ("normalTexture", "textures/TexturesCom_Brick_Rustic2_512_normal.png"),
        ("metallicRoughnessTexture", "textures/TexturesCom_Brick_Rustic2_512_roughness.png"),
        ("occlusionTexture", "textures/TexturesCom_Brick_Rustic2_512_ao.png")]
      && [Route(BaseColor), Route(Normal), Route(MetallicRoughness), Route(Occlusion)] ==
         [PbrMetallicRoughness("baseColorTexture"), TopLevel("normalTexture"),
          PbrMetallicRoughness("metallicRoughnessTexture"), TopLevel("occlusionTexture")]
  {
    ConfigsFoundByOwnId(Configs()[1]);
    Rustic2Urls();
    BaseColorRoute();
    NormalRoute();
    MetallicRoughnessRoute();
    OcclusionRoute();
  }
}
