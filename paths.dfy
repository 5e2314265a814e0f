/** Texture locations derived from a config's texture base name. */
module TexturePaths {
  import opened Strings

  const TexturesPath := "textures/"

  const AlbedoSuffix := "_albedo.png"
  const NormalSuffix := "_normal.png"
  const RoughnessSuffix := "_roughness.png"
  const OcclusionSuffix := "_ao.png"

  /** The four files of one texture set. */
  datatype TextureUrls = TextureUrls(albedo: string, normal: string, metallicRoughness: string, occlusion: string)

  /** `texturesPath + texture`: the part every url of the set shares. */
  function MaterialTexturesUrl(texture: string): (base: string)
  {
    TexturesPath + texture
  }

  /** `url` is `textures/<texture>` followed by exactly `suffix`. */
  predicate IsUrlOf(url: string, texture: string, suffix: string)
  {
    var base := MaterialTexturesUrl(texture);
    |url| == |base| + |suffix| && StartsWith(url, base) && url[|base|..] == suffix
  }

  /** The four urls of a texture set: each is the shared base followed by its own suffix. */
  function DeriveUrls(texture: string): (u: TextureUrls)
    ensures IsUrlOf(u.albedo, texture, AlbedoSuffix)
    ensures IsUrlOf(u.normal, texture, NormalSuffix)
    ensures IsUrlOf(u.metallicRoughness, texture, RoughnessSuffix)
    ensures IsUrlOf(u.occlusion, texture, OcclusionSuffix)
  {
    var base := MaterialTexturesUrl(texture);
    TextureUrls(base + AlbedoSuffix, base + NormalSuffix, base + RoughnessSuffix, base + OcclusionSuffix)
  }

  /** The four urls of one set are pairwise distinct. */
  lemma UrlsDistinct(texture: string)
    ensures var u := DeriveUrls(texture);
      && u.albedo != u.normal && u.albedo != u.metallicRoughness && u.albedo != u.occlusion
      && u.normal != u.metallicRoughness && u.normal != u.occlusion
      && u.metallicRoughness != u.occlusion
  {
  }

  /** A url of a given kind determines the texture base name it was derived from. */
  lemma UrlDeterminesTexture(t1: string, t2: string, suffix: string)
    requires MaterialTexturesUrl(t1) + suffix == MaterialTexturesUrl(t2) + suffix
    ensures t1 == t2
  {
    var u := MaterialTexturesUrl(t1) + suffix;
    assert |t1| == |t2|;
    assert u[|TexturesPath|..|TexturesPath| + |t1|] == t1;
    assert (MaterialTexturesUrl(t2) + suffix)[|TexturesPath|..|TexturesPath| + |t2|] == t2;
  }

  /** Different texture base names never share a url. */
  lemma UrlsInjective(t1: string, t2: string)
    requires t1 != t2
    ensures var u1, u2 := DeriveUrls(t1), DeriveUrls(t2);
      && u1.albedo != u2.albedo && u1.normal != u2.normal
      && u1.metallicRoughness != u2.metallicRoughness && u1.occlusion != u2.occlusion
  {
    if DeriveUrls(t1).albedo == DeriveUrls(t2).albedo { UrlDeterminesTexture(t1, t2, AlbedoSuffix); }
    if DeriveUrls(t1).normal == DeriveUrls(t2).normal { UrlDeterminesTexture(t1, t2, NormalSuffix); }
    if DeriveUrls(t1).metallicRoughness == DeriveUrls(t2).metallicRoughness { UrlDeterminesTexture(t1, t2, RoughnessSuffix); }
    if DeriveUrls(t1).occlusion == DeriveUrls(t2).occlusion { UrlDeterminesTexture(t1, t2, OcclusionSuffix); }
  }
}
