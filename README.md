# Material texture switcher — a Dafny model

The repository is a small front end for a `<model-viewer>` web component. A `<select>`
offers three static material configurations. Choosing one runs `onTextureChange`, which
looks the selected id up in the `materialConfigs` table and calls `updateMaterials`.
That function derives four texture urls from the config's texture base name and finds
the first material that is active and whose name starts with the config's prefix. It
then creates four textures and sets each on the material slot its channel name selects.

This project models that core of `main.js`:

- `wrappers.dfy` (`Wrappers`): `Option`, `Result` and `Outcome`.
- `strings.dfy` (`Strings`): JavaScript's `startsWith` and `includes`.
- `search.dfy` (`Search`): `Array.prototype.find` as a first-match search.
- `configs.dfy` (`MaterialConfigs`): the `materialConfigs` table, the id lookup and the
  error it throws.
- `paths.dfy` (`TexturePaths`): `texturesPath` and the four url suffixes.
- `materials.dfy` (`Materials`): material slots, the channel-to-slot routing of
  `createAndApplyTexture`, `findActiveMaterial`, and the `Material` and `ModelViewer`
  objects whose state the switcher changes.
- `switcher.dfy` (`Switcher`): `updateMaterials` and `onTextureChange`.

A material's textures are a map from `Slot` to texture. A `Slot` is either top level
(`material[channel]`) or nested (`material.pbrMetallicRoughness[channel]`). The viewer's
`createTexture` is a parameter `createTexture: string -> Tex`. Nothing is assumed about
it, so every property holds for any texture loader.

Two behaviours of the code are worth stating up front:

- The comment at main.js:69-71 presents the `Promise.resolve` line as the correct way to
  switch the variant. But `Promise.resolve(() => modelViewer.variantName = variant)`
  (main.js:72) only wraps the arrow function and never calls it, and the direct assignment
  (main.js:68) is commented out. So `updateMaterials` never changes the variant.
  `UpdateMaterials` and `OnTextureChange` state that `variantName` is unchanged.
- `findActiveMaterial` returns `undefined` when no material matches. The code passes that
  value on to `createAndApplyTexture`, where the property access at main.js:37 or main.js:39
  fails. The model makes a found material a precondition of `UpdateMaterials` and
  `OnTextureChange`.

## Model

| member | source | states |
|---|---|---|
| `Strings.StartsWith` | main.js:46 | The character-by-character test holds exactly when `prefix` is no longer than `s` and equals the first `|prefix|` characters of `s` |
| `Strings.Includes` | main.js:36 | `includes` holds whenever `sub` is a prefix of `s`, and never when `sub` is longer than `s` |
| `Search.FindIndex` | main.js:44-51 | The result is the index of an element satisfying the predicate, and no earlier element satisfies it; `None` only when no element does |
| `Search.Find` | main.js:88-95 | `find` returns an element satisfying the predicate that sits at an index with no earlier match; it returns `None` exactly when no element matches |
| `MaterialConfigs.Configs` | main.js:10-32 | The table has three entries with pairwise distinct ids, and every entry targets materials named with the prefix `body_` |
| `MaterialConfigs.FindConfig` | main.js:86-99 | A lookup returns the first entry whose `id` equals the selected id. It fails with `ConfigNotFound(id)` exactly when no entry has that id |
| `MaterialConfigs.Message` | main.js:97-99 | The thrown message is "Material config with id ", then the offending id, then " does not exist" |
| `MaterialConfigs.FindOwnId` | main.js:88-95 | In a table with unique ids, looking up any entry's own id returns that entry |
| `MaterialConfigs.ConfigsFoundByOwnId` | main.js:10-32 | Every entry of the static table is found by its own id |
| `MaterialConfigs.UnknownIdRejected` | main.js:88-99 | Any id other than the three table ids is rejected with `ConfigNotFound` carrying that id |
| `TexturePaths.DeriveUrls` | main.js:59-63 | Each of the four urls is `"textures/" + texture` followed by exactly its own suffix: `_albedo.png`, `_normal.png`, `_roughness.png` or `_ao.png` |
| `TexturePaths.UrlsDistinct` | main.js:59-63 | The four urls of one texture set are pairwise distinct |
| `TexturePaths.UrlsInjective` | main.js:59-63 | Two different texture base names never yield the same url for any of the four kinds |
| `Materials.Route` | main.js:36-40 | The slot is keyed by the channel name itself, in the nested group or at top level |
| `Materials.NestedRoute` | main.js:36-37 | Any channel name containing `base` or `metallic` is written inside `pbrMetallicRoughness` |
| `Materials.PlainRoute` | main.js:38-39 | Any channel name containing neither `base` nor `metallic` is written to a top-level slot |
| `Materials.RouteInjective` | main.js:36-40 | Two channel names are routed to the same slot exactly when they are equal |
| `Materials.BaseColorRoute` | main.js:36-37 | `baseColorTexture` goes into the nested `pbrMetallicRoughness` group |
| `Materials.MetallicRoughnessRoute` | main.js:36-37 | `metallicRoughnessTexture` goes into the nested `pbrMetallicRoughness` group |
| `Materials.NormalRoute` | main.js:38-39 | `normalTexture` goes to a top-level slot |
| `Materials.OcclusionRoute` | main.js:38-39 | `occlusionTexture` goes to a top-level slot |
| `Materials.FindActiveMaterial` | main.js:43-52 | A returned material is in the list, active and prefixed, and no earlier material is both. `None` is returned exactly when no material is both |
| `Materials.CreateAndApplyTexture` | main.js:34-41 | The routed slot of the channel receives `createTexture(textureName)` and every other slot keeps its texture |
| `Materials.Applied` | main.js:76-83 | Applying a list of channel/url pairs to a material adds exactly the pairs' routed slots to its keys |
| `Materials.AppliedUntouched` | main.js:76-83 | A slot that no pair is routed to keeps its texture |
| `Materials.AppliedWritten` | main.js:76-83 | With distinct channels, each pair's slot ends holding the texture made from that pair's url, whatever the order of application |
| `Switcher.Assignments` | main.js:77-82 | `updateMaterials` passes four pairs with distinct channels. All four urls share the base `"textures/" + texture` and are pairwise distinct |
| `Switcher.AssignmentsShape` | main.js:77-82 | The four channels passed by `updateMaterials` are distinct. They are routed to nested base colour, top-level normal, nested metallic-roughness and top-level occlusion |
| `Switcher.UpdateWritesFourSlots` | main.js:56-83 | Applying a config sets albedo to base colour, normal to normal, roughness to metallic-roughness and ao to occlusion. Exactly those four slots are added and no other slot changes |
| `Switcher.UpdateMaterials` | main.js:56-84 | The first active, prefixed material ends with its old slots plus the four assignments; no other object and not the variant changes |
| `Switcher.OnTextureChange` | main.js:86-102 | An unknown id fails with `ConfigNotFound(id)` and changes no material. A known id updates the resolved material and leaves the others and the variant unchanged |
| `Switcher.Rustic2Urls` | main.js:22 | The Rustic2 texture set expands to `textures/TexturesCom_Brick_Rustic2_512_{albedo,normal,roughness,ao}.png` |
| `Switcher.Mat2Example` | main.js:18-24 | Selecting `mat-2` yields variant `rough`, prefix `body_` and the four Rustic2 urls, routed to base colour, normal, metallic-roughness and occlusion |

## Left out

- The DOM: the `style.css` import, building the `<select>` from the table and wiring the
  `change` listener (main.js:1, 103-118). These are I/O; `OnTextureChange` takes the selected
  value directly.
- Texture creation and loading (`modelViewer.createTexture`, `setTexture`): they belong to the
  `<model-viewer>` library, which is not part of this model. Creation is the parameter
  `createTexture`, a total function, so a failing load (a rejected promise) is not modelled.
- Asynchrony: `async`/`await` and `Promise.all` over the four texture assignments
  (main.js:76-83). They are modelled as a sequential loop. `AppliedWritten` shows that the
  order does not matter, because the four slots are distinct.
- A thrown exception inside the `async` handler becomes a rejected promise. The model returns
  `Fail(ConfigNotFound(id))` instead.
- `Switcher.UpdateMaterials`: when no active material's name starts with the prefix, the
  source fails with a `TypeError` at main.js:37/39. The member requires a found material
  rather than modelling that crash.
- `Switcher.OnTextureChange`: the same holds for a known id whose config prefix matches no
  active material; the member carries the same found-material requirement.
- Overlapping selections: two `change` events whose handlers both run interleave at their
  awaits (main.js:72, 76-83), so one material can end up with textures from two configs. The
  model runs one `OnTextureChange` to completion, so it cannot show such a mix.
- The `label` field is called `optionLabel`, because `label` is a reserved word in Dafny. It
  is only used by the `<select>` markup.
- The callbacks given to `find` return the element or `null`. Elements are objects, which are
  always truthy, so the callbacks are modelled as boolean predicates.
- JavaScript strings are UTF-16; here they are sequences of `char`, compared one by one.
