/** The static `materialConfigs` table and the lookup that `onTextureChange` performs on it. */
module MaterialConfigs {
  import opened Wrappers
  import opened Search
  import opened Strings

  /** One selectable option: which variant to show, which material to retexture and with what. */
  datatype MaterialConfig = MaterialConfig(
    id: string,
    variant: string,
    materialName: string,   // a name prefix, resolved against the active materials
    texture: string,        // base name of the four texture files
    optionLabel: string)   // `label` in the source, a reserved word here

  /** The table, in source order; it is never changed after start-up. Its ids are distinct,
      and every entry retextures the material whose name starts with `body_`. */
  function Configs(): (table: seq<MaterialConfig>)
    ensures |table| == 3 && UniqueIds(table)
    ensures forall c :: c in table ==> c.materialName == "body_"
  {
    [
    MaterialConfig("mat-1", "shiny", "body_", "TexturesCom_Brick_BlocksPainted_Clean_512", "Blue&Shiny"),
    MaterialConfig("mat-2", "rough", "body_", "TexturesCom_Brick_Rustic2_512", "Rustic&Rough"),
    MaterialConfig("mat-3", "rough", "body_", "TexturesCom_Brick_BlocksPainted_Yellow_512", "Yellow&Rough")
    ]
  }

  /** The exception `onTextureChange` throws for an id with no entry. */
  datatype Error = ConfigNotFound(id: string)

  const MessageHead := "Material config with id "
  const MessageTail := " does not exist"

  /** The text of the thrown `Error`: it names the offending id. */
  function Message(e: Error): (msg: string)
    ensures StartsWith(msg, MessageHead)
    ensures OccursAt(msg, e.id, |MessageHead|)
    ensures Includes(msg, e.id)
    ensures msg[|MessageHead| + |e.id|..] == MessageTail
  {
    var msg := MessageHead + e.id + MessageTail;
    assert msg[|MessageHead|..|MessageHead| + |e.id|] == e.id;
    assert OccursAt(msg, e.id, |MessageHead|);
    msg
  }

  /** No two entries share an id. */
  predicate UniqueIds(configs: seq<MaterialConfig>)
  {
    forall i, j :: 0 <= i < j < |configs| ==> configs[i].id != configs[j].id
  }

  /** The first entry whose id equals `id`; `ConfigNotFound(id)` when there is none. */
  function FindConfig(configs: seq<MaterialConfig>, id: string): (r: Result<MaterialConfig, Error>)
    ensures r.Success? ==> r.value.id == id
    ensures r.Success? ==> exists i :: 0 <= i < |configs| && configs[i] == r.value &&
                                       forall j :: 0 <= j < i ==> configs[j].id != id
    ensures r.Failure? <==> forall c :: c in configs ==> c.id != id
    ensures r.Failure? ==> r.error == ConfigNotFound(id)
  {
    match Find(configs, (c: MaterialConfig) => c.id == id)
    case Some(c) => Success(c)
    case None => Failure(ConfigNotFound(id))
  }

  /** With unique ids, looking up an entry's own id gives back that entry. */
  lemma FindOwnId(configs: seq<MaterialConfig>, k: int)
    requires UniqueIds(configs) && 0 <= k < |configs|
    ensures FindConfig(configs, configs[k].id) == Success(configs[k])
  {
  }

  /** Every table entry is found by its own id. */
  lemma ConfigsFoundByOwnId(c: MaterialConfig)
    requires c in Configs()
    ensures FindConfig(Configs(), c.id) == Success(c)
  {
  }

  /** Any id other than the three table ids is rejected with that id. */
  lemma UnknownIdRejected(id: string)
    requires id != "mat-1" && id != "mat-2" && id != "mat-3"
    ensures FindConfig(Configs(), id) == Failure(ConfigNotFound(id))
  {
  }
}
