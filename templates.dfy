/**
 * The two merges onto loaded templates: `create_template_card` projects six
 * fields of a card onto a copy of the card template, and
 * `create_list_template` fills three fields of a copy of the list template
 * to make the manifest. Both templates are inputs (possibly empty objects)
 * and are never changed: each merge starts from a copy.
 */
module Templates {
  import opened Json

  /** The six card fields that are overwritten, each with the default used when the card lacks it. */
  const CardFieldDefaults: map<string, JSON> := map[
    "CardID" := JNum(0),
    "CustomDeck" := JObj(map[]),
    "GMNotes" := JStr(""),
    "GUID" := JStr(""),
    "Nickname" := JStr(""),
    "SidewaysCard" := JBool(false)
  ]

  /** The templated card: the card's six fields (or their defaults) over the card template. */
  function TemplateCard(template: Obj, card: Obj): Obj
  {
    template + map[
      "CardID" := Get(card, "CardID", JNum(0)),
      "CustomDeck" := Get(card, "CustomDeck", JObj(map[])),
      "GMNotes" := Get(card, "GMNotes", JStr("")),
      "GUID" := Get(card, "GUID", JStr("")),
      "Nickname" := Get(card, "Nickname", JStr("")),
      "SidewaysCard" := Get(card, "SidewaysCard", JBool(false))
    ]
  }

  /**
   * What the templated card holds: exactly the template's keys plus the six
   * fields; each of the six taken from the card when present, else its
   * default; every other key as in the template.
   */
  lemma TemplateCardFields(template: Obj, card: Obj)
    ensures TemplateCard(template, card).Keys == template.Keys + CardFieldDefaults.Keys
    ensures forall k :: k in CardFieldDefaults ==>
      TemplateCard(template, card)[k] == if k in card then card[k] else CardFieldDefaults[k]
    ensures forall k :: k in template && k !in CardFieldDefaults ==> TemplateCard(template, card)[k] == template[k]
  {
    TemplateCardKeys(template, card);
    TemplateCardOverwritten(template, card);
    TemplateCardKept(template, card);
  }

  lemma TemplateCardKeys(template: Obj, card: Obj)
    ensures TemplateCard(template, card).Keys == template.Keys + CardFieldDefaults.Keys
  {
  }

  lemma TemplateCardOverwritten(template: Obj, card: Obj)
    ensures forall k :: k in CardFieldDefaults ==> TemplateCard(template, card)[k] == Get(card, k, CardFieldDefaults[k])
  {
  }

  lemma TemplateCardKept(template: Obj, card: Obj)
    ensures forall k :: k in template && k !in CardFieldDefaults ==> TemplateCard(template, card)[k] == template[k]
  {
  }

  lemma UpdateOverUnion(m: Obj, f: Obj, k: string, v: JSON)
    ensures (m + f)[k := v] == m + f[k := v]
  {
  }

  /** `create_template_card`: copy the template, then assign the six fields one by one. */
  method CreateTemplateCard(template: Obj, card: Obj) returns (t: Obj)
    ensures t == TemplateCard(template, card)
  {
    var cardId := Get(card, "CardID", JNum(0));
    var deck := Get(card, "CustomDeck", JObj(map[]));
    var notes := Get(card, "GMNotes", JStr(""));
    var guid := Get(card, "GUID", JStr(""));
    var nickname := Get(card, "Nickname", JStr(""));
    var sideways := Get(card, "SidewaysCard", JBool(false));
    t := template;
    assert t == template + map[];
    t := t["CardID" := cardId];
    UpdateOverUnion(template, map[], "CardID", cardId);
    t := t["CustomDeck" := deck];
    UpdateOverUnion(template, map["CardID" := cardId], "CustomDeck", deck);
    t := t["GMNotes" := notes];
    UpdateOverUnion(template, map["CardID" := cardId, "CustomDeck" := deck], "GMNotes", notes);
    t := t["GUID" := guid];
    UpdateOverUnion(template, map["CardID" := cardId, "CustomDeck" := deck, "GMNotes" := notes], "GUID", guid);
    t := t["Nickname" := nickname];
    UpdateOverUnion(template, map["CardID" := cardId, "CustomDeck" := deck, "GMNotes" := notes, "GUID" := guid],
      "Nickname", nickname);
    t := t["SidewaysCard" := sideways];
    UpdateOverUnion(template,
      map["CardID" := cardId, "CustomDeck" := deck, "GMNotes" := notes, "GUID" := guid, "Nickname" := nickname],
      "SidewaysCard", sideways);
  }

  const OrderKey: string := "ContainedObjects_order"
  const PathKey: string := "ContainedObjects_path"
  const GuidKey: string := "GUID"

  /** A list of strings as a JSON array. */
  function StringArray(ss: seq<string>): (r: seq<JSON>)
    ensures |r| == |ss|
    ensures forall i :: 0 <= i < |ss| ==> r[i] == JStr(ss[i])
  {
    seq(|ss|, i requires 0 <= i < |ss| => JStr(ss[i]))
  }

  /** The manifest: the list template with the stem order, the sub-directory name and the Bag's GUID. */
  function Manifest(template: Obj, path: string, bagGuid: JSON, cardFiles: seq<string>): (r: Obj)
    ensures r.Keys == template.Keys + {OrderKey, PathKey, GuidKey}
    ensures r[OrderKey] == JArr(StringArray(cardFiles))
    ensures r[PathKey] == JStr(path)
    ensures r[GuidKey] == bagGuid
    ensures forall k :: k in template && k !in {OrderKey, PathKey, GuidKey} ==> r[k] == template[k]
  {
    template + map[OrderKey := JArr(StringArray(cardFiles)), PathKey := JStr(path), GuidKey := bagGuid]
  }

  /** `create_list_template` without the file write: copy the list template and set three fields. */
  method CreateListTemplate(template: Obj, path: string, bagGuid: JSON, cardFiles: seq<string>)
    returns (manifest: Obj)
    ensures manifest == Manifest(template, path, bagGuid, cardFiles)
  {
    manifest := template;
    manifest := manifest[OrderKey := JArr(StringArray(cardFiles))];
    manifest := manifest[PathKey := JStr(path)];
    manifest := manifest[GuidKey := bagGuid];
  }
}
