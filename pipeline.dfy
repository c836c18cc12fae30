/**
 * `process_source_file` for one parsed source document, with the file
 * system taken out: the document is an input, and what the function would
 * write (card bodies, the rewritten document, the manifest) is returned in
 * an `Outcome`. The early returns of the source are outcomes of their own.
 */
module Pipeline {
  import opened Json
  import Names
  import Guids
  import Templates
  import opened Locator
  import opened CardLoop
  import CardLoopFacts

  /**
   * How one call ends.
   *  - `Crashed`: Python raised; the card files written before the raise
   *    are listed by stem and body, and nothing else was written.
   *  - `NoBag`, `EmptyBagGuid`, `NoCards`: the three early returns; nothing
   *    is written.
   *  - `Processed`: the card files, the rewritten source document, the
   *    sub-directory name, the manifest, and the oracle draws used.
   */
  datatype Outcome =
    | Crashed(cardFiles: seq<string>, written: seq<Obj>)
    | NoBag
    | EmptyBagGuid
    | NoCards
    | Processed(document: JSON, subdir: string, cardFiles: seq<string>, written: seq<Obj>,
                manifest: Obj, draws: nat)

  const ChildrenKey: string := "ContainedObjects"

  /** The Bag the locator found. */
  function BagOf(doc: JSON): Obj
    requires FindBag(doc).Found?
  {
    States(doc)[FindBag(doc).index].obj
  }

  /** `bag_object.get("GUID", "")`. */
  function BagGuid(doc: JSON): JSON
    requires FindBag(doc).Found?
  {
    Get(BagOf(doc), "GUID", JStr(""))
  }

  /** `bag_object.get("ContainedObjects", [])`. */
  function Children(doc: JSON): JSON
    requires FindBag(doc).Found?
  {
    Get(BagOf(doc), ChildrenKey, JArr([]))
  }

  /** `f"{source_file.stem}.{bag_guid}"`, taken as the name of the output sub-directory. */
  function SubdirName(stem: string, bagGuid: JSON): string
  {
    stem + "." + Str(bagGuid)
  }

  /** `bag_object["ContainedObjects"] = updated_cards`, seen from the document that holds the Bag. */
  function WithChildren(doc: JSON, b: nat, cards: seq<Obj>): JSON
    requires HasStates(doc) && b < |States(doc)| && States(doc)[b].JObj?
  {
    var bag := States(doc)[b].obj[ChildrenKey := JArr(Objects(cards))];
    JObj(doc.obj["ObjectStates" := JArr(States(doc)[b := JObj(bag)])])
  }

  /** The whole call, as a function of the parsed document. */
  function ProcessSpec(doc: JSON, stem: string, cardTemplate: Obj, listTemplate: Obj, rand: nat -> nat): Outcome
  {
    match FindBag(doc)
    case ScanFailed => Crashed([], [])
    case NotFound => NoBag
    case Found(b) =>
      var bagGuid := BagGuid(doc);
      var cards := Children(doc);
      if !Truthy(bagGuid) then EmptyBagGuid
      else if !Truthy(cards) then NoCards
      else if !cards.JArr? then Crashed([], [])
      else
        var r := Run(cards.arr, cardTemplate, rand);
        if r.crashed then Crashed(r.cardFiles, r.templated)
        else
          var subdir := SubdirName(stem, bagGuid);
          Processed(WithChildren(doc, b, r.retained), subdir, r.cardFiles, r.templated,
                    Templates.Manifest(listTemplate, subdir, bagGuid, r.cardFiles), r.draws)
  }

  /**
   * `process_source_file` after `json.load`: locate the Bag, check its GUID
   * and children, run the card loop, write the kept cards back into the
   * Bag, and build the manifest.
   */
  method ProcessSourceFile(doc: JSON, stem: string, cardTemplate: Obj, listTemplate: Obj, rand: nat -> nat)
    returns (out: Outcome)
    ensures out == ProcessSpec(doc, stem, cardTemplate, listTemplate, rand)
  {
    var found := FindBag(doc);
    if found.ScanFailed? {
      return Crashed([], []);
    }
    if found.NotFound? {
      return NoBag;
    }
    var b := found.index;
    var states := doc.obj["ObjectStates"].arr;
    var bag := states[b].obj;
    var bagGuid := Get(bag, "GUID", JStr(""));
    if !Truthy(bagGuid) {
      return EmptyBagGuid;
    }
    var subdir := stem + "." + Str(bagGuid);
    var cards := Get(bag, ChildrenKey, JArr([]));
    if !Truthy(cards) {
      return NoCards;
    }
    if !cards.JArr? {
      return Crashed([], []);
    }
    var st := ProcessCards(cards.arr, cardTemplate, rand);
    if st.crashed {
      return Crashed(st.cardFiles, st.templated);
    }
    bag := bag[ChildrenKey := JArr(Objects(st.retained))];
    states := states[b := JObj(bag)];
    var data := JObj(doc.obj["ObjectStates" := JArr(states)]);
    var manifest := Templates.CreateListTemplate(listTemplate, subdir, bagGuid, st.cardFiles);
    out := Processed(data, subdir, st.cardFiles, st.templated, manifest, st.draws);
  }

  /**
   * The early returns: no Bag when the document has no `ObjectStates`, or
   * when every element of it is a dict and none is a Bag; and whenever the
   * call returns early or raises, neither the document nor a manifest is
   * produced.
   */
  lemma NoBagCases(doc: JSON, stem: string, cardTemplate: Obj, listTemplate: Obj, rand: nat -> nat)
    requires doc.JObj?
    ensures "ObjectStates" !in doc.obj ==> ProcessSpec(doc, stem, cardTemplate, listTemplate, rand).NoBag?
    ensures HasStates(doc) ==>
      (ProcessSpec(doc, stem, cardTemplate, listTemplate, rand).NoBag? <==> NoBagBetween(States(doc), 0, |States(doc)|))
  {
  }

  /** A Bag whose GUID is missing or falsy stops the call before any card is read. */
  lemma EmptyBagGuidCase(doc: JSON, stem: string, cardTemplate: Obj, listTemplate: Obj, rand: nat -> nat)
    requires FindBag(doc).Found?
    ensures ProcessSpec(doc, stem, cardTemplate, listTemplate, rand).EmptyBagGuid?
        <==> !Truthy(Get(BagOf(doc), "GUID", JNull))
  {
  }

  /** With a truthy Bag GUID, the call stops, writing nothing, exactly when the child list is falsy (missing, empty, or any other falsy value). */
  lemma NoCardsCase(doc: JSON, stem: string, cardTemplate: Obj, listTemplate: Obj, rand: nat -> nat)
    requires FindBag(doc).Found? && Truthy(BagGuid(doc))
    ensures ChildrenKey !in BagOf(doc) ==> ProcessSpec(doc, stem, cardTemplate, listTemplate, rand).NoCards?
    ensures Children(doc) == JArr([]) ==> ProcessSpec(doc, stem, cardTemplate, listTemplate, rand).NoCards?
    ensures Children(doc).JArr? && Children(doc).arr != [] ==>
      !ProcessSpec(doc, stem, cardTemplate, listTemplate, rand).NoCards?
    ensures ProcessSpec(doc, stem, cardTemplate, listTemplate, rand).NoCards? <==> !Truthy(Children(doc))
  {
  }

  /**
   * A processed document: only the Bag's `ContainedObjects` changed, and it
   * now holds exactly the kept cards; every other key of the document, every
   * other element of `ObjectStates` and every other key of the Bag is as it
   * was; and the Bag is still the first Bag of the document.
   */
  lemma ProcessedDocument(doc: JSON, stem: string, cardTemplate: Obj, listTemplate: Obj, rand: nat -> nat)
    requires FindBag(doc).Found?
    requires ProcessSpec(doc, stem, cardTemplate, listTemplate, rand).Processed?
    ensures var out := ProcessSpec(doc, stem, cardTemplate, listTemplate, rand);
      var b := FindBag(doc).index;
      var d := out.document;
      && d.JObj? && d.obj.Keys == doc.obj.Keys
      && (forall k :: k in doc.obj && k != "ObjectStates" ==> d.obj[k] == doc.obj[k])
      && HasStates(d) && |States(d)| == |States(doc)|
      && (forall j :: 0 <= j < |States(doc)| && j != b ==> States(d)[j] == States(doc)[j])
      && States(d)[b].JObj?
      && States(d)[b].obj.Keys == BagOf(doc).Keys + {ChildrenKey}
      && (forall k :: k in BagOf(doc) && k != ChildrenKey ==> States(d)[b].obj[k] == BagOf(doc)[k])
      && States(d)[b].obj[ChildrenKey] == JArr(Objects(Run(Children(doc).arr, cardTemplate, rand).retained))
      && FindBag(d) == FindBag(doc)
  {
    var b := FindBag(doc).index;
    var d := ProcessSpec(doc, stem, cardTemplate, listTemplate, rand).document;
    var xs := States(doc);
    assert IsBag(States(d)[b]);
    assert NoBagBetween(States(d), 0, b) by {
      assert forall j :: 0 <= j < b ==> States(d)[j] == xs[j];
    }
    FirstBagIsFound(States(d), b);
  }

  /** An array whose element `b` is a Bag, with dicts and no Bag before it, is scanned to `b`. */
  lemma {:induction false} FirstBagIsFound(xs: seq<JSON>, b: nat)
    requires b < |xs| && IsBag(xs[b]) && NoBagBetween(xs, 0, b)
    ensures Scan(xs, 0) == Found(b)
  {
    ScanFrom(xs, 0, b);
  }

  lemma {:induction false} ScanFrom(xs: seq<JSON>, i: nat, b: nat)
    requires i <= b < |xs| && IsBag(xs[b]) && NoBagBetween(xs, i, b)
    ensures Scan(xs, i) == Found(b)
    decreases b - i
  {
    if i < b {
      ScanFrom(xs, i + 1, b);
    }
  }

  /**
   * What a processed call produces: the kept cards, stems and bodies of the
   * card loop over the Bag's children, and the manifest listing the stems in
   * order under the sub-directory `stem.bag_guid` with the Bag's GUID.
   */
  lemma ProcessedOutput(doc: JSON, stem: string, cardTemplate: Obj, listTemplate: Obj, rand: nat -> nat)
    requires FindBag(doc).Found?
    requires ProcessSpec(doc, stem, cardTemplate, listTemplate, rand).Processed?
    ensures var out := ProcessSpec(doc, stem, cardTemplate, listTemplate, rand);
      && Truthy(BagGuid(doc)) && Children(doc).JArr? && Children(doc).arr != []
      && CardLoopFacts.Explains(Children(doc).arr, Run(Children(doc).arr, cardTemplate, rand), cardTemplate)
      && out.cardFiles == Run(Children(doc).arr, cardTemplate, rand).cardFiles
      && out.written == Run(Children(doc).arr, cardTemplate, rand).templated
      && out.subdir == stem + "." + Str(BagGuid(doc))
      && out.manifest.Keys == listTemplate.Keys + {Templates.OrderKey, Templates.PathKey, Templates.GuidKey}
      && out.manifest[Templates.OrderKey] == JArr(Templates.StringArray(out.cardFiles))
      && out.manifest[Templates.PathKey] == JStr(out.subdir)
      && out.manifest[Templates.GuidKey] == BagGuid(doc)
  {
    CardLoopFacts.RunMeaning(Children(doc).arr, cardTemplate, rand);
  }

  /** After a processed call every child of the Bag is a card. */
  predicate OnlyCards(doc: JSON)
  {
    FindBag(doc).Found? && Children(doc).JArr?
    && forall i :: 0 <= i < |Children(doc).arr| ==> IsCard(Children(doc).arr[i])
  }

  /**
   * The second invocation in `main` reads the rewritten document. If no
   * card was kept, the Bag's list is now empty and the call returns early.
   * Otherwise it processes the same Bag, draws no GUID, rewrites the
   * document to itself and writes the same card bodies under the same
   * sub-directory; when the Bag held only cards the first time, the stems
   * and the manifest are the same as well.
   */
  lemma SecondPass(doc: JSON, stem: string, cardTemplate: Obj, listTemplate: Obj, rand: nat -> nat, rand2: nat -> nat)
    requires ProcessSpec(doc, stem, cardTemplate, listTemplate, rand).Processed?
    ensures var out := ProcessSpec(doc, stem, cardTemplate, listTemplate, rand);
      var again := ProcessSpec(out.document, stem, cardTemplate, listTemplate, rand2);
      && (out.cardFiles == [] ==> again.NoCards?)
      && (out.cardFiles != [] ==>
            && again.Processed?
            && again.document == out.document
            && again.draws == 0
            && again.written == out.written
            && again.subdir == out.subdir
            && |again.cardFiles| == |out.cardFiles|
            && (OnlyCards(doc) ==> again.cardFiles == out.cardFiles && again.manifest == out.manifest))
  {
    var out := ProcessSpec(doc, stem, cardTemplate, listTemplate, rand);
    var b := FindBag(doc).index;
    var cs := Children(doc).arr;
    var r := Run(cs, cardTemplate, rand);
    var d := out.document;
    RereadBag(doc, stem, cardTemplate, listTemplate, rand);
    CardLoopFacts.SecondPassAssignsNothing(cs, cardTemplate, rand, rand2);
    var r2 := Run(Objects(r.retained), cardTemplate, rand2);
    if r.retained != [] {
      ProcessedShape(doc, stem, cardTemplate, listTemplate, rand);
      ProcessedShape(d, stem, cardTemplate, listTemplate, rand2);
      SameChildrenSameDocument(d, b, r.retained);
      if OnlyCards(doc) {
        assert r2.cardFiles == r.cardFiles;
      }
    }
  }

  /** The shape of a call that gets through the early returns and the loop. */
  lemma ProcessedShape(doc: JSON, stem: string, cardTemplate: Obj, listTemplate: Obj, rand: nat -> nat)
    requires FindBag(doc).Found? && Truthy(BagGuid(doc))
    requires Children(doc).JArr? && Children(doc).arr != []
    requires !Run(Children(doc).arr, cardTemplate, rand).crashed
    ensures var r := Run(Children(doc).arr, cardTemplate, rand);
      ProcessSpec(doc, stem, cardTemplate, listTemplate, rand)
        == Processed(WithChildren(doc, FindBag(doc).index, r.retained), SubdirName(stem, BagGuid(doc)),
                     r.cardFiles, r.templated,
                     Templates.Manifest(listTemplate, SubdirName(stem, BagGuid(doc)), BagGuid(doc), r.cardFiles),
                     r.draws)
  {
  }

  /** The rewritten document holds the same Bag, with the same GUID, now listing the kept cards. */
  lemma RereadBag(doc: JSON, stem: string, cardTemplate: Obj, listTemplate: Obj, rand: nat -> nat)
    requires ProcessSpec(doc, stem, cardTemplate, listTemplate, rand).Processed?
    ensures var d := ProcessSpec(doc, stem, cardTemplate, listTemplate, rand).document;
      var r := Run(Children(doc).arr, cardTemplate, rand);
      && FindBag(doc).Found? && Truthy(BagGuid(doc)) && Children(doc).JArr? && Children(doc).arr != []
      && !r.crashed
      && FindBag(d) == FindBag(doc)
      && BagGuid(d) == BagGuid(doc)
      && Children(d) == JArr(Objects(r.retained))
      && (r.retained == [] ==> ProcessSpec(d, stem, cardTemplate, listTemplate, rand).NoCards?)
      && (r.retained == [] <==> r.cardFiles == [])
  {
    ProcessedDocument(doc, stem, cardTemplate, listTemplate, rand);
    CardLoopFacts.RunMeaning(Children(doc).arr, cardTemplate, rand);
  }

  /** Writing back the children a Bag already holds leaves the document as it is. */
  lemma SameChildrenSameDocument(d: JSON, b: nat, cards: seq<Obj>)
    requires HasStates(d) && b < |States(d)| && States(d)[b].JObj?
    requires ChildrenKey in States(d)[b].obj && States(d)[b].obj[ChildrenKey] == JArr(Objects(cards))
    ensures WithChildren(d, b, cards) == d
  {
    var bag := States(d)[b].obj;
    assert bag[ChildrenKey := JArr(Objects(cards))] == bag;
    assert States(d)[b := JObj(bag)] == States(d);
    assert d.obj["ObjectStates" := JArr(States(d))] == d.obj;
  }

  /** A processed document holds only cards in its Bag. */
  lemma ProcessedLeavesOnlyCards(doc: JSON, stem: string, cardTemplate: Obj, listTemplate: Obj, rand: nat -> nat)
    requires ProcessSpec(doc, stem, cardTemplate, listTemplate, rand).Processed?
    ensures OnlyCards(ProcessSpec(doc, stem, cardTemplate, listTemplate, rand).document)
  {
    var cs := Children(doc).arr;
    var r := Run(cs, cardTemplate, rand);
    ProcessedDocument(doc, stem, cardTemplate, listTemplate, rand);
    CardLoopFacts.RetainedSettled(cs, cardTemplate, rand);
  }
}
