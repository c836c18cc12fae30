/**
 * The per-card loop of `process_source_file`: walk the Bag's children in
 * order, keep those whose `Name` is "Card", give each kept card a GUID when
 * its own is missing or falsy, build its templated copy and its file-name
 * stem, and collect the kept (updated) cards.
 *
 * `Run` is the specification: a left fold of `Step` over the children.
 * `ProcessCards` is the loop itself, proved to compute `Run`.
 */
module CardLoop {
  import opened Json
  import Names
  import Guids
  import Templates

  const CardTag: JSON := JStr("Card")

  predicate IsCard(x: JSON)
  {
    x.JObj? && Get(x.obj, "Name", JNull) == CardTag
  }

  /** `not card.get("GUID") or card.get("GUID") == ""`: the GUID is missing or falsy. */
  predicate NeedsGuid(card: Obj)
  {
    !Truthy(Get(card, "GUID", JNull))
  }

  /** The card after GUID assignment, drawing from the oracle at position `at`. */
  function WithGuid(card: Obj, rand: nat -> nat, at: nat): Obj
  {
    if NeedsGuid(card) then card["GUID" := JStr(Guids.GenerateGuid(rand, at))] else card
  }

  /** `card.get("Nickname", f"Card_{i + 1}")` for the child at index `i`. */
  function NicknameOr(card: Obj, i: nat): JSON
  {
    Get(card, "Nickname", JStr("Card_" + IntToString(i + 1)))
  }

  /** The name part of the file name; only defined when the nickname is a string. */
  predicate HasTextName(card: Obj, i: nat)
  {
    NicknameOr(card, i).JStr?
  }

  /** `f"{clean_name}.{card['GUID']}.json".replace('.json', '')`. */
  function StemOf(cleanName: string, card: Obj): string
  {
    Names.RemoveAll(cleanName + "." + Str(Get(card, "GUID", JNull)) + Names.JsonExt, Names.JsonExt)
  }

  /** The manifest stem of card `card` found at child index `i`. */
  function CardStem(card: Obj, i: nat): string
    requires HasTextName(card, i)
  {
    StemOf(Names.CleanFilename(NicknameOr(card, i).s), card)
  }

  /**
   * What the loop has built so far: the kept cards (`updated_cards`), their
   * stems (`card_files`), their templated copies (the bodies of the files
   * written), the number of oracle draws used, and whether Python raised.
   */
  datatype LoopState = LoopState(
    retained: seq<Obj>,
    cardFiles: seq<string>,
    templated: seq<Obj>,
    draws: nat,
    crashed: bool)

  const Start: LoopState := LoopState([], [], [], 0, false)

  /**
   * One iteration, for child `child` at index `i`. A child that is not a
   * dict makes `card.get` raise; a kept card whose nickname is not a string
   * makes `re.sub` raise, after its GUID was drawn and before its file is
   * written. After a raise nothing more happens.
   */
  function Step(st: LoopState, child: JSON, i: nat, template: Obj, rand: nat -> nat): LoopState
  {
    if st.crashed then st
    else if !child.JObj? then st.(crashed := true)
    else if !IsCard(child) then st
    else
      var card := WithGuid(child.obj, rand, st.draws);
      var draws := if NeedsGuid(child.obj) then st.draws + Guids.GuidLength else st.draws;
      if !HasTextName(card, i) then st.(draws := draws, crashed := true)
      else
        LoopState(
          st.retained + [card],
          st.cardFiles + [CardStem(card, i)],
          st.templated + [Templates.TemplateCard(template, card)],
          draws,
          false)
  }

  /** The loop over `children`, as a left fold of `Step`. */
  function Run(children: seq<JSON>, template: Obj, rand: nat -> nat): LoopState
    decreases |children|
  {
    if children == [] then Start
    else Step(Run(children[..|children| - 1], template, rand), children[|children| - 1], |children| - 1, template, rand)
  }

  /** The loop body of `process_source_file`, over the Bag's `ContainedObjects`. */
  method ProcessCards(children: seq<JSON>, template: Obj, rand: nat -> nat) returns (st: LoopState)
    ensures st == Run(children, template, rand)
  {
    var retained: seq<Obj> := [];
    var cardFiles: seq<string> := [];
    var templated: seq<Obj> := [];
    var draws: nat := 0;
    var i := 0;
    while i < |children|
      invariant i <= |children|
      invariant Run(children[..i], template, rand) == LoopState(retained, cardFiles, templated, draws, false)
    {
      RunExtend(children, i, template, rand);
      ghost var before := LoopState(retained, cardFiles, templated, draws, false);
      var child := children[i];
      if !child.JObj? {
        st := LoopState(retained, cardFiles, templated, draws, true);
        CrashIsFinal(children, i + 1, template, rand);
        return;
      }
      var card := child.obj;
      if Get(card, "Name", JNull) != CardTag {
        i := i + 1;
        continue;
      }
      if !Truthy(Get(card, "GUID", JNull)) {
        var newGuid := Guids.GenerateGuid(rand, draws);
        card := card["GUID" := JStr(newGuid)];
        draws := draws + Guids.GuidLength;
      }
      assert card == WithGuid(child.obj, rand, before.draws);
      var templateCard := Templates.CreateTemplateCard(template, card);
      var nickname := Get(card, "Nickname", JStr("Card_" + IntToString(i + 1)));
      if !nickname.JStr? {
        st := LoopState(retained, cardFiles, templated, draws, true);
        CrashIsFinal(children, i + 1, template, rand);
        return;
      }
      var cleanName := Names.CleanFilename(nickname.s);
      var fileName := cleanName + "." + Str(card["GUID"]) + Names.JsonExt;
      cardFiles := cardFiles + [Names.RemoveAll(fileName, Names.JsonExt)];
      retained := retained + [card];
      templated := templated + [templateCard];
      assert Step(before, child, i, template, rand) == LoopState(retained, cardFiles, templated, draws, false);
      i := i + 1;
    }
    assert children[..i] == children;
    st := LoopState(retained, cardFiles, templated, draws, false);
  }

  /** One more child is one more `Step`. */
  lemma RunExtend(children: seq<JSON>, i: nat, template: Obj, rand: nat -> nat)
    requires i < |children|
    ensures Run(children[..i + 1], template, rand)
      == Step(Run(children[..i], template, rand), children[i], i, template, rand)
  {
    assert children[..i + 1][..i] == children[..i];
  }

  /** Once Python has raised, the remaining children change nothing. */
  lemma {:induction false} CrashIsFinal(children: seq<JSON>, k: nat, template: Obj, rand: nat -> nat)
    requires k <= |children|
    requires Run(children[..k], template, rand).crashed
    ensures Run(children, template, rand) == Run(children[..k], template, rand)
    decreases |children| - k
  {
    if k < |children| {
      var n := |children|;
      var p := children[..n - 1];
      assert p[..k] == children[..k];
      CrashIsFinal(p, k, template, rand);
      var rp := Run(p, template, rand);
      assert rp.crashed;
      assert Run(children, template, rand) == Step(rp, children[n - 1], n - 1, template, rand);
    } else {
      assert children[..k] == children;
    }
  }
}
