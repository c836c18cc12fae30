/**
 * Concrete runs of the card loop. A card with a nickname and GUID keeps its
 * GUID in both its stem and its templated copy. Of two cards, the one with an
 * empty GUID gets a generated one, and the one with an empty nickname is
 * named "Unknown".
 */
module Scenarios {
  import opened Json
  import Names
  import Guids
  import Templates
  import opened CardLoop
  import CardLoopFacts

  /** "测试Card!" loses its '!', and the GUID "abc123" passes into the stem. */
  lemma NamedCardStem(card: Obj, i: nat)
    requires "Name" in card && card["Name"] == CardTag
    requires "Nickname" in card && card["Nickname"] == JStr("测试Card!")
    requires "GUID" in card && card["GUID"] == JStr("abc123")
    ensures HasTextName(card, i) && CardStem(card, i) == "测试Card.abc123"
  {
    CleanBang();
    AbcIsGuid();
    StemOfPlainGuid(card, i, "测试Card", "abc123");
    NamedStemText();
  }

  lemma NamedStemText()
    ensures "测试Card" + "." + "abc123" == "测试Card.abc123"
  {
  }

  /** Its templated copy carries the same GUID and the unsanitised nickname. */
  lemma NamedCardBody(card: Obj, template: Obj)
    requires "Name" in card && card["Name"] == CardTag
    requires "Nickname" in card && card["Nickname"] == JStr("测试Card!")
    requires "GUID" in card && card["GUID"] == JStr("abc123")
    ensures Templates.TemplateCard(template, card)["GUID"] == JStr("abc123")
    ensures Templates.TemplateCard(template, card)["Nickname"] == JStr("测试Card!")
  {
    Templates.TemplateCardOverwritten(template, card);
  }

  lemma CleanBang()
    ensures Names.CleanFilename("测试Card!") == "测试Card"
  {
    Names.KeepAppend("测试Card", "!");
    Names.KeepFixpoint("测试Card");
  }

  /** The stem of a card whose nickname cleans to `clean` and whose GUID is a plain identifier. */
  lemma StemOfPlainGuid(card: Obj, i: nat, clean: string, guid: string)
    requires "Nickname" in card && card["Nickname"].JStr?
    requires Names.CleanFilename(card["Nickname"].s) == clean
    requires "GUID" in card && card["GUID"] == JStr(guid) && Guids.IsGuid(guid)
    ensures HasTextName(card, i)
    ensures CardStem(card, i) == clean + "." + guid
  {
    Guids.GuidIsPlain(guid);
    CardLoopFacts.StemIsNameDotGuid(card, i);
  }

  lemma AbcIsGuid()
    ensures Guids.IsGuid("abc123") && Guids.IsGuid("aaa111")
  {
  }

  /**
   * Two cards under one Bag: one with nickname "Ancient One" and an empty
   * GUID, then one with nickname "" and GUID "aaa111" (other fields free).
   * The first gets the identifier drawn first; the stems are
   * "AncientOne.<drawn>" and "Unknown.aaa111", in that order, and six draws
   * are used.
   */
  lemma TwoCardRun(first: Obj, second: Obj, template: Obj, rand: nat -> nat)
    requires "Name" in first && first["Name"] == CardTag
    requires "GUID" in first && first["GUID"] == JStr("")
    requires "Nickname" in first && first["Nickname"] == JStr("Ancient One")
    requires "Name" in second && second["Name"] == CardTag
    requires "GUID" in second && second["GUID"] == JStr("aaa111")
    requires "Nickname" in second && second["Nickname"] == JStr("")
    ensures var r := Run([JObj(first), JObj(second)], template, rand);
      && !r.crashed
      && r.retained == [first["GUID" := JStr(Guids.GenerateGuid(rand, 0))], second]
      && r.cardFiles == ["AncientOne" + "." + Guids.GenerateGuid(rand, 0), "Unknown.aaa111"]
      && r.draws == 6
  {
    var g := Guids.GenerateGuid(rand, 0);
    var kept := first["GUID" := JStr(g)];
    FirstCard(first, template, rand);
    var r1 := Run([JObj(first)], template, rand);
    SecondCard(second, r1, template, rand);
    RunPair(JObj(first), JObj(second), template, rand);
    var r := Run([JObj(first), JObj(second)], template, rand);
    Pair(kept, second);
    Pair("AncientOne" + "." + g, "Unknown.aaa111");
  }

  lemma Pair<T>(a: T, b: T)
    ensures [a] + [b] == [a, b]
  {
  }

  lemma RunPair(x: JSON, y: JSON, template: Obj, rand: nat -> nat)
    ensures Run([x, y], template, rand) == Step(Run([x], template, rand), y, 1, template, rand)
  {
    assert [x, y][..1] == [x];
  }

  lemma FirstCard(first: Obj, template: Obj, rand: nat -> nat)
    requires "Name" in first && first["Name"] == CardTag
    requires "GUID" in first && first["GUID"] == JStr("")
    requires "Nickname" in first && first["Nickname"] == JStr("Ancient One")
    ensures var kept := first["GUID" := JStr(Guids.GenerateGuid(rand, 0))];
      Run([JObj(first)], template, rand)
        == LoopState([kept], ["AncientOne" + "." + Guids.GenerateGuid(rand, 0)],
                     [Templates.TemplateCard(template, kept)], 6, false)
  {
    var g := Guids.GenerateGuid(rand, 0);
    var kept := first["GUID" := JStr(g)];
    assert WithGuid(first, rand, 0) == kept;
    KeptStem(kept, g);
    OneCardRun(JObj(first), kept, template, rand);
  }

  /** A run over one card that needs a GUID. */
  lemma OneCardRun(x: JSON, kept: Obj, template: Obj, rand: nat -> nat)
    requires IsCard(x) && NeedsGuid(x.obj) && WithGuid(x.obj, rand, 0) == kept && HasTextName(kept, 0)
    ensures Run([x], template, rand)
      == LoopState([kept], [CardStem(kept, 0)], [Templates.TemplateCard(template, kept)], Guids.GuidLength, false)
  {
    assert [x][..0] == [];
    CardLoopFacts.CardStepShape(Start, x, 0, template, rand);
    assert Run([x], template, rand) == Step(Start, x, 0, template, rand);
  }

  lemma SecondCard(second: Obj, r1: LoopState, template: Obj, rand: nat -> nat)
    requires "Name" in second && second["Name"] == CardTag
    requires "GUID" in second && second["GUID"] == JStr("aaa111")
    requires "Nickname" in second && second["Nickname"] == JStr("")
    requires !r1.crashed
    ensures Step(r1, JObj(second), 1, template, rand)
      == LoopState(r1.retained + [second], r1.cardFiles + ["Unknown.aaa111"],
                   r1.templated + [Templates.TemplateCard(template, second)], r1.draws, false)
  {
    assert !NeedsGuid(second);
    assert WithGuid(second, rand, r1.draws) == second;
    UnknownStem(second);
    CardLoopFacts.CardStepShape(r1, JObj(second), 1, template, rand);
  }

  lemma UnknownStem(second: Obj)
    requires "Nickname" in second && second["Nickname"] == JStr("")
    requires "GUID" in second && second["GUID"] == JStr("aaa111")
    ensures HasTextName(second, 1) && CardStem(second, 1) == "Unknown.aaa111"
  {
    AbcIsGuid();
    assert Names.Keep("") == [];
    StemOfPlainGuid(second, 1, "Unknown", "aaa111");
    assert "Unknown" + "." + "aaa111" == "Unknown.aaa111";
  }

  lemma KeptStem(kept: Obj, g: string)
    requires "Nickname" in kept && kept["Nickname"] == JStr("Ancient One")
    requires "GUID" in kept && kept["GUID"] == JStr(g) && Guids.IsGuid(g)
    ensures HasTextName(kept, 0) && CardStem(kept, 0) == "AncientOne" + "." + g
  {
    CleanAncientOne();
    StemOfPlainGuid(kept, 0, "AncientOne", g);
  }

  lemma CleanAncientOne()
    ensures Names.CleanFilename("Ancient One") == "AncientOne"
  {
    var a, b := "Ancient", "One";
    assert "Ancient One" == a + [' '] + b;
    assert Names.AllAllowed(a) && Names.AllAllowed(b);
    DropOne(a, ' ', b);
    assert a + b == "AncientOne";
  }

  /** A single disallowed character between two clean parts is all that goes. */
  lemma DropOne(a: string, c: char, b: string)
    requires Names.AllAllowed(a) && !Names.Allowed(c) && Names.AllAllowed(b)
    ensures Names.Keep(a + [c] + b) == a + b
  {
    Names.KeepAppend(a + [c], b);
    Names.KeepAppend(a, [c]);
    Names.KeepFixpoint(a);
    Names.KeepFixpoint(b);
    assert [c][1..] == [];
    calc {
      Names.Keep(a + [c] + b);
      Names.Keep(a + [c]) + Names.Keep(b);
      (Names.Keep(a) + Names.Keep([c])) + Names.Keep(b);
      (a + []) + b;
      { assert a + [] == a; }
      a + b;
    }
  }
}
