/**
 * What the card loop guarantees: which children are kept and in what order,
 * how GUIDs are assigned, what each stem and templated card is, when Python
 * raises, and that a second pass over the kept cards assigns nothing.
 */
module CardLoopFacts {
  import opened Json
  import Names
  import Guids
  import Templates
  import opened CardLoop

  /** The indices of the children whose `Name` is "Card", in increasing order. */
  function CardIndices(cs: seq<JSON>): (idx: seq<nat>)
    ensures forall j :: 0 <= j < |idx| ==> idx[j] < |cs| && IsCard(cs[idx[j]])
    ensures forall j, l :: 0 <= j < l < |idx| ==> idx[j] < idx[l]
    decreases |cs|
  {
    if cs == [] then []
    else
      var p := CardIndices(cs[..|cs| - 1]);
      assert forall i :: 0 <= i < |cs| - 1 ==> cs[..|cs| - 1][i] == cs[i];
      if IsCard(cs[|cs| - 1]) then p + [|cs| - 1] else p
  }

  /** No card is skipped: every child named "Card" has its index listed. */
  lemma {:induction false} CardIndicesComplete(cs: seq<JSON>, i: nat)
    requires i < |cs| && IsCard(cs[i])
    ensures i in CardIndices(cs)
    decreases |cs|
  {
    var p := cs[..|cs| - 1];
    if i < |cs| - 1 {
      assert p[i] == cs[i];
      CardIndicesComplete(p, i);
    }
  }

  /** How many kept children arrive without a truthy GUID. */
  function NeedCount(cs: seq<JSON>): nat
    decreases |cs|
  {
    if cs == [] then 0
    else
      var last := cs[|cs| - 1];
      NeedCount(cs[..|cs| - 1]) + (if IsCard(last) && NeedsGuid(last.obj) then 1 else 0)
  }

  /**
   * GUID assignment, from the card as it arrived (`before`) to the card as
   * kept (`after`): a truthy GUID is kept and nothing changes; otherwise the
   * GUID becomes a fresh six-character identifier and nothing else changes.
   * Either way the kept card has a truthy GUID.
   */
  predicate GuidAssigned(before: Obj, after: Obj)
  {
    && "GUID" in after && Truthy(after["GUID"])
    && (!NeedsGuid(before) ==> after == before)
    && (NeedsGuid(before) ==>
          && after == before["GUID" := after["GUID"]]
          && after["GUID"].JStr? && Guids.IsGuid(after["GUID"].s))
  }

  lemma WithGuidAssigns(card: Obj, rand: nat -> nat, at: nat)
    ensures GuidAssigned(card, WithGuid(card, rand, at))
  {
    if NeedsGuid(card) {
      var g := Guids.GenerateGuid(rand, at);
      assert g != [] by { Guids.GuidIsPlain(g); }
    }
  }

  /** Assigning a GUID touches neither the name nor the nickname. */
  lemma WithGuidKeepsNames(card: Obj, rand: nat -> nat, at: nat, i: nat)
    ensures IsCard(JObj(WithGuid(card, rand, at))) == IsCard(JObj(card))
    ensures NicknameOr(WithGuid(card, rand, at), i) == NicknameOr(card, i)
  {
  }

  /**
   * Kept card number `j`, from child `x` at index `i`: its GUID assigned,
   * its nickname a string, its stem and templated copy made from the
   * updated card.
   */
  predicate KeptFrom(x: JSON, i: nat, card: Obj, stem: string, body: Obj, template: Obj)
  {
    && x.JObj? && GuidAssigned(x.obj, card)
    && HasTextName(card, i)
    && stem == CardStem(card, i)
    && body == Templates.TemplateCard(template, card)
  }

  /**
   * `KeptFrom` under a fixed template, as a function value. `LinesUp` takes
   * it as a parameter so that the lemma extending a run by one card
   * (`LinesUpAppend`) reasons about it without unfolding the stem and the
   * templated copy; unfolded there, the proof becomes very expensive.
   */
  function Kept(template: Obj): (JSON, nat, Obj, string, Obj) -> bool
  {
    (x: JSON, i: nat, card: Obj, stem: string, body: Obj) => KeptFrom(x, i, card, stem, body, template)
  }

  /** Kept card `j` of `r`, with its stem and templated copy, lines up with the `j`-th card of `cs` under `kept`. */
  predicate LinesUp(cs: seq<JSON>, r: LoopState, kept: (JSON, nat, Obj, string, Obj) -> bool)
  {
    var idx := CardIndices(cs);
    && |r.retained| == |idx| && |r.cardFiles| == |idx| && |r.templated| == |idx|
    && forall j :: 0 <= j < |idx| ==>
         kept(cs[idx[j]], idx[j], r.retained[j], r.cardFiles[j], r.templated[j])
  }

  /** The state after a loop over `cs` that did not raise. */
  predicate Explains(cs: seq<JSON>, r: LoopState, template: Obj)
  {
    && LinesUp(cs, r, Kept(template))
    && r.draws == Guids.GuidLength * NeedCount(cs)
  }

  /**
   * The loop, when Python does not raise: the kept cards are the children
   * named "Card" in their original order, each with its GUID assigned; the
   * stem and the templated copy of each kept card come from the updated
   * card and its original index; six draws are used per assigned GUID.
   */
  lemma {:induction false} RunMeaning(cs: seq<JSON>, template: Obj, rand: nat -> nat)
    requires !Run(cs, template, rand).crashed
    ensures Explains(cs, Run(cs, template, rand), template)
    decreases |cs|
  {
    if cs != [] {
      var n := |cs|;
      var p := cs[..n - 1];
      var rp := Run(p, template, rand);
      assert Run(cs, template, rand) == Step(rp, cs[n - 1], n - 1, template, rand);
      assert !rp.crashed;
      RunMeaning(p, template, rand);
      StepMeaning(cs, rp, template, rand);
    }
  }

  /** One step keeps `Explains`: the induction step of RunMeaning. */
  lemma StepMeaning(cs: seq<JSON>, rp: LoopState, template: Obj, rand: nat -> nat)
    requires cs != []
    requires !rp.crashed && Explains(cs[..|cs| - 1], rp, template)
    requires !Step(rp, cs[|cs| - 1], |cs| - 1, template, rand).crashed
    ensures Explains(cs, Step(rp, cs[|cs| - 1], |cs| - 1, template, rand), template)
  {
    var x := cs[|cs| - 1];
    if IsCard(x) {
      StepMeaningCard(cs, rp, template, rand);
    } else {
      SkipStep(rp, x, |cs| - 1, template, rand);
      StepMeaningSkip(cs, rp, template);
    }
  }

  /** A child that is a dict but not a card changes nothing. */
  lemma SkipStep(st: LoopState, x: JSON, i: nat, template: Obj, rand: nat -> nat)
    requires !st.crashed && !IsCard(x)
    requires !Step(st, x, i, template, rand).crashed
    ensures Step(st, x, i, template, rand) == st
  {
  }

  lemma StepMeaningSkip(cs: seq<JSON>, rp: LoopState, template: Obj)
    requires cs != [] && !IsCard(cs[|cs| - 1])
    requires Explains(cs[..|cs| - 1], rp, template)
    ensures Explains(cs, rp, template)
  {
    var p := cs[..|cs| - 1];
    var idx := CardIndices(p);
    CardIndicesLast(cs);
    forall j | 0 <= j < |idx|
      ensures KeptFrom(cs[idx[j]], idx[j], rp.retained[j], rp.cardFiles[j], rp.templated[j], template)
    {
      assert p[idx[j]] == cs[idx[j]];
    }
  }

  lemma StepMeaningCard(cs: seq<JSON>, rp: LoopState, template: Obj, rand: nat -> nat)
    requires cs != [] && IsCard(cs[|cs| - 1])
    requires !rp.crashed && Explains(cs[..|cs| - 1], rp, template)
    requires !Step(rp, cs[|cs| - 1], |cs| - 1, template, rand).crashed
    ensures Explains(cs, Step(rp, cs[|cs| - 1], |cs| - 1, template, rand), template)
  {
    var x := cs[|cs| - 1];
    var card := WithGuid(x.obj, rand, rp.draws);
    CardStepShape(rp, x, |cs| - 1, template, rand);
    WithGuidAssigns(x.obj, rand, rp.draws);
    CardIndicesLast(cs);
    var stem, body := CardStem(card, |cs| - 1), Templates.TemplateCard(template, card);
    assert Kept(template)(x, |cs| - 1, card, stem, body);
    LinesUpAppend(cs, rp, card, stem, body, Kept(template));
  }

  /** Appending the last child's kept card keeps everything lined up. */
  lemma LinesUpAppend(cs: seq<JSON>, rp: LoopState, card: Obj, stem: string, body: Obj,
                      kept: (JSON, nat, Obj, string, Obj) -> bool)
    requires cs != [] && IsCard(cs[|cs| - 1])
    requires LinesUp(cs[..|cs| - 1], rp, kept)
    requires kept(cs[|cs| - 1], |cs| - 1, card, stem, body)
    ensures forall draws: nat ::
      LinesUp(cs, LoopState(rp.retained + [card], rp.cardFiles + [stem], rp.templated + [body], draws, false), kept)
  {
    var n := |cs|;
    var p := cs[..n - 1];
    var idxp := CardIndices(p);
    CardIndicesLast(cs);
    forall draws: nat
      ensures LinesUp(cs, LoopState(rp.retained + [card], rp.cardFiles + [stem], rp.templated + [body], draws, false), kept)
    {
      var r := LoopState(rp.retained + [card], rp.cardFiles + [stem], rp.templated + [body], draws, false);
      var idx := CardIndices(cs);
      forall j | 0 <= j < |idx|
        ensures kept(cs[idx[j]], idx[j], r.retained[j], r.cardFiles[j], r.templated[j])
      {
        if j < |idxp| {
          assert p[idxp[j]] == cs[idxp[j]];
        }
      }
    }
  }

  /** A kept card appends itself, its stem and its templated copy. */
  lemma CardStepShape(st: LoopState, x: JSON, i: nat, template: Obj, rand: nat -> nat)
    requires !st.crashed && IsCard(x)
    requires !Step(st, x, i, template, rand).crashed
    ensures var card := WithGuid(x.obj, rand, st.draws);
      && HasTextName(card, i)
      && Step(st, x, i, template, rand)
           == LoopState(st.retained + [card], st.cardFiles + [CardStem(card, i)],
                        st.templated + [Templates.TemplateCard(template, card)],
                        st.draws + (if NeedsGuid(x.obj) then Guids.GuidLength else 0), false)
  {
  }

  lemma CardIndicesLast(cs: seq<JSON>)
    requires cs != []
    ensures CardIndices(cs)
      == CardIndices(cs[..|cs| - 1]) + (if IsCard(cs[|cs| - 1]) then [|cs| - 1] else [])
    ensures NeedCount(cs)
      == NeedCount(cs[..|cs| - 1]) + (if IsCard(cs[|cs| - 1]) && NeedsGuid(cs[|cs| - 1].obj) then 1 else 0)
  {
  }

  /** A child that makes Python raise: not a dict, or a card whose nickname is not a string. */
  predicate Fatal(x: JSON, i: nat)
  {
    !x.JObj? || (IsCard(x) && !HasTextName(x.obj, i))
  }

  /** Without a fatal child the loop runs to the end. */
  lemma {:induction false} NoFatalNoCrash(cs: seq<JSON>, template: Obj, rand: nat -> nat)
    requires forall i :: 0 <= i < |cs| ==> !Fatal(cs[i], i)
    ensures !Run(cs, template, rand).crashed
    decreases |cs|
  {
    if cs != [] {
      var n := |cs|;
      var p := cs[..n - 1];
      assert forall i :: 0 <= i < n - 1 ==> p[i] == cs[i];
      NoFatalNoCrash(p, template, rand);
      var x := cs[n - 1];
      if IsCard(x) {
        WithGuidKeepsNames(x.obj, rand, Run(p, template, rand).draws, n - 1);
      }
    }
  }

  /**
   * When Python raises, it is at the first fatal child, and the files
   * written are exactly those of the children before it.
   */
  lemma {:induction false} CrashAtFirstFatal(cs: seq<JSON>, template: Obj, rand: nat -> nat)
    requires Run(cs, template, rand).crashed
    ensures exists k :: (
      && 0 <= k < |cs| && Fatal(cs[k], k)
      && (forall i :: 0 <= i < k ==> !Fatal(cs[i], i))
      && !Run(cs[..k], template, rand).crashed
      && Run(cs, template, rand).cardFiles == Run(cs[..k], template, rand).cardFiles
      && Run(cs, template, rand).templated == Run(cs[..k], template, rand).templated)
    decreases |cs|
  {
    var n := |cs|;
    var p := cs[..n - 1];
    var rp := Run(p, template, rand);
    assert Run(cs, template, rand) == Step(rp, cs[n - 1], n - 1, template, rand);
    assert forall i :: 0 <= i < n - 1 ==> p[i] == cs[i];
    if rp.crashed {
      CrashAtFirstFatal(p, template, rand);
      var k :| 0 <= k < |p| && Fatal(p[k], k)
        && (forall i :: 0 <= i < k ==> !Fatal(p[i], i))
        && !Run(p[..k], template, rand).crashed
        && rp.cardFiles == Run(p[..k], template, rand).cardFiles
        && rp.templated == Run(p[..k], template, rand).templated;
      assert p[..k] == cs[..k];
    } else {
      var x := cs[n - 1];
      if x.JObj? && IsCard(x) {
        WithGuidKeepsNames(x.obj, rand, rp.draws, n - 1);
      }
      assert Fatal(x, n - 1);
      if exists i :: 0 <= i < n - 1 && Fatal(cs[i], i) {
        var i :| 0 <= i < n - 1 && Fatal(cs[i], i);
        NoFatalBeforeNoCrash(p, template, rand, i);
      }
      assert !Run(cs[..n - 1], template, rand).crashed;
    }
  }

  /** Contrapositive helper: a run over a prefix that did not raise has no fatal child. */
  lemma {:induction false} NoFatalBeforeNoCrash(cs: seq<JSON>, template: Obj, rand: nat -> nat, i: nat)
    requires !Run(cs, template, rand).crashed
    requires i < |cs|
    ensures !Fatal(cs[i], i)
    decreases |cs|
  {
    var n := |cs|;
    var p := cs[..n - 1];
    var rp := Run(p, template, rand);
    assert Run(cs, template, rand) == Step(rp, cs[n - 1], n - 1, template, rand);
    assert !rp.crashed;
    if i < n - 1 {
      NoFatalBeforeNoCrash(p, template, rand, i);
      assert p[i] == cs[i];
    } else {
      FatalStep(rp, cs[n - 1], n - 1, template, rand);
    }
  }

  /** From a state that has not raised, a step raises exactly on a fatal child. */
  lemma FatalStep(st: LoopState, x: JSON, i: nat, template: Obj, rand: nat -> nat)
    requires !st.crashed
    ensures Step(st, x, i, template, rand).crashed <==> Fatal(x, i)
  {
    if x.JObj? && IsCard(x) {
      WithGuidKeepsNames(x.obj, rand, st.draws, i);
    }
  }

  /** A card as the loop leaves it: still a card, a truthy GUID, and a string nickname if any. */
  predicate Settled(card: Obj)
  {
    IsCard(JObj(card)) && !NeedsGuid(card) && ("Nickname" in card ==> card["Nickname"].JStr?)
  }

  /** Kept card `j` of a pass over settled cards: the card itself, unchanged. */
  predicate KeptAsIs(card: Obj, j: nat, stem: string, body: Obj, template: Obj)
  {
    HasTextName(card, j) && stem == CardStem(card, j) && body == Templates.TemplateCard(template, card)
  }

  predicate KeepsAll(os: seq<Obj>, r: LoopState, template: Obj)
  {
    && !r.crashed && r.retained == os && r.draws == 0
    && |r.cardFiles| == |os| && |r.templated| == |os|
    && forall j :: 0 <= j < |os| ==> KeptAsIs(os[j], j, r.cardFiles[j], r.templated[j], template)
  }

  /** A pass over settled cards keeps them all, unchanged, and draws nothing. */
  lemma {:induction false} SettledRun(os: seq<Obj>, template: Obj, rand: nat -> nat)
    requires forall j :: 0 <= j < |os| ==> Settled(os[j])
    ensures KeepsAll(os, Run(Objects(os), template, rand), template)
    decreases |os|
  {
    if os != [] {
      var n := |os|;
      var q := os[..n - 1];
      assert Objects(os)[..n - 1] == Objects(q);
      SettledRun(q, template, rand);
      SettledStep(os, template, rand);
    }
  }

  lemma SettledStep(os: seq<Obj>, template: Obj, rand: nat -> nat)
    requires os != [] && Settled(os[|os| - 1])
    requires KeepsAll(os[..|os| - 1], Run(Objects(os[..|os| - 1]), template, rand), template)
    ensures KeepsAll(os, Run(Objects(os), template, rand), template)
  {
    var n := |os|;
    var q := os[..n - 1];
    var rq := Run(Objects(q), template, rand);
    var card := os[n - 1];
    SettledLast(os, template, rand);
    SplitLast(os);
    var r := Run(Objects(os), template, rand);
    forall j | 0 <= j < n
      ensures KeptAsIs(os[j], j, r.cardFiles[j], r.templated[j], template)
    {
      if j < n - 1 {
        assert KeptAsIs(q[j], j, rq.cardFiles[j], rq.templated[j], template);
      }
    }
  }

  /** A settled last card passes through the last step as it is. */
  lemma SettledLast(os: seq<Obj>, template: Obj, rand: nat -> nat)
    requires os != [] && Settled(os[|os| - 1])
    requires !Run(Objects(os[..|os| - 1]), template, rand).crashed
    ensures var rq := Run(Objects(os[..|os| - 1]), template, rand); var card := os[|os| - 1];
      && HasTextName(card, |os| - 1)
      && Run(Objects(os), template, rand)
           == LoopState(rq.retained + [card], rq.cardFiles + [CardStem(card, |os| - 1)],
                        rq.templated + [Templates.TemplateCard(template, card)], rq.draws, false)
  {
    var card := os[|os| - 1];
    var rq := Run(Objects(os[..|os| - 1]), template, rand);
    assert Objects(os)[..|os| - 1] == Objects(os[..|os| - 1]);
    assert WithGuid(card, rand, rq.draws) == card;
  }

  lemma SplitLast<T>(s: seq<T>)
    requires s != []
    ensures s[..|s| - 1] + [s[|s| - 1]] == s
  {
  }

  /** When every child is a card, the kept cards sit at their own indices. */
  lemma {:induction false} AllCardsIndices(cs: seq<JSON>)
    requires forall i :: 0 <= i < |cs| ==> IsCard(cs[i])
    ensures |CardIndices(cs)| == |cs|
    ensures forall j :: 0 <= j < |cs| ==> CardIndices(cs)[j] == j
    decreases |cs|
  {
    if cs != [] {
      var p := cs[..|cs| - 1];
      assert forall i :: 0 <= i < |p| ==> p[i] == cs[i];
      AllCardsIndices(p);
      CardIndicesLast(cs);
    }
  }

  /**
   * The second run of `main`: over the kept cards the loop raises nothing,
   * keeps every card unchanged, assigns no GUID and writes the same
   * templated cards. The stems are the same too when no non-card child
   * preceded a card; otherwise a card without `Nickname` may be renamed,
   * since its fallback name counts positions.
   */
  lemma SecondPassAssignsNothing(cs: seq<JSON>, template: Obj, rand: nat -> nat, rand2: nat -> nat)
    requires !Run(cs, template, rand).crashed
    ensures var r := Run(cs, template, rand); var r2 := Run(Objects(r.retained), template, rand2);
      && !r2.crashed && r2.retained == r.retained && r2.draws == 0 && r2.templated == r.templated
      && |r2.cardFiles| == |r.cardFiles|
      && ((forall i :: 0 <= i < |cs| ==> IsCard(cs[i])) ==> r2.cardFiles == r.cardFiles)
  {
    var r := Run(cs, template, rand);
    RetainedSettled(cs, template, rand);
    SettledRun(r.retained, template, rand2);
    SameBodies(cs, template, rand, rand2);
    if forall i :: 0 <= i < |cs| ==> IsCard(cs[i]) {
      SameStemsWhenAllCards(cs, template, rand, rand2);
    }
  }

  lemma SameBodies(cs: seq<JSON>, template: Obj, rand: nat -> nat, rand2: nat -> nat)
    requires !Run(cs, template, rand).crashed
    requires KeepsAll(Run(cs, template, rand).retained,
                      Run(Objects(Run(cs, template, rand).retained), template, rand2), template)
    ensures Run(Objects(Run(cs, template, rand).retained), template, rand2).templated
         == Run(cs, template, rand).templated
    ensures |Run(Objects(Run(cs, template, rand).retained), template, rand2).cardFiles|
         == |Run(cs, template, rand).cardFiles|
  {
    var r := Run(cs, template, rand);
    var r2 := Run(Objects(r.retained), template, rand2);
    var idx := CardIndices(cs);
    RunMeaning(cs, template, rand);
    forall j | 0 <= j < |r.templated|
      ensures r2.templated[j] == r.templated[j]
    {
      assert KeptFrom(cs[idx[j]], idx[j], r.retained[j], r.cardFiles[j], r.templated[j], template);
      assert KeptAsIs(r.retained[j], j, r2.cardFiles[j], r2.templated[j], template);
    }
  }

  lemma SameStemsWhenAllCards(cs: seq<JSON>, template: Obj, rand: nat -> nat, rand2: nat -> nat)
    requires !Run(cs, template, rand).crashed
    requires forall i :: 0 <= i < |cs| ==> IsCard(cs[i])
    requires KeepsAll(Run(cs, template, rand).retained,
                      Run(Objects(Run(cs, template, rand).retained), template, rand2), template)
    ensures Run(Objects(Run(cs, template, rand).retained), template, rand2).cardFiles
         == Run(cs, template, rand).cardFiles
  {
    var r := Run(cs, template, rand);
    var r2 := Run(Objects(r.retained), template, rand2);
    var idx := CardIndices(cs);
    RunMeaning(cs, template, rand);
    AllCardsIndices(cs);
    forall j | 0 <= j < |r.cardFiles|
      ensures r2.cardFiles[j] == r.cardFiles[j]
    {
      assert KeptFrom(cs[idx[j]], idx[j], r.retained[j], r.cardFiles[j], r.templated[j], template);
      assert KeptAsIs(r.retained[j], j, r2.cardFiles[j], r2.templated[j], template);
    }
  }

  /** Every card the loop keeps is settled. */
  lemma RetainedSettled(cs: seq<JSON>, template: Obj, rand: nat -> nat)
    requires !Run(cs, template, rand).crashed
    ensures forall j :: 0 <= j < |Run(cs, template, rand).retained| ==> Settled(Run(cs, template, rand).retained[j])
  {
    var r := Run(cs, template, rand);
    var idx := CardIndices(cs);
    RunMeaning(cs, template, rand);
    forall j | 0 <= j < |r.retained|
      ensures Settled(r.retained[j])
    {
      assert KeptFrom(cs[idx[j]], idx[j], r.retained[j], r.cardFiles[j], r.templated[j], template);
    }
  }

  /**
   * The second run can rename: a card without `Nickname` behind one
   * non-card child gets the stem `Card2.<guid>` on the first run and
   * `Card1.<guid>` on the rerun.
   */
  lemma SecondPassRenames(other: JSON, card: Obj, template: Obj, rand: nat -> nat, rand2: nat -> nat)
    requires other.JObj? && !IsCard(other)
    requires IsCard(JObj(card)) && !NeedsGuid(card) && "Nickname" !in card
    requires card["GUID"].JStr? && Guids.IsGuid(card["GUID"].s)
    ensures var r := Run([other, JObj(card)], template, rand);
      && r.retained == [card]
      && r.cardFiles == ["Card2." + card["GUID"].s]
      && Run(Objects(r.retained), template, rand2).cardFiles == ["Card1." + card["GUID"].s]
  {
    FallbackStems(card);
    SkipThenCard(other, card, template, rand);
    OnlyCard(card, template, rand2);
  }

  /** The fallback stems of a nickname-less card at indices 0 and 1. */
  lemma FallbackStems(card: Obj)
    requires "Nickname" !in card
    requires "GUID" in card && card["GUID"].JStr? && Guids.IsGuid(card["GUID"].s)
    ensures HasTextName(card, 0) && CardStem(card, 0) == "Card1." + card["GUID"].s
    ensures HasTextName(card, 1) && CardStem(card, 1) == "Card2." + card["GUID"].s
  {
    var g := card["GUID"].s;
    Guids.GuidIsPlain(g);
    StemWithFallback(card, 0);
    StemWithFallback(card, 1);
    assert IntToString(2) == "2" && IntToString(1) == "1";
  }

  lemma SkipThenCard(other: JSON, card: Obj, template: Obj, rand: nat -> nat)
    requires other.JObj? && !IsCard(other)
    requires IsCard(JObj(card)) && !NeedsGuid(card) && HasTextName(card, 1)
    ensures Run([other, JObj(card)], template, rand).retained == [card]
    ensures Run([other, JObj(card)], template, rand).cardFiles == [CardStem(card, 1)]
  {
    var cs := [other, JObj(card)];
    assert cs[..1][..0] == [];
    assert cs[..1] == [other];
    SkipStep(Start, other, 0, template, rand);
    assert Run(cs[..1], template, rand) == Start;
    CardStepShape(Start, JObj(card), 1, template, rand);
  }

  lemma OnlyCard(card: Obj, template: Obj, rand: nat -> nat)
    requires IsCard(JObj(card)) && !NeedsGuid(card) && HasTextName(card, 0)
    ensures Run(Objects([card]), template, rand).cardFiles == [CardStem(card, 0)]
  {
    assert Objects([card]) == [JObj(card)];
    assert [JObj(card)][..0] == [];
    CardStepShape(Start, JObj(card), 0, template, rand);
  }

  /**
   * The stem is the cleaned name, a '.', and the GUID, whenever the GUID is
   * a string without '.' that does not begin with "json" (every generated
   * GUID is one).
   */
  lemma StemIsNameDotGuid(card: Obj, i: nat)
    requires HasTextName(card, i)
    requires "GUID" in card && card["GUID"].JStr?
    requires Names.NoDot(card["GUID"].s) && !(|card["GUID"].s| >= 4 && card["GUID"].s[..4] == "json")
    ensures CardStem(card, i) == Names.CleanFilename(NicknameOr(card, i).s) + "." + card["GUID"].s
  {
    var clean := Names.CleanFilename(NicknameOr(card, i).s);
    NameNoDot(clean);
    Names.StemOfFileName(clean, card["GUID"].s);
  }

  /** In particular for a GUID the loop generated. */
  lemma GeneratedStem(card: Obj, i: nat, rand: nat -> nat, at: nat)
    requires HasTextName(card, i) && NeedsGuid(card)
    ensures CardStem(WithGuid(card, rand, at), i)
         == Names.CleanFilename(NicknameOr(card, i).s) + "." + Guids.GenerateGuid(rand, at)
  {
    var g := Guids.GenerateGuid(rand, at);
    Guids.GuidIsPlain(g);
    WithGuidKeepsNames(card, rand, at, i);
    StemIsNameDotGuid(WithGuid(card, rand, at), i);
  }

  /** A card without `Nickname` at index `i` gets the stem `Card{i+1}.{guid}` (no underscore). */
  lemma StemWithFallback(card: Obj, i: nat)
    requires "Nickname" !in card
    requires "GUID" in card && card["GUID"].JStr?
    requires Names.NoDot(card["GUID"].s) && !(|card["GUID"].s| >= 4 && card["GUID"].s[..4] == "json")
    ensures HasTextName(card, i)
    ensures CardStem(card, i) == "Card" + IntToString(i + 1) + "." + card["GUID"].s
  {
    Names.CleanCardFallback(IntToString(i + 1));
    NameNoDot("Card" + IntToString(i + 1));
    Names.StemOfFileName("Card" + IntToString(i + 1), card["GUID"].s);
  }

  lemma NameNoDot(s: string)
    requires Names.AllAllowed(s)
    ensures Names.NoDot(s)
  {
  }
}
