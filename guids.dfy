/**
 * `generate_guid`: six characters, each picked by `random.choice` from
 * "123456789abcdef". The random source is an oracle `rand`: draw number
 * `at + k` is `rand(at + k)`, and the pick is that draw modulo the alphabet
 * size. Nothing is claimed about distribution or collisions.
 */
module Guids {
  import Names

  const Alphabet: string := "123456789abcdef"

  const GuidLength: nat := 6

  /** A character of the alphabet: a digit 1-9 or a letter a-f. */
  predicate IsGuidChar(c: char)
  {
    ('1' <= c <= '9') || ('a' <= c <= 'f')
  }

  lemma GuidCharIsInAlphabet(c: char)
    ensures IsGuidChar(c) <==> c in Alphabet
  {
    if IsGuidChar(c) {
      assert Alphabet[AlphabetIndex(c)] == c;
    }
  }

  /** The shape every generated identifier has. */
  predicate IsGuid(g: string)
  {
    |g| == GuidLength && forall k :: 0 <= k < |g| ==> IsGuidChar(g[k])
  }

  /** The identifier built from draws `at`, ..., `at + 5` of the oracle. */
  function GenerateGuid(rand: nat -> nat, at: nat): (g: string)
    ensures IsGuid(g)
  {
    seq(GuidLength, k requires 0 <= k => Alphabet[rand(at + k) % |Alphabet|])
  }

  /** The position of `c` in the alphabet (0 when absent). */
  function AlphabetIndex(c: char): (i: nat)
    ensures i < |Alphabet|
    ensures IsGuidChar(c) ==> Alphabet[i] == c
  {
    if c == '1' then 0 else if c == '2' then 1 else if c == '3' then 2
    else if c == '4' then 3 else if c == '5' then 4 else if c == '6' then 5
    else if c == '7' then 6 else if c == '8' then 7 else if c == '9' then 8
    else if c == 'a' then 9 else if c == 'b' then 10 else if c == 'c' then 11
    else if c == 'd' then 12 else if c == 'e' then 13 else if c == 'f' then 14
    else 0
  }

  /** Every identifier of the right shape is produced by some sequence of draws. */
  lemma EveryGuidReachable(g: string)
    requires IsGuid(g)
    ensures exists rand: nat -> nat :: GenerateGuid(rand, 0) == g
  {
    var rand := (k: nat) => if k < |g| then AlphabetIndex(g[k]) else 0;
    var h := GenerateGuid(rand, 0);
    forall k | 0 <= k < |g|
      ensures h[k] == g[k]
    {
      var i := AlphabetIndex(g[k]);
      assert rand(k) == i;
      assert i % |Alphabet| == i;
    }
    assert h == g;
  }

  /**
   * A generated identifier is truthy, holds no '.', and does not begin with
   * "json"; so it survives the `.replace('.json', '')` of a file name.
   */
  lemma GuidIsPlain(g: string)
    requires IsGuid(g)
    ensures g != []
    ensures Names.NoDot(g)
    ensures !(|g| >= 4 && g[..4] == "json")
  {
    assert g[0] != 'j';
    assert forall k :: 0 <= k < |g| ==> g[k] != '.';
  }
}
