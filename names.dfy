/**
 * File-name handling: the sanitiser `clean_filename`, and the
 * `str.replace('.json', '')` that turns a card's file name into the stem
 * listed in the manifest.
 */
module Names {

  /** The characters the sanitiser keeps: U+4E00..U+9FA5, a-z, A-Z and 0-9. */
  predicate Allowed(c: char)
  {
    (0x4E00 <= c as int <= 0x9FA5) || ('a' <= c <= 'z') || ('A' <= c <= 'Z') || ('0' <= c <= '9')
  }

  predicate AllAllowed(s: string)
  {
    forall k :: 0 <= k < |s| ==> Allowed(s[k])
  }

  /** The name used when nothing survives sanitising. */
  const Fallback: string := "Unknown"

  /** The regular-expression substitution: drop every character that is not Allowed. */
  function Keep(s: string): (r: string)
    ensures |r| <= |s|
    ensures AllAllowed(r)
  {
    if s == [] then [] else (if Allowed(s[0]) then [s[0]] else []) + Keep(s[1..])
  }

  /** `clean_filename`: the kept characters, or "Unknown" when none are kept. */
  function CleanFilename(nickname: string): (r: string)
    ensures r != []
    ensures AllAllowed(r)
  {
    var cleaned := Keep(nickname);
    if cleaned != [] then cleaned else Fallback
  }

  /** Order is preserved: sanitising a concatenation sanitises each part in place. */
  lemma {:induction false} KeepAppend(s: string, t: string)
    ensures Keep(s + t) == Keep(s) + Keep(t)
  {
    if s != [] {
      assert (s + t)[0] == s[0];
      assert (s + t)[1..] == s[1..] + t;
      KeepAppend(s[1..], t);
      var h: string := if Allowed(s[0]) then [s[0]] else [];
      assert Keep(s + t) == h + (Keep(s[1..]) + Keep(t));
      assert Keep(s) == h + Keep(s[1..]);
      assert h + (Keep(s[1..]) + Keep(t)) == (h + Keep(s[1..])) + Keep(t);
    } else {
      assert s + t == t;
    }
  }

  /** Exactly the allowed characters survive, each as often as it occurs. */
  lemma {:induction false} KeepCounts(s: string, c: char)
    ensures multiset(Keep(s))[c] == if Allowed(c) then multiset(s)[c] else 0
  {
    if s != [] {
      KeepCounts(s[1..], c);
      assert s == [s[0]] + s[1..];
      assert multiset(s) == multiset([s[0]]) + multiset(s[1..]);
    }
  }

  /** A string made only of allowed characters is left as it is, and only such a string is. */
  lemma {:induction false} KeepFixpoint(s: string)
    ensures Keep(s) == s <==> AllAllowed(s)
  {
    if s != [] {
      KeepFixpoint(s[1..]);
      if !Allowed(s[0]) {
        assert |Keep(s)| <= |s[1..]| < |s|;
      }
    }
  }

  /** Sanitising twice gives what sanitising once gives. */
  lemma CleanFilenameIdempotent(s: string)
    ensures CleanFilename(CleanFilename(s)) == CleanFilename(s)
  {
    KeepFixpoint(CleanFilename(s));
  }

  /** The result is the input exactly when the input is non-empty and fully allowed. */
  lemma CleanFilenameFixpoint(s: string)
    ensures CleanFilename(s) == s <==> (s != [] && AllAllowed(s))
  {
    KeepFixpoint(s);
  }

  /** The fallback stem `Card_{n}` loses its underscore: it sanitises to `Card{n}`. */
  lemma CleanCardFallback(digits: string)
    requires forall k :: 0 <= k < |digits| ==> '0' <= digits[k] <= '9'
    ensures CleanFilename("Card_" + digits) == "Card" + digits
  {
    KeepAppend("Card_", digits);
    KeepFixpoint(digits);
  }

  /** Python's `s.replace(pat, '')`: remove non-overlapping occurrences from left to right. */
  function RemoveAll(s: string, pat: string): (r: string)
    requires pat != []
    ensures |r| <= |s|
    decreases |s|
  {
    if |s| < |pat| then s
    else if s[..|pat|] == pat then RemoveAll(s[|pat|..], pat)
    else [s[0]] + RemoveAll(s[1..], pat)
  }

  const JsonExt: string := ".json"

  predicate NoDot(s: string)
  {
    forall k :: 0 <= k < |s| ==> s[k] != '.'
  }

  /** A prefix without '.' cannot hold the start of ".json", so it passes through unchanged. */
  lemma {:induction false} RemoveAllDotFree(x: string, y: string)
    requires NoDot(x)
    ensures RemoveAll(x + y, JsonExt) == x + RemoveAll(y, JsonExt)
  {
    if x != [] {
      var s := x + y;
      if |s| < |JsonExt| {
        assert RemoveAll(s, JsonExt) == s;
        assert RemoveAll(y, JsonExt) == y;
      } else {
        assert s[0] == x[0] != '.';
        assert s[..|JsonExt|] != JsonExt by {
          assert s[..|JsonExt|][0] == s[0];
        }
        assert s[1..] == x[1..] + y;
        assert NoDot(x[1..]);
        RemoveAllDotFree(x[1..], y);
        calc {
          RemoveAll(s, JsonExt);
          [s[0]] + RemoveAll(s[1..], JsonExt);
          [x[0]] + (x[1..] + RemoveAll(y, JsonExt));
          { assert [x[0]] + x[1..] == x; }
          x + RemoveAll(y, JsonExt);
        }
      }
    } else {
      assert x + y == y;
    }
  }

  /**
   * The manifest stem of a card file: dropping ".json" from
   * `name.guid.json` leaves `name.guid` whenever the name has no '.' (a
   * sanitised name never has one), the GUID has no '.', and the GUID does
   * not begin with "json".
   */
  lemma StemOfFileName(name: string, guid: string)
    requires NoDot(name) && NoDot(guid)
    requires !(|guid| >= 4 && guid[..4] == "json")
    ensures RemoveAll(name + "." + guid + JsonExt, JsonExt) == name + "." + guid
  {
    var t := "." + guid + JsonExt;
    assert name + "." + guid + JsonExt == name + t;
    assert name + "." + guid == name + ("." + guid);
    RemoveAllDotFree(name, t);
    DotGuidStep(guid);
  }

  lemma RemoveAllExt()
    ensures RemoveAll(JsonExt, JsonExt) == []
  {
    assert JsonExt[|JsonExt|..] == [];
  }

  /** After the '.', a dot-free GUID and the extension reduce to the GUID alone. */
  lemma DotGuidStep(guid: string)
    requires NoDot(guid)
    requires !(|guid| >= 4 && guid[..4] == "json")
    ensures RemoveAll("." + guid + JsonExt, JsonExt) == "." + guid
  {
    var t := "." + guid + JsonExt;
    DotGuidNoMatch(guid);
    var u := guid + JsonExt;
    assert t == ['.'] + u;
    RemoveAllDotFree(guid, JsonExt);
    RemoveAllExt();
    assert RemoveAll(u, JsonExt) == guid;
    assert ['.'] + guid == "." + guid;
  }

  /** The '.' before a GUID that does not begin with "json" does not start an occurrence. */
  lemma DotGuidNoMatch(guid: string)
    requires NoDot(guid)
    requires !(|guid| >= 4 && guid[..4] == "json")
    ensures |"." + guid + JsonExt| >= |JsonExt|
    ensures ("." + guid + JsonExt)[..|JsonExt|] != JsonExt
  {
    var t := "." + guid + JsonExt;
    if |guid| >= 4 {
      var k :| 0 <= k < 4 && guid[k] != "json"[k];
      assert t[..|JsonExt|][k + 1] == guid[k];
      assert JsonExt[k + 1] == "json"[k];
    } else {
      assert t[..|JsonExt|][1 + |guid|] == '.';
      assert JsonExt[1 + |guid|] != '.';
    }
  }
}
