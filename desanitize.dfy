/**
 * XmlParsing.cpp, `Desanitize`: the counting pass over a set-bonus name. An entity runs from the
 * last `&` to the first `;` after it; it is counted as an apostrophe when `strncmp` with at most
 * six characters finds its text (the `&` and what follows, without the `;`) at the start of
 * "&apos;". Because the compared length excludes the `;`, the shorter entities `&;`, `&a;`,
 * `&ap;` and `&apo;` count too. A name with no such entity comes back unchanged.
 */
module Desanitizing {
  import opened Wrappers

  const Apostrophe: string := "&apos;"

  /** The index of the last `&` in `s`, or -1 when there is none. */
  function LastAmpersand(s: string): (k: int)
    ensures -1 <= k < |s|
    decreases |s|
  {
    if s == [] then -1
    else if s[|s| - 1] == '&' then |s| - 1
    else LastAmpersand(s[..|s| - 1])
  }

  /** `LastAmpersand` finds the last `&`. */
  lemma {:induction false} LastAmpersandIsLast(s: string)
    ensures var k := LastAmpersand(s);
      && (k >= 0 ==> s[k] == '&')
      && forall j :: k < j < |s| ==> s[j] != '&'
    decreases |s|
  {
    if s != [] && s[|s| - 1] != '&' {
      var front := s[..|s| - 1];
      LastAmpersandIsLast(front);
      forall j | LastAmpersand(s) < j < |s|
        ensures s[j] != '&'
      {
        if j < |front| {
          assert front[j] == s[j];
        }
      }
    }
  }

  /**
   * The character `c`, following the text `before`, closes an entity counted as an apostrophe:
   * it is a `;`, an `&` precedes it with no `;` since, and the text from that `&` is a prefix of
   * "&apos".
   */
  predicate ClosesApostrophe(before: string, c: char)
  {
    var s := LastAmpersand(before);
    c == ';' && s != -1 && ';' !in before[s..] && before[s..] <= Apostrophe[..5]
  }

  /** The number of apostrophe entities in `text`: the reference definition of the counting pass. */
  function ApostropheCount(text: string): nat
    decreases |text|
  {
    if text == [] then 0
    else
      var before := text[..|text| - 1];
      ApostropheCount(before) + (if ClosesApostrophe(before, text[|text| - 1]) then 1 else 0)
  }

  /** `std::min` on two integers. */
  function Min(a: int, b: int): int
  {
    if a <= b then a else b
  }

  /**
   * `strncmp(s, t, n) == 0` for a `t` of at least `n` characters with no NUL among them: the first
   * `n` characters agree (a NUL in `s` would differ from `t` at that position).
   */
  predicate StrncmpEqual(s: string, t: string, n: nat)
    requires n <= |s| && n <= |t|
  {
    s[..n] == t[..n]
  }

  /**
   * The test of the loop, with at most six characters compared, is the prefix test of
   * `ClosesApostrophe`: an entity of six or more characters cannot match, because its sixth
   * character would have to be the `;` that ends it.
   */
  lemma StrncmpIsPrefixTest(text: string, start: int, i: int)
    requires 0 <= start < i < |text| && ';' !in text[start..i]
    ensures StrncmpEqual(text[start..], Apostrophe, Min(i - start, 6)) <==> text[start..i] <= Apostrophe[..5]
  {
    var entity := text[start..i];
    if i - start >= 6 {
      assert entity[5] in entity;
      assert text[start..][..6][5] != Apostrophe[5];
    } else {
      assert text[start..][..i - start] == entity;
      assert Apostrophe[..i - start] == Apostrophe[..5][..i - start];
    }
  }

  /**
   * What the loop of `Desanitize` knows after the first `i` characters: the entity start is the
   * last `&` so far, and its length is still 0 exactly when no `;` has followed that `&`.
   */
  ghost predicate Scanned(text: string, i: int, start: int, length: int)
  {
    && 0 <= i <= |text|
    && start == LastAmpersand(text[..i])
    && (start == -1 ==> length == 0)
    && (start != -1 ==> (length == 0 <==> ';' !in text[start..i]))
  }

  /** One character more of the text, for the loop of `Desanitize`. */
  lemma ScanStep(text: string, i: int, start: int, length: int)
    requires Scanned(text, i, start, length) && i < |text|
    ensures var closes := text[i] == ';' && start != -1 && length == 0;
      && (closes ==> 0 <= start < i && ';' !in text[start..i])
      && Scanned(text, i + 1, if text[i] == '&' then i else start,
                 if text[i] == '&' then 0 else if closes then i - start else length)
      && ApostropheCount(text[..i + 1])
         == ApostropheCount(text[..i]) + (if closes && text[start..i] <= Apostrophe[..5] then 1 else 0)
  {
    assert text[..i + 1][..i] == text[..i];
    if start != -1 {
      assert text[start..i + 1] == text[start..i] + [text[i]];
      assert text[..i][start..] == text[start..i];
    }
  }

  /**
   * `Desanitize`: the counting pass, then the name unchanged when it counted nothing. `None` stands
   * for the rebuild, which is not modelled.
   */
  method Desanitize(text: string) returns (r: Option<string>)
    ensures r.Some? <==> ApostropheCount(text) == 0
    ensures r.Some? ==> r.value == text
  {
    var apostrophes := 0;
    var specialCharacterStart := -1;
    var specialCharacterLength := 0;
    var i := 0;
    while i < |text|
      invariant Scanned(text, i, specialCharacterStart, specialCharacterLength)
      invariant apostrophes == ApostropheCount(text[..i])
    {
      ScanStep(text, i, specialCharacterStart, specialCharacterLength);
      // The source tests `&` and `;` in two separate ifs; a character is never both.
      if text[i] == '&' {
        specialCharacterStart := i;
        specialCharacterLength := 0;
      } else if text[i] == ';' && specialCharacterStart != -1 && specialCharacterLength == 0 {
        specialCharacterLength := i - specialCharacterStart;
        StrncmpIsPrefixTest(text, specialCharacterStart, i);
        if StrncmpEqual(text[specialCharacterStart..], Apostrophe, Min(specialCharacterLength, 6)) {
          apostrophes := apostrophes + 1;
        }
      }
      i := i + 1;
    }
    assert text[..i] == text;
    if apostrophes == 0 {
      return Some(text);
    }
    return None;
  }

  /** Neither the count nor the last `&` changes over the body of an entity. */
  lemma {:induction false} EntityBodyCountsNothing(prefix: string, body: string)
    requires ';' !in body && '&' !in body
    ensures ApostropheCount(prefix + ['&'] + body) == ApostropheCount(prefix)
    ensures LastAmpersand(prefix + ['&'] + body) == |prefix|
    decreases |body|
  {
    if body == [] {
      assert (prefix + ['&'] + body)[..|prefix|] == prefix;
    } else {
      var front := body[..|body| - 1];
      EntityBodyCountsNothing(prefix, front);
      assert (prefix + ['&'] + body)[..|prefix| + 1 + |front|] == prefix + ['&'] + front;
    }
  }

  /**
   * An entity appended to any text adds one to the count exactly when its text is a prefix of
   * "&apos" — in particular "&apos;" always counts, and "&amp;" never does.
   */
  lemma EntityCounted(prefix: string, body: string)
    requires ';' !in body && '&' !in body
    ensures ApostropheCount(prefix + ['&'] + body + [';'])
         == ApostropheCount(prefix) + (if ['&'] + body <= Apostrophe[..5] then 1 else 0)
  {
    var before := prefix + ['&'] + body;
    EntityBodyCountsNothing(prefix, body);
    assert (before + [';'])[..|before|] == before;
    assert before[|prefix|..] == ['&'] + body;
  }

  /** Text without any `&` has no last `&` and counts nothing, so `Desanitize` returns it unchanged. */
  lemma {:induction false} NoAmpersandNoApostrophe(text: string)
    requires '&' !in text
    ensures LastAmpersand(text) == -1
    ensures ApostropheCount(text) == 0
    decreases |text|
  {
    if text != [] {
      var before := text[..|text| - 1];
      assert forall c :: c in before ==> c in text;
      assert text[|text| - 1] in text;
      NoAmpersandNoApostrophe(before);
    }
  }
}
