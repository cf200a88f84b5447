/**
 * ParserUtils.h: the support lattice attached to every ingested record, the slot-replacement
 * guard `SupportSettings::OverriddenBy`, and the attribute readers used throughout ingestion
 * (the scalar `readAttribute` with a default, and the delimited-integer-list `readAttribute`
 * that appends to the caller's vector).
 */
module ParserUtils {
  import opened XmlTree
  import opened Decimal
  import Wrappers

  /** `enum class SupportLevel`, ordered by specificity. */
  datatype SupportLevel = None | Default | Override

  /**
   * `struct SupportSettings`. The header declares only `Name` and `Level`; ParserUtils.cpp also
   * reads and writes a `Version`, which this model adds as `version`.
   */
  datatype SupportSettings = SupportSettings(name: string, level: SupportLevel, version: int)

  /** A default-constructed `SupportSettings`: empty name, level Default, version 0. */
  const FreshSettings := SupportSettings("", Default, 0)

  /**
   * `OverriddenBy`: a slot may be replaced unless it already holds an Override decision and the
   * candidate is not itself an Override.
   */
  function OverriddenBy(slot: SupportSettings, support: SupportLevel): (r: bool)
    ensures slot.level == Override ==> (r <==> support == Override)
    ensures slot.level != Override ==> r
  {
    slot.level != Override || support == Override
  }

  /**
   * Scalar `readAttribute<int>`: the default when the attribute is absent, else its text read as a
   * number. The source reads it with tinyxml2's `IntValue`, taken here as `atoi`.
   */
  function ReadInt(node: Element, name: string, default: int): (v: int)
    ensures name !in node.attributes ==> v == default
    ensures name in node.attributes ==> v == Atoi(node.attributes[name])
  {
    match FindAttribute(node, name)
    case None => default
    case Some(text) => Atoi(text)
  }

  /** Scalar `readAttribute<bool>`: the attribute's integer value (`IntValue`, as above) converted to bool. */
  function ReadBool(node: Element, name: string, default: bool): (v: bool)
    ensures name !in node.attributes ==> v == default
    ensures name in node.attributes ==> (v <==> Atoi(node.attributes[name]) != 0)
  {
    match FindAttribute(node, name)
    case None => default
    case Some(text) => Atoi(text) != 0
  }

  /** Where the loop's first inner scan stops: past the run of digits starting at `i`. */
  function DigitRunEnd(s: string, i: nat): (j: nat)
    requires i <= |s|
    ensures i <= j <= |s|
    ensures forall k :: i <= k < j ==> IsDigit(s[k])
    ensures j == |s| || !IsDigit(s[j])
    decreases |s| - i
  {
    if i < |s| && IsDigit(s[i]) then DigitRunEnd(s, i + 1) else i
  }

  /** Where the loop's second inner scan stops: past the run of non-digits starting at `i`. */
  function SeparatorRunEnd(s: string, i: nat): (j: nat)
    requires i <= |s|
    ensures i <= j <= |s|
    ensures forall k :: i <= k < j ==> !IsDigit(s[k])
    ensures j == |s| || IsDigit(s[j])
    decreases |s| - i
  {
    if i < |s| && !IsDigit(s[i]) then SeparatorRunEnd(s, i + 1) else i
  }

  /**
   * The values the list reader's loop appends from position `i` of the text `s` on: it pushes
   * `atoi` of the remaining text, then skips a run of digits and then a run of non-digits.
   * One of the two runs is non-empty, so every round moves on.
   */
  function IntListFrom(s: string, i: nat): seq<int>
    requires i <= |s|
    decreases |s| - i
  {
    if i == |s| then [] else [Atoi(s[i..])] + IntListFrom(s, SeparatorRunEnd(s, DigitRunEnd(s, i)))
  }

  function IntList(s: string): seq<int>
  {
    IntListFrom(s, 0)
  }

  /** What the list `readAttribute` appends: nothing for an absent or empty attribute. */
  function ListAttribute(node: Element, name: string): (r: seq<int>)
    ensures name !in node.attributes || node.attributes[name] == "" ==> r == []
    ensures name in node.attributes ==> r == IntList(node.attributes[name])
  {
    match FindAttribute(node, name)
    case None => []
    case Some(text) => if text == "" then [] else IntList(text)
  }

  /**
   * The list `readAttribute<int>(node, name, vector)`: appends to the caller's vector in place,
   * never clearing it. The vector is passed in and its new value returned.
   */
  method ReadIntList(node: Element, name: string, vector: seq<int>) returns (r: seq<int>)
    ensures r == vector + ListAttribute(node, name)
  {
    if name !in node.attributes {
      assert vector + [] == vector;
      return vector;
    }
    var value := node.attributes[name];
    if value == "" {
      assert vector + [] == vector;
      return vector;
    }
    r := vector;
    var i := 0;
    while i < |value|
      invariant 0 <= i <= |value|
      invariant r + IntListFrom(value, i) == vector + IntList(value)
    {
      IntListFromStep(r, value, i);
      r := r + [Atoi(value[i..])];
      i := SkipDigits(value, i);
      i := SkipSeparators(value, i);
    }
    assert r + [] == r;
  }

  /** The list reader's first inner scan: past the digits starting at `i`. */
  method SkipDigits(s: string, i: nat) returns (j: nat)
    requires i <= |s|
    ensures j == DigitRunEnd(s, i)
  {
    j := i;
    while j < |s| && IsDigit(s[j])
      invariant i <= j <= |s|
      invariant DigitRunEnd(s, i) == DigitRunEnd(s, j)
    {
      j := j + 1;
    }
  }

  /** The list reader's second inner scan: past the non-digits starting at `i`. */
  method SkipSeparators(s: string, i: nat) returns (j: nat)
    requires i <= |s|
    ensures j == SeparatorRunEnd(s, i)
  {
    j := i;
    while j < |s| && !IsDigit(s[j])
      invariant i <= j <= |s|
      invariant SeparatorRunEnd(s, i) == SeparatorRunEnd(s, j)
    {
      j := j + 1;
    }
  }

  /** The list `readAttribute` into a freshly declared (empty) vector. */
  method ReadFreshIntList(node: Element, name: string) returns (r: seq<int>)
    ensures r == ListAttribute(node, name)
  {
    r := ReadIntList(node, name, []);
    assert [] + ListAttribute(node, name) == ListAttribute(node, name);
  }

  /** One round of the list reader: push the number at `i`, then continue past both runs. */
  lemma IntListFromStep(r: seq<int>, s: string, i: nat)
    requires i < |s|
    ensures r + [Atoi(s[i..])] + IntListFrom(s, SeparatorRunEnd(s, DigitRunEnd(s, i))) == r + IntListFrom(s, i)
  {
    var rest := IntListFrom(s, SeparatorRunEnd(s, DigitRunEnd(s, i)));
    assert IntListFrom(s, i) == [Atoi(s[i..])] + rest;
    assert r + [Atoi(s[i..])] + rest == r + ([Atoi(s[i..])] + rest);
  }

  /** The appended values never outnumber the characters of the attribute text. */
  lemma {:induction false} IntListFromLength(s: string, i: nat)
    requires i <= |s|
    ensures |IntListFrom(s, i)| <= |s| - i
    decreases |s| - i
  {
    if i < |s| {
      IntListFromLength(s, SeparatorRunEnd(s, DigitRunEnd(s, i)));
    }
  }

  /** Digit strings, each with at least one digit: the numbers of a well-formed list, as written. */
  predicate Numerals(ds: seq<string>)
  {
    forall i :: 0 <= i < |ds| ==> ds[i] != [] && AllDigits(ds[i])
  }

  /** The values of the numerals `ds`, in order. */
  function Values(ds: seq<string>): (vs: seq<int>)
    requires Numerals(ds)
    ensures |vs| == |ds|
  {
    if ds == [] then [] else [DigitsValue(ds[0]) as int] + Values(ds[1..])
  }

  /** `ds` joined: the numerals with `sep` between consecutive ones. */
  function Joined(ds: seq<string>, sep: string): string
    requires ds != []
    decreases |ds|
  {
    if |ds| == 1 then ds[0] else ds[0] + sep + Joined(ds[1..], sep)
  }

  /** The decimal texts of `ns`, as `std::ostream` writes them. */
  function Decimals(ns: seq<nat>): (ds: seq<string>)
    ensures Numerals(ds) && Values(ds) == ns
  {
    if ns == [] then []
    else
      DigitsValueOfNatToString(ns[0]);
      var ds := [NatToString(ns[0])] + Decimals(ns[1..]);
      assert ds[1..] == Decimals(ns[1..]);
      assert ns == [ns[0]] + ns[1..];
      ds
  }

  lemma {:induction false} DigitRunOver(s: string, i: nat, j: nat)
    requires i <= j <= |s|
    requires forall k :: i <= k < j ==> IsDigit(s[k])
    requires j == |s| || !IsDigit(s[j])
    ensures DigitRunEnd(s, i) == j
    decreases j - i
  {
    if i < j {
      DigitRunOver(s, i + 1, j);
    }
  }

  lemma {:induction false} SeparatorRunOver(s: string, i: nat, j: nat)
    requires i <= j <= |s|
    requires forall k :: i <= k < j ==> !IsDigit(s[k])
    requires j == |s| || IsDigit(s[j])
    ensures SeparatorRunEnd(s, i) == j
    decreases j - i
  {
    if i < j {
      SeparatorRunOver(s, i + 1, j);
    }
  }

  /** One numeral of a joined list: its digits start at |prefix| and are followed by `rest`. */
  lemma NumberAt(prefix: string, d: string, rest: string)
    requires d != [] && AllDigits(d)
    requires rest == [] || !IsDigit(rest[0])
    ensures var s := prefix + d + rest;
      && Atoi(s[|prefix|..]) == DigitsValue(d)
      && DigitRunEnd(s, |prefix|) == |prefix| + |d|
  {
    var s := prefix + d + rest;
    Wrappers.AppendAssociative(prefix, d, rest);
    assert s[|prefix|..] == d + rest;
    AtoiOfDigits(d, rest);
    forall k | |prefix| <= k < |prefix| + |d|
      ensures IsDigit(s[k])
    {
      assert s[k] == d[k - |prefix|];
    }
    if rest != [] {
      assert s[|prefix| + |d|] == rest[0];
    }
    DigitRunOver(s, |prefix|, |prefix| + |d|);
  }

  /** The separator after a numeral of a joined list is skipped in one run. */
  lemma SeparatorAt(prefix: string, sep: string, tail: string)
    requires forall i :: 0 <= i < |sep| ==> !IsDigit(sep[i])
    requires tail != [] && IsDigit(tail[0])
    ensures SeparatorRunEnd(prefix + sep + tail, |prefix|) == |prefix| + |sep|
  {
    var s := prefix + sep + tail;
    forall k | |prefix| <= k < |prefix| + |sep|
      ensures !IsDigit(s[k])
    {
      assert s[k] == sep[k - |prefix|];
    }
    assert s[|prefix| + |sep|] == tail[0];
    SeparatorRunOver(s, |prefix|, |prefix| + |sep|);
  }

  /** A joined list of two or more numerals: the head numeral, the separator, and the rest joined. */
  lemma JoinedCons(prefix: string, ds: seq<string>, sep: string)
    requires |ds| >= 2 && Numerals(ds)
    ensures var tail := Joined(ds[1..], sep);
      && prefix + Joined(ds, sep) == prefix + ds[0] + (sep + tail)
      && prefix + Joined(ds, sep) == prefix + ds[0] + sep + tail
      && tail != [] && IsDigit(tail[0])
  {
    var head := ds[0];
    var tail := Joined(ds[1..], sep);
    assert Joined(ds, sep) == head + sep + tail;
    Wrappers.AppendAssociative(prefix, head + sep, tail);
    Wrappers.AppendAssociative(prefix, head, sep);
    Wrappers.AppendAssociative(head, sep, tail);
    Wrappers.AppendAssociative(prefix, head, sep + tail);
    assert ds[1..][0] == ds[1];
    JoinedStartsWithDigit(ds[1..], sep);
  }

  /** A joined list starts with the first digit of its first numeral. */
  lemma JoinedStartsWithDigit(ds: seq<string>, sep: string)
    requires ds != [] && ds[0] != [] && AllDigits(ds[0])
    ensures Joined(ds, sep) != [] && IsDigit(Joined(ds, sep)[0])
  {
    if |ds| > 1 {
      var rest := Joined(ds[1..], sep);
      assert Joined(ds, sep) == ds[0] + sep + rest;
      assert (ds[0] + sep + rest)[0] == ds[0][0];
    }
  }

  /** One round of the reader over a joined list: the head numeral, then the rest of the list. */
  lemma JoinedStep(prefix: string, ds: seq<string>, sep: string)
    requires |ds| >= 2 && Numerals(ds)
    requires sep != [] && forall i :: 0 <= i < |sep| ==> !IsDigit(sep[i])
    ensures var s := prefix + Joined(ds, sep);
      var next := prefix + ds[0] + sep;
      && s == next + Joined(ds[1..], sep)
      && Atoi(s[|prefix|..]) == DigitsValue(ds[0])
      && SeparatorRunEnd(s, DigitRunEnd(s, |prefix|)) == |next|
  {
    var tail := Joined(ds[1..], sep);
    JoinedCons(prefix, ds, sep);
    NumberAt(prefix, ds[0], sep + tail);
    SeparatorAt(prefix + ds[0], sep, tail);
  }

  /** The last numeral of a joined list is read and ends the list. */
  lemma SingleNumber(prefix: string, d: string)
    requires d != [] && AllDigits(d)
    ensures IntListFrom(prefix + d, |prefix|) == [DigitsValue(d) as int]
  {
    var s := prefix + d;
    assert s == prefix + d + [];
    NumberAt(prefix, d, []);
    SeparatorRunOver(s, |s|, |s|);
    assert IntListFrom(s, |s|) == [];
  }

  /** Reading a joined list that starts at position |prefix|. */
  lemma {:induction false} IntListFromJoined(prefix: string, ds: seq<string>, sep: string)
    requires ds != [] && Numerals(ds)
    requires sep != [] && forall i :: 0 <= i < |sep| ==> !IsDigit(sep[i])
    ensures IntListFrom(prefix + Joined(ds, sep), |prefix|) == Values(ds)
    decreases |ds|
  {
    var s := prefix + Joined(ds, sep);
    if |ds| == 1 {
      SingleNumber(prefix, ds[0]);
    } else {
      var next := prefix + ds[0] + sep;
      JoinedStep(prefix, ds, sep);
      assert Numerals(ds[1..]);
      IntListFromJoined(next, ds[1..], sep);
      assert IntListFrom(s, |prefix|) == [DigitsValue(ds[0]) as int] + IntListFrom(s, |next|);
    }
  }

  /**
   * Well-formed lists read back exactly: numerals separated by any non-empty run of non-digit
   * characters ("1,2,3", "4 | 5", "007;8") give their values, in order.
   */
  lemma IntListOfJoined(ds: seq<string>, sep: string)
    requires ds != [] && Numerals(ds)
    requires sep != [] && forall i :: 0 <= i < |sep| ==> !IsDigit(sep[i])
    ensures IntList(Joined(ds, sep)) == Values(ds)
  {
    IntListFromJoined([], ds, sep);
    assert [] + Joined(ds, sep) == Joined(ds, sep);
  }

  /** In particular, the list `std::ostream` writes for `ns` is read back as `ns`. */
  lemma IntListOfWrittenList(ns: seq<nat>, sep: string)
    requires ns != []
    requires sep != [] && forall i :: 0 <= i < |sep| ==> !IsDigit(sep[i])
    ensures IntList(Joined(Decimals(ns), sep)) == ns
  {
    IntListOfJoined(Decimals(ns), sep);
  }

  /**
   * A leading separator yields an extra 0: a list that starts with a character other than a
   * digit, a sign or white space (",5") appends 0 before its first number.
   */
  lemma LeadingSeparatorReadsZero(c: char, d: string)
    requires !IsDigit(c) && !IsSpace(c) && c != '-' && c != '+'
    requires d != [] && AllDigits(d)
    ensures IntList([c] + d) == [0, DigitsValue(d) as int]
  {
    var s := [c] + d;
    assert s[0] == c;
    assert SkipSpaces(s) == s;
    assert LeadingDigits(s) == [];
    OneSeparatorThenNumber(c, d);
  }

  /**
   * A minus sign is read as part of a number and then again as a separator: "-5" appends -5
   * and then 5.
   */
  lemma MinusSignReadsTwice(d: string)
    requires d != [] && AllDigits(d)
    ensures IntList("-" + d) == [-(DigitsValue(d) as int), DigitsValue(d) as int]
  {
    assert "-" + d == "-" + d + [];
    AtoiOfNegatedDigits(d, []);
    OneSeparatorThenNumber('-', d);
  }

  /** A list made of one non-digit and then a numeral: `atoi` of the whole text, then the numeral's value. */
  lemma OneSeparatorThenNumber(c: char, d: string)
    requires !IsDigit(c) && d != [] && AllDigits(d)
    ensures var s := [c] + d;
      IntList(s) == [Atoi(s), DigitsValue(d) as int]
  {
    var s := [c] + d;
    assert s[0] == c;
    assert s[1] == d[0];
    DigitRunOver(s, 0, 0);
    SeparatorRunOver(s, 0, 1);
    SingleNumber([c], d);
    assert s[0..] == s;
    assert IntListFrom(s, 0) == [Atoi(s)] + IntListFrom(s, 1);
  }
}
