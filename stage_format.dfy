/** The deal-stage label transform that the subscription, deal-creation,
    contact-deals and all-deals views each carry a copy of: a space before every
    ASCII capital, the first character upper-cased, then trimmed. */
module StageFormat {
  import opened Text
  import opened Crm

  /** `.replace(/([A-Z])/g, ' $1')` */
  function SpaceBeforeCapitals(s: string): (r: string)
    ensures |r| >= |s|
  {
    if s == [] then []
    else (if IsAsciiUpper(s[0]) then [' ', s[0]] else [s[0]]) + SpaceBeforeCapitals(s[1..])
  }

  /** `.replace(/^./, str => str.toUpperCase())`. The pattern does not match a
      leading line terminator, which upper-casing would leave unchanged anyway. */
  function UpperFirst(s: string): (r: string)
    ensures |r| == |s|
  {
    if s == [] then [] else [UpperChar(s[0])] + s[1..]
  }

  /** `stage.replace(/([A-Z])/g, ' $1').replace(/^./, str => str.toUpperCase()).trim()` */
  function FormatDealStage(stage: string): (r: string)
    ensures r == [] || (!IsWhitespace(r[0]) && !IsWhitespace(r[|r| - 1]))
  {
    Trim(UpperFirst(SpaceBeforeCapitals(stage)))
  }

  /** The copies with a default parameter, `formatDealStage(stage = '')`: an
      undefined stage is formatted as the empty one, giving `''`. */
  function FormatDefaultedStage(stage: Option<string>): (r: string)
    ensures stage.None? ==> r == ""
    ensures stage.Some? ==> r == FormatDealStage(stage.value)
  {
    FormatEmptyExample();
    FormatDealStage(stage.GetOr(""))
  }

  predicate NoAsciiCapitals(s: string) {
    forall i :: 0 <= i < |s| ==> !IsAsciiUpper(s[i])
  }

  lemma {:induction false} SpaceBeforeCapitalsIdentity(s: string)
    requires NoAsciiCapitals(s)
    ensures SpaceBeforeCapitals(s) == s
  {
    if s != [] {
      SpaceBeforeCapitalsIdentity(s[1..]);
    }
  }

  /** A stage code without capitals or whitespace, such as every code of the
      CRM's default pipeline, is only capitalised: `closedwon` gives `Closedwon`. */
  lemma FormatLowercaseCode(s: string)
    requires s != [] && NoAsciiCapitals(s) && NoWhitespace(s)
    ensures FormatDealStage(s) == [UpperChar(s[0])] + s[1..]
  {
    SpaceBeforeCapitalsIdentity(s);
    var u := UpperFirst(s);
    assert !IsWhitespace(u[0]) && !IsWhitespace(u[|u| - 1]);
    TrimOfTrimmed(u);
  }

  lemma {:induction false} SpaceBeforeCapitalsAppend(a: string, b: string)
    ensures SpaceBeforeCapitals(a + b) == SpaceBeforeCapitals(a) + SpaceBeforeCapitals(b)
  {
    if a == [] {
      assert a + b == b;
    } else {
      assert (a + b)[0] == a[0] && (a + b)[1..] == a[1..] + b;
      SpaceBeforeCapitalsAppend(a[1..], b);
    }
  }

  lemma SpacedTwoWords(first: string, capital: char, rest: string)
    requires NoAsciiCapitals(first) && IsAsciiUpper(capital) && NoAsciiCapitals(rest)
    ensures SpaceBeforeCapitals(first + [capital] + rest) == first + ([' ', capital] + rest)
  {
    SpaceBeforeCapitalsAppend(first, [capital] + rest);
    SpaceBeforeCapitalsAppend([capital], rest);
    SpaceBeforeCapitalsIdentity(first);
    SpaceBeforeCapitalsIdentity(rest);
    assert first + [capital] + rest == first + ([capital] + rest);
  }

  /** When the spaced text starts and ends with a character that is not
      whitespace, only the capitalisation of the first character remains. */
  lemma FormatOfSpaced(stage: string, spaced: string)
    requires SpaceBeforeCapitals(stage) == spaced
    requires spaced != [] && !IsWhitespace(spaced[0]) && !IsWhitespace(spaced[|spaced| - 1])
    requires |spaced| > 1
    ensures FormatDealStage(stage) == [UpperChar(spaced[0])] + spaced[1..]
  {
    var u := UpperFirst(spaced);
    assert u[|u| - 1] == spaced[|spaced| - 1];
    TrimOfTrimmed(u);
  }

  /** A camel-case code whose words after the first start with a capital:
      `lower + Capital + lower'` gives `Lower + " " + Capital + lower'`. */
  lemma FormatTwoWords(first: string, capital: char, rest: string)
    requires first != [] && rest != []
    requires NoAsciiCapitals(first) && IsAsciiUpper(capital) && NoAsciiCapitals(rest)
    requires !IsWhitespace(first[0]) && !IsWhitespace(rest[|rest| - 1])
    ensures FormatDealStage(first + [capital] + rest)
         == [UpperChar(first[0])] + (first[1..] + ([' ', capital] + rest))
  {
    var tail := [' ', capital] + rest;
    var spaced := first + tail;
    assert SpaceBeforeCapitals(first + [capital] + rest) == spaced by {
      SpacedTwoWords(first, capital, rest);
    }
    assert spaced[0] == first[0];
    assert spaced[|spaced| - 1] == rest[|rest| - 1];
    assert spaced[1..] == first[1..] + tail;
    FormatOfSpaced(first + [capital] + rest, spaced);
  }

  lemma ClosedWonCodeIsPlain()
    ensures NoAsciiCapitals("closedwon") && NoWhitespace("closedwon")
    ensures [UpperChar('c')] + "losedwon" == "Closedwon"
  {
  }

  /** The empty stage gives the empty label. */
  lemma FormatEmptyExample()
    ensures FormatDealStage("") == ""
  {
  }

  /** `closedwon` gives `Closedwon`. */
  lemma FormatClosedWonExample()
    ensures FormatDealStage("closedwon") == "Closedwon"
  {
    ClosedWonCodeIsPlain();
    var code := "closedwon";
    assert code[0] == 'c' && code[1..] == "losedwon";
    FormatLowercaseCode(code);
  }

  lemma ContractSentIsTwoWords()
    ensures "contractSent" == "contract" + ['S'] + "ent"
    ensures NoAsciiCapitals("contract") && NoAsciiCapitals("ent")
    ensures [UpperChar('c')] + ("ontract" + ([' ', 'S'] + "ent")) == "Contract Sent"
  {
  }

  /** `contractSent` gives `Contract Sent`. */
  lemma FormatContractSentExample()
    ensures FormatDealStage("contractSent") == "Contract Sent"
  {
    ContractSentIsTwoWords();
    var first, rest := "contract", "ent";
    assert first[0] == 'c' && first[1..] == "ontract";
    FormatTwoWords(first, 'S', rest);
  }
}
