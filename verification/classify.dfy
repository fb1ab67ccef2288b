/** The two field-type classifiers of the extraction stage. Each maps a native
    Salesforce `DataType` label to a canonical token through an ordered chain
    of equality and prefix tests in which the first match wins. A `Formula`
    label is classified by the type named inside its parentheses, falling back
    to the manual-review sentinel, and a label no test matches aborts the run. */
module Classify {
  import opened Wrappers
  import opened Text

  /** The sentinel for a recognised type that an operator must resolve by hand. */
  const REPLACE_ME := "REPLACE_ME"

  /** Every token the source-type chain mentions (`PRECENT` is spelled as in
      the chain). */
  const SourceTokens: set<string> := {
    "ADDRESS", "STRING", "BOOLEAN", "CURRENCY", "DATE", "DATETIME", "EMAIL",
    "PHONE", "LOCATION", "REFERENCE", "TEXTAREA", "NUMBER", "PRECENT",
    "PICKLIST", "MULTIPICKLIST", "URL", REPLACE_ME
  }

  /** Every token the destination-type chain mentions. */
  const DestTokens: set<string> := {
    "BOOLEAN", "STRING", "FLOAT", "DATE", "DATETIME", "NUMBER", REPLACE_ME
  }

  /** The argument of a `Formula` label: the text between the first `(` and
      the first `)`, sliced with Python's rules, or `None` where one of the two
      `index` calls raises. */
  function FormulaArgument(dataType: string): (r: Option<string>)
    ensures r.Some? <==> '(' in dataType && ')' in dataType
    ensures r.Some? ==> |r.value| < |dataType|
    ensures r.Some? ==> ')' !in r.value
  {
    match IndexOf(dataType, '(')
    case None => None
    case Some(open) =>
      match IndexOf(dataType, ')')
      case None => None
      case Some(close) =>
        var inner := Slice(dataType, open + 1, close);
        assert forall k :: 0 <= k < |inner| ==> inner[k] == dataType[open + 1 + k] && open + 1 + k < close;
        Some(inner)
  }

  /** The bare `except` around the Formula recursion: any failure of the
      inner classification becomes the sentinel. */
  function Recovered(inner: Result<string>): (r: string)
    ensures inner.Ok? ==> r == inner.value
    ensures inner.Err? ==> r == REPLACE_ME
  {
    match inner
    case Ok(t) => t
    case Err(_) => REPLACE_ME
  }

  /** The rules of the classifier chains, one per test, in the order the
      chains try them. Both chains make the same tests in the same order and
      differ only in what each rule yields. */
  datatype Rule =
    | AddressRule | AutoNumberRule | CheckboxRule | ContentRule | CurrencyRule
    | DateRule | DateTimeRule | EmailRule | ExternalLookupRule | FaxRule
    | FormulaRule | GeolocationRule | HierarchyRule | LongTextAreaRule
    | LookupRule | MasterDetailRule | NameRule | NumberRule | PercentRule
    | PicklistRule | MultiSelectPicklistRule | PhoneRule | RecordTypeRule
    | RichTextAreaRule | RollUpRule | TextAreaRule | TextRule | UrlRule

  /** The test a rule makes of a label: equality with a literal, or the
      literal as a prefix (`str.startswith`). */
  datatype Test = Equals(text: string) | Prefix(text: string)

  /** Each rule's test, as both chains write it. */
  function TestOf(rule: Rule): (t: Test)
    ensures |t.text| > 0
  {
    match rule
    case AddressRule => Equals("Address")
    case AutoNumberRule => Prefix("Auto Number")
    case CheckboxRule => Equals("Checkbox")
    case ContentRule => Prefix("Content")
    case CurrencyRule => Prefix("Currency")
    case DateRule => Equals("Date")
    case DateTimeRule => Equals("Date/Time")
    case EmailRule => Equals("Email")
    case ExternalLookupRule => Equals("External Lookup")
    case FaxRule => Equals("Fax")
    case FormulaRule => Prefix("Formula")
    case GeolocationRule => Equals("Geolocation")
    case HierarchyRule => Equals("Hierarchy")
    case LongTextAreaRule => Prefix("Long Text Area")
    case LookupRule => Prefix("Lookup")
    case MasterDetailRule => Prefix("Master-Detail")
    case NameRule => Equals("Name")
    case NumberRule => Prefix("Number")
    case PercentRule => Prefix("Percent")
    case PicklistRule => Prefix("Picklist")
    case MultiSelectPicklistRule => Equals("Picklist (Multi-Select)")
    case PhoneRule => Equals("Phone")
    case RecordTypeRule => Equals("Record Type")
    case RichTextAreaRule => Prefix("Rich Text Area")
    case RollUpRule => Prefix("Roll-Up")
    case TextAreaRule => Prefix("Text Area")
    case TextRule => Prefix("Text")
    case UrlRule => Prefix("URL")
  }

  /** The first character of each rule's literal. A label can only pass a
      test whose literal starts with the label's own first character, which
      settles most tests at once. */
  function Initial(rule: Rule): char {
    match rule
    case AddressRule => 'A'
    case AutoNumberRule => 'A'
    case CheckboxRule => 'C'
    case ContentRule => 'C'
    case CurrencyRule => 'C'
    case DateRule => 'D'
    case DateTimeRule => 'D'
    case EmailRule => 'E'
    case ExternalLookupRule => 'E'
    case FaxRule => 'F'
    case FormulaRule => 'F'
    case GeolocationRule => 'G'
    case HierarchyRule => 'H'
    case LongTextAreaRule => 'L'
    case LookupRule => 'L'
    case MasterDetailRule => 'M'
    case NameRule => 'N'
    case NumberRule => 'N'
    case PercentRule => 'P'
    case PicklistRule => 'P'
    case MultiSelectPicklistRule => 'P'
    case PhoneRule => 'P'
    case RecordTypeRule => 'R'
    case RichTextAreaRule => 'R'
    case RollUpRule => 'R'
    case TextAreaRule => 'T'
    case TextRule => 'T'
    case UrlRule => 'U'
  }
  /** `Initial` agrees with the literals of `TestOf`, none of which is empty. */
  lemma InitialOfTest(rule: Rule)
    ensures |TestOf(rule).text| > 0 && TestOf(rule).text[0] == Initial(rule)
  {
  }

  /** The label passes the rule's test. */
  predicate Passes(rule: Rule, dataType: string) {
    match TestOf(rule)
    case Equals(text) => dataType == text
    case Prefix(text) => StartsWith(dataType, text)
  }

  /** Where each rule stands in the chains: the rule of rank 0 is tried first. */
  function Rank(rule: Rule): (r: nat)
    ensures r <= LastRank
  {
    match rule
    case AddressRule => 0
    case AutoNumberRule => 1
    case CheckboxRule => 2
    case ContentRule => 3
    case CurrencyRule => 4
    case DateRule => 5
    case DateTimeRule => 6
    case EmailRule => 7
    case ExternalLookupRule => 8
    case FaxRule => 9
    case FormulaRule => 10
    case GeolocationRule => 11
    case HierarchyRule => 12
    case LongTextAreaRule => 13
    case LookupRule => 14
    case MasterDetailRule => 15
    case NameRule => 16
    case NumberRule => 17
    case PercentRule => 18
    case PicklistRule => 19
    case MultiSelectPicklistRule => 20
    case PhoneRule => 21
    case RecordTypeRule => 22
    case RichTextAreaRule => 23
    case RollUpRule => 24
    case TextAreaRule => 25
    case TextRule => 26
    case UrlRule => 27
  }

  const LastRank := 27

  /** The rule of a given rank: the inverse of `Rank`. */
  function RuleAt(i: nat): (r: Rule)
    requires i <= LastRank
    ensures Rank(r) == i
  {
    match i
    case 0 => AddressRule
    case 1 => AutoNumberRule
    case 2 => CheckboxRule
    case 3 => ContentRule
    case 4 => CurrencyRule
    case 5 => DateRule
    case 6 => DateTimeRule
    case 7 => EmailRule
    case 8 => ExternalLookupRule
    case 9 => FaxRule
    case 10 => FormulaRule
    case 11 => GeolocationRule
    case 12 => HierarchyRule
    case 13 => LongTextAreaRule
    case 14 => LookupRule
    case 15 => MasterDetailRule
    case 16 => NameRule
    case 17 => NumberRule
    case 18 => PercentRule
    case 19 => PicklistRule
    case 20 => MultiSelectPicklistRule
    case 21 => PhoneRule
    case 22 => RecordTypeRule
    case 23 => RichTextAreaRule
    case 24 => RollUpRule
    case 25 => TextAreaRule
    case 26 => TextRule
    case _ => UrlRule
  }

  /** The rank determines the rule. */
  lemma RuleAtRank(rule: Rule)
    ensures RuleAt(Rank(rule)) == rule
  {
  }

  /** The first rule, from rank `i` on, whose test the label passes. */
  function MatchFrom(i: nat, dataType: string): Option<Rule>
    decreases LastRank + 1 - i
  {
    if i > LastRank then None
    else if Passes(RuleAt(i), dataType) then Some(RuleAt(i))
    else MatchFrom(i + 1, dataType)
  }

  /** The first rule whose test the label passes, or `None` when it passes
      none, which is where both chains raise. */
  function MatchedRule(dataType: string): (r: Option<Rule>)
    ensures r.Some? ==> Passes(r.value, dataType)
  {
    MatchFromFinds(0, dataType);
    MatchFrom(0, dataType)
  }

  /** The reference meaning of a first match: the label passes the rule's test
      and no test tried before it. */
  predicate FirstPassed(rule: Rule, dataType: string) {
    && Passes(rule, dataType)
    && forall r :: Rank(r) < Rank(rule) ==> !Passes(r, dataType)
  }

  /** What the search from rank `i` finds: the first rule of rank `i` or more
      whose test the label passes, and `None` only when it passes no test
      from rank `i` on. */
  lemma {:induction false} MatchFromFinds(i: nat, dataType: string)
    ensures MatchFrom(i, dataType).Some? ==>
              && i <= Rank(MatchFrom(i, dataType).value)
              && Passes(MatchFrom(i, dataType).value, dataType)
              && forall r :: i <= Rank(r) < Rank(MatchFrom(i, dataType).value) ==>
                   !Passes(r, dataType)
    ensures MatchFrom(i, dataType).None? ==>
              forall r :: i <= Rank(r) ==> !Passes(r, dataType)
    decreases LastRank + 1 - i
  {
    if i <= LastRank && !Passes(RuleAt(i), dataType) {
      forall r | Rank(r) == i
        ensures !Passes(r, dataType)
      {
        RuleAtRank(r);
      }
      MatchFromFinds(i + 1, dataType);
    }
  }

  /** A label that passes a test begins with the first character of the
      test's literal; in particular the empty label passes none. */
  lemma PassedStartsWithInitial(rule: Rule, dataType: string)
    requires Passes(rule, dataType)
    ensures |dataType| > 0 && dataType[0] == Initial(rule)
  {
    InitialOfTest(rule);
  }

  /** The rule the search finds is the first rule passed. */
  lemma MatchedIsFirstPassed(dataType: string)
    ensures MatchedRule(dataType).Some? ==> FirstPassed(MatchedRule(dataType).value, dataType)
  {
    MatchFromFinds(0, dataType);
  }

  /** The first rule passed is the rule the search finds. */
  lemma FirstPassedIsMatched(rule: Rule, dataType: string)
    requires FirstPassed(rule, dataType)
    ensures MatchedRule(dataType) == Some(rule)
  {
    MatchFromFinds(0, dataType);
    var found := MatchedRule(dataType);
    assert found.Some?;
    assert Rank(found.value) == Rank(rule);
    RuleAtRank(found.value);
    RuleAtRank(rule);
  }

  /** A rule the label passes is the one the search finds when every rule
      tried before it either starts with another character than the label or
      is one of the `exceptions`, whose tests the label is known to fail. */
  lemma MatchedByInitial(rule: Rule, dataType: string, exceptions: set<Rule>)
    requires Passes(rule, dataType)
    requires forall r :: r in exceptions ==> !Passes(r, dataType)
    requires forall r :: Rank(r) < Rank(rule) && r !in exceptions ==>
               |dataType| == 0 || Initial(r) != dataType[0]
    ensures MatchedRule(dataType) == Some(rule)
  {
    forall r | Rank(r) < Rank(rule)
      ensures !Passes(r, dataType)
    {
      if r !in exceptions && Passes(r, dataType) {
        PassedStartsWithInitial(r, dataType);
      }
    }
    FirstPassedIsMatched(rule, dataType);
  }

  /** The chain search agrees with the reference meaning of a first match. */
  lemma FirstMatchWins(rule: Rule, dataType: string)
    ensures MatchedRule(dataType) == Some(rule) <==> FirstPassed(rule, dataType)
  {
    MatchedIsFirstPassed(dataType);
    if FirstPassed(rule, dataType) {
      FirstPassedIsMatched(rule, dataType);
    }
  }

  /** A label matches no rule exactly when it passes no test. */
  lemma NoMatchMeansNoTest(dataType: string)
    ensures MatchedRule(dataType).None? <==> forall r :: !Passes(r, dataType)
  {
    MatchFromFinds(0, dataType);
  }

  /** A label starting with `Formula` reaches the Formula rule: the only
      earlier rule with the same initial tests for `Fax`. */
  lemma FormulaLabelsReachFormulaRule(dataType: string)
    requires StartsWith(dataType, "Formula")
    ensures MatchedRule(dataType) == Some(FormulaRule)
  {
    StartsWithAt(dataType, "Formula", 1);
    assert dataType != "Fax" by {
      assert dataType[1] != "Fax"[1];
    }
    MatchedByInitial(FormulaRule, dataType, {FaxRule});
  }

  /** The Formula rule fires on exactly the labels starting with `Formula`. */
  lemma FormulaRuleIffPrefix(dataType: string)
    ensures MatchedRule(dataType) == Some(FormulaRule) <==> StartsWith(dataType, "Formula")
  {
    MatchedIsFirstPassed(dataType);
    if StartsWith(dataType, "Formula") {
      FormulaLabelsReachFormulaRule(dataType);
    }
  }

  /** What each rule other than the Formula rule yields in the source chain. */
  function SourceToken(rule: Rule): (r: string)
    requires rule != FormulaRule
    ensures r in SourceTokens
  {
    match rule
    case AddressRule => "ADDRESS"
    case AutoNumberRule => "STRING"
    case CheckboxRule => "BOOLEAN"
    case ContentRule => "STRING"
    case CurrencyRule => "CURRENCY"
    case DateRule => "DATE"
    case DateTimeRule => "DATETIME"
    case EmailRule => "EMAIL"
    case ExternalLookupRule => "STRING"
    case FaxRule => "PHONE"
    case GeolocationRule => "LOCATION"
    case HierarchyRule => "REFERENCE"
    case LongTextAreaRule => "TEXTAREA"
    case LookupRule => "REFERENCE"
    case MasterDetailRule => "REFERENCE"
    case NameRule => "STRING"
    case NumberRule => "NUMBER"
    case PercentRule => "PRECENT"
    case PicklistRule => "PICKLIST"
    case MultiSelectPicklistRule => "MULTIPICKLIST"
    case PhoneRule => "PHONE"
    case RecordTypeRule => "REFERENCE"
    case RichTextAreaRule => "TEXTAREA"
    case RollUpRule => REPLACE_ME
    case TextAreaRule => "TEXTAREA"
    case TextRule => "STRING"
    case UrlRule => "URL"
  }

  /** What each rule other than the Formula rule yields in the destination chain. */
  function DestToken(rule: Rule): (r: string)
    requires rule != FormulaRule
    ensures r in DestTokens
  {
    match rule
    case CheckboxRule => "BOOLEAN"
    case CurrencyRule => "FLOAT"
    case DateRule => "DATE"
    case DateTimeRule => "DATETIME"
    case NumberRule => "NUMBER"
    case PercentRule => "FLOAT"
    case RollUpRule => REPLACE_ME
    case _ => "STRING"
  }

  /** The source-type chain: a native label to the canonical intermediate type. */
  function SourceType(dataType: string): (r: Result<string>)
    ensures r.Ok? ==> r.value in SourceTokens
    ensures r.Err? ==> r.error == UnknownDataType(dataType)
    decreases |dataType|
  {
    match MatchedRule(dataType)
    case None => Err(UnknownDataType(dataType))
    case Some(FormulaRule) =>
      (match FormulaArgument(dataType)
       case None => Ok(REPLACE_ME)
       case Some(inner) => Ok(Recovered(SourceType(inner))))
    case Some(rule) => Ok(SourceToken(rule))
  }

  /** The destination-type chain: the same rules, mapping to the coarser
      storage-oriented vocabulary. */
  function DestType(dataType: string): (r: Result<string>)
    ensures r.Ok? ==> r.value in DestTokens
    ensures r.Err? ==> r.error == UnknownDataType(dataType)
    decreases |dataType|
  {
    match MatchedRule(dataType)
    case None => Err(UnknownDataType(dataType))
    case Some(FormulaRule) =>
      (match FormulaArgument(dataType)
       case None => Ok(REPLACE_ME)
       case Some(inner) => Ok(Recovered(DestType(inner))))
    case Some(rule) => Ok(DestToken(rule))
  }

  /** Outside the Formula rule, each chain yields the matched rule's token. */
  lemma TokensOfMatch(dataType: string, rule: Rule)
    requires MatchedRule(dataType) == Some(rule) && rule != FormulaRule
    ensures SourceType(dataType) == Ok(SourceToken(rule))
    ensures DestType(dataType) == Ok(DestToken(rule))
  {
  }

  /** Outside the Formula rule, both chains yield the token of the first
      rule whose test the label passes. */
  lemma TokensOfFirstPassed(dataType: string, rule: Rule)
    requires FirstPassed(rule, dataType) && rule != FormulaRule
    ensures SourceType(dataType) == Ok(SourceToken(rule))
    ensures DestType(dataType) == Ok(DestToken(rule))
  {
    FirstPassedIsMatched(rule, dataType);
    TokensOfMatch(dataType, rule);
  }

  /** Both chains raise exactly on the labels that pass none of the tests:
      a Formula label never raises, whatever its parentheses hold. */
  lemma RaisesIffNoTest(dataType: string)
    ensures SourceType(dataType).Err? <==> forall rule :: !Passes(rule, dataType)
    ensures DestType(dataType).Err? <==> forall rule :: !Passes(rule, dataType)
  {
    NoMatchMeansNoTest(dataType);
    var found := MatchedRule(dataType);
    if found.Some? && found.value != FormulaRule {
      TokensOfMatch(dataType, found.value);
    }
  }

  // ---------------------------------------------------------------------
  // The destination type is a coarsening of the source type
  // ---------------------------------------------------------------------

  /** How each source token collapses into the destination vocabulary:
      address, e-mail, phone, location, reference, text area, picklist and URL
      all become `STRING`; currency and percent become `FLOAT`. */
  const Coarsening: map<string, string> := map[
    "ADDRESS" := "STRING", "STRING" := "STRING", "BOOLEAN" := "BOOLEAN",
    "CURRENCY" := "FLOAT", "DATE" := "DATE", "DATETIME" := "DATETIME",
    "EMAIL" := "STRING", "PHONE" := "STRING", "LOCATION" := "STRING",
    "REFERENCE" := "STRING", "TEXTAREA" := "STRING", "NUMBER" := "NUMBER",
    "PRECENT" := "FLOAT", "PICKLIST" := "STRING", "MULTIPICKLIST" := "STRING",
    "URL" := "STRING", REPLACE_ME := REPLACE_ME
  ]

  /** For every label, the destination chain's answer is the coarsening of the
      source chain's answer, and both raise together. */
  lemma {:induction false} DestIsCoarsenedSource(dataType: string)
    ensures SourceType(dataType).Ok? <==> DestType(dataType).Ok?
    ensures SourceType(dataType).Ok? ==>
              SourceType(dataType).value in Coarsening &&
              DestType(dataType).value == Coarsening[SourceType(dataType).value]
    decreases |dataType|
  {
    match MatchedRule(dataType)
    case None =>
    case Some(FormulaRule) =>
      match FormulaArgument(dataType) {
        case None =>
        case Some(inner) => DestIsCoarsenedSource(inner);
      }
    case Some(rule) => RuleTokensCoarsen(rule);
  }

  /** Rule by rule, the destination token is the coarsening of the source token. */
  lemma RuleTokensCoarsen(rule: Rule)
    requires rule != FormulaRule
    ensures SourceToken(rule) in Coarsening
    ensures Coarsening[SourceToken(rule)] == DestToken(rule)
  {
  }

  /** The two chains accept exactly the same labels, and raise the same error. */
  lemma SameLabelsAccepted(dataType: string)
    ensures SourceType(dataType).Ok? <==> DestType(dataType).Ok?
    ensures SourceType(dataType).Err? ==> SourceType(dataType) == DestType(dataType)
  {
    DestIsCoarsenedSource(dataType);
  }

  /** A field needs manual review on the source side exactly when it does on
      the destination side. */
  lemma ReplaceMeAgrees(dataType: string)
    ensures SourceType(dataType) == Ok(REPLACE_ME) <==> DestType(dataType) == Ok(REPLACE_ME)
  {
    DestIsCoarsenedSource(dataType);
  }

  // ---------------------------------------------------------------------
  // First match wins
  // ---------------------------------------------------------------------

  /** Every `Picklist` label is a single-select picklist stored as a string. */
  lemma PicklistLabels(dataType: string)
    requires StartsWith(dataType, "Picklist")
    ensures SourceType(dataType) == Ok("PICKLIST")
    ensures DestType(dataType) == Ok("STRING")
  {
    assert MatchedRule(dataType) == Some(PicklistRule) by {
      StartsWithAt(dataType, "Picklist", 1);
      NotPrefixAt(dataType, "Percent", 1);
      MatchedByInitial(PicklistRule, dataType, {PercentRule});
    }
    TokensOfMatch(dataType, PicklistRule);
  }

  /** The multi-select picklist label begins with `Picklist`. */
  lemma MultiSelectLabelHasPicklistPrefix(dataType: string)
    requires dataType == "Picklist (Multi-Select)"
    ensures StartsWith(dataType, "Picklist")
  {
    assert dataType[..8] == "Picklist";
    StartsWithIsPrefix(dataType, "Picklist");
  }

  /** The multi-select picklist label is caught by the earlier `Picklist`
      prefix test. */
  lemma MultiSelectPicklistIsPicklist(dataType: string)
    requires dataType == "Picklist (Multi-Select)"
    ensures SourceType(dataType) == Ok("PICKLIST")
    ensures DestType(dataType) == Ok("STRING")
  {
    MultiSelectLabelHasPicklistPrefix(dataType);
    PicklistLabels(dataType);
  }

  /** Every label the multi-select picklist test accepts also passes the
      `Picklist` prefix test. */
  lemma MultiSelectPassesPicklist(dataType: string)
    requires Passes(MultiSelectPicklistRule, dataType)
    ensures Passes(PicklistRule, dataType)
  {
    MultiSelectLabelHasPicklistPrefix(dataType);
  }

  /** A rule is never the first passed when every label passing it also
      passes a rule tried before it. */
  lemma EarlierPassBlocks(rule: Rule, earlier: Rule, dataType: string)
    requires Rank(earlier) < Rank(rule)
    requires Passes(rule, dataType) ==> Passes(earlier, dataType)
    ensures !FirstPassed(rule, dataType)
  {
  }

  /** No label passes the multi-select picklist test first: every label it
      accepts already passed the `Picklist` prefix test. */
  lemma MultiSelectNeverFirst(dataType: string)
    ensures !FirstPassed(MultiSelectPicklistRule, dataType)
  {
    if Passes(MultiSelectPicklistRule, dataType) {
      MultiSelectPassesPicklist(dataType);
    }
    EarlierPassBlocks(MultiSelectPicklistRule, PicklistRule, dataType);
  }

  /** The multi-select picklist rule never fires. */
  lemma MultiSelectRuleUnreachable(dataType: string)
    ensures MatchedRule(dataType) != Some(MultiSelectPicklistRule)
  {
    MatchedIsFirstPassed(dataType);
    MultiSelectNeverFirst(dataType);
  }

  /** No label at all is classified `MULTIPICKLIST`, also not through a
      Formula. */
  lemma {:induction false} MultiPicklistUnreachable(dataType: string)
    ensures SourceType(dataType) != Ok("MULTIPICKLIST")
    decreases |dataType|
  {
    MultiSelectRuleUnreachable(dataType);
    match MatchedRule(dataType)
    case None =>
    case Some(FormulaRule) =>
      match FormulaArgument(dataType) {
        case None =>
        case Some(inner) => MultiPicklistUnreachable(inner);
      }
    case Some(rule) =>
  }

  /** A `Text Area` label is a text area, not the plain text its `Text`
      prefix would also give. */
  lemma TextAreaBeforeText(dataType: string)
    requires StartsWith(dataType, "Text Area")
    ensures SourceType(dataType) == Ok("TEXTAREA")
    ensures DestType(dataType) == Ok("STRING")
  {
    assert MatchedRule(dataType) == Some(TextAreaRule) by {
      MatchedByInitial(TextAreaRule, dataType, {});
    }
    TokensOfMatch(dataType, TextAreaRule);
  }

  /** A `Roll-Up` label fails the two other tests with the initial `R`,
      which come before it in the chain. */
  lemma RollUpFailsOtherR(dataType: string)
    requires StartsWith(dataType, "Roll-Up")
    ensures !Passes(RecordTypeRule, dataType) && !Passes(RichTextAreaRule, dataType)
  {
    StartsWithAt(dataType, "Roll-Up", 1);
    NotPrefixAt(dataType, "Rich Text Area", 1);
    assert dataType[1] != "Record Type"[1];
  }

  /** Any `Roll-Up` label needs manual review in both vocabularies. */
  lemma RollUpNeedsReview(dataType: string)
    requires StartsWith(dataType, "Roll-Up")
    ensures SourceType(dataType) == Ok(REPLACE_ME)
    ensures DestType(dataType) == Ok(REPLACE_ME)
  {
    RollUpFailsOtherR(dataType);
    MatchedByInitial(RollUpRule, dataType, {RecordTypeRule, RichTextAreaRule});
    TokensOfMatch(dataType, RollUpRule);
  }

  // ---------------------------------------------------------------------
  // Formula unwrapping
  // ---------------------------------------------------------------------

  /** The argument of `Formula (X)` is `X` when `X` holds no `)`. */
  lemma FormulaArgumentOfWrapped(x: string)
    requires ')' !in x
    ensures FormulaArgument("Formula (" + x + ")") == Some(x)
  {
    assert "Formula (" + x + ")" == "Formula " + "(" + x + ")" + "";
    FormulaArgumentOf("Formula ", x, "");
  }

  /** `Formula (X)` with no `)` inside `X` is classified as `X` is, or needs
      manual review when `X` is not recognised. */
  lemma FormulaUnwraps(x: string)
    requires ')' !in x
    ensures SourceType("Formula (" + x + ")") == Ok(Recovered(SourceType(x)))
    ensures DestType("Formula (" + x + ")") == Ok(Recovered(DestType(x)))
  {
    var dataType := "Formula (" + x + ")";
    assert dataType[..7] == "Formula";
    StartsWithIsPrefix(dataType, "Formula");
    FormulaRuleIffPrefix(dataType);
    FormulaArgumentOfWrapped(x);
  }

  /** For any label `P(X)Q` whose prefix `P` holds no parenthesis and whose
      `X` holds no `)`, the extracted argument is exactly `X`, whatever
      follows the first `)`. */
  lemma FormulaArgumentOf(p: string, x: string, q: string)
    requires '(' !in p && ')' !in p && ')' !in x
    ensures FormulaArgument(p + "(" + x + ")" + q) == Some(x)
  {
    var dataType := p + "(" + x + ")" + q;
    assert dataType == p + ['('] + (x + ")" + q);
    IndexOfAt(p, '(', x + ")" + q);
    var front := p + "(" + x;
    assert dataType == front + [')'] + q;
    assert ')' !in front by {
      assert front == p + ("(" + x);
    }
    IndexOfAt(front, ')', q);
    assert forall k :: 0 <= k < |x| ==> dataType[|p| + 1 + k] == x[k];
    assert Slice(dataType, |p| + 1, |front|) == x;
  }

  /** When the first `)` comes before the first `(`, Python's slice is empty
      and so is the extracted argument. */
  lemma FormulaArgumentCloseFirst(p: string, m: string, q: string)
    requires '(' !in p && ')' !in p && '(' !in m
    ensures FormulaArgument(p + ")" + m + "(" + q) == Some("")
  {
    var dataType := p + ")" + m + "(" + q;
    assert dataType == p + [')'] + (m + "(" + q);
    IndexOfAt(p, ')', m + "(" + q);
    var front := p + ")" + m;
    assert dataType == front + ['('] + q;
    assert '(' !in front by {
      assert front == p + (")" + m);
    }
    IndexOfAt(front, '(', q);
  }

  /** Any label `P(X)Q` with `P` starting with `Formula`, no parenthesis in
      `P` and no `)` in `X` is classified as `X` is, or needs manual review
      when `X` is not recognised: text after the first `)` is ignored. */
  lemma FormulaUnwrapsAround(p: string, x: string, q: string)
    requires StartsWith(p, "Formula")
    requires '(' !in p && ')' !in p && ')' !in x
    ensures SourceType(p + "(" + x + ")" + q) == Ok(Recovered(SourceType(x)))
    ensures DestType(p + "(" + x + ")" + q) == Ok(Recovered(DestType(x)))
  {
    var dataType := p + "(" + x + ")" + q;
    StartsWithIsPrefix(p, "Formula");
    assert dataType == p + ("(" + x + ")" + q);
    assert "Formula" <= dataType;
    StartsWithIsPrefix(dataType, "Formula");
    FormulaRuleIffPrefix(dataType);
    FormulaArgumentOf(p, x, q);
  }

  /** A recognised type keeps its class when wrapped in a Formula. */
  lemma FormulaOfRecognized(x: string)
    requires ')' !in x
    requires SourceType(x).Ok?
    ensures SourceType("Formula (" + x + ")") == SourceType(x)
    ensures DestType("Formula (" + x + ")") == DestType(x)
  {
    FormulaUnwraps(x);
    SameLabelsAccepted(x);
  }

  /** A Formula label whose first `)` comes before its first `(` needs manual
      review: the slice between them is empty, and the empty label raises in
      the recursion, which the handler turns into the sentinel. */
  lemma FormulaCloseFirstNeedsReview(p: string, m: string, q: string)
    requires StartsWith(p, "Formula")
    requires '(' !in p && ')' !in p && '(' !in m
    ensures SourceType(p + ")" + m + "(" + q) == Ok(REPLACE_ME)
    ensures DestType(p + ")" + m + "(" + q) == Ok(REPLACE_ME)
  {
    var dataType := p + ")" + m + "(" + q;
    StartsWithIsPrefix(p, "Formula");
    assert dataType[..|p|] == p;
    StartsWithIsPrefix(dataType, "Formula");
    FormulaRuleIffPrefix(dataType);
    FormulaArgumentCloseFirst(p, m, q);
    EmptyLabelRaises();
  }

  /** A Formula label never raises: a missing parenthesis or an unrecognised
      inner type both give the sentinel. */
  lemma FormulaNeverRaises(dataType: string)
    requires StartsWith(dataType, "Formula")
    ensures SourceType(dataType).Ok? && DestType(dataType).Ok?
    ensures !('(' in dataType && ')' in dataType) ==> SourceType(dataType) == DestType(dataType) == Ok(REPLACE_ME)
  {
    FormulaRuleIffPrefix(dataType);
  }

  // ---------------------------------------------------------------------
  // Unknown labels and worked examples
  // ---------------------------------------------------------------------

  /** The empty label passes no test, so both chains raise on it. */
  lemma EmptyLabelRaises()
    ensures SourceType("") == DestType("") == Err(UnknownDataType(""))
  {
    forall r
      ensures !Passes(r, "")
    {
      if Passes(r, "") {
        PassedStartsWithInitial(r, "");
      }
    }
    NoMatchMeansNoTest("");
  }

  /** A label of no known type raises, naming itself. */
  lemma UnknownLabelRaises(dataType: string)
    requires dataType == "Foo"
    ensures SourceType(dataType) == DestType(dataType) == Err(UnknownDataType(dataType))
  {
    NotPrefixAt(dataType, "Formula", 2);
    assert dataType != "Fax" by {
      assert dataType[1] != "Fax"[1];
    }
    forall r | r != FaxRule && r != FormulaRule
      ensures Initial(r) != 'F'
    {
    }
    forall r
      ensures !Passes(r, dataType)
    {
      if r != FaxRule && r != FormulaRule && Passes(r, dataType) {
        PassedStartsWithInitial(r, dataType);
      }
    }
    NoMatchMeansNoTest(dataType);
  }

  /** Every `Currency` label is a currency stored as a float. */
  lemma CurrencyLabels(dataType: string)
    requires StartsWith(dataType, "Currency")
    ensures SourceType(dataType) == Ok("CURRENCY")
    ensures DestType(dataType) == Ok("FLOAT")
  {
    assert MatchedRule(dataType) == Some(CurrencyRule) by {
      StartsWithAt(dataType, "Currency", 1);
      NotPrefixAt(dataType, "Content", 1);
      assert dataType != "Checkbox" by {
        assert dataType[1] != "Checkbox"[1];
      }
      MatchedByInitial(CurrencyRule, dataType, {CheckboxRule, ContentRule});
    }
    TokensOfMatch(dataType, CurrencyRule);
  }

  /** A currency field with precision and scale. */
  lemma CurrencyExample(dataType: string)
    requires dataType == "Currency(18, 2)"
    ensures SourceType(dataType) == Ok("CURRENCY")
    ensures DestType(dataType) == Ok("FLOAT")
  {
    StartsWithIsPrefix(dataType, "Currency");
    CurrencyLabels(dataType);
  }

  /** A formula over a currency classifies as the currency itself. */
  lemma FormulaCurrencyExample(dataType: string)
    requires dataType == "Formula (Currency)"
    ensures SourceType(dataType) == Ok("CURRENCY")
    ensures DestType(dataType) == Ok("FLOAT")
  {
    var inner := "Currency";
    assert dataType == "Formula (" + inner + ")";
    StartsWithIsPrefix(inner, "Currency");
    FormulaOfCurrency(inner);
  }

  /** A Formula wrapping any currency label is classified as a currency. */
  lemma FormulaOfCurrency(x: string)
    requires StartsWith(x, "Currency") && ')' !in x
    ensures SourceType("Formula (" + x + ")") == Ok("CURRENCY")
    ensures DestType("Formula (" + x + ")") == Ok("FLOAT")
  {
    CurrencyLabels(x);
    FormulaOfRecognized(x);
  }
}
