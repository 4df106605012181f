/**
 * The validated survey object model of `src/leanix_survey_models.py`: the
 * closed enums, the recursive `Question` tree, `SurveyInput` and the outbound
 * `PollCreate` request with its translator `from_survey_input`.
 */
module SurveyModels {
  import opened Common
  import opened Text

  // ---------------------------------------------------------------------------
  // Opaque payloads carried through unchanged
  // ---------------------------------------------------------------------------

  /** A JSON value kept as is (the `dict[str, Any]` fields). */
  datatype Json =
    | JNull
    | JBool(b: bool)
    | JInt(i: int)
    | JString(s: string)
    | JArray(items: seq<Json>)
    | JObject(fields: map<string, Json>)

  /** A calendar date (`datetime.date`), already parsed. */
  datatype Date = Date(year: int, month: int, day: int)

  // ---------------------------------------------------------------------------
  // Closed enums: each value and the string it is spelt with
  // ---------------------------------------------------------------------------

  datatype SubscriptionType = RESPONSIBLE | OBSERVER | ACCOUNTABLE | ALL
  {
    function Name(): string {
      match this
      case RESPONSIBLE => "RESPONSIBLE"
      case OBSERVER => "OBSERVER"
      case ACCOUNTABLE => "ACCOUNTABLE"
      case ALL => "ALL"
    }
  }

  /** The spellings of `SubscriptionType`, in declaration order. */
  const SubscriptionTypeNames: seq<string> := ["RESPONSIBLE", "OBSERVER", "ACCOUNTABLE", "ALL"]

  /** The member of `SubscriptionType` spelt `s`, if any. */
  function ParseSubscriptionType(s: string): (r: Option<SubscriptionType>)
    ensures r.Some? <==> s in SubscriptionTypeNames
    ensures r.Some? ==> r.value.Name() == s
  {
    if s == "RESPONSIBLE" then Some(RESPONSIBLE)
    else if s == "OBSERVER" then Some(OBSERVER)
    else if s == "ACCOUNTABLE" then Some(ACCOUNTABLE)
    else if s == "ALL" then Some(ALL)
    else None
  }

  datatype AllowedPermissionStatus = ACTIVE_ONLY | ACTIVE_AND_INVITED | ACTIVE_AND_INVITED_AND_CONTACTS
  {
    function Name(): string {
      match this
      case ACTIVE_ONLY => "ACTIVE_ONLY"
      case ACTIVE_AND_INVITED => "ACTIVE_AND_INVITED"
      case ACTIVE_AND_INVITED_AND_CONTACTS => "ACTIVE_AND_INVITED_AND_CONTACTS"
    }
  }

  const AllowedPermissionStatusNames: seq<string> :=
    ["ACTIVE_ONLY", "ACTIVE_AND_INVITED", "ACTIVE_AND_INVITED_AND_CONTACTS"]

  function ParseAllowedPermissionStatus(s: string): (r: Option<AllowedPermissionStatus>)
    ensures r.Some? <==> s in AllowedPermissionStatusNames
    ensures r.Some? ==> r.value.Name() == s
  {
    if s == "ACTIVE_ONLY" then Some(ACTIVE_ONLY)
    else if s == "ACTIVE_AND_INVITED" then Some(ACTIVE_AND_INVITED)
    else if s == "ACTIVE_AND_INVITED_AND_CONTACTS" then Some(ACTIVE_AND_INVITED_AND_CONTACTS)
    else None
  }

  datatype DateFilterType = POINT | RANGE | TODAY | END_OF_MONTH | END_OF_YEAR | RANGE_STARTS | RANGE_ENDS
  {
    function Name(): string {
      match this
      case POINT => "POINT"
      case RANGE => "RANGE"
      case TODAY => "TODAY"
      case END_OF_MONTH => "END_OF_MONTH"
      case END_OF_YEAR => "END_OF_YEAR"
      case RANGE_STARTS => "RANGE_STARTS"
      case RANGE_ENDS => "RANGE_ENDS"
    }
  }

  const DateFilterTypeNames: seq<string> :=
    ["POINT", "RANGE", "TODAY", "END_OF_MONTH", "END_OF_YEAR", "RANGE_STARTS", "RANGE_ENDS"]

  function ParseDateFilterType(s: string): (r: Option<DateFilterType>)
    ensures r.Some? <==> s in DateFilterTypeNames
    ensures r.Some? ==> r.value.Name() == s
  {
    if s == "POINT" then Some(POINT)
    else if s == "RANGE" then Some(RANGE)
    else if s == "TODAY" then Some(TODAY)
    else if s == "END_OF_MONTH" then Some(END_OF_MONTH)
    else if s == "END_OF_YEAR" then Some(END_OF_YEAR)
    else if s == "RANGE_STARTS" then Some(RANGE_STARTS)
    else if s == "RANGE_ENDS" then Some(RANGE_ENDS)
    else None
  }

  datatype FacetFilterOperator = AND | OR | NOR
  {
    function Name(): string {
      match this
      case AND => "AND"
      case OR => "OR"
      case NOR => "NOR"
    }
  }

  const FacetFilterOperatorNames: seq<string> := ["AND", "OR", "NOR"]

  function ParseFacetFilterOperator(s: string): (r: Option<FacetFilterOperator>)
    ensures r.Some? <==> s in FacetFilterOperatorNames
    ensures r.Some? ==> r.value.Name() == s
  {
    if s == "AND" then Some(AND)
    else if s == "OR" then Some(OR)
    else if s == "NOR" then Some(NOR)
    else None
  }

  // Every enum value is read back from its own spelling.

  lemma SubscriptionTypeRoundTrip(t: SubscriptionType)
    ensures ParseSubscriptionType(t.Name()) == Some(t)
  {
  }

  lemma AllowedPermissionStatusRoundTrip(p: AllowedPermissionStatus)
    ensures ParseAllowedPermissionStatus(p.Name()) == Some(p)
  {
  }

  lemma DateFilterTypeRoundTrip(d: DateFilterType)
    ensures ParseDateFilterType(d.Name()) == Some(d)
  {
  }

  lemma FacetFilterOperatorRoundTrip(o: FacetFilterOperator)
    ensures ParseFacetFilterOperator(o.Name()) == Some(o)
  {
  }

  // ---------------------------------------------------------------------------
  // Questions
  // ---------------------------------------------------------------------------

  datatype ElementProperty = ElementProperty(name: string)

  /** Field mapping of a question onto a fact sheet field. */
  datatype FactSheetElement = FactSheetElement(
    elementType: Option<string>,
    tagGroupId: Option<string>,
    subscription: Option<map<string, Json>>,
    factSheetFieldName: Option<string>,
    factSheetFieldType: Option<string>,
    tagGroupMode: Option<string>,
    factSheetFieldViewType: Option<string>,
    properties: Option<seq<ElementProperty>>)

  /** A conditional-display dependency: both fields are required, neither is checked further. */
  datatype DependencySettings = DependencySettings(parentId: string, condition: map<string, Json>)

  datatype QuestionSettings = QuestionSettings(
    metrics: Option<map<string, string>>,
    version: Option<int>,
    hideInResults: Option<bool>,
    isConditional: Option<bool>,
    fsSections: Option<map<string, Json>>,
    formula: Option<string>,
    dependency: Option<DependencySettings>,
    isMandatory: Option<bool>)

  datatype QuestionOption = QuestionOption(id: string, labelText: string, comment: Option<string>)

  /** A survey question; `children` are questions again. The type is an open string. */
  datatype Question = Question(
    id: string,
    labelText: string,
    descriptiveText: Option<string>,
    questionType: string,
    element: Option<string>,
    options: Option<seq<QuestionOption>>,
    answerOptions: Option<string>,
    children: Children,
    powerfeature: Option<bool>,
    disabled: Option<bool>,
    factSheetElement: Option<FactSheetElement>,
    settings: Option<QuestionSettings>)

  /**
   * The optional `children` list of a question (`None` or a list). A datatype
   * of its own, rather than an `Option`, so that recursion over it terminates.
   */
  datatype Children = NoChildren | Children(items: seq<Question>)

  /** The question types that require at least one option. */
  const ChoiceTypes: seq<string> := ["singlechoice", "multiplechoice"]

  /** Python's `not self.options`: the options are missing or empty. */
  predicate NoOptions(options: Option<seq<QuestionOption>>) {
    options == None || options == Some([])
  }

  /** The choice invariant, at this question and at every depth below it. */
  predicate ChoiceInvariant(q: Question) {
    && (q.questionType in ChoiceTypes ==> !NoOptions(q.options))
    && match q.children
       case NoChildren => true
       case Children(cs) => forall i | 0 <= i < |cs| :: ChoiceInvariant(cs[i])
  }

  datatype Questionnaire = Questionnaire(questions: seq<Question>)

  // ---------------------------------------------------------------------------
  // Recipient and fact-sheet selection
  // ---------------------------------------------------------------------------

  datatype DateFilter = DateFilter(fromDate: Option<Date>, toDate: Option<Date>, filterType: DateFilterType)

  datatype SubscriptionFilter = SubscriptionFilter(filterType: SubscriptionType, roleId: Option<string>)

  /** A facet filter; `subFilter` nests further facet filters. */
  datatype FacetFilter = FacetFilter(
    facetKey: Option<string>,
    keys: Option<seq<string>>,
    operator: Option<FacetFilterOperator>,
    dateFilter: Option<DateFilter>,
    subscriptionFilter: Option<SubscriptionFilter>,
    subFilter: SubFilters)

  /** The optional `subFilter` list of a facet filter (`None` or a list). */
  datatype SubFilters = NoSubFilters | SubFilters(items: seq<FacetFilter>)

  datatype QueryFilter = QueryFilter(
    fsType: Option<string>,
    facetFilter: Option<seq<FacetFilter>>,
    fullTextSearchTerm: Option<string>)

  datatype FactSheetQuery = FactSheetQuery(filter: Option<QueryFilter>, ids: Option<seq<string>>)

  datatype UserRoleDetails = UserRoleDetails(name: string, id: string)

  datatype UserRole = UserRole(subscriptionType: SubscriptionType, roleDetails: Option<seq<UserRoleDetails>>)

  datatype UserQuery = UserQuery(roles: seq<UserRole>)

  // ---------------------------------------------------------------------------
  // The survey and the outbound poll request
  // ---------------------------------------------------------------------------

  /** The optional survey settings that `SurveyInput` and `PollCreate` share. */
  datatype SurveyOptions = SurveyOptions(
    introductionText: Option<string>,
    introductionSubject: Option<string>,
    additionalFactSheetSubject: Option<string>,
    additionalFactSheetText: Option<string>,
    additionalFactSheetCheckEnabled: Option<bool>,
    repeatInterval: Option<int>,
    timeFrame: Option<int>,
    sendChangeNotifications: Option<bool>,
    allowedPermissionStatus: Option<AllowedPermissionStatus>,
    dynamicScopeCheckEnabled: Option<bool>,
    factSheetQuery: Option<FactSheetQuery>,
    userQuery: Option<UserQuery>)

  /** A validated survey definition. */
  datatype SurveyInput = SurveyInput(title: string, questionnaire: Questionnaire, extra: SurveyOptions)

  /** What a validated survey always satisfies: a trimmed non-empty title and the choice invariant everywhere. */
  predicate WellFormedSurvey(s: SurveyInput) {
    && s.title != []
    && IsTrimmed(s.title)
    && forall i | 0 <= i < |s.questionnaire.questions| :: ChoiceInvariant(s.questionnaire.questions[i])
  }

  /** The poll creation request sent to the external service. */
  datatype PollCreate = PollCreate(
    title: string,
    language: string,
    factSheetType: string,
    questionnaire: Questionnaire,
    dueDate: Option<Date>,
    extra: SurveyOptions)

  /** The survey a poll request carries, read back out of it. */
  function SurveyOf(p: PollCreate): SurveyInput {
    SurveyInput(p.title, p.questionnaire, p.extra)
  }

  /**
   * `PollCreate.from_survey_input`: the survey's title, questionnaire and
   * every optional field are copied unchanged; language, fact-sheet type and
   * due date come from the arguments.
   */
  function FromSurveyInput(s: SurveyInput, language: string, factSheetType: string, dueDate: Option<Date>): (r: PollCreate)
    ensures SurveyOf(r) == s
    ensures r.language == language && r.factSheetType == factSheetType && r.dueDate == dueDate
  {
    PollCreate(s.title, language, factSheetType, s.questionnaire, dueDate, s.extra)
  }

  /** Translation loses nothing: two surveys translate alike only if they are the same survey. */
  lemma FromSurveyInputInjective(s1: SurveyInput, s2: SurveyInput, language: string, factSheetType: string, dueDate: Option<Date>)
    requires FromSurveyInput(s1, language, factSheetType, dueDate) == FromSurveyInput(s2, language, factSheetType, dueDate)
    ensures s1 == s2
  {
    assert SurveyOf(FromSurveyInput(s1, language, factSheetType, dueDate)) == s1;
  }

  /** A poll request is determined by its survey and its three submission parameters. */
  lemma PollCreateFromParts(p: PollCreate)
    ensures FromSurveyInput(SurveyOf(p), p.language, p.factSheetType, p.dueDate) == p
  {
  }
}
