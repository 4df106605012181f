/**
 * The validation of a decoded survey document into the typed model of
 * `SurveyModels`, as the pydantic models of `src/leanix_survey_models.py`
 * perform it. A raw record holds what the JSON decoder produced: a required
 * field may be absent, an enum field is still a string. Each validator
 * either yields the typed value or the list of located errors, collected
 * field by field in declaration order, nested errors in place.
 */
module SurveyValidation {
  import opened Common
  import opened Text
  import opened SurveyModels

  // ---------------------------------------------------------------------------
  // Errors and validation results
  // ---------------------------------------------------------------------------

  /** One step of an error location: a field key or a list index. */
  datatype Loc = Key(name: string) | Index(i: nat)

  type Path = seq<Loc>

  /** One validation error: where it is and what it says. */
  datatype FieldError = FieldError(loc: Path, msg: string)

  /** A validated value, or at least one error. */
  datatype Validated<+T> = Valid(value: T) | Invalid(first: FieldError, rest: seq<FieldError>)

  function Errors<T>(v: Validated<T>): (errs: seq<FieldError>)
    ensures errs == [] <==> v.Valid?
  {
    if v.Valid? then [] else [v.first] + v.rest
  }

  /** The failure carrying exactly `errs`. */
  function Fail<T>(errs: seq<FieldError>): (r: Validated<T>)
    requires errs != []
    ensures r.Invalid? && Errors(r) == errs
  {
    Invalid(errs[0], errs[1..])
  }

  /** Wraps a valid value in `Some`; passes errors on. */
  function Lift<T>(v: Validated<T>): (r: Validated<Option<T>>)
    ensures r.Valid? <==> v.Valid?
    ensures r.Valid? ==> r.value == Some(v.value)
    ensures Errors(r) == Errors(v)
  {
    if v.Valid? then Valid(Some(v.value)) else Invalid(v.first, v.rest)
  }

  /** The errors of a list of results, in list order. */
  function AllErrors<T>(rs: seq<Validated<T>>): (errs: seq<FieldError>)
    ensures errs == [] <==> forall i | 0 <= i < |rs| :: rs[i].Valid?
  {
    if rs == [] then [] else Errors(rs[0]) + AllErrors(rs[1..])
  }

  function Values<T>(rs: seq<Validated<T>>): (vs: seq<T>)
    requires forall i | 0 <= i < |rs| :: rs[i].Valid?
    ensures |vs| == |rs| && forall i | 0 <= i < |rs| :: vs[i] == rs[i].value
  {
    if rs == [] then [] else [rs[0].value] + Values(rs[1..])
  }

  /** A list is valid when every item is; its errors are the items' errors in index order. */
  function Combine<T>(rs: seq<Validated<T>>): (r: Validated<seq<T>>)
    ensures r.Valid? <==> forall i | 0 <= i < |rs| :: rs[i].Valid?
    ensures r.Valid? ==> |r.value| == |rs| && forall i | 0 <= i < |rs| :: r.value[i] == rs[i].value
    ensures Errors(r) == AllErrors(rs)
  {
    var errs := AllErrors(rs);
    if errs == [] then Valid(Values(rs)) else Fail(errs)
  }

  // Messages. The texts of the first four are those of the validation
  // library (pydantic 2); the last three are raised by the models themselves.

  const FieldRequired := "Field required"
  const TooShortString := "String should have at least 1 character"

  /** The library's rendering of an error raised with `ValueError(msg)`. */
  function ValueError(msg: string): string {
    "Value error, " + msg
  }

  /** `'A', 'B' or 'C'`: the allowed values of an enum, as the library lists them. */
  function QuotedAlternatives(names: seq<string>): string {
    if |names| == 0 then ""
    else if |names| == 1 then "'" + names[0] + "'"
    else if |names| == 2 then "'" + names[0] + "' or '" + names[1] + "'"
    else "'" + names[0] + "', " + QuotedAlternatives(names[1..])
  }

  function EnumMismatch(names: seq<string>): string {
    "Input should be " + QuotedAlternatives(names)
  }

  const BlankTitle := "Title cannot be empty or whitespace only"

  /** The model-level check of a choice question (`check_choice_questions_have_options`). */
  function MissingOptionsMessage(questionType: string): (r: string)
    ensures |r| == |questionType| + 50 && r[19..19 + |questionType|] == questionType
    ensures r[|r| - 1] == 'n'
  {
    "Questions of type '" + questionType + "' must have at least one option"
  }

  /** The field-level check of `options` (`validate_options_for_choice_questions`). */
  function EmptyOptionsMessage(questionType: string): (r: string)
    ensures |r| == |questionType| + 36 && r[18..18 + |questionType|] == questionType
    ensures r[|r| - 1] == 's'
  {
    "Questions of type " + questionType + " must have options"
  }

  // ---------------------------------------------------------------------------
  // Field-level helpers
  // ---------------------------------------------------------------------------

  /** A required field: absent is the one error. */
  function Required<T>(v: Option<T>, at: Path): (r: Validated<T>)
    ensures r.Valid? <==> v.Some?
    ensures r.Valid? ==> r.value == v.value
    ensures r.Invalid? ==> Errors(r) == [FieldError(at, FieldRequired)]
  {
    if v.Some? then Valid(v.value) else Fail([FieldError(at, FieldRequired)])
  }

  /** An enum field spelt `s`: valid exactly for the spellings in `names`. */
  function EnumValue<T>(s: string, parse: string -> Option<T>, names: seq<string>, at: Path): (r: Validated<T>)
    ensures r.Valid? <==> parse(s).Some?
    ensures r.Valid? ==> r.value == parse(s).value
    ensures r.Invalid? ==> Errors(r) == [FieldError(at, EnumMismatch(names))]
  {
    match parse(s)
    case Some(v) => Valid(v)
    case None => Fail([FieldError(at, EnumMismatch(names))])
  }

  /** A required enum field. */
  function RequiredEnum<T>(v: Option<string>, parse: string -> Option<T>, names: seq<string>, at: Path): (r: Validated<T>)
    ensures r.Valid? <==> v.Some? && parse(v.value).Some?
    ensures r.Valid? ==> r.value == parse(v.value).value
  {
    if v.None? then Fail([FieldError(at, FieldRequired)]) else EnumValue(v.value, parse, names, at)
  }

  /** An optional enum field: absent is fine. */
  function OptionalEnum<T>(v: Option<string>, parse: string -> Option<T>, names: seq<string>, at: Path): (r: Validated<Option<T>>)
    ensures r.Valid? <==> v.None? || parse(v.value).Some?
    ensures r.Valid? ==> r.value == if v.None? then None else Some(parse(v.value).value)
  {
    if v.None? then Valid(None) else Lift(EnumValue(v.value, parse, names, at))
  }

  // ---------------------------------------------------------------------------
  // Raw (decoded, not yet validated) records
  // ---------------------------------------------------------------------------

  datatype RawElementProperty = RawElementProperty(name: Option<string>)

  datatype RawFactSheetElement = RawFactSheetElement(
    elementType: Option<string>,
    tagGroupId: Option<string>,
    subscription: Option<map<string, Json>>,
    factSheetFieldName: Option<string>,
    factSheetFieldType: Option<string>,
    tagGroupMode: Option<string>,
    factSheetFieldViewType: Option<string>,
    properties: Option<seq<RawElementProperty>>)

  datatype RawDependency = RawDependency(parentId: Option<string>, condition: Option<map<string, Json>>)

  datatype RawSettings = RawSettings(
    metrics: Option<map<string, string>>,
    version: Option<int>,
    hideInResults: Option<bool>,
    isConditional: Option<bool>,
    fsSections: Option<map<string, Json>>,
    formula: Option<string>,
    dependency: Option<RawDependency>,
    isMandatory: Option<bool>)

  datatype RawOption = RawOption(id: Option<string>, labelText: Option<string>, comment: Option<string>)

  /**
   * The `options` key of a question: left out, given as `null`, or given as
   * a list. The library runs the field check only on a value that was given.
   */
  datatype OptionsField = OptionsAbsent | OptionsNull | OptionsGiven(items: seq<RawOption>)

  datatype RawQuestion = RawQuestion(
    id: Option<string>,
    labelText: Option<string>,
    descriptiveText: Option<string>,
    questionType: Option<string>,
    element: Option<string>,
    options: OptionsField,
    answerOptions: Option<string>,
    children: RawChildren,
    powerfeature: Option<bool>,
    disabled: Option<bool>,
    factSheetElement: Option<RawFactSheetElement>,
    settings: Option<RawSettings>)

  datatype RawChildren = RawNoChildren | RawChildren(items: seq<RawQuestion>)

  datatype RawQuestionnaire = RawQuestionnaire(questions: Option<seq<RawQuestion>>)

  datatype RawDateFilter = RawDateFilter(fromDate: Option<Date>, toDate: Option<Date>, filterType: Option<string>)

  datatype RawSubscriptionFilter = RawSubscriptionFilter(filterType: Option<string>, roleId: Option<string>)

  datatype RawFacetFilter = RawFacetFilter(
    facetKey: Option<string>,
    keys: Option<seq<string>>,
    operator: Option<string>,
    dateFilter: Option<RawDateFilter>,
    subscriptionFilter: Option<RawSubscriptionFilter>,
    subFilter: RawSubFilters)

  datatype RawSubFilters = RawNoSubFilters | RawSubFilters(items: seq<RawFacetFilter>)

  datatype RawQueryFilter = RawQueryFilter(
    fsType: Option<string>,
    facetFilter: Option<seq<RawFacetFilter>>,
    fullTextSearchTerm: Option<string>)

  datatype RawFactSheetQuery = RawFactSheetQuery(filter: Option<RawQueryFilter>, ids: Option<seq<string>>)

  datatype RawUserRoleDetails = RawUserRoleDetails(name: Option<string>, id: Option<string>)

  datatype RawUserRole = RawUserRole(subscriptionType: Option<string>, roleDetails: Option<seq<RawUserRoleDetails>>)

  datatype RawUserQuery = RawUserQuery(roles: Option<seq<RawUserRole>>)

  datatype RawSurveyInput = RawSurveyInput(
    title: Option<string>,
    questionnaire: Option<RawQuestionnaire>,
    introductionText: Option<string>,
    introductionSubject: Option<string>,
    additionalFactSheetSubject: Option<string>,
    additionalFactSheetText: Option<string>,
    additionalFactSheetCheckEnabled: Option<bool>,
    repeatInterval: Option<int>,
    timeFrame: Option<int>,
    sendChangeNotifications: Option<bool>,
    allowedPermissionStatus: Option<string>,
    dynamicScopeCheckEnabled: Option<bool>,
    factSheetQuery: Option<RawFactSheetQuery>,
    userQuery: Option<RawUserQuery>)

  // ---------------------------------------------------------------------------
  // Question validators
  // ---------------------------------------------------------------------------

  function ValidateElementProperty(p: RawElementProperty, at: Path): (r: Validated<ElementProperty>)
    ensures r.Valid? <==> p.name.Some?
  {
    var name := Required(p.name, at + [Key("name")]);
    if name.Valid? then Valid(ElementProperty(name.value)) else Fail(Errors(name))
  }

  /** Each element property of a list validated at its own index below `at`. */
  function PropertyResults(ps: seq<RawElementProperty>, at: Path): (r: seq<Validated<ElementProperty>>)
    ensures |r| == |ps| && forall i | 0 <= i < |ps| :: r[i] == ValidateElementProperty(ps[i], at + [Index(i)])
  {
    seq(|ps|, i requires 0 <= i < |ps| => ValidateElementProperty(ps[i], at + [Index(i)]))
  }

  /** `FactSheetElement`: only its `properties`, when given, can fail, and each needs a `name`. */
  function ValidateFactSheetElement(e: RawFactSheetElement, at: Path): (r: Validated<FactSheetElement>)
    ensures r.Valid? <==> e.properties.None? || forall i | 0 <= i < |e.properties.value| :: e.properties.value[i].name.Some?
    ensures r.Valid? ==> r.value.elementType == e.elementType && r.value.tagGroupId == e.tagGroupId
    ensures r.Valid? ==> (r.value.properties.Some? <==> e.properties.Some?)
  {
    var props: Validated<Option<seq<ElementProperty>>> :=
      if e.properties.None? then Valid(None)
      else Lift(Combine(PropertyResults(e.properties.value, at + [Key("properties")])));
    if props.Invalid? then Fail(Errors(props))
    else
      Valid(FactSheetElement(e.elementType, e.tagGroupId, e.subscription, e.factSheetFieldName,
                             e.factSheetFieldType, e.tagGroupMode, e.factSheetFieldViewType, props.value))
  }

  /**
   * `DependencySettings`: both `parentId` and `condition` are required and
   * nothing else is checked, so any parent id is accepted, including one that
   * names no question of the survey.
   */
  function ValidateDependency(d: RawDependency, at: Path): (r: Validated<DependencySettings>)
    ensures r.Valid? <==> d.parentId.Some? && d.condition.Some?
    ensures r.Valid? ==> r.value == DependencySettings(d.parentId.value, d.condition.value)
    ensures r.Invalid? ==>
      Errors(r) == (if d.parentId.None? then [FieldError(at + [Key("parentId")], FieldRequired)] else [])
                 + (if d.condition.None? then [FieldError(at + [Key("condition")], FieldRequired)] else [])
  {
    var parent := Required(d.parentId, at + [Key("parentId")]);
    var condition := Required(d.condition, at + [Key("condition")]);
    var errs := Errors(parent) + Errors(condition);
    if errs != [] then Fail(errs) else Valid(DependencySettings(parent.value, condition.value))
  }

  function ValidateSettings(s: RawSettings, at: Path): (r: Validated<QuestionSettings>)
    ensures r.Valid? <==> (s.dependency.Some? ==> ValidateDependency(s.dependency.value, at + [Key("dependency")]).Valid?)
  {
    var dep := if s.dependency.None? then Valid(None)
               else Lift(ValidateDependency(s.dependency.value, at + [Key("dependency")]));
    if dep.Invalid? then Fail(Errors(dep))
    else
      Valid(QuestionSettings(s.metrics, s.version, s.hideInResults, s.isConditional,
                             s.fsSections, s.formula, dep.value, s.isMandatory))
  }

  function ValidateOption(o: RawOption, at: Path): (r: Validated<QuestionOption>)
    ensures r.Valid? <==> o.id.Some? && o.labelText.Some?
    ensures r.Valid? ==> r.value == QuestionOption(o.id.value, o.labelText.value, o.comment)
  {
    var id := Required(o.id, at + [Key("id")]);
    var lab := Required(o.labelText, at + [Key("label")]);
    var errs := Errors(id) + Errors(lab);
    if errs != [] then Fail(errs) else Valid(QuestionOption(id.value, lab.value, o.comment))
  }

  /**
   * The `options` field of a question whose (already validated) type is
   * `questionType`. The field check runs only on a value that was given: an
   * explicit `null` or `[]` on a choice question fails here; left out, the
   * field is `None` and the model-level check decides.
   */
  function ValidateOptions(f: OptionsField, questionType: Option<string>, at: Path): (r: Validated<Option<seq<QuestionOption>>>)
    ensures f.OptionsAbsent? ==> r == Valid(None)
    ensures r.Valid? && questionType.Some? && questionType.value in ChoiceTypes ==> f.OptionsAbsent? || !NoOptions(r.value)
    ensures r.Valid? && f.OptionsGiven? ==> r.value.Some? && |r.value.value| == |f.items|
  {
    var isChoice := questionType.Some? && questionType.value in ChoiceTypes;
    match f
    case OptionsAbsent => Valid(None)
    case OptionsNull =>
      if isChoice then Fail([FieldError(at, ValueError(EmptyOptionsMessage(questionType.value)))])
      else Valid(None)
    case OptionsGiven(items) =>
      var items' := Combine(seq(|items|, i requires 0 <= i < |items| => ValidateOption(items[i], at + [Index(i)])));
      if items'.Invalid? then Fail(Errors(items'))
      else if isChoice && items == [] then Fail([FieldError(at, ValueError(EmptyOptionsMessage(questionType.value)))])
      else Valid(Some(items'.value))
  }

  /** The `children` of a question, each validated as a question at its own index. */
  function ValidateChildren(q: RawQuestion, at: Path): (r: Validated<Children>)
    ensures q.children.RawNoChildren? ==> r == Valid(NoChildren)
    ensures r.Valid? && q.children.RawChildren? ==>
      r.value.Children? && |r.value.items| == |q.children.items|
      && forall i | 0 <= i < |r.value.items| :: ChoiceInvariant(r.value.items[i])
    decreases q, 0
  {
    match q.children
    case RawNoChildren => Valid(NoChildren)
    case RawChildren(cs) =>
      var c := Combine(seq(|cs|, i requires 0 <= i < |cs| => ValidateQuestion(cs[i], at + [Index(i)])));
      if c.Valid? then Valid(Children(c.value)) else Fail(Errors(c))
  }

  /**
   * A `Question`: its fields in declaration order (children are questions
   * again, validated the same way at their own location), then, only when no
   * field failed, the check that a choice question has at least one option.
   * A validated question satisfies the choice invariant at every depth.
   */
  function ValidateQuestion(q: RawQuestion, at: Path): (r: Validated<Question>)
    ensures r.Valid? ==> ChoiceInvariant(r.value)
    ensures r.Valid? ==> q.id == Some(r.value.id) && q.questionType == Some(r.value.questionType)
    decreases q, 1
  {
    var id := Required(q.id, at + [Key("id")]);
    var lab := Required(q.labelText, at + [Key("label")]);
    var typ := Required(q.questionType, at + [Key("type")]);
    var opts := ValidateOptions(q.options, q.questionType, at + [Key("options")]);
    var kids := ValidateChildren(q, at + [Key("children")]);
    var fse := if q.factSheetElement.None? then Valid(None)
               else Lift(ValidateFactSheetElement(q.factSheetElement.value, at + [Key("factSheetElement")]));
    var settings := if q.settings.None? then Valid(None)
                    else Lift(ValidateSettings(q.settings.value, at + [Key("settings")]));
    var errs := Errors(id) + Errors(lab) + Errors(typ) + Errors(opts) + Errors(kids) + Errors(fse) + Errors(settings);
    if errs != [] then Fail(errs)
    else
      var question := Question(id.value, lab.value, q.descriptiveText, typ.value, q.element, opts.value,
                               q.answerOptions, kids.value, q.powerfeature, q.disabled, fse.value, settings.value);
      if question.questionType in ChoiceTypes && NoOptions(question.options) then
        Fail([FieldError(at, ValueError(MissingOptionsMessage(question.questionType)))])
      else
        Valid(question)
  }

  /** Each question of a list validated at its own index below `at`. */
  function QuestionResults(qs: seq<RawQuestion>, at: Path): (r: seq<Validated<Question>>)
    ensures |r| == |qs|
    ensures forall i | 0 <= i < |qs| :: r[i] == ValidateQuestion(qs[i], at + [Index(i)])
  {
    seq(|qs|, i requires 0 <= i < |qs| => ValidateQuestion(qs[i], at + [Index(i)]))
  }

  /** `Questionnaire`: the `questions` list is required, and may be empty. */
  function ValidateQuestionnaire(qn: RawQuestionnaire, at: Path): (r: Validated<Questionnaire>)
    ensures qn.questions.None? ==> Errors(r) == [FieldError(at + [Key("questions")], FieldRequired)]
    ensures qn.questions == Some([]) ==> r == Valid(Questionnaire([]))
    ensures r.Valid? ==> qn.questions.Some? && |r.value.questions| == |qn.questions.value|
    ensures r.Valid? ==> forall i | 0 <= i < |r.value.questions| :: ChoiceInvariant(r.value.questions[i])
    ensures r.Valid? ==> forall i | 0 <= i < |r.value.questions| ::
      ValidateQuestion(qn.questions.value[i], at + [Key("questions")] + [Index(i)]) == Valid(r.value.questions[i])
    ensures r.Invalid? <==> qn.questions.None? || exists i | 0 <= i < |qn.questions.value| ::
      ValidateQuestion(qn.questions.value[i], at + [Key("questions")] + [Index(i)]).Invalid?
  {
    if qn.questions.None? then Fail([FieldError(at + [Key("questions")], FieldRequired)])
    else
      var qs := qn.questions.value;
      var c := Combine(QuestionResults(qs, at + [Key("questions")]));
      if c.Valid? then Valid(Questionnaire(c.value)) else Fail(Errors(c))
  }

  // ---------------------------------------------------------------------------
  // Query validators
  // ---------------------------------------------------------------------------

  function ValidateDateFilter(d: RawDateFilter, at: Path): (r: Validated<DateFilter>)
    ensures r.Valid? <==> d.filterType.Some? && d.filterType.value in DateFilterTypeNames
    ensures r.Valid? ==> r.value.filterType.Name() == d.filterType.value
  {
    var t := RequiredEnum(d.filterType, ParseDateFilterType, DateFilterTypeNames, at + [Key("type")]);
    if t.Valid? then Valid(DateFilter(d.fromDate, d.toDate, t.value)) else Fail(Errors(t))
  }

  function ValidateSubscriptionFilter(s: RawSubscriptionFilter, at: Path): (r: Validated<SubscriptionFilter>)
    ensures r.Valid? <==> s.filterType.Some? && s.filterType.value in SubscriptionTypeNames
    ensures r.Valid? ==> r.value.filterType.Name() == s.filterType.value
  {
    var t := RequiredEnum(s.filterType, ParseSubscriptionType, SubscriptionTypeNames, at + [Key("type")]);
    if t.Valid? then Valid(SubscriptionFilter(t.value, s.roleId)) else Fail(Errors(t))
  }

  /** The results of the nested facet filters, each at its own index. */
  function SubFilterResults(f: RawFacetFilter, at: Path): (r: seq<Validated<FacetFilter>>)
    requires f.subFilter.RawSubFilters?
    ensures |r| == |f.subFilter.items|
    ensures forall i | 0 <= i < |r| :: r[i] == ValidateFacetFilter(f.subFilter.items[i], at + [Index(i)])
    decreases f, 0
  {
    var fs := f.subFilter.items;
    seq(|fs|, i requires 0 <= i < |fs| => ValidateFacetFilter(fs[i], at + [Index(i)]))
  }

  /** The `subFilter` list of a facet filter, each item a facet filter at its own index. */
  function ValidateSubFilters(f: RawFacetFilter, at: Path): (r: Validated<SubFilters>)
    ensures f.subFilter.RawNoSubFilters? ==> r == Valid(NoSubFilters)
    ensures f.subFilter.RawSubFilters? ==> (r.Valid? <==> forall i | 0 <= i < |f.subFilter.items| ::
      ValidateFacetFilter(f.subFilter.items[i], at + [Index(i)]).Valid?)
    ensures r.Valid? && f.subFilter.RawSubFilters? ==> r.value.SubFilters? && |r.value.items| == |f.subFilter.items|
    ensures r.Valid? && f.subFilter.RawSubFilters? ==> forall i | 0 <= i < |f.subFilter.items| ::
      ValidateFacetFilter(f.subFilter.items[i], at + [Index(i)]) == Valid(r.value.items[i])
    decreases f, 1
  {
    match f.subFilter
    case RawNoSubFilters => Valid(NoSubFilters)
    case RawSubFilters(fs) =>
      var c := Combine(SubFilterResults(f, at));
      if c.Valid? then Valid(SubFilters(c.value)) else Fail(Errors(c))
  }

  /** `FacetFilter`: an optional `operator` among AND, OR, NOR; the nested filters validated in turn. */
  function ValidateFacetFilter(f: RawFacetFilter, at: Path): (r: Validated<FacetFilter>)
    ensures f.operator.Some? && f.operator.value !in FacetFilterOperatorNames ==> r.Invalid?
    ensures r.Valid? ==> r.value.facetKey == f.facetKey && r.value.keys == f.keys
    ensures r.Valid? ==> (r.value.operator.Some? <==> f.operator.Some?)
    ensures r.Valid? && f.operator.Some? ==> r.value.operator.value.Name() == f.operator.value
    decreases f, 2
  {
    var op := OptionalEnum(f.operator, ParseFacetFilterOperator, FacetFilterOperatorNames, at + [Key("operator")]);
    var df := if f.dateFilter.None? then Valid(None)
              else Lift(ValidateDateFilter(f.dateFilter.value, at + [Key("dateFilter")]));
    var sf := if f.subscriptionFilter.None? then Valid(None)
              else Lift(ValidateSubscriptionFilter(f.subscriptionFilter.value, at + [Key("subscriptionFilter")]));
    var subs := ValidateSubFilters(f, at + [Key("subFilter")]);
    var errs := Errors(op) + Errors(df) + Errors(sf) + Errors(subs);
    if errs != [] then Fail(errs)
    else Valid(FacetFilter(f.facetKey, f.keys, op.value, df.value, sf.value, subs.value))
  }

  function ValidateQueryFilter(q: RawQueryFilter, at: Path): (r: Validated<QueryFilter>)
    ensures q.facetFilter.None? ==> r == Valid(QueryFilter(q.fsType, None, q.fullTextSearchTerm))
    ensures r.Valid? ==> r.value.fsType == q.fsType && r.value.fullTextSearchTerm == q.fullTextSearchTerm
  {
    var ff: Validated<Option<seq<FacetFilter>>> :=
      if q.facetFilter.None? then Valid(None)
      else
        var fs := q.facetFilter.value;
        Lift(Combine(seq(|fs|, i requires 0 <= i < |fs| => ValidateFacetFilter(fs[i], at + [Key("facetFilter"), Index(i)]))));
    if ff.Invalid? then Fail(Errors(ff)) else Valid(QueryFilter(q.fsType, ff.value, q.fullTextSearchTerm))
  }

  /** `FactSheetQuery`: both parts optional; `ids` is taken as given. */
  function ValidateFactSheetQuery(q: RawFactSheetQuery, at: Path): (r: Validated<FactSheetQuery>)
    ensures q.filter.None? ==> r == Valid(FactSheetQuery(None, q.ids))
    ensures r.Valid? ==> r.value.ids == q.ids && (r.value.filter.Some? <==> q.filter.Some?)
  {
    var filter := if q.filter.None? then Valid(None) else Lift(ValidateQueryFilter(q.filter.value, at + [Key("filter")]));
    if filter.Invalid? then Fail(Errors(filter)) else Valid(FactSheetQuery(filter.value, q.ids))
  }

  function ValidateUserRoleDetails(d: RawUserRoleDetails, at: Path): (r: Validated<UserRoleDetails>)
    ensures r.Valid? <==> d.name.Some? && d.id.Some?
  {
    var name := Required(d.name, at + [Key("name")]);
    var id := Required(d.id, at + [Key("id")]);
    var errs := Errors(name) + Errors(id);
    if errs != [] then Fail(errs) else Valid(UserRoleDetails(name.value, id.value))
  }

  /** `UserRole`: `subscriptionType` is required and must be one of the four `SubscriptionType` spellings. */
  function ValidateUserRole(role: RawUserRole, at: Path): (r: Validated<UserRole>)
    ensures r.Valid? ==> role.subscriptionType == Some(r.value.subscriptionType.Name())
    ensures role.subscriptionType.None? ==> r.Invalid?
    ensures role.subscriptionType.Some? && role.subscriptionType.value !in SubscriptionTypeNames ==> r.Invalid?
  {
    var st := RequiredEnum(role.subscriptionType, ParseSubscriptionType, SubscriptionTypeNames, at + [Key("subscriptionType")]);
    var details: Validated<Option<seq<UserRoleDetails>>> :=
      if role.roleDetails.None? then Valid(None)
      else
        var ds := role.roleDetails.value;
        Lift(Combine(seq(|ds|, i requires 0 <= i < |ds| => ValidateUserRoleDetails(ds[i], at + [Key("roleDetails"), Index(i)]))));
    var errs := Errors(st) + Errors(details);
    if errs != [] then Fail(errs) else Valid(UserRole(st.value, details.value))
  }

  function ValidateUserQuery(u: RawUserQuery, at: Path): (r: Validated<UserQuery>)
    ensures u.roles.None? ==> r.Invalid?
    ensures r.Valid? ==> u.roles.Some? && |r.value.roles| == |u.roles.value|
  {
    if u.roles.None? then Fail([FieldError(at + [Key("roles")], FieldRequired)])
    else
      var rs := u.roles.value;
      var c := Combine(seq(|rs|, i requires 0 <= i < |rs| => ValidateUserRole(rs[i], at + [Key("roles"), Index(i)])));
      if c.Valid? then Valid(UserQuery(c.value)) else Fail(Errors(c))
  }

  // ---------------------------------------------------------------------------
  // The survey
  // ---------------------------------------------------------------------------

  /**
   * The `title` field: required, at least one character, not blank; the
   * accepted title is stored stripped of surrounding whitespace.
   */
  function ValidateTitle(t: Option<string>, at: Path): (r: Validated<string>)
    ensures r.Valid? <==> t.Some? && !IsBlank(t.value)
    ensures r.Valid? ==> r.value == Strip(t.value) && r.value != [] && IsTrimmed(r.value)
    ensures t.Some? && t.value != [] && IsBlank(t.value) ==> Errors(r) == [FieldError(at, ValueError(BlankTitle))]
  {
    if t.None? then Fail([FieldError(at, FieldRequired)])
    else if |t.value| < 1 then Fail([FieldError(at, TooShortString)])
    else
      StripEmptyIffBlank(t.value);
      if Strip(t.value) == [] then Fail([FieldError(at, ValueError(BlankTitle))])
      else Valid(Strip(t.value))
  }

  /** `SurveyInput`, validated at location `at` (the document root is `[]`). */
  function ValidateSurveyAt(s: RawSurveyInput, at: Path): (r: Validated<SurveyInput>)
    ensures r.Valid? ==> WellFormedSurvey(r.value)
    ensures r.Valid? ==> s.title.Some? && r.value.title == Strip(s.title.value)
    ensures s.title.None? || IsBlank(s.title.value) ==> r.Invalid?
    ensures r.Valid? ==> s.questionnaire.Some?
    ensures r.Valid? ==> ValidateQuestionnaire(s.questionnaire.value, at + [Key("questionnaire")]) == Valid(r.value.questionnaire)
    ensures s.questionnaire.Some? && ValidateQuestionnaire(s.questionnaire.value, at + [Key("questionnaire")]).Invalid? ==> r.Invalid?
  {
    var title := ValidateTitle(s.title, at + [Key("title")]);
    var qn := if s.questionnaire.None? then Fail([FieldError(at + [Key("questionnaire")], FieldRequired)])
              else ValidateQuestionnaire(s.questionnaire.value, at + [Key("questionnaire")]);
    var aps := OptionalEnum(s.allowedPermissionStatus, ParseAllowedPermissionStatus, AllowedPermissionStatusNames,
                            at + [Key("allowedPermissionStatus")]);
    var fsq := if s.factSheetQuery.None? then Valid(None)
               else Lift(ValidateFactSheetQuery(s.factSheetQuery.value, at + [Key("factSheetQuery")]));
    var uq := if s.userQuery.None? then Valid(None)
              else Lift(ValidateUserQuery(s.userQuery.value, at + [Key("userQuery")]));
    var errs := Errors(title) + Errors(qn) + Errors(aps) + Errors(fsq) + Errors(uq);
    if errs != [] then Fail(errs)
    else
      Valid(SurveyInput(title.value, qn.value,
        SurveyOptions(s.introductionText, s.introductionSubject, s.additionalFactSheetSubject,
                      s.additionalFactSheetText, s.additionalFactSheetCheckEnabled, s.repeatInterval,
                      s.timeFrame, s.sendChangeNotifications, aps.value, s.dynamicScopeCheckEnabled,
                      fsq.value, uq.value)))
  }

  /** `SurveyInput.model_validate` on a decoded document. */
  function ValidateSurvey(s: RawSurveyInput): (r: Validated<SurveyInput>)
    ensures r.Valid? ==> WellFormedSurvey(r.value)
    ensures r.Valid? ==> s.title.Some? && r.value.title == Strip(s.title.value)
    ensures s.title.None? || IsBlank(s.title.value) ==> r.Invalid?
    ensures r.Valid? ==> s.questionnaire.Some?
    ensures r.Valid? ==> ValidateQuestionnaire(s.questionnaire.value, [Key("questionnaire")]) == Valid(r.value.questionnaire)
  {
    assert [] + [Key("questionnaire")] == [Key("questionnaire")];
    ValidateSurveyAt(s, [])
  }
}
