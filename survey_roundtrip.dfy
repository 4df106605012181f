/**
 * What the validators of `SurveyValidation` accept, stated against the typed
 * model: re-encoding a well-formed survey as a raw document and validating
 * it again gives the same survey back, so that the validated surveys are
 * exactly the well-formed ones; and the choice rule for single questions,
 * both ways round.
 */
module SurveyRoundTrip {
  import opened Common
  import opened Text
  import opened SurveyModels
  import opened SurveyValidation

  // ---------------------------------------------------------------------------
  // Re-encoding a typed value as the raw record it would be decoded from
  // ---------------------------------------------------------------------------

  function EmbedOption(o: QuestionOption): RawOption {
    RawOption(Some(o.id), Some(o.labelText), o.comment)
  }

  function EmbedOptions(os: Option<seq<QuestionOption>>): OptionsField {
    match os
    case None => OptionsAbsent
    case Some(xs) => OptionsGiven(seq(|xs|, i requires 0 <= i < |xs| => EmbedOption(xs[i])))
  }

  function EmbedFactSheetElement(e: FactSheetElement): RawFactSheetElement {
    RawFactSheetElement(e.elementType, e.tagGroupId, e.subscription, e.factSheetFieldName,
      e.factSheetFieldType, e.tagGroupMode, e.factSheetFieldViewType,
      match e.properties
      case None => None
      case Some(ps) => Some(EmbedProperties(ps)))
  }

  function EmbedProperties(ps: seq<ElementProperty>): (r: seq<RawElementProperty>)
    ensures |r| == |ps| && forall i | 0 <= i < |ps| :: r[i] == RawElementProperty(Some(ps[i].name))
  {
    seq(|ps|, i requires 0 <= i < |ps| => RawElementProperty(Some(ps[i].name)))
  }

  function EmbedSettings(s: QuestionSettings): RawSettings {
    RawSettings(s.metrics, s.version, s.hideInResults, s.isConditional, s.fsSections, s.formula,
      match s.dependency
      case None => None
      case Some(d) => Some(RawDependency(Some(d.parentId), Some(d.condition))),
      s.isMandatory)
  }

  function EmbedQuestion(q: Question): RawQuestion
    decreases q
  {
    RawQuestion(Some(q.id), Some(q.labelText), q.descriptiveText, Some(q.questionType), q.element,
      EmbedOptions(q.options), q.answerOptions,
      match q.children
      case NoChildren => RawNoChildren
      case Children(cs) => RawChildren(seq(|cs|, i requires 0 <= i < |cs| => EmbedQuestion(cs[i]))),
      q.powerfeature, q.disabled,
      match q.factSheetElement
      case None => None
      case Some(e) => Some(EmbedFactSheetElement(e)),
      match q.settings
      case None => None
      case Some(s) => Some(EmbedSettings(s)))
  }

  function EmbedFacetFilter(f: FacetFilter): RawFacetFilter
    decreases f
  {
    RawFacetFilter(f.facetKey, f.keys,
      match f.operator
      case None => None
      case Some(o) => Some(o.Name()),
      match f.dateFilter
      case None => None
      case Some(d) => Some(RawDateFilter(d.fromDate, d.toDate, Some(d.filterType.Name()))),
      match f.subscriptionFilter
      case None => None
      case Some(s) => Some(RawSubscriptionFilter(Some(s.filterType.Name()), s.roleId)),
      match f.subFilter
      case NoSubFilters => RawNoSubFilters
      case SubFilters(fs) => RawSubFilters(seq(|fs|, i requires 0 <= i < |fs| => EmbedFacetFilter(fs[i]))))
  }

  function EmbedFactSheetQuery(q: FactSheetQuery): RawFactSheetQuery {
    RawFactSheetQuery(
      match q.filter
      case None => None
      case Some(f) => Some(RawQueryFilter(f.fsType,
        match f.facetFilter
        case None => None
        case Some(fs) => Some(seq(|fs|, i requires 0 <= i < |fs| => EmbedFacetFilter(fs[i]))),
        f.fullTextSearchTerm)),
      q.ids)
  }

  function EmbedUserRole(r: UserRole): RawUserRole {
    RawUserRole(Some(r.subscriptionType.Name()),
      match r.roleDetails
      case None => None
      case Some(ds) => Some(seq(|ds|, i requires 0 <= i < |ds| => RawUserRoleDetails(Some(ds[i].name), Some(ds[i].id)))))
  }

  function EmbedQuestionnaire(qn: Questionnaire): RawQuestionnaire {
    var qs := qn.questions;
    RawQuestionnaire(Some(seq(|qs|, i requires 0 <= i < |qs| => EmbedQuestion(qs[i]))))
  }

  function EmbedUserQuery(u: UserQuery): RawUserQuery {
    RawUserQuery(Some(seq(|u.roles|, i requires 0 <= i < |u.roles| => EmbedUserRole(u.roles[i]))))
  }

  function EmbedSurvey(s: SurveyInput): RawSurveyInput {
    var x := s.extra;
    RawSurveyInput(Some(s.title), Some(EmbedQuestionnaire(s.questionnaire)),
      x.introductionText, x.introductionSubject, x.additionalFactSheetSubject, x.additionalFactSheetText,
      x.additionalFactSheetCheckEnabled, x.repeatInterval, x.timeFrame, x.sendChangeNotifications,
      match x.allowedPermissionStatus
      case None => None
      case Some(p) => Some(p.Name()),
      x.dynamicScopeCheckEnabled,
      match x.factSheetQuery
      case None => None
      case Some(q) => Some(EmbedFactSheetQuery(q)),
      match x.userQuery
      case None => None
      case Some(u) => Some(EmbedUserQuery(u)))
  }

  // ---------------------------------------------------------------------------
  // Validation gives every re-encoded value back
  // ---------------------------------------------------------------------------

  /** A list whose every item validates to the matching value validates to the list of values. */
  lemma CombineAllValid<T>(rs: seq<Validated<T>>, vs: seq<T>)
    requires |rs| == |vs| && forall i | 0 <= i < |rs| :: rs[i] == Valid(vs[i])
    ensures Combine(rs) == Valid(vs)
  {
    assert Combine(rs).value == vs;
  }

  lemma OptionsRoundTrip(os: Option<seq<QuestionOption>>, questionType: string, at: Path)
    requires questionType in ChoiceTypes ==> !NoOptions(os)
    ensures ValidateOptions(EmbedOptions(os), Some(questionType), at) == Valid(os)
  {
    if os.Some? {
      var xs := os.value;
      var raw := seq(|xs|, i requires 0 <= i < |xs| => EmbedOption(xs[i]));
      CombineAllValid(seq(|raw|, i requires 0 <= i < |raw| => ValidateOption(raw[i], at + [Index(i)])), xs);
    }
  }

  lemma FactSheetElementRoundTrip(e: FactSheetElement, at: Path)
    ensures ValidateFactSheetElement(EmbedFactSheetElement(e), at) == Valid(e)
  {
    if e.properties.Some? {
      var ps := e.properties.value;
      var raw := EmbedFactSheetElement(e).properties.value;
      CombineAllValid(PropertyResults(raw, at + [Key("properties")]), ps);
    }
  }

  /** The children of a well-formed question, re-encoded, validate to themselves. */
  lemma {:induction false} ChildrenRoundTrip(q: Question, at: Path)
    requires ChoiceInvariant(q)
    ensures ValidateChildren(EmbedQuestion(q), at) == Valid(q.children)
    decreases q, 0
  {
    match q.children
    case NoChildren =>
    case Children(cs) =>
      var rcs := EmbedQuestion(q).children.items;
      forall i | 0 <= i < |cs|
        ensures ValidateQuestion(rcs[i], at + [Index(i)]) == Valid(cs[i])
      {
        QuestionRoundTrip(cs[i], at + [Index(i)]);
      }
      CombineAllValid(seq(|rcs|, i requires 0 <= i < |rcs| => ValidateQuestion(rcs[i], at + [Index(i)])), cs);
  }

  /** A question that keeps the choice invariant, re-encoded, validates to itself. */
  lemma {:induction false} QuestionRoundTrip(q: Question, at: Path)
    requires ChoiceInvariant(q)
    ensures ValidateQuestion(EmbedQuestion(q), at) == Valid(q)
    decreases q, 1
  {
    var raw := EmbedQuestion(q);
    OptionsRoundTrip(q.options, q.questionType, at + [Key("options")]);
    ChildrenRoundTrip(q, at + [Key("children")]);
    if q.factSheetElement.Some? {
      FactSheetElementRoundTrip(q.factSheetElement.value, at + [Key("factSheetElement")]);
    }
    assert ValidateOptions(raw.options, raw.questionType, at + [Key("options")]) == Valid(q.options);
    assert ValidateChildren(raw, at + [Key("children")]) == Valid(q.children);
    if q.settings.Some? {
      SettingsRoundTrip(q.settings.value, at + [Key("settings")]);
    }
    assert Required(raw.id, at + [Key("id")]) == Valid(q.id);
    assert Required(raw.labelText, at + [Key("label")]) == Valid(q.labelText);
    assert Required(raw.questionType, at + [Key("type")]) == Valid(q.questionType);
  }

  /** Question settings, re-encoded, validate to themselves. */
  lemma SettingsRoundTrip(s: QuestionSettings, at: Path)
    ensures ValidateSettings(EmbedSettings(s), at) == Valid(s)
  {
  }

  lemma {:induction false} SubFiltersRoundTrip(f: FacetFilter, at: Path)
    ensures ValidateSubFilters(EmbedFacetFilter(f), at) == Valid(f.subFilter)
    decreases f, 0
  {
    match f.subFilter
    case NoSubFilters =>
    case SubFilters(fs) =>
      var rfs := EmbedFacetFilter(f).subFilter.items;
      forall i | 0 <= i < |fs|
        ensures ValidateFacetFilter(rfs[i], at + [Index(i)]) == Valid(fs[i])
      {
        FacetFilterRoundTrip(fs[i], at + [Index(i)]);
      }
      CombineAllValid(SubFilterResults(EmbedFacetFilter(f), at), fs);
  }

  lemma {:induction false} FacetFilterRoundTrip(f: FacetFilter, at: Path)
    ensures ValidateFacetFilter(EmbedFacetFilter(f), at) == Valid(f)
    decreases f, 1
  {
    var raw := EmbedFacetFilter(f);
    if f.operator.Some? {
      FacetFilterOperatorRoundTrip(f.operator.value);
    }
    assert OptionalEnum(raw.operator, ParseFacetFilterOperator, FacetFilterOperatorNames, at + [Key("operator")])
      == Valid(f.operator);
    if f.dateFilter.Some? {
      var d := f.dateFilter.value;
      DateFilterTypeRoundTrip(d.filterType);
      assert ValidateDateFilter(raw.dateFilter.value, at + [Key("dateFilter")]) == Valid(d);
    }
    if f.subscriptionFilter.Some? {
      var sf := f.subscriptionFilter.value;
      SubscriptionTypeRoundTrip(sf.filterType);
      assert ValidateSubscriptionFilter(raw.subscriptionFilter.value, at + [Key("subscriptionFilter")]) == Valid(sf);
    }
    SubFiltersRoundTrip(f, at + [Key("subFilter")]);
  }

  lemma FactSheetQueryRoundTrip(q: FactSheetQuery, at: Path)
    ensures ValidateFactSheetQuery(EmbedFactSheetQuery(q), at) == Valid(q)
  {
    if q.filter.Some? && q.filter.value.facetFilter.Some? {
      var fs := q.filter.value.facetFilter.value;
      var rfs := EmbedFactSheetQuery(q).filter.value.facetFilter.value;
      var at' := at + [Key("filter")];
      forall i | 0 <= i < |fs|
        ensures ValidateFacetFilter(rfs[i], at' + [Key("facetFilter"), Index(i)]) == Valid(fs[i])
      {
        FacetFilterRoundTrip(fs[i], at' + [Key("facetFilter"), Index(i)]);
      }
      CombineAllValid(seq(|rfs|, i requires 0 <= i < |rfs| => ValidateFacetFilter(rfs[i], at' + [Key("facetFilter"), Index(i)])), fs);
    }
  }

  lemma UserRoleRoundTrip(role: UserRole, at: Path)
    ensures ValidateUserRole(EmbedUserRole(role), at) == Valid(role)
  {
    SubscriptionTypeRoundTrip(role.subscriptionType);
    if role.roleDetails.Some? {
      var ds := role.roleDetails.value;
      var rds := EmbedUserRole(role).roleDetails.value;
      CombineAllValid(seq(|rds|, i requires 0 <= i < |rds| => ValidateUserRoleDetails(rds[i], at + [Key("roleDetails"), Index(i)])), ds);
    }
  }

  lemma UserQueryRoundTrip(u: UserQuery, at: Path)
    ensures ValidateUserQuery(EmbedUserQuery(u), at) == Valid(u)
  {
    var rrs := EmbedUserQuery(u).roles.value;
    forall i | 0 <= i < |u.roles|
      ensures ValidateUserRole(rrs[i], at + [Key("roles"), Index(i)]) == Valid(u.roles[i])
    {
      UserRoleRoundTrip(u.roles[i], at + [Key("roles"), Index(i)]);
    }
    CombineAllValid(seq(|rrs|, i requires 0 <= i < |rrs| => ValidateUserRole(rrs[i], at + [Key("roles"), Index(i)])), u.roles);
  }

  /**
   * Re-validating a well-formed survey gives it back unchanged: nothing is
   * lost between the typed model and the document it is read from.
   */
  lemma SurveyRoundTrip(s: SurveyInput)
    requires WellFormedSurvey(s)
    ensures ValidateSurvey(EmbedSurvey(s)) == Valid(s)
  {
    var raw := EmbedSurvey(s);
    var x := s.extra;
    TitleRoundTrip(s.title, [] + [Key("title")]);
    QuestionnaireRoundTrip(s.questionnaire, [] + [Key("questionnaire")]);
    if x.allowedPermissionStatus.Some? {
      AllowedPermissionStatusRoundTrip(x.allowedPermissionStatus.value);
    }
    assert OptionalEnum(raw.allowedPermissionStatus, ParseAllowedPermissionStatus, AllowedPermissionStatusNames,
                        [] + [Key("allowedPermissionStatus")]) == Valid(x.allowedPermissionStatus);
    if x.factSheetQuery.Some? {
      FactSheetQueryRoundTrip(x.factSheetQuery.value, [] + [Key("factSheetQuery")]);
    }
    if x.userQuery.Some? {
      UserQueryRoundTrip(x.userQuery.value, [] + [Key("userQuery")]);
    }
  }

  /** A non-empty, already trimmed title validates to itself. */
  lemma TitleRoundTrip(t: string, at: Path)
    requires t != [] && IsTrimmed(t)
    ensures ValidateTitle(Some(t), at) == Valid(t)
  {
    StripTrimmed(t);
    StripEmptyIffBlank(t);
  }

  /** A questionnaire of well-formed questions, re-encoded, validates to itself. */
  lemma QuestionnaireRoundTrip(qn: Questionnaire, at: Path)
    requires forall i | 0 <= i < |qn.questions| :: ChoiceInvariant(qn.questions[i])
    ensures ValidateQuestionnaire(EmbedQuestionnaire(qn), at) == Valid(qn)
  {
    var qs := qn.questions;
    var rqs := EmbedQuestionnaire(qn).questions.value;
    forall i | 0 <= i < |qs|
      ensures QuestionResults(rqs, at + [Key("questions")])[i] == Valid(qs[i])
    {
      QuestionRoundTrip(qs[i], at + [Key("questions")] + [Index(i)]);
    }
    CombineAllValid(QuestionResults(rqs, at + [Key("questions")]), qs);
  }

  /**
   * The surveys validation produces are exactly the well-formed ones, and
   * validating a re-encoded result is idempotent.
   */
  lemma ValidatedSurveysAreWellFormed(raw: RawSurveyInput)
    requires ValidateSurvey(raw).Valid?
    ensures WellFormedSurvey(ValidateSurvey(raw).value)
    ensures ValidateSurvey(EmbedSurvey(ValidateSurvey(raw).value)) == ValidateSurvey(raw)
  {
    SurveyRoundTrip(ValidateSurvey(raw).value);
  }

  // ---------------------------------------------------------------------------
  // The choice rule for one question
  // ---------------------------------------------------------------------------

  /**
   * A `singlechoice` or `multiplechoice` question whose options are left
   * out, `null` or `[]` is rejected, whatever its other fields hold.
   */
  lemma ChoiceWithoutOptionsRejected(q: RawQuestion, at: Path)
    requires q.questionType.Some? && q.questionType.value in ChoiceTypes
    requires q.options.OptionsAbsent? || q.options.OptionsNull? || q.options == OptionsGiven([])
    ensures ValidateQuestion(q, at).Invalid?
  {
  }

  /**
   * One such question anywhere in the questionnaire makes the whole
   * document invalid.
   */
  lemma SurveyWithChoiceWithoutOptionsRejected(s: RawSurveyInput, i: nat)
    requires s.questionnaire.Some? && s.questionnaire.value.questions.Some?
    requires i < |s.questionnaire.value.questions.value|
    requires s.questionnaire.value.questions.value[i].questionType.Some?
    requires s.questionnaire.value.questions.value[i].questionType.value in ChoiceTypes
    requires s.questionnaire.value.questions.value[i].options.OptionsAbsent?
          || s.questionnaire.value.questions.value[i].options.OptionsNull?
          || s.questionnaire.value.questions.value[i].options == OptionsGiven([])
    ensures ValidateSurvey(s).Invalid?
  {
    var at := [Key("questionnaire")];
    ChoiceWithoutOptionsRejected(s.questionnaire.value.questions.value[i], at + [Key("questions")] + [Index(i)]);
    assert ValidateQuestionnaire(s.questionnaire.value, at).Invalid?;
  }

  /**
   * The two checks of the choice rule report distinguishable messages, and
   * each message names the question type it was raised for.
   */
  lemma OptionsMessagesDistinct(a: string, b: string)
    ensures MissingOptionsMessage(a) != EmptyOptionsMessage(b)
    ensures MissingOptionsMessage(a) == MissingOptionsMessage(b) <==> a == b
    ensures EmptyOptionsMessage(a) == EmptyOptionsMessage(b) <==> a == b
  {
    var m := MissingOptionsMessage(a);
    var e := EmptyOptionsMessage(b);
    assert m[|m| - 1] != e[|e| - 1];
    if MissingOptionsMessage(a) == MissingOptionsMessage(b) {
      assert a == MissingOptionsMessage(a)[19..19 + |a|];
    }
    if EmptyOptionsMessage(a) == EmptyOptionsMessage(b) {
      assert a == EmptyOptionsMessage(a)[18..18 + |a|];
    }
  }

  /** A question with just an id, a label and a type. */
  function BareQuestion(id: string, labelText: string, questionType: string, options: OptionsField): RawQuestion {
    RawQuestion(Some(id), Some(labelText), None, Some(questionType), None, options, None, RawNoChildren, None, None, None, None)
  }

  /**
   * Without options, a question is accepted exactly when its type is not a
   * choice type; the type is any string. A rejected choice question reports
   * the model-level error at the question's own location.
   */
  lemma BareQuestionAcceptedIff(id: string, labelText: string, questionType: string, at: Path)
    ensures ValidateQuestion(BareQuestion(id, labelText, questionType, OptionsAbsent), at).Valid? <==> questionType !in ChoiceTypes
    ensures questionType in ChoiceTypes ==>
      Errors(ValidateQuestion(BareQuestion(id, labelText, questionType, OptionsAbsent), at))
        == [FieldError(at, ValueError(MissingOptionsMessage(questionType)))]
  {
  }

  /** An explicitly empty option list on a choice question fails at the `options` field instead. */
  lemma BareQuestionEmptyOptions(id: string, labelText: string, questionType: string, at: Path)
    requires questionType in ChoiceTypes
    ensures Errors(ValidateQuestion(BareQuestion(id, labelText, questionType, OptionsGiven([])), at))
      == [FieldError(at + [Key("options")], ValueError(EmptyOptionsMessage(questionType)))]
  {
    var q := BareQuestion(id, labelText, questionType, OptionsGiven([]));
    assert Errors(ValidateOptions(q.options, q.questionType, at + [Key("options")]))
      == [FieldError(at + [Key("options")], ValueError(EmptyOptionsMessage(questionType)))];
    assert Errors(ValidateChildren(q, at + [Key("children")])) == [];
  }
}
