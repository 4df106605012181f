# LeanIX survey creator: validation layer

This project models the input-checking core of the LeanIX survey creator. The creator lets a user write a survey
(poll) definition as JSON, validates it against a typed schema, and sends it to a LeanIX workspace. The model
covers:

- **Survey schema** (`survey_models.dfy`, `survey_validation.dfy`): the typed records of a survey, from
  `SurveyInput` down to questions, options, fact-sheet and user queries. Validation turns a loosely typed
  document into those records, or into the complete list of located field errors, in field order. It covers:
  required fields, enumerations, the title rule (not blank, stored stripped), and the two rules on choice
  questions. The field rule applies to an explicitly given `options`; the model rule applies to the finished
  question and runs only when its fields are free of errors. Conversion of a validated survey into the poll
  request (`from_survey_input`) is also modelled.
- **Survey round trips** (`survey_roundtrip.dfy`): every well-formed survey, re-encoded as a document, validates
  back to itself. Every validated survey is well-formed. A choice question without options is always rejected.
- **Validation report** (`validate_survey.dfy`): the classification of one document into success, malformed
  JSON, schema errors or an unexpected error, for the string and the file variant. It also covers the
  multi-line error message built from the located errors, and the question-type tally of the command-line
  tool.
- **Connection settings** (`leanix_config.dfy`): URL and API-token checks that collect error messages, and
  their combination for a configuration.
- **Page checks** (`streamlit_checks.dfy`): the creation page's client-side URL, token and workspace-id checks,
  and the readiness summary built from them.
- **API handlers** (`api.dfy`): the poll-cache key, the `/api/validate` response, and the batch-creation
  endpoint. The batch endpoint has the request defaults (English, fail-fast), guards, an in-order loop with a
  fail-fast stop, and tallies.

Helpers:

- `text.dfy`: Python string operations. This includes `strip` with Python's whitespace set, `startswith`,
  `str(int)`, `sep.join` and splitting on newlines.
- `uuid.dfy`: a UUID value and its canonical hyphenated text.
- `common.dfy`: `Option` and `Result`.

Some message texts are produced by the validation library rather than by the repository. These are "Field
required", "String should have at least 1 character", "Input should be 'A', 'B' or 'C'", the "Value error, "
prefix of a validator's message, and "Input should be a valid dictionary or instance of SurveyInput". They are
written as that library words them.

These are parameters of the model:

- **URL parsing**: `urlparse` is passed as a function from the text to its scheme and network location, or to
  the fact that it raised.
- **UUID parsing of user text**: `uuid.UUID(text)` is passed as a predicate.
- **JSON decoding**: its result is an input (`Decoded`).
- **Exception texts**: the text of a raised exception (`str(exc)`) is a string parameter.
- **Poll creation**: each remote call's outcome in the batch loop is an input, one per request.

## Model

| member | source | states |
|---|---|---|
| SurveyModels.ParseSubscriptionType | src/leanix_survey_models.py:19-25 | a text is accepted exactly when it is one of RESPONSIBLE, OBSERVER, ACCOUNTABLE, ALL, and it maps to the member named so |
| SurveyModels.ParseAllowedPermissionStatus | src/leanix_survey_models.py:28-33 | accepted exactly when the text is one of the three permission levels; the member's name is the text |
| SurveyModels.ParseDateFilterType | src/leanix_survey_models.py:36-45 | accepted exactly when the text is one of the seven date-filter kinds; the member's name is the text |
| SurveyModels.ParseFacetFilterOperator | src/leanix_survey_models.py:48-53 | accepted exactly when the text is AND, OR or NOR; the member's name is the text |
| SurveyModels.SubscriptionTypeRoundTrip | src/leanix_survey_models.py:19-25 | every subscription type parses back from its own value |
| SurveyModels.AllowedPermissionStatusRoundTrip | src/leanix_survey_models.py:28-33 | every permission level parses back from its own value |
| SurveyModels.DateFilterTypeRoundTrip | src/leanix_survey_models.py:36-45 | every date-filter kind parses back from its own value |
| SurveyModels.FacetFilterOperatorRoundTrip | src/leanix_survey_models.py:48-53 | every facet-filter operator parses back from its own value |
| SurveyModels.FromSurveyInput | src/leanix_survey_models.py:423-461 | the poll request carries the survey's title, questionnaire and every optional field unchanged, plus the given language, fact-sheet type and due date |
| SurveyModels.FromSurveyInputInjective | src/leanix_survey_models.py:443-461 | different surveys with the same page data give different poll requests |
| SurveyModels.PollCreateFromParts | src/leanix_survey_models.py:390-461 | every poll request is the conversion of its own survey part and page data |
| SurveyValidation.Combine | src/leanix_survey_models.py:202 | a list validates exactly when every item does; its value holds the items' values in order, and its errors are the items' errors concatenated in order |
| SurveyValidation.Required | src/leanix_survey_models.py:92-95 | a required field is accepted exactly when present; when missing, the error is "Field required" at that field |
| SurveyValidation.EnumValue | src/leanix_survey_models.py:210 | an enumeration field is accepted exactly when the text names a member; otherwise one error listing the alternatives |
| SurveyValidation.RequiredEnum | src/leanix_survey_models.py:281 | a required enumeration field is accepted exactly when it is present and names a member |
| SurveyValidation.OptionalEnum | src/leanix_survey_models.py:340-342 | an optional enumeration field is accepted exactly when it is absent or names a member, and keeps its absence |
| SurveyValidation.ValidateElementProperty | src/leanix_survey_models.py:61-64 | an element property is accepted exactly when it has a name |
| SurveyValidation.ValidateFactSheetElement | src/leanix_survey_models.py:67-80 | a fact-sheet element is accepted exactly when its properties are absent or every property has a name; other fields are kept |
| SurveyValidation.ValidateDependency | src/leanix_survey_models.py:86-95 | a dependency is accepted exactly when both `parentId` and `condition` are present; otherwise it reports one "Field required" per missing field, in field order |
| SurveyValidation.ValidateSettings | src/leanix_survey_models.py:101-118 | settings are accepted exactly when their dependency, if any, is |
| SurveyValidation.ValidateOption | src/leanix_survey_models.py:124-132 | an option is accepted exactly when it has an id and a label, and keeps its comment |
| SurveyValidation.ValidateOptions | src/leanix_survey_models.py:181-189 | absent options stay absent; an explicitly given null or empty list is rejected for a choice question; given options keep their count |
| SurveyValidation.MissingOptionsMessage | src/leanix_survey_models.py:178 | the model rule's message names the question type at a fixed position and ends with "option" |
| SurveyValidation.EmptyOptionsMessage | src/leanix_survey_models.py:188 | the field rule's message names the question type at a fixed position and ends with "options" |
| SurveyValidation.ValidateChildren | src/leanix_survey_models.py:160-162 | absent children stay absent; validated children keep their count and each satisfies the choice rule |
| SurveyValidation.ValidateQuestion | src/leanix_survey_models.py:135-189 | an accepted question keeps its id and type and satisfies the choice rule: a single- or multiple-choice question has at least one option |
| SurveyValidation.QuestionResults | src/leanix_survey_models.py:202 | one result per question, each that question's own validation at its index below the list |
| SurveyValidation.ValidateQuestionnaire | src/leanix_survey_models.py:196-202 | a missing question list is one "Field required"; an empty list is accepted; the questionnaire is rejected exactly when the list is missing or some question is; an accepted questionnaire holds, position by position, the validated questions of the document, each satisfying the choice rule |
| SurveyValidation.ValidateDateFilter | src/leanix_survey_models.py:205-213 | a date filter is accepted exactly when its type is present and names a date-filter kind |
| SurveyValidation.ValidateSubscriptionFilter | src/leanix_survey_models.py:216-223 | a subscription filter is accepted exactly when its type is present and names a subscription type |
| SurveyValidation.ValidateFacetFilter | src/leanix_survey_models.py:226-240 | an operator naming no member rejects the filter; an accepted filter keeps its key, keys and operator |
| SurveyValidation.SubFilterResults | src/leanix_survey_models.py:237 | one result per nested filter, each that filter's own validation at its index |
| SurveyValidation.ValidateSubFilters | src/leanix_survey_models.py:237 | no nested list stays none; a nested list is accepted exactly when every filter in it is, and then holds, position by position, the validated filters |
| SurveyValidation.ValidateQueryFilter | src/leanix_survey_models.py:247-255 | without facet filters the filter is accepted as given; an accepted filter keeps its fact-sheet type and search term |
| SurveyValidation.ValidateFactSheetQuery | src/leanix_survey_models.py:258-265 | without a filter the query is accepted as given; an accepted query keeps its ids and the presence of its filter |
| SurveyValidation.ValidateUserRoleDetails | src/leanix_survey_models.py:268-272 | role details are accepted exactly when both name and id are present |
| SurveyValidation.ValidateUserRole | src/leanix_survey_models.py:275-285 | an accepted role's subscription type is the given text; a missing or unknown subscription type rejects the role |
| SurveyValidation.ValidateUserQuery | src/leanix_survey_models.py:288-296 | a missing role list rejects the query; an accepted query keeps its role count |
| SurveyValidation.ValidateTitle | src/leanix_survey_models.py:381-387 | a title is accepted exactly when present and not blank; it is stored stripped, non-empty and trimmed; a non-empty blank title gives the validator's own "Value error, Title cannot be empty or whitespace only" |
| SurveyValidation.ValidateSurveyAt | src/leanix_survey_models.py:304-353 | an accepted survey is well-formed; its title is the document's title stripped, and a missing or blank title rejects the survey; its questionnaire is the document's questionnaire as validated, and a rejected questionnaire (or none) rejects the survey |
| SurveyValidation.ValidateSurvey | src/leanix_survey_models.py:304-387 | an accepted survey is well-formed, its title is the document's title stripped, and its questionnaire is the document's questionnaire validated at `questionnaire`; a missing or blank title rejects the document |
| SurveyRoundTrip.OptionsRoundTrip | src/leanix_survey_models.py:181-189 | options that satisfy the choice rule for their question type, re-encoded, validate to themselves |
| SurveyRoundTrip.FactSheetElementRoundTrip | src/leanix_survey_models.py:67-80 | every fact-sheet element, re-encoded, validates to itself |
| SurveyRoundTrip.SettingsRoundTrip | src/leanix_survey_models.py:101-118 | question settings, re-encoded, validate to themselves |
| SurveyRoundTrip.ChildrenRoundTrip | src/leanix_survey_models.py:160-162 | the children of a well-formed question, re-encoded, validate to themselves |
| SurveyRoundTrip.QuestionRoundTrip | src/leanix_survey_models.py:135-189 | every question satisfying the choice rule (recursively), re-encoded, validates to itself |
| SurveyRoundTrip.SubFiltersRoundTrip | src/leanix_survey_models.py:237 | the nested filters of a facet filter, re-encoded, validate to themselves |
| SurveyRoundTrip.FacetFilterRoundTrip | src/leanix_survey_models.py:226-240 | every facet filter, re-encoded, validates to itself |
| SurveyRoundTrip.FactSheetQueryRoundTrip | src/leanix_survey_models.py:247-265 | every fact-sheet query, re-encoded, validates to itself |
| SurveyRoundTrip.UserRoleRoundTrip | src/leanix_survey_models.py:275-285 | every user role, re-encoded, validates to itself |
| SurveyRoundTrip.UserQueryRoundTrip | src/leanix_survey_models.py:288-296 | every user query, re-encoded, validates to itself |
| SurveyRoundTrip.TitleRoundTrip | src/leanix_survey_models.py:381-387 | a non-empty trimmed title validates to itself |
| SurveyRoundTrip.QuestionnaireRoundTrip | src/leanix_survey_models.py:196-202 | a questionnaire whose questions satisfy the choice rule, re-encoded, validates to itself |
| SurveyRoundTrip.SurveyRoundTrip | src/leanix_survey_models.py:304-387 | every well-formed survey, re-encoded, validates to itself |
| SurveyRoundTrip.ValidatedSurveysAreWellFormed | src/leanix_survey_models.py:173-189 | a validated survey is well-formed, and re-validating its encoding gives the same result |
| SurveyRoundTrip.ChoiceWithoutOptionsRejected | src/leanix_survey_models.py:173-189 | a choice question whose options are absent, null or empty is rejected |
| SurveyRoundTrip.SurveyWithChoiceWithoutOptionsRejected | src/leanix_survey_models.py:173-202 | one choice question without options anywhere in the question list rejects the whole document |
| SurveyRoundTrip.OptionsMessagesDistinct | src/leanix_survey_models.py:178-188 | the two choice-rule messages never coincide, and each determines the question type it names |
| SurveyRoundTrip.BareQuestionAcceptedIff | src/leanix_survey_models.py:173-179 | a question with id, label and type and no options is accepted exactly when its type is not a choice type; otherwise the model rule's message is the error |
| SurveyRoundTrip.BareQuestionEmptyOptions | src/leanix_survey_models.py:181-189 | an explicitly empty option list on a choice question gives the field rule's message at `options` |
| Text.Strip | src/leanix_survey_models.py:385-387 | the result is trimmed and is the input without its leading and trailing whitespace |
| Text.StripRemovesSpace | src/leanix_survey_models.py:385-387 | what stripping removes at either end is whitespace |
| Text.StripEmptyIffBlank | src/leanix_config.py:35 | stripping leaves nothing exactly when the text is all whitespace |
| Text.StripTrimmed | src/leanix_survey_models.py:387 | stripping a trimmed text changes nothing |
| Text.StripIdempotent | src/leanix_survey_models.py:387 | stripping twice is stripping once |
| Text.NatToString | src/validate_survey.py:40 | the decimal text of a number is non-empty and all digits |
| Text.NatToStringRoundTrip | src/validate_survey.py:40 | the decimal text of a number reads back as that number |
| Text.NatToStringInjective | src/api.py:391 | different numbers have different decimal texts |
| Text.DigitPrefixUnique | src/api.py:391 | a run of digits followed by a non-digit splits a text in only one way |
| Uuids.UuidText | src/api.py:178-179 | the text of a UUID has 36 characters, hyphens at 8, 13, 18 and 23 and no colon |
| Uuids.ParseUuidText | src/api.py:178-179 | a text reads back as a UUID exactly when it is in canonical form |
| Uuids.UuidTextRoundTrip | src/api.py:178-179 | the text of a UUID reads back as that UUID |
| Uuids.ParseUuidTextRoundTrip | src/api.py:178-179 | every canonical text is the text of the UUID it denotes |
| Uuids.UuidTextInjective | src/api.py:178-179 | distinct UUIDs print differently |
| ValidationReport.LocText | src/validate_survey.py:40 | a list index in an error location prints as its decimal digits and reads back as the index |
| ValidationReport.PathParts | src/validate_survey.py:40 | one text per location element, in order |
| ValidationReport.PathText | src/validate_survey.py:40 | an empty location prints as nothing and a one-element location as that element's text |
| ValidationReport.LineTextShape | src/validate_survey.py:41 | a line is "  • ", then the location text, then ": " and the error's own message |
| ValidationReport.LineTexts | src/validate_survey.py:39-41 | one bullet line per error, in error order, each that error's own line |
| ValidationReport.ErrorMessage | src/validate_survey.py:38-42 | the message starts with the "Validation errors:" header line |
| ValidationReport.BuildErrorMessage | src/validate_survey.py:38-42 | the message grown line by line equals the header followed by each error's line ended by a newline |
| ValidationReport.LineTextNoNewline | src/validate_survey.py:41 | an error whose location and message hold no newline renders as a single line |
| ValidationReport.LineTextsNoNewline | src/validate_survey.py:39-41 | single-line errors give lines without newlines |
| ValidationReport.TerminatedSplit | src/validate_survey.py:41 | newline-terminated lines split back into those lines and a final empty piece |
| ValidationReport.MessageLines | src/validate_survey.py:38-42 | the message splits into the header, one line per error in order, and nothing after the last newline |
| ValidationReport.Classify | src/validate_survey.py:48-74 | valid exactly when the document is an object that validates, and then the survey is returned and the message is empty; malformed JSON gives "Invalid JSON: " and the decoder's text; schema errors give the error message of exactly the collected errors; anything else gives "Unexpected error: " |
| ValidationReport.ValidateJsonString | src/validate_survey.py:48-74 | the returned triple is the classification of the decoded text |
| ValidationReport.ValidateSurveyJson | src/validate_survey.py:14-45 | a readable file is classified as its content; an unreadable one is an unexpected error with the failure's text |
| ValidationReport.CountOf | src/validate_survey.py:105-108 | the count of a type is at most the number of questions and zero exactly when no question has that type |
| ValidationReport.TypeList | src/validate_survey.py:105-108 | the question types, each listed once |
| ValidationReport.TypeListMembers | src/validate_survey.py:105-108 | a type is listed exactly when some question has it |
| ValidationReport.CountQuestionTypes | src/validate_survey.py:105-108 | the tally's keys are exactly the occurring types, each count is the number of questions of that type, and the counts add up to the number of questions |
| ValidationReport.TallyStep | src/validate_survey.py:107-108 | one `get(t, 0) + 1` update extends the tally by one more question |
| LeanixConfig.UrlErrors | src/leanix_config.py:13-29 | a raising parser gives just the format error; otherwise the scheme error appears exactly when the scheme is not http or https, the format error exactly when the network location is empty, and the slash error exactly when the URL ends with "/"; messages come in check order, at most three |
| LeanixConfig.ValidateLeanixUrl | src/leanix_config.py:13-29 | the list appended step by step is the URL error list, and validity is its emptiness |
| LeanixConfig.UrlAccepted | src/leanix_config.py:19-26 | an https URL with a host and no trailing slash has no errors |
| LeanixConfig.UrlAllErrors | src/leanix_config.py:21-26 | a URL failing all three checks reports all three messages in check order |
| LeanixConfig.TokenErrors | src/leanix_config.py:32-39 | at most one message, either "cannot be empty" or "appears too short"; a token with no error has at least ten characters |
| LeanixConfig.TokenErrorsIff | src/leanix_config.py:35-38 | a blank token gets "cannot be empty", a non-blank token shorter than ten characters (counted before stripping) gets "appears too short", and every other token has no error |
| LeanixConfig.ValidateApiToken | src/leanix_config.py:32-39 | the list built by the method is the token error list, and validity is its emptiness |
| LeanixConfig.WhitespaceTokenStaysEmpty | src/leanix_config.py:35-36 | a whitespace-only token is reported empty however long it is |
| LeanixConfig.ConfigErrors | src/leanix_config.py:51-60 | the URL errors followed by the token errors; empty exactly when both are; at most four |
| LeanixConfig.LeanIXConfig.ValidateConfig | src/leanix_config.py:51-60 | the list extended by both checks is the configuration's error list, and validity is its emptiness |
| StreamlitChecks.SimpleUrlValidation | src/streamlit_app.py:96-102 | an empty or placeholder URL is "not configured"; otherwise the URL passes exactly when it starts with http:// or https://; the message is empty exactly on a pass |
| StreamlitChecks.MessagesDistinct | src/streamlit_app.py:105-120 | the token and workspace messages are non-empty, and the two workspace messages differ |
| StreamlitChecks.SimpleTokenValidation | src/streamlit_app.py:105-109 | the token passes exactly when it is not blank |
| StreamlitChecks.SimpleTokenWeakerThanServer | src/streamlit_app.py:105-109 | every token the server-side check accepts passes the page, and every non-blank token shorter than the server's minimum passes the page but gets "appears too short" from the server ("short" is one) |
| StreamlitChecks.ValidateWorkspaceIdFormat | src/streamlit_app.py:112-120 | a blank id is "cannot be empty" before any parsing; otherwise it passes exactly when it parses as a UUID |
| StreamlitChecks.BlankWorkspaceIndependentOfParser | src/streamlit_app.py:114-115 | the verdict on a blank id does not depend on the UUID parser |
| StreamlitChecks.CanonicalWorkspaceIdAccepted | src/streamlit_app.py:116-118 | a canonical UUID text is not blank, so it passes whenever the parser accepts it; the parser's verdict itself is a premise |
| StreamlitChecks.UrlIssues | src/streamlit_app.py:508-512 | at most one URL issue, present exactly when the URL check fails, and then "LeanIX URL: " followed by the check's message |
| StreamlitChecks.TokenIssues | src/streamlit_app.py:514-518 | at most one token issue, present exactly when the token check fails |
| StreamlitChecks.WorkspaceIssues | src/streamlit_app.py:520-524 | at most one workspace issue, present exactly when the workspace check fails, and then "Workspace ID: " followed by the check's message |
| StreamlitChecks.FactSheetTypeIssues | src/streamlit_app.py:526-528 | one issue exactly when no fact-sheet type is chosen |
| StreamlitChecks.RanksOfIssues | src/streamlit_app.py:508-528 | each check's messages are recognised by their prefix: URL, token and workspace issues and the fact-sheet message are told apart |
| StreamlitChecks.Issues | src/streamlit_app.py:505-528 | at most four issues, and none exactly when all four checks pass |
| StreamlitChecks.IssuesOrdered | src/streamlit_app.py:505-528 | the issues come in check order: URL, token, workspace, fact-sheet type |
| StreamlitChecks.IssuesReport | src/streamlit_app.py:508-528 | a failing URL check shows as its prefixed message, a blank token as "API Token: API token cannot be empty", a failing workspace check as its prefixed message, a missing fact-sheet type as its message, each exactly when that check fails |
| StreamlitChecks.CollectIssues | src/streamlit_app.py:505-528 | the list appended step by step is the issue list, and readiness holds exactly when it is empty |
| Api.MakeCacheKey | src/api.py:178-179 | the key is 73 characters: the workspace id's text, a colon, the poll id's text |
| Api.ParseCacheKey | src/api.py:178-179 | only a 73-character text with a colon at position 36 reads back as a key |
| Api.CacheKeyRoundTrip | src/api.py:178-179 | a key reads back as the two ids it was made from |
| Api.CacheKeyInjective | src/api.py:178-179 | different id pairs give different keys |
| Api.ValidateEndpoint | src/api.py:198-234 | valid exactly when the document is an object that validates, and then it returns the survey and details (title, question count, presence of both queries) and no error; malformed JSON gives "Invalid JSON" with the decoder's text; every other failure is "Validation failed" with the exception's text |
| Api.EndpointAgreesWithClassify | src/api.py:208-234 | the endpoint and the file validator accept the same documents, return the same survey, and report malformed JSON with the same text |
| Api.DecodeCreateRequest | src/api.py:114-120 | a create request is taken as sent, with English as the language when none is given |
| Api.DecodedRequests | src/api.py:143-146 | every request of a batch is decoded, in order |
| Api.DecodeBatchRequest | src/api.py:140-146 | every request decoded in order; fail-fast is on unless the batch sets it to false |
| Api.OmittedFailFastStopsAtFirstFailure | src/api.py:146 | a batch sent without `fail_fast` stops at its first failure: only its last result can fail, and an early stop is at a failure |
| Api.BatchTooLargeDetail | src/api.py:317-321 | the detail is "Batch size exceeds maximum of " followed by the limit in decimal |
| Api.ListRepr | src/api.py:328 | a bracketed list: "[]" for no errors, "['e']" for one |
| Api.InvalidConfigDetail | src/api.py:328 | the detail is "Invalid configuration: " followed by the error list's text |
| Api.SummaryMessage | src/api.py:391 | the summary starts with "Batch completed: " and ends with " failed" |
| Api.SummaryPartsUnique | src/api.py:391 | the two digit runs of a summary line can be read back from it |
| Api.SummaryMessageInjective | src/api.py:391 | two summaries are equal exactly when both counts are |
| Api.ItemResultFor | src/api.py:345-381 | an item's result carries its index, succeeds exactly when the poll was created, carries errors exactly when it failed, and carries the returned poll id only on success |
| Api.ResultsUpTo | src/api.py:333-381 | the first n results, each for its own item |
| Api.FailFastCount | src/api.py:369-371 | a fail-fast run handles at most every item, and none only when there are none |
| Api.FailFastPrefixSucceeded | src/api.py:369-386 | under fail-fast every handled item but the last succeeded, and a run that stops early stops at a failure |
| Api.FailFastStopsAt | src/api.py:369-371 | a failure after a run of successes ends a fail-fast run right after it |
| Api.FailFastAllCreated | src/api.py:335-386 | without failures a fail-fast run handles every item |
| Api.BatchResults | src/api.py:333-386 | at most one result per item, each the result for that item in order |
| Api.ResultsInOrder | src/api.py:335-357 | each result's index is its position and it succeeds exactly when that item was created |
| Api.NoFailFastHandlesAll | src/api.py:335-386 | without fail-fast every request gets a result |
| Api.FailFastAtMostOneFailure | src/api.py:358-386 | under fail-fast only the last result can be a failure, and an early stop is at a failure |
| Api.Succeeded | src/api.py:388 | the success count is at most the number of results and zero exactly when none succeeded |
| Api.Failed | src/api.py:389 | the failure count is at most the number of results and equals it exactly when none succeeded |
| Api.TallyAddsUp | src/api.py:388-390 | successes and failures add up to the number of results, and there are no failures exactly when every result succeeded |
| Api.CountOutcomes | src/api.py:388-389 | the two counting passes compute the successes and the failures, which add up to the results |
| Api.ProcessItems | src/api.py:333-386 | the loop's results are the batch results of the outcomes, with the fail-fast stop |
| Api.CreateSurveyBatch | src/api.py:305-399 | an empty batch is a 400; one over the size limit is a 422; an invalid configuration is a 422 naming its errors; otherwise the response holds the batch results, their tallies, success exactly when nothing failed, and the summary message |
| Api.AsWrittenOutcomes | src/api.py:337-343 | as written, every item's conversion raises the unexpected-keyword error |
| Api.NoneSucceeded | src/api.py:388-389 | results that all failed count no success and one failure each |
| Api.AsWrittenBatchNeverSucceeds | src/api.py:335-389 | as written, a non-empty batch has no success: one failure under fail-fast, otherwise one per request |
| Api.AllCreatedBatchSucceeds | src/api.py:335-390 | when every poll is created, every item is handled and counted as a success, with or without fail-fast |

## Left out

- `PollCache`: the TTL cache and its lock are left out. It is concurrency and a clock; only its key is modelled.
- `LeanIXClient`: left out entirely (the HTTP client, request building, retries and response parsing). A poll
  creation's outcome is an input of the batch model.
- The Streamlit page: its layout, widgets and session state are left out. Only its three check functions and the
  readiness summary are modelled.
- The single-survey endpoint `create_survey`, `get_survey`, the root endpoint and the HTTP-client setup are left
  out. They are calls into the remote service and the web framework.
- `main` of the validation tool: the printing, the sorted listing of the tally, and the process exit codes are
  left out. Only the tally itself is modelled.
- Type coercion: errors for a JSON value of the wrong type (a number where a text is expected, for example) are
  left out. The raw records carry each field with its intended type, present or absent.
- Date parsing of `from`, `to` and `dueDate` is left out, and so is the floating-point part of a JSON value.
  Dates are values, and JSON numbers are integers.
- JSON decoding is left out; the decoder's result is an input.
- `str()` of a validation error (used by the `/api/validate` handler) is left out. That text is a parameter.
- `urlparse` and `uuid.UUID(text)` are left out; both are parameters.
- `model_dump(by_alias=True)` serialisation is left out. The endpoint returns the validated survey itself.
- Api.ListRepr: renders Python's `repr` of a list of strings only for messages without quotes or backslashes.
  Every message the configuration checks produce is such a text.
- ValidationReport.PathText: its contract covers locations of no and of one element; a longer location is the
  `" -> "` join of its parts by definition and has no separate clause.
- Api.ProcessItems: does not build the poll request of each item before sending it. The outcome of converting
  and sending is the per-item input. See the finding below for what the conversion does as written.
- `generate_schema.py` (JSON-schema export) and the installation check are left out. They are tooling around
  the core.

## Findings

| source | as written | input that shows it | evidently intended | confidence | as-written member | corrected member |
|---|---|---|---|---|---|---|
| src/api.py:337-343 | each request is converted with `PollCreate.from_survey_input(..., transform_ids_to_uuid=True)`, but that method (src/leanix_survey_models.py:424-430) declares no such keyword, so the call raises `TypeError` before the poll is sent and the generic handler records "Unexpected error during survey creation" | any non-empty batch with a valid configuration | each item is converted and sent, and its result follows the service's answer | high; not executed | Api.AsWrittenBatchNeverSucceeds | Api.AllCreatedBatchSucceeds |
