// The client-side checks of the survey-creation page (src/streamlit_app.py):
// three early-return validators, each giving a verdict and a message, and
// the readiness summary that collects their complaints in a fixed order.
// Whether a text parses as a UUID (`uuid.UUID(text)`) is a parameter.

module StreamlitChecks {
  import opened Text
  import opened Uuids
  import LeanixConfig

  /** The URL shown in the input field until the user replaces it. */
  const PlaceholderUrl := "https://your-instance.leanix.net"

  const UrlNotConfigured := "LeanIX URL not configured"
  const UrlSchemeMissing := "URL must start with http:// or https://"
  const TokenEmpty := "API token cannot be empty"
  const WorkspaceEmpty := "Workspace ID cannot be empty"
  const WorkspaceNotUuid := "Workspace ID must be a valid UUID"
  const FactSheetTypeMissing := "Fact Sheet Type not specified"

  /** None of the page's messages is empty, and the two workspace messages differ. */
  lemma MessagesDistinct()
    ensures TokenEmpty != "" && WorkspaceEmpty != "" && WorkspaceNotUuid != ""
    ensures WorkspaceEmpty != WorkspaceNotUuid
  {
    assert TokenEmpty[0] == 'A' && WorkspaceEmpty[0] == 'W' && WorkspaceNotUuid[0] == 'W';
    assert WorkspaceEmpty[13] != WorkspaceNotUuid[13];
  }

  /** A verdict and its message; the message is empty exactly when the check passed. */
  datatype Verdict = Verdict(ok: bool, message: string)

  // ---------------------------------------------------------------------------
  // simple_url_validation
  // ---------------------------------------------------------------------------

  /**
   * An empty URL or the placeholder is "not configured"; any other URL must
   * start with `http://` or `https://`.
   */
  function SimpleUrlValidation(url: string): (r: Verdict)
    ensures r.ok <==> r.message == ""
    ensures r.ok <==> url != "" && url != PlaceholderUrl && (StartsWith(url, "http://") || StartsWith(url, "https://"))
    ensures url == "" || url == PlaceholderUrl ==> r == Verdict(false, UrlNotConfigured)
    ensures url != "" && url != PlaceholderUrl && !r.ok ==> r.message == UrlSchemeMissing
  {
    if url == "" || url == PlaceholderUrl then Verdict(false, UrlNotConfigured)
    else if !(StartsWith(url, "http://") || StartsWith(url, "https://")) then Verdict(false, UrlSchemeMissing)
    else Verdict(true, "")
  }

  // ---------------------------------------------------------------------------
  // simple_token_validation
  // ---------------------------------------------------------------------------

  /** Only blankness is checked here; there is no length rule. */
  function SimpleTokenValidation(token: string): (r: Verdict)
    ensures r.ok <==> r.message == ""
    ensures r.ok <==> !IsBlank(token)
    ensures !r.ok ==> r.message == TokenEmpty
  {
    StripEmptyIffBlank(token);
    MessagesDistinct();
    if token == "" || |Strip(token)| == 0 then Verdict(false, TokenEmpty) else Verdict(true, "")
  }

  /**
   * The page's token check is weaker than the server's: whatever the server
   * accepts, the page accepts, and every non-blank token shorter than the
   * server's minimum passes the page only (`"short"` is one).
   */
  lemma SimpleTokenWeakerThanServer(token: string)
    ensures LeanixConfig.TokenErrors(token) == [] ==> SimpleTokenValidation(token).ok
    ensures !IsBlank(token) && |token| < LeanixConfig.MinTokenLength ==>
      SimpleTokenValidation(token).ok && LeanixConfig.TokenErrors(token) == [LeanixConfig.ShortTokenError]
    ensures SimpleTokenValidation("short").ok && LeanixConfig.TokenErrors("short") == [LeanixConfig.ShortTokenError]
  {
    LeanixConfig.TokenErrorsIff(token);
    var short := "short";
    assert !IsSpace(short[0]);
    assert !IsBlank(short);
    StripEmptyIffBlank(short);
    assert LeanixConfig.TokenErrors(short) == [LeanixConfig.ShortTokenError];
  }

  // ---------------------------------------------------------------------------
  // validate_workspace_id_format
  // ---------------------------------------------------------------------------

  /**
   * A blank id is reported empty before any UUID parsing is tried; otherwise
   * the id passes exactly when it parses as a UUID.
   */
  function ValidateWorkspaceIdFormat(workspaceId: string, parsesAsUuid: string -> bool): (r: Verdict)
    ensures r.ok <==> r.message == ""
    ensures IsBlank(workspaceId) ==> r == Verdict(false, WorkspaceEmpty)
    ensures !IsBlank(workspaceId) ==> (r.ok <==> parsesAsUuid(workspaceId))
    ensures !IsBlank(workspaceId) && !r.ok ==> r.message == WorkspaceNotUuid
  {
    StripEmptyIffBlank(workspaceId);
    MessagesDistinct();
    if workspaceId == "" || |Strip(workspaceId)| == 0 then Verdict(false, WorkspaceEmpty)
    else if parsesAsUuid(workspaceId) then Verdict(true, "")
    else Verdict(false, WorkspaceNotUuid)
  }

  /** The emptiness verdict does not depend on the UUID parser at all. */
  lemma BlankWorkspaceIndependentOfParser(workspaceId: string, p: string -> bool, q: string -> bool)
    ensures IsBlank(workspaceId) ==> ValidateWorkspaceIdFormat(workspaceId, p) == ValidateWorkspaceIdFormat(workspaceId, q)
  {
  }

  /**
   * The canonical text of a UUID is never blank, so a parser accepting it
   * accepts the id. The parser's verdict is a premise here: what the lemma
   * proves is only that such a text gets past the emptiness check.
   */
  lemma CanonicalWorkspaceIdAccepted(u: Uuid, parsesAsUuid: string -> bool)
    requires parsesAsUuid(UuidText(u))
    ensures ValidateWorkspaceIdFormat(UuidText(u), parsesAsUuid) == Verdict(true, "")
  {
    var t := UuidText(u);
    assert !IsSpace(t[8]);
  }

  // ---------------------------------------------------------------------------
  // The readiness summary
  // ---------------------------------------------------------------------------

  const UrlPrefix := "LeanIX URL: "
  const TokenPrefix := "API Token: "
  const WorkspacePrefix := "Workspace ID: "

  /** Which check an issue comes from, by its prefix; 4 for a text no check reports. */
  function IssueRank(issue: string): nat {
    if StartsWith(issue, UrlPrefix) then 0
    else if StartsWith(issue, TokenPrefix) then 1
    else if StartsWith(issue, WorkspacePrefix) then 2
    else if issue == FactSheetTypeMissing then 3
    else 4
  }

  /** Each check's messages carry that check's rank: the prefixes and the fact-sheet message are told apart. */
  lemma RanksOfIssues(m: string)
    ensures IssueRank(UrlPrefix + m) == 0
    ensures IssueRank(TokenPrefix + m) == 1
    ensures IssueRank(WorkspacePrefix + m) == 2
    ensures IssueRank(FactSheetTypeMissing) == 3
  {
    assert (UrlPrefix + m)[..|UrlPrefix|] == UrlPrefix;
    assert (TokenPrefix + m)[..|TokenPrefix|] == TokenPrefix;
    assert (WorkspacePrefix + m)[..|WorkspacePrefix|] == WorkspacePrefix;
    assert UrlPrefix[0] == 'L' && TokenPrefix[0] == 'A' && WorkspacePrefix[0] == 'W' && FactSheetTypeMissing[0] == 'F';
    assert (TokenPrefix + m)[0] == 'A' && (WorkspacePrefix + m)[0] == 'W';
  }

  function UrlIssues(url: string): (r: seq<string>)
    ensures |r| <= 1 && (r == [] <==> SimpleUrlValidation(url).ok)
    ensures r != [] ==> r == [UrlPrefix + SimpleUrlValidation(url).message]
    ensures forall i | 0 <= i < |r| :: IssueRank(r[i]) == 0
  {
    var v := SimpleUrlValidation(url);
    RanksOfIssues(v.message);
    if v.ok then [] else [UrlPrefix + v.message]
  }

  function TokenIssues(token: string): (r: seq<string>)
    ensures |r| <= 1 && (r == [] <==> SimpleTokenValidation(token).ok)
    ensures r != [] ==> r == [TokenPrefix + TokenEmpty]
    ensures forall i | 0 <= i < |r| :: IssueRank(r[i]) == 1
  {
    var v := SimpleTokenValidation(token);
    RanksOfIssues(v.message);
    if v.ok then [] else [TokenPrefix + v.message]
  }

  function WorkspaceIssues(workspaceId: string, parsesAsUuid: string -> bool): (r: seq<string>)
    ensures |r| <= 1 && (r == [] <==> ValidateWorkspaceIdFormat(workspaceId, parsesAsUuid).ok)
    ensures r != [] ==> r == [WorkspacePrefix + ValidateWorkspaceIdFormat(workspaceId, parsesAsUuid).message]
    ensures forall i | 0 <= i < |r| :: IssueRank(r[i]) == 2
  {
    var v := ValidateWorkspaceIdFormat(workspaceId, parsesAsUuid);
    RanksOfIssues(v.message);
    if v.ok then [] else [WorkspacePrefix + v.message]
  }

  function FactSheetTypeIssues(factSheetType: string): (r: seq<string>)
    ensures |r| <= 1 && (r == [] <==> factSheetType != "")
    ensures r != [] ==> r == [FactSheetTypeMissing]
    ensures forall i | 0 <= i < |r| :: IssueRank(r[i]) == 3
  {
    RanksOfIssues("");
    if factSheetType == "" then [FactSheetTypeMissing] else []
  }

  /**
   * The issues of the page: one per failing check, prefixed by the check's
   * name, in the order URL, token, workspace, fact-sheet type.
   */
  function Issues(url: string, token: string, workspaceId: string, factSheetType: string,
                  parsesAsUuid: string -> bool): (r: seq<string>)
    ensures |r| <= 4
    ensures r == [] <==> SimpleUrlValidation(url).ok && SimpleTokenValidation(token).ok
                         && ValidateWorkspaceIdFormat(workspaceId, parsesAsUuid).ok && factSheetType != ""
  {
    UrlIssues(url) + TokenIssues(token) + WorkspaceIssues(workspaceId, parsesAsUuid) + FactSheetTypeIssues(factSheetType)
  }

  /** The issues come in check order: URL, token, workspace, fact-sheet type. */
  lemma IssuesOrdered(url: string, token: string, workspaceId: string, factSheetType: string,
                      parsesAsUuid: string -> bool)
    ensures var r := Issues(url, token, workspaceId, factSheetType, parsesAsUuid);
      forall i, j | 0 <= i < j < |r| :: IssueRank(r[i]) < IssueRank(r[j])
  {
    RankedPartsOrdered(UrlIssues(url), TokenIssues(token), WorkspaceIssues(workspaceId, parsesAsUuid),
                       FactSheetTypeIssues(factSheetType));
  }

  /** Parts of at most one text each, of ranks 0 to 3, concatenate in strictly increasing rank. */
  lemma RankedPartsOrdered(u: seq<string>, t: seq<string>, w: seq<string>, f: seq<string>)
    requires |u| <= 1 && |t| <= 1 && |w| <= 1 && |f| <= 1
    requires forall i | 0 <= i < |u| :: IssueRank(u[i]) == 0
    requires forall i | 0 <= i < |t| :: IssueRank(t[i]) == 1
    requires forall i | 0 <= i < |w| :: IssueRank(w[i]) == 2
    requires forall i | 0 <= i < |f| :: IssueRank(f[i]) == 3
    ensures var r := u + t + w + f; forall i, j | 0 <= i < j < |r| :: IssueRank(r[i]) < IssueRank(r[j])
  {
    var r := u + t + w + f;
    assert forall i | 0 <= i < |r| ::
      IssueRank(r[i]) == (if i < |u| then 0 else if i < |u| + |t| then 1 else if i < |u| + |t| + |w| then 2 else 3);
  }

  /** A text of one rank occurs in the concatenated issues exactly when it occurs in that rank's part. */
  lemma InRankedParts(u: seq<string>, t: seq<string>, w: seq<string>, f: seq<string>, x: string)
    requires forall i | 0 <= i < |u| :: IssueRank(u[i]) == 0
    requires forall i | 0 <= i < |t| :: IssueRank(t[i]) == 1
    requires forall i | 0 <= i < |w| :: IssueRank(w[i]) == 2
    requires forall i | 0 <= i < |f| :: IssueRank(f[i]) == 3
    ensures IssueRank(x) == 0 ==> (x in u + t + w + f <==> x in u)
    ensures IssueRank(x) == 1 ==> (x in u + t + w + f <==> x in t)
    ensures IssueRank(x) == 2 ==> (x in u + t + w + f <==> x in w)
    ensures IssueRank(x) == 3 ==> (x in u + t + w + f <==> x in f)
  {
    assert x in u + t + w + f <==> x in u || x in t || x in w || x in f;
  }

  /** Each failing check shows up as its own prefixed message, and only then. */
  lemma IssuesReport(url: string, token: string, workspaceId: string, factSheetType: string,
                     parsesAsUuid: string -> bool)
    ensures var r := Issues(url, token, workspaceId, factSheetType, parsesAsUuid);
      (UrlPrefix + SimpleUrlValidation(url).message in r) <==> !SimpleUrlValidation(url).ok
    ensures var r := Issues(url, token, workspaceId, factSheetType, parsesAsUuid);
      (TokenPrefix + TokenEmpty in r) <==> IsBlank(token)
    ensures var r := Issues(url, token, workspaceId, factSheetType, parsesAsUuid);
      (WorkspacePrefix + ValidateWorkspaceIdFormat(workspaceId, parsesAsUuid).message in r)
        <==> !ValidateWorkspaceIdFormat(workspaceId, parsesAsUuid).ok
    ensures var r := Issues(url, token, workspaceId, factSheetType, parsesAsUuid);
      (FactSheetTypeMissing in r) <==> factSheetType == ""
  {
    var u := UrlIssues(url);
    var t := TokenIssues(token);
    var w := WorkspaceIssues(workspaceId, parsesAsUuid);
    var f := FactSheetTypeIssues(factSheetType);
    RanksOfIssues(SimpleUrlValidation(url).message);
    InRankedParts(u, t, w, f, UrlPrefix + SimpleUrlValidation(url).message);
    RanksOfIssues(TokenEmpty);
    InRankedParts(u, t, w, f, TokenPrefix + TokenEmpty);
    RanksOfIssues(ValidateWorkspaceIdFormat(workspaceId, parsesAsUuid).message);
    InRankedParts(u, t, w, f, WorkspacePrefix + ValidateWorkspaceIdFormat(workspaceId, parsesAsUuid).message);
    InRankedParts(u, t, w, f, FactSheetTypeMissing);
  }

  /** The summary as the page builds it: `issues` appended to and `ready_to_create` cleared per failing check. */
  method CollectIssues(url: string, token: string, workspaceId: string, factSheetType: string,
                       parsesAsUuid: string -> bool) returns (readyToCreate: bool, issues: seq<string>)
    ensures issues == Issues(url, token, workspaceId, factSheetType, parsesAsUuid)
    ensures readyToCreate <==> issues == []
  {
    readyToCreate := true;
    issues := [];
    var urlCheck := SimpleUrlValidation(url);
    if !urlCheck.ok {
      issues := issues + [UrlPrefix + urlCheck.message];
      readyToCreate := false;
    }
    assert issues == UrlIssues(url);
    var tokenCheck := SimpleTokenValidation(token);
    if !tokenCheck.ok {
      issues := issues + [TokenPrefix + tokenCheck.message];
      readyToCreate := false;
    }
    assert issues == UrlIssues(url) + TokenIssues(token);
    var wsCheck := ValidateWorkspaceIdFormat(workspaceId, parsesAsUuid);
    if !wsCheck.ok {
      issues := issues + [WorkspacePrefix + wsCheck.message];
      readyToCreate := false;
    }
    assert issues == UrlIssues(url) + TokenIssues(token) + WorkspaceIssues(workspaceId, parsesAsUuid);
    assert readyToCreate <==> issues == [];
    if factSheetType == "" {
      issues := issues + [FactSheetTypeMissing];
      readyToCreate := false;
    }
  }
}
