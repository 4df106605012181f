// The connection-settings checks of src/leanix_config.py. Each validator
// grows a list of error messages step by step and reports validity as "the
// list is empty". URL parsing itself is a parameter: `urlparse` is given as
// a function from the text to its scheme and network location, or to the
// fact that it raised.

module LeanixConfig {
  import opened Text
  import opened Uuids

  /** What `urlparse` made of a URL. */
  datatype UrlParse = ParseRaised | Parsed(scheme: string, netloc: string)

  const SchemeError := "URL must use http or https"
  const FormatError := "Invalid URL format"
  const SlashError := "URL should not end with a slash"
  const EmptyTokenError := "API token cannot be empty"
  const ShortTokenError := "API token appears too short"

  /** Tokens shorter than this many characters are reported as too short. */
  const MinTokenLength := 10

  /** The position of each URL message in the order the checks run. */
  function UrlRank(m: string): nat {
    if m == SchemeError then 0 else if m == FormatError then 1 else 2
  }

  // ---------------------------------------------------------------------------
  // validate_leanix_url
  // ---------------------------------------------------------------------------

  /**
   * The URL errors: each check adds its own message independently, in the
   * order scheme, network location, trailing slash; a parser that raises
   * gives just the format error.
   */
  function UrlErrors(url: string, parsed: UrlParse): (r: seq<string>)
    ensures parsed.ParseRaised? ==> r == [FormatError]
    ensures parsed.Parsed? ==> (SchemeError in r <==> parsed.scheme != "http" && parsed.scheme != "https")
    ensures parsed.Parsed? ==> (FormatError in r <==> parsed.netloc == "")
    ensures parsed.Parsed? ==> (SlashError in r <==> EndsWith(url, "/"))
    ensures forall i | 0 <= i < |r| :: r[i] == SchemeError || r[i] == FormatError || r[i] == SlashError
    ensures forall i, j | 0 <= i < j < |r| :: UrlRank(r[i]) < UrlRank(r[j])
    ensures |r| <= 3
  {
    match parsed
    case ParseRaised => [FormatError]
    case Parsed(scheme, netloc) =>
      (if scheme == "" || scheme !in ["http", "https"] then [SchemeError] else [])
      + (if netloc == "" then [FormatError] else [])
      + (if EndsWith(url, "/") then [SlashError] else [])
  }

  /** `validate_leanix_url`. */
  method ValidateLeanixUrl(url: string, urlparse: string -> UrlParse) returns (ok: bool, errors: seq<string>)
    ensures errors == UrlErrors(url, urlparse(url))
    ensures ok <==> errors == []
  {
    errors := [];
    var result := urlparse(url);
    match result {
      case ParseRaised =>
        errors := errors + [FormatError];
      case Parsed(scheme, netloc) =>
        if scheme == "" || scheme !in ["http", "https"] {
          errors := errors + [SchemeError];
        }
        if netloc == "" {
          errors := errors + [FormatError];
        }
        if EndsWith(url, "/") {
          errors := errors + [SlashError];
        }
    }
    ok := |errors| == 0;
  }

  /** A well-formed https URL without a trailing slash passes. */
  lemma UrlAccepted(url: string, netloc: string)
    requires netloc != "" && !EndsWith(url, "/")
    ensures UrlErrors(url, Parsed("https", netloc)) == []
  {
  }

  /** A URL failing every check reports all three messages, in check order. */
  lemma UrlAllErrors(url: string, scheme: string)
    requires scheme != "http" && scheme != "https" && EndsWith(url, "/")
    ensures UrlErrors(url, Parsed(scheme, "")) == [SchemeError, FormatError, SlashError]
  {
  }

  // ---------------------------------------------------------------------------
  // validate_api_token
  // ---------------------------------------------------------------------------

  /**
   * The token errors: a token that is empty or strips to nothing is empty, a
   * shorter one than ten characters (counted before stripping) is too short;
   * at most one error is ever reported.
   */
  function TokenErrors(token: string): (r: seq<string>)
    ensures r == [] || r == [EmptyTokenError] || r == [ShortTokenError]
    ensures r == [] ==> |token| >= MinTokenLength
  {
    if token == "" || |Strip(token)| == 0 then [EmptyTokenError]
    else if |token| < MinTokenLength then [ShortTokenError]
    else []
  }

  /**
   * A blank token (empty or whitespace only) is reported empty, a non-blank
   * one shorter than ten characters too short, and any other token passes.
   */
  lemma TokenErrorsIff(token: string)
    ensures TokenErrors(token) == [EmptyTokenError] <==> IsBlank(token)
    ensures TokenErrors(token) == [ShortTokenError] <==> !IsBlank(token) && |token| < MinTokenLength
    ensures TokenErrors(token) == [] <==> !IsBlank(token) && |token| >= MinTokenLength
  {
    StripEmptyIffBlank(token);
    assert [EmptyTokenError] != [ShortTokenError] by { assert EmptyTokenError[10] != ShortTokenError[10]; }
    if IsBlank(token) {
      assert token == "" || |Strip(token)| == 0;
    } else {
      assert Strip(token) != [];
    }
  }

  /** `validate_api_token`. */
  method ValidateApiToken(token: string) returns (ok: bool, errors: seq<string>)
    ensures errors == TokenErrors(token)
    ensures ok <==> errors == []
  {
    errors := [];
    if token == "" || |Strip(token)| == 0 {
      errors := errors + [EmptyTokenError];
    } else if |token| < MinTokenLength {
      errors := errors + [ShortTokenError];
    }
    ok := |errors| == 0;
  }

  /** A whitespace-only token is reported as empty, however long it is. */
  lemma WhitespaceTokenStaysEmpty(token: string)
    requires IsBlank(token)
    ensures TokenErrors(token) == [EmptyTokenError]
  {
    TokenErrorsIff(token);
  }

  // ---------------------------------------------------------------------------
  // LeanIXConfig.validate_config
  // ---------------------------------------------------------------------------

  /** The URL errors followed by the token errors; valid exactly when both are. */
  function ConfigErrors(baseUrl: string, apiToken: string, parsed: UrlParse): (r: seq<string>)
    ensures r == [] <==> UrlErrors(baseUrl, parsed) == [] && TokenErrors(apiToken) == []
    ensures |r| == |UrlErrors(baseUrl, parsed)| + |TokenErrors(apiToken)|
    ensures r[..|UrlErrors(baseUrl, parsed)|] == UrlErrors(baseUrl, parsed)
    ensures r[|UrlErrors(baseUrl, parsed)|..] == TokenErrors(apiToken)
    ensures |r| <= 4
  {
    UrlErrors(baseUrl, parsed) + TokenErrors(apiToken)
  }

  /** The connection settings; the workspace id is already a parsed UUID. */
  datatype LeanIXConfig = LeanIXConfig(baseUrl: string, apiToken: string, workspaceId: Uuid)
  {
    /** `validate_config`: the URL check's list extended by the token check's list. */
    method ValidateConfig(urlparse: string -> UrlParse) returns (ok: bool, errors: seq<string>)
      ensures errors == ConfigErrors(baseUrl, apiToken, urlparse(baseUrl))
      ensures ok <==> errors == []
    {
      errors := [];
      var urlValid, urlErrors := ValidateLeanixUrl(baseUrl, urlparse);
      errors := errors + urlErrors;
      var _, tokenErrors := ValidateApiToken(apiToken);
      errors := errors + tokenErrors;
      ok := |errors| == 0;
    }
  }
}
