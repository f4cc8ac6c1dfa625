/**
 * The connection step (components/StepConfig.tsx): a form over the forum settings. Each edit
 * replaces one setting, coercing the two numeric ones with `parseInt`, and throws away the
 * outcome of an earlier connection test; the test itself runs only when the address, the key
 * and the category are filled in, and its outcome decides the status, the message, the
 * special error code and the category name the form shows.
 */
module StepConfig {
  import opened Wrappers
  import opened Text
  import opened Types
  import opened XfService

  /** The settings an input can be named after. */
  datatype ConfigField = BaseUrl | ApiKey | CategoryId | UserId | AllowCorsProxy | ProxyUrl

  /** What a change event carries: a text-like input (text, url, password, number) hands on
      its value, a checkbox its checked state. */
  datatype ChangeEvent =
    | TextInput(name: ConfigField, value: string)
    | CheckboxInput(name: ConfigField, checked: bool)

  /** The value of one setting, whatever its type. */
  datatype SettingValue = Str(s: string) | Num(n: int) | Flag(b: bool)

  function ValueOf(c: XFConfig, f: ConfigField): SettingValue {
    match f
    case BaseUrl => Str(c.baseUrl)
    case ApiKey => Str(c.apiKey)
    case CategoryId => Num(c.categoryId)
    case UserId => Num(c.userId)
    case AllowCorsProxy => Flag(c.allowCorsProxy)
    case ProxyUrl => Str(c.proxyUrl)
  }

  /** The value an event stores: the checked state of a checkbox, `parseInt(value) || 0` for
      the two numeric settings, the raw value otherwise. */
  function NewValue(e: ChangeEvent): SettingValue {
    if e.CheckboxInput? then Flag(e.checked)
    else if e.name == CategoryId || e.name == UserId then Num(ParseIntOrZero(e.value))
    else Str(e.value)
  }

  /** An event whose value has the type of the setting it names: a checkbox for the proxy
      switch, a text-like input for everything else. The form's inputs are all of this kind. */
  predicate WellTyped(e: ChangeEvent) {
    if e.name == AllowCorsProxy then e.CheckboxInput? else e.TextInput?
  }

  /** The value fits the setting's type. */
  predicate Fits(f: ConfigField, v: SettingValue) {
    match f
    case AllowCorsProxy => v.Flag?
    case CategoryId => v.Num?
    case UserId => v.Num?
    case _ => v.Str?
  }

  /** `{ ...config, [f]: v }`. */
  function Set(c: XFConfig, f: ConfigField, v: SettingValue): (r: XFConfig)
    requires Fits(f, v)
    ensures ValueOf(r, f) == v
    ensures forall g :: g != f ==> ValueOf(r, g) == ValueOf(c, g)
  {
    match f
    case BaseUrl => c.(baseUrl := v.s)
    case ApiKey => c.(apiKey := v.s)
    case CategoryId => c.(categoryId := v.n)
    case UserId => c.(userId := v.n)
    case AllowCorsProxy => c.(allowCorsProxy := v.b)
    case ProxyUrl => c.(proxyUrl := v.s)
  }

  /** `handleChange`'s update: the named setting takes the event's value and every other
      setting is copied. */
  function Edited(c: XFConfig, e: ChangeEvent): (r: XFConfig)
    requires WellTyped(e)
    ensures ValueOf(r, e.name) == NewValue(e)
    ensures forall f :: f != e.name ==> ValueOf(r, f) == ValueOf(c, f)
  {
    Set(c, e.name, NewValue(e))
  }

  /** A number field showing the numeral of `n` stores `n`: the coercion reads back what the
      field displays. */
  lemma EditNumberReadsBack(c: XFConfig, field: ConfigField, n: int)
    requires field == CategoryId || field == UserId
    ensures ValueOf(Edited(c, TextInput(field, IntToString(n))), field) == Num(n)
  {
    ParseIntToString(n);
  }

  /** Typing something that is not a number, or a number that is not positive, into the
      category or the user field makes the settings invalid. */
  lemma EditNumberValidity(c: XFConfig, field: ConfigField, value: string)
    requires field == CategoryId || field == UserId
    requires ParseInt(value).None? || ParseInt(value).value <= 0
    ensures !IsValid(Edited(c, TextInput(field, value)))
  {
    var e := TextInput(field, value);
    assert ValueOf(Edited(c, e), field) == Num(ParseIntOrZero(value));
  }

  /** `/^https?:\/\//i` compares ASCII letters without regard to case and nothing else. */
  function FoldChar(c: char): char {
    if 'A' <= c <= 'Z' then ((c as int) + 32) as char else c
  }

  function Fold(s: string): (r: string)
    ensures |r| == |s|
  {
    seq(|s|, k requires 0 <= k < |s| => FoldChar(s[k]))
  }

  /** The address begins with `http://` or `https://`, in any case. */
  predicate HasHttpScheme(url: string) {
    StartsWith(Fold(url), "http://") || StartsWith(Fold(url), "https://")
  }

  /** `isUrlFormatValid`: an empty address is not flagged; any other must have a scheme. */
  predicate IsUrlFormatValid(url: string) {
    url == [] || HasHttpScheme(url)
  }

  /** Folding the case does not change the verdict, and a valid address stays valid whatever
      is written after it. */
  lemma UrlFormatProperties(url: string, rest: string)
    ensures IsUrlFormatValid(Fold(url)) == IsUrlFormatValid(url)
    ensures url != [] && IsUrlFormatValid(url) ==> IsUrlFormatValid(url + rest)
  {
    assert Fold(Fold(url)) == Fold(url);
    if url != [] && IsUrlFormatValid(url) {
      var w := url + rest;
      assert Fold(w)[..|url|] == Fold(url);
      assert Fold(w)[..7] == Fold(url)[..7];
      if !StartsWith(Fold(url), "http://") {
        assert Fold(w)[..8] == Fold(url)[..8];
      }
    }
  }

  /** A valid address is at least as long as `http://`, and begins with `h` or `H`. */
  lemma UrlFormatShape(url: string)
    requires url != [] && IsUrlFormatValid(url)
    ensures |url| >= 7 && (url[0] == 'h' || url[0] == 'H')
  {
    assert Fold(url)[0] == 'h';
  }

  /** `isValid`: the address is filled in and well formed, the key is filled in, and the
      category and the user are positive. */
  predicate IsValid(c: XFConfig) {
    |c.baseUrl| > 0 && IsUrlFormatValid(c.baseUrl) && |c.apiKey| > 0 && c.categoryId > 0 && c.userId > 0
  }

  /** The condition `handleTest` checks before it does anything. */
  predicate TestAllowed(c: XFConfig) {
    c.baseUrl != [] && c.apiKey != [] && c.categoryId != 0
  }

  /** Settings good enough to go on are good enough to test; the converse fails, since the
      test does not look at the address's scheme, the sign of the category, or the user. */
  lemma ValidAllowsTest(c: XFConfig)
    ensures IsValid(c) ==> TestAllowed(c)
    ensures TestAllowed(c.(categoryId := -1)) && !IsValid(c.(categoryId := -1)) <== TestAllowed(c)
  {
  }

  datatype TestStatus = Idle | Testing | Success | Error

  /** The Test and Next buttons are enabled only for valid settings and while no test runs. */
  predicate ButtonsEnabled(c: XFConfig, status: TestStatus) {
    IsValid(c) && status != Testing
  }

  /** No button can start a second test or leave the step while a test runs, and an enabled
      Test button always gets past `handleTest`'s own check. */
  lemma ButtonsGuard(c: XFConfig, status: TestStatus)
    ensures !ButtonsEnabled(c, Testing)
    ensures ButtonsEnabled(c, status) ==> TestAllowed(c) && status != Testing
  {
    ValidAllowsTest(c);
  }

  const ConnectingMessage := "Đang kết nối..."

  /** The error code a failed test leaves behind: only the two special messages have one. */
  function ErrorCodeOf(result: TestResult): (code: string)
    ensures code != "" <==> !result.success && (result.message == "PROXY_BLOCKED" || result.message == "CORS_ERROR")
    ensures code != "" ==> code == result.message
  {
    if result.success then ""
    else if result.message == "PROXY_BLOCKED" then "PROXY_BLOCKED"
    else if result.message == "CORS_ERROR" then "CORS_ERROR"
    else ""
  }

  /** The category name a test leaves behind: the one a success found, when it is not empty. */
  function CategoryNameOf(result: TestResult): (name: string)
    ensures name != "" ==> result.success && result.categoryName == Some(name)
    ensures result.success && result.categoryName.Some? ==> name == result.categoryName.value
  {
    if result.success && result.categoryName.Some? then result.categoryName.value else ""
  }

  /** A test through the proxy that the proxy turned away, or one whose request got no answer,
      leaves the error code the form reacts to; a test that succeeded leaves none. */
  lemma TestErrorCodes(c: XFConfig, pageIsHttps: bool, outcome: FetchOutcome)
    ensures c.allowCorsProxy && outcome.Responded? && (outcome.status == 403 || outcome.status == 503 || outcome.status == 429) ==>
              ErrorCodeOf(TestConnection(c, pageIsHttps, outcome)) == "PROXY_BLOCKED"
    ensures outcome == Threw("Failed to fetch") && !MixedContentBlocked(c, pageIsHttps) ==>
              ErrorCodeOf(TestConnection(c, pageIsHttps, outcome))
                == if c.allowCorsProxy then "PROXY_BLOCKED" else "CORS_ERROR"
    ensures TestConnection(c, pageIsHttps, outcome).success ==> ErrorCodeOf(TestConnection(c, pageIsHttps, outcome)) == ""
  {
    TestConnectionBlocked(c, pageIsHttps, outcome);
  }

  /** The form's state: the settings (owned by the wizard and handed back through `onChange`)
      and the four pieces of test feedback. */
  class ConfigForm {
    var config: XFConfig
    var testStatus: TestStatus
    var testMessage: string
    var errorCode: string
    var categoryName: string

    /** The feedback is cleared exactly when the form is idle. */
    predicate Valid()
      reads this
    {
      testStatus == Idle ==> testMessage == "" && errorCode == "" && categoryName == ""
    }

    constructor(config: XFConfig)
      ensures Valid()
      ensures this.config == config && testStatus == Idle
    {
      this.config := config;
      testStatus := Idle;
      testMessage := "";
      errorCode := "";
      categoryName := "";
    }

    /** `handleChange`: one setting is replaced, and an earlier test's feedback is dropped. */
    method HandleChange(e: ChangeEvent)
      requires Valid() && WellTyped(e)
      modifies this
      ensures Valid()
      ensures config == Edited(old(config), e)
      ensures testStatus == Idle && testMessage == "" && errorCode == "" && categoryName == ""
    {
      config := Edited(config, e);
      if testStatus != Idle {
        testStatus := Idle;
        testMessage := "";
        errorCode := "";
        categoryName := "";
      }
    }

    /** The part of `handleTest` before the request: nothing happens when a required setting
      is missing; otherwise the form shows that it is connecting, with no code or name. */
    method StartTest() returns (started: bool)
      requires Valid()
      modifies this
      ensures Valid() && config == old(config)
      ensures started == TestAllowed(config)
      ensures !started ==> testStatus == old(testStatus) && testMessage == old(testMessage)
                           && errorCode == old(errorCode) && categoryName == old(categoryName)
      ensures started ==> testStatus == Testing && testMessage == ConnectingMessage
                          && errorCode == "" && categoryName == ""
    {
      if !(config.baseUrl != [] && config.apiKey != [] && config.categoryId != 0) {
        return false;
      }
      testStatus := Testing;
      testMessage := ConnectingMessage;
      errorCode := "";
      categoryName := "";
      started := true;
    }

    /** The part of `handleTest` after the request: the status follows the result, the
      message is the result's, a success with a category name shows it and a failure with a
      special message records it as the error code. */
    method CompleteTest(result: TestResult)
      requires Valid()
      modifies this
      ensures Valid() && config == old(config)
      ensures testStatus == (if result.success then Success else Error)
      ensures testMessage == result.message
      ensures errorCode == (if ErrorCodeOf(result) != "" then ErrorCodeOf(result) else old(errorCode))
      ensures categoryName == (if CategoryNameOf(result) != "" then CategoryNameOf(result) else old(categoryName))
    {
      if result.success {
        testStatus := Success;
        testMessage := result.message;
        if result.categoryName.Some? && result.categoryName.value != "" {
          categoryName := result.categoryName.value;
        }
      } else {
        testStatus := Error;
        testMessage := result.message;
        if result.message == "PROXY_BLOCKED" {
          errorCode := "PROXY_BLOCKED";
        }
        if result.message == "CORS_ERROR" {
          errorCode := "CORS_ERROR";
        }
      }
    }

    /** `handleTest` run to the end with no edit in between: `outcome` is what the request
      produced. */
    method HandleTest(pageIsHttps: bool, outcome: FetchOutcome)
      requires Valid()
      modifies this
      ensures Valid() && config == old(config)
      ensures !TestAllowed(config) ==>
                testStatus == old(testStatus) && testMessage == old(testMessage)
                && errorCode == old(errorCode) && categoryName == old(categoryName)
      ensures TestAllowed(config) ==>
                var r := TestConnection(config, pageIsHttps, outcome);
                && testStatus == (if r.success then Success else Error)
                && testMessage == r.message
                && errorCode == ErrorCodeOf(r)
                && categoryName == CategoryNameOf(r)
    {
      var started := StartTest();
      if started {
        var result := TestConnection(config, pageIsHttps, outcome);
        CompleteTest(result);
      }
    }
  }

  /** The CORS banner (shown for the `CORS_ERROR` code) and the status box (shown after a
      test that left no code) as the form renders them. */
  predicate FeedbackShown(status: TestStatus, errorCode: string) {
    errorCode == "CORS_ERROR" || (status != Idle && errorCode == "")
  }

  /** A test through the proxy that the proxy turned away leaves the `PROXY_BLOCKED` code;
      with it, neither the banner nor the status box is shown, so the form shows nothing. */
  lemma ProxyBlockedShowsNothing(c: XFConfig, pageIsHttps: bool, body: Body)
    requires c.allowCorsProxy && TestAllowed(c)
    ensures var r := TestConnection(c, pageIsHttps, Responded(403, body));
            !FeedbackShown(if r.success then Success else Error, ErrorCodeOf(r))
  {
    TestConnectionBlocked(c, pageIsHttps, Responded(403, body));
  }

  /** What the form evidently means to render: the CORS banner for its code, and the status
      box for every other test outcome, including `PROXY_BLOCKED`. */
  predicate IntendedFeedbackShown(status: TestStatus, errorCode: string) {
    errorCode == "CORS_ERROR" || (status != Idle && errorCode != "CORS_ERROR")
  }

  /** With that rendering, every finished or running test shows something, and an idle form
      with no code shows nothing. */
  lemma IntendedFeedbackAlways(c: XFConfig, pageIsHttps: bool, outcome: FetchOutcome)
    ensures var r := TestConnection(c, pageIsHttps, outcome);
            IntendedFeedbackShown(if r.success then Success else Error, ErrorCodeOf(r))
    ensures IntendedFeedbackShown(Testing, "")
    ensures !IntendedFeedbackShown(Idle, "")
  {
  }
}
