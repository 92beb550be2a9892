/** The Yahoo Auctions agent: the proxy check that runs once before the
    login retry machine, the phone-and-SMS login, the login-state cascade,
    the seller page fetch with its own retries, and the selector fallbacks
    that read the seller name and the product titles. What a page shows or
    does is given as observations. */
module YahooScraper {
  import opened Wrappers
  import opened Text
  import opened Browser
  import opened Retry
  import opened SessionManager
  import opened Agents

  const ServiceName: string := "yahoo"
  const DefaultLoginUrl: string := "https://login.yahoo.co.jp/config/login"
  const DefaultAuctionsUrl: string := "https://auctions.yahoo.co.jp/"
  const DefaultMaxProducts: int := 12
  const ExpectedIp: string := "164.70.96.2"
  const UnknownSeller: string := "不明なセラー"

  // ---------------------------------------------------------------------
  // Proxy configuration

  const RequiredProxyKeys: set<string> := {"url", "username", "password"}

  /** `required_keys - set(proxy_config.keys())`. */
  function MissingProxyKeys(proxyConfig: map<string, string>): set<string> {
    RequiredProxyKeys - proxyConfig.Keys
  }

  /** The `ValueError` of the constructor. Python prints the missing keys
      as a set, whose order is not fixed, so the model keeps the set. */
  datatype ProxyConfigError = MissingKeys(keys: set<string>)

  /** The constructor's check: an error exactly when one of `url`,
      `username`, `password` is absent, naming exactly the absent ones. */
  lemma MissingProxyKeysIff(proxyConfig: map<string, string>)
    ensures MissingProxyKeys(proxyConfig) == {}
            <==> "url" in proxyConfig && "username" in proxyConfig && "password" in proxyConfig
    ensures forall k :: k in MissingProxyKeys(proxyConfig) <==> k in RequiredProxyKeys && k !in proxyConfig
  {
    if "url" !in proxyConfig {
      assert "url" in MissingProxyKeys(proxyConfig);
    } else if "username" !in proxyConfig {
      assert "username" in MissingProxyKeys(proxyConfig);
    } else if "password" !in proxyConfig {
      assert "password" in MissingProxyKeys(proxyConfig);
    }
  }

  // ---------------------------------------------------------------------
  // Proxy check

  /** What `_verify_proxy_connection` meets: whether starting the
      temporary browser with the proxy completes, whether opening Google
      completes, and how the IP lookup ends. */
  datatype ProxyCheck = ProxyCheck(launch: Step, google: Step, ip: IpLookup)

  /** The IP page: opening it or reading its body raises, or the body text
      (`None` without a body). */
  datatype IpLookup = IpRaises | IpText(text: Option<string>)

  /** A `ProxyAuthenticationError`. */
  datatype ProxyError = ProxyError(message: string)

  const ProxyAuthMessage: string :=
    "Proxy authentication failed. Please check PROXY_USERNAME and PROXY_PASSWORD in .env"

  const VerificationFailedPrefix: string := "Proxy verification failed: "
  const IpMismatchPrefix: string := "Proxy IP verification failed. IP address mismatch! Expected: "
  const GotInfix: string := ", Got: "

  function ProxyVerificationFailed(detail: string): string {
    VerificationFailedPrefix + detail
  }

  function IpMismatchMessage(currentIp: string): string {
    IpMismatchPrefix + ExpectedIp + GotInfix + currentIp
  }

  /** `ip_text.strip() if ip_text else ""`. */
  function CurrentIp(text: Option<string>): string {
    if text.Some? && text.value != "" then Strip(text.value) else ""
  }

  /** `_verify_proxy_connection`. The temporary browser is closed in
      `finally`, where every exception is swallowed, so closing it has no
      effect on the outcome. */
  function VerifyProxy(check: ProxyCheck): Outcome<ProxyError> {
    if check.launch.Raises? then Fail(ProxyError(ProxyVerificationFailed(check.launch.error.message)))
    else if check.google.Raises? then Fail(ProxyError(ProxyAuthMessage))
    else match check.ip
      case IpRaises => Pass
      case IpText(text) =>
        if CurrentIp(text) != ExpectedIp then Fail(ProxyError(IpMismatchMessage(CurrentIp(text))))
        else Pass
  }

  /** The proxy check passes exactly when the browser starts, Google opens,
      and the IP page either fails to load (which is only logged) or shows
      the expected address once stripped. A shown address that differs is
      reported in the message. */
  lemma VerifyProxyIff(check: ProxyCheck)
    ensures VerifyProxy(check).Pass?
            <==> && check.launch.Completes? && check.google.Completes?
                 && (check.ip.IpRaises? || CurrentIp(check.ip.text) == ExpectedIp)
    ensures check.launch.Completes? && check.google.Completes? && check.ip.IpText?
            && CurrentIp(check.ip.text) != ExpectedIp
            ==> VerifyProxy(check) == Fail(ProxyError(IpMismatchMessage(CurrentIp(check.ip.text))))
  {
  }

  /** Surrounding whitespace around the expected address is accepted; an
      empty body is a mismatch. */
  lemma IpCheckStrips(pad: string)
    requires AllSpace(pad)
    ensures CurrentIp(Some(pad + ExpectedIp + pad)) == ExpectedIp
    ensures CurrentIp(Some("")) != ExpectedIp && CurrentIp(None) != ExpectedIp
  {
    var ip := ExpectedIp;
    assert ip[0] == '1' && ip[|ip| - 1] == '2';
    StripPadded(pad, ip, pad);
    assert pad + ip + pad != "";
  }

  // ---------------------------------------------------------------------
  // SMS code

  /** What `input` gives within the three minutes, or the wait timing
      out. */
  datatype SmsInput = Entered(text: string) | InputTimedOut

  const SmsEmptyMessage: string := "SMS code cannot be empty"
  const SmsTimeoutMessage: string := "SMS code input timeout. Please try again."

  /** The reference for `_prompt_for_sms_code`. */
  function SmsCode(input: SmsInput): Result<string, Raised> {
    match input
    case InputTimedOut => Err(Timeout(SmsTimeoutMessage))
    case Entered(text) => if Strip(text) == [] then Err(Failure(SmsEmptyMessage)) else Ok(Strip(text))
  }

  /** `_prompt_for_sms_code`. */
  method PromptForSmsCode(input: SmsInput) returns (r: Result<string, Raised>)
    ensures r == SmsCode(input)
  {
    if input.InputTimedOut? {
      return Err(Timeout(SmsTimeoutMessage));
    }
    var smsCode := input.text;
    if Strip(smsCode) == [] {
      return Err(Failure(SmsEmptyMessage));
    }
    r := Ok(Strip(smsCode));
  }

  /** The code is the typed text stripped, neither empty nor with
      whitespace at its ends; a blank entry raises `ValueError` and a
      timeout raises `TimeoutError`. */
  lemma SmsCodeCases(input: SmsInput)
    ensures input.InputTimedOut? ==> SmsCode(input) == Err(Timeout(SmsTimeoutMessage))
    ensures input.Entered? && AllSpace(input.text) ==> SmsCode(input) == Err(Failure(SmsEmptyMessage))
    ensures input.Entered? && !AllSpace(input.text)
            ==> var code := SmsCode(input);
                code.Ok? && code.value == Strip(input.text) && code.value != []
                && !IsSpace(code.value[0]) && !IsSpace(code.value[|code.value| - 1])
  {
    if input.Entered? {
    }
  }

  /** A code that was accepted is accepted again unchanged when typed as
      it was returned. */
  lemma SmsCodeStable(input: SmsInput)
    ensures SmsCode(input).Ok? ==> SmsCode(Entered(SmsCode(input).value)) == SmsCode(input)
  {
    if input.Entered? {
      StripIdempotent(input.text);
    }
  }

  /** The SMS code form: the lookup for each candidate input field, whether
      filling the code completes, whether the `ログイン` button is found and
      clicked, whether clicking a submit button completes, whether pressing
      Enter completes, and whether waiting for the page to settle
      completes. */
  datatype SmsForm = SmsForm(
    codeInput: string -> Probe,
    fill: Step,
    roleButton: Probe,
    submitClick: Step,
    enterPress: Step,
    settle: Step)

  const SmsCodeSelectors: seq<string> :=
    ["input[name=\"code\"]", "input[type=\"text\"]", "input[placeholder*=\"認証\"]", "input[placeholder*=\"コード\"]"]

  const CodeInputMissingMessage: string := "SMS code input field not found"
  const LoginClickFailedMessage: string := "Failed to click login button"

  datatype ClickMethod = ByRole | BySubmit | ByEnter

  /** What `_fill_sms_code` did when it completes: the field it filled,
      the code it filled in, and how it submitted. */
  datatype CodeSubmission = CodeSubmission(selector: string, code: string, clickedBy: ClickMethod)

  /** Index of the first selector from `i` on whose lookup finds a field;
      `|selectors|` when none does. */
  function FirstFound(probe: string -> Probe, selectors: seq<string>, i: nat): (k: nat)
    requires i <= |selectors|
    ensures i <= k <= |selectors|
    ensures k < |selectors| ==> probe(selectors[k]) == Found
    ensures forall j :: i <= j < k ==> probe(selectors[j]) != Found
    decreases |selectors| - i
  {
    if i == |selectors| then i
    else if probe(selectors[i]) == Found then i
    else FirstFound(probe, selectors, i + 1)
  }

  /** The submission chain: by role, else the submit button, else Enter. */
  function ClickChain(form: SmsForm): Option<ClickMethod> {
    if form.roleButton == Found then Some(ByRole)
    else if form.submitClick.Completes? then Some(BySubmit)
    else if form.enterPress.Completes? then Some(ByEnter)
    else None
  }

  /** The reference for `_fill_sms_code`. */
  function SmsSubmission(form: SmsForm, code: string): Result<CodeSubmission, Raised> {
    var k := FirstFound(form.codeInput, SmsCodeSelectors, 0);
    if k == |SmsCodeSelectors| then Err(Failure(CodeInputMissingMessage))
    else if form.fill.Raises? then Err(form.fill.error)
    else match ClickChain(form)
      case None => Err(Failure(LoginClickFailedMessage))
      case Some(how) =>
        if form.settle.Raises? then Err(form.settle.error)
        else Ok(CodeSubmission(SmsCodeSelectors[k], code, how))
  }

  /** `_fill_sms_code`: tries the field selectors in order and fills the
      first found; then tries the three ways to submit in order and stops at
      the first that works. */
  method FillSmsCode(form: SmsForm, smsCode: string) returns (r: Result<CodeSubmission, Raised>)
    ensures r == SmsSubmission(form, smsCode)
  {
    var codeInput := false;
    var i := 0;
    while i < |SmsCodeSelectors|
      invariant i <= |SmsCodeSelectors|
      invariant FirstFound(form.codeInput, SmsCodeSelectors, 0) == FirstFound(form.codeInput, SmsCodeSelectors, i)
      invariant !codeInput
    {
      if form.codeInput(SmsCodeSelectors[i]) == Found {
        codeInput := true;
        break;
      }
      i := i + 1;
    }
    if !codeInput {
      return Err(Failure(CodeInputMissingMessage));
    }
    var selector := SmsCodeSelectors[i];
    if form.fill.Raises? {
      return Err(form.fill.error);
    }
    var loginClicked := false;
    var how := ByRole;
    if form.roleButton == Found {
      loginClicked := true;
    }
    if !loginClicked && form.submitClick.Completes? {
      loginClicked, how := true, BySubmit;
    }
    if !loginClicked && form.enterPress.Completes? {
      loginClicked, how := true, ByEnter;
    }
    if !loginClicked {
      return Err(Failure(LoginClickFailedMessage));
    }
    if form.settle.Raises? {
      return Err(form.settle.error);
    }
    r := Ok(CodeSubmission(selector, smsCode, how));
  }

  /** The form is filled at the first field found, and submitted by the
      first way in the chain that works: any earlier field was not found,
      any earlier way failed. */
  lemma SmsSubmissionFirstWorking(form: SmsForm, code: string)
    ensures var r := SmsSubmission(form, code);
            r.Ok? ==>
              && r.value.code == code
              && (exists k :: 0 <= k < |SmsCodeSelectors| && r.value.selector == SmsCodeSelectors[k]
                               && form.codeInput(SmsCodeSelectors[k]) == Found
                               && forall j :: 0 <= j < k ==> form.codeInput(SmsCodeSelectors[j]) != Found)
              && (r.value.clickedBy == ByRole <==> form.roleButton == Found)
              && (r.value.clickedBy == BySubmit <==> form.roleButton != Found && form.submitClick.Completes?)
              && (r.value.clickedBy == ByEnter
                  <==> form.roleButton != Found && form.submitClick.Raises? && form.enterPress.Completes?)
    ensures var r := SmsSubmission(form, code);
            r.Ok? <==> && FirstFound(form.codeInput, SmsCodeSelectors, 0) < |SmsCodeSelectors|
                       && form.fill.Completes? && ClickChain(form).Some? && form.settle.Completes?
  {
    var k := FirstFound(form.codeInput, SmsCodeSelectors, 0);
    if SmsSubmission(form, code).Ok? {
      assert SmsSubmission(form, code).value.selector == SmsCodeSelectors[k];
    }
  }

  // ---------------------------------------------------------------------
  // Login state

  /** The page `is_logged_in` looks at: its URL and what each
      `query_selector` gives. */
  datatype PageView = PageView(url: string, query: string -> Probe)

  const LoginHost: string := "login.yahoo.co.jp"
  const YahooDomain: string := "yahoo.co.jp"
  const LogoutSelector: string := "a[href*=\"logout\"]"
  const UserMenuSelectors: seq<string> := ["a[href*=\"myauctions\"]", "div[class*=\"user\"]", "a[href*=\"account\"]"]
  const LoginFormSelector: string := "input[name=\"login\"]"

  /** The logged-in indicators in the order they are looked up. */
  function Indicators(): seq<string> {
    [LogoutSelector] + UserMenuSelectors
  }

  /** The first lookup among `selectors` that decides: one that finds an
      element (logged in) or one that raises (the exception makes
      `is_logged_in` return false); `None` when none decides. */
  function FirstIndicator(query: string -> Probe, selectors: seq<string>): Option<bool> {
    if selectors == [] then None
    else match query(selectors[0])
      case Found => Some(true)
      case ProbeRaises => Some(false)
      case NotFound => FirstIndicator(query, selectors[1..])
  }

  /** `is_logged_in` as a decision cascade. */
  function LoggedInVerdict(hasPage: bool, view: PageView): bool {
    if !hasPage then false
    else if Contains(view.url, LoginHost) then false
    else match FirstIndicator(view.query, Indicators())
      case Some(decided) => decided
      case None => Contains(view.url, YahooDomain) && view.query(LoginFormSelector) == NotFound
  }

  /** Without a failing lookup, the first indicator decides exactly when
      some indicator is found. */
  lemma {:induction false} FirstIndicatorFound(query: string -> Probe, selectors: seq<string>)
    requires forall j :: 0 <= j < |selectors| ==> query(selectors[j]) != ProbeRaises
    ensures FirstIndicator(query, selectors).Some? ==> FirstIndicator(query, selectors) == Some(true)
    ensures FirstIndicator(query, selectors).Some?
            <==> exists j :: 0 <= j < |selectors| && query(selectors[j]) == Found
  {
    if selectors != [] {
      assert query(selectors[0]) != ProbeRaises;
      FirstIndicatorFound(query, selectors[1..]);
      if query(selectors[0]) == NotFound {
        if exists j :: 0 <= j < |selectors| && query(selectors[j]) == Found {
          var j :| 0 <= j < |selectors| && query(selectors[j]) == Found;
          assert selectors[1..][j - 1] == selectors[j];
        }
        forall j | 0 <= j < |selectors| - 1 && query(selectors[1..][j]) == Found
          ensures exists j' :: 0 <= j' < |selectors| && query(selectors[j']) == Found
        {
          assert selectors[1..][j] == selectors[j + 1];
        }
      }
    }
  }

  /** The cascade when no lookup fails: logged out on the login host;
      otherwise logged in exactly when the logout link or a user-menu
      element is found, or the page is on a Yahoo domain without a login
      form. */
  lemma LoggedInVerdictIff(hasPage: bool, view: PageView)
    requires forall j :: 0 <= j < |Indicators()| ==> view.query(Indicators()[j]) != ProbeRaises
    ensures LoggedInVerdict(hasPage, view)
            <==> && hasPage && !Contains(view.url, LoginHost)
                 && (|| (exists j :: 0 <= j < |Indicators()| && view.query(Indicators()[j]) == Found)
                     || (Contains(view.url, YahooDomain) && view.query(LoginFormSelector) == NotFound))
  {
    FirstIndicatorFound(view.query, Indicators());
  }

  /** On the login host, and without a page, the agent is never logged
      in; a failing logout-link lookup means logged out whatever else the
      page holds. */
  lemma LoggedOutCases(view: PageView)
    ensures !LoggedInVerdict(false, view)
    ensures Contains(view.url, LoginHost) ==> !LoggedInVerdict(true, view)
    ensures !Contains(view.url, LoginHost) && view.query(LogoutSelector) == ProbeRaises
            ==> !LoggedInVerdict(true, view)
    ensures !Contains(view.url, LoginHost) && view.query(LogoutSelector) == Found
            ==> LoggedInVerdict(true, view)
  {
    assert Indicators()[0] == LogoutSelector;
  }

  /** The first lookup that does not find nothing decides: a raise means
      logged out, a find logged in. */
  lemma {:induction false} FirstIndicatorDecides(query: string -> Probe, selectors: seq<string>, k: nat)
    requires k < |selectors|
    requires forall j :: 0 <= j < k ==> query(selectors[j]) == NotFound
    ensures query(selectors[k]) == ProbeRaises ==> FirstIndicator(query, selectors) == Some(false)
    ensures query(selectors[k]) == Found ==> FirstIndicator(query, selectors) == Some(true)
  {
    if k > 0 {
      assert query(selectors[0]) == NotFound;
      forall j | 0 <= j < k - 1 ensures query(selectors[1..][j]) == NotFound {
        assert selectors[1..][j] == selectors[j + 1];
      }
      FirstIndicatorDecides(query, selectors[1..], k - 1);
      assert selectors[1..][k - 1] == selectors[k];
    }
  }

  /** Any exception inside the cascade means logged out: a lookup among
      the logout link and the user-menu elements that raises after the
      earlier ones found nothing, and a raising login-form lookup once no
      indicator is found. */
  lemma LookupRaisesLoggedOut(view: PageView, k: nat)
    requires k < |Indicators()|
    ensures (forall j :: 0 <= j < k ==> view.query(Indicators()[j]) == NotFound)
            && view.query(Indicators()[k]) == ProbeRaises
            ==> !LoggedInVerdict(true, view)
    ensures (forall j :: 0 <= j < |Indicators()| ==> view.query(Indicators()[j]) == NotFound)
            && view.query(LoginFormSelector) == ProbeRaises
            ==> !LoggedInVerdict(true, view)
  {
    if (forall j :: 0 <= j < k ==> view.query(Indicators()[j]) == NotFound)
       && view.query(Indicators()[k]) == ProbeRaises {
      FirstIndicatorDecides(view.query, Indicators(), k);
    }
    if forall j :: 0 <= j < |Indicators()| ==> view.query(Indicators()[j]) == NotFound {
      FirstIndicatorFound(view.query, Indicators());
    }
  }

  // ---------------------------------------------------------------------
  // Seller page

  /** What the seller page gives: for each seller-name selector, no
      element or the element's text content; for each product-title
      selector, the text contents of the elements it matches. */
  datatype SellerPage = SellerPage(
    nameQuery: string -> Option<Option<string>>,
    titleQuery: string -> seq<Option<string>>)

  const SellerNameSelectors: seq<string> := ["h1[class*=\"seller\"]", "h1"]
  const ProductTitleSelectors: seq<string> := ["a[class*=\"product-title\"]", "div[class*=\"title\"]"]

  /** A text content Python treats as true. */
  predicate Truthy(text: Option<string>) {
    text.Some? && text.value != ""
  }

  /** Index of the first selector from `i` on whose element has a
      non-empty text; `|selectors|` when none has. */
  function FirstNamed(nameQuery: string -> Option<Option<string>>, selectors: seq<string>, i: nat): (k: nat)
    requires i <= |selectors|
    ensures i <= k <= |selectors|
    ensures k < |selectors| ==> nameQuery(selectors[k]).Some? && Truthy(nameQuery(selectors[k]).value)
    ensures forall j :: i <= j < k ==> !(nameQuery(selectors[j]).Some? && Truthy(nameQuery(selectors[j]).value))
    decreases |selectors| - i
  {
    if i == |selectors| then i
    else if nameQuery(selectors[i]).Some? && Truthy(nameQuery(selectors[i]).value) then i
    else FirstNamed(nameQuery, selectors, i + 1)
  }

  /** The reference for `_extract_seller_name`: the first non-empty text,
      stripped, or the unknown-seller sentinel. */
  function SellerName(page: SellerPage): string {
    var k := FirstNamed(page.nameQuery, SellerNameSelectors, 0);
    if k < |SellerNameSelectors| then Strip(page.nameQuery(SellerNameSelectors[k]).value.value)
    else UnknownSeller
  }

  /** `_extract_seller_name`. */
  method ExtractSellerName(page: SellerPage) returns (name: string)
    ensures name == SellerName(page)
  {
    var i := 0;
    while i < |SellerNameSelectors|
      invariant i <= |SellerNameSelectors|
      invariant FirstNamed(page.nameQuery, SellerNameSelectors, 0) == FirstNamed(page.nameQuery, SellerNameSelectors, i)
    {
      var sellerNameElement := page.nameQuery(SellerNameSelectors[i]);
      if sellerNameElement.Some? {
        var sellerNameText := sellerNameElement.value;
        if sellerNameText.Some? && sellerNameText.value != "" {
          return Strip(sellerNameText.value);
        }
      }
      i := i + 1;
    }
    name := UnknownSeller;
  }

  /** The name is the sentinel when no selector gives a non-empty text;
      otherwise it is the stripped text of the first that does, so the
      more specific selector wins. */
  lemma SellerNameCases(page: SellerPage)
    ensures (forall j :: 0 <= j < |SellerNameSelectors| ==>
               !(page.nameQuery(SellerNameSelectors[j]).Some? && Truthy(page.nameQuery(SellerNameSelectors[j]).value)))
            ==> SellerName(page) == UnknownSeller
    ensures var first := page.nameQuery(SellerNameSelectors[0]);
            first.Some? && Truthy(first.value) ==> SellerName(page) == Strip(first.value.value)
    ensures var first := page.nameQuery(SellerNameSelectors[0]);
            var second := page.nameQuery(SellerNameSelectors[1]);
            !(first.Some? && Truthy(first.value)) && second.Some? && Truthy(second.value)
            ==> SellerName(page) == Strip(second.value.value)
  {
    var k := FirstNamed(page.nameQuery, SellerNameSelectors, 0);
    if k < |SellerNameSelectors| {
      assert page.nameQuery(SellerNameSelectors[k]).Some? && Truthy(page.nameQuery(SellerNameSelectors[k]).value);
    }
  }

  /** The elements `_extract_product_titles` reads: those of the first
      selector that matches any, else the (empty) match of the last. */
  function ProductElements(page: SellerPage): seq<Option<string>> {
    var first := page.titleQuery(ProductTitleSelectors[0]);
    if first != [] then first else page.titleQuery(ProductTitleSelectors[1])
  }

  /** The stripped non-empty texts among `elements`, in order. */
  function TitlesOf(elements: seq<Option<string>>): seq<string> {
    if elements == [] then []
    else
      var last := elements[|elements| - 1];
      TitlesOf(elements[..|elements| - 1]) + (if Truthy(last) then [Strip(last.value)] else [])
  }

  /** The reference for `_extract_product_titles`; `maxProducts` slices as
      Python does, so a negative value drops elements from the end. */
  function ProductTitles(page: SellerPage, maxProducts: int): seq<string> {
    TitlesOf(SliceTo(ProductElements(page), maxProducts))
  }

  /** `_extract_product_titles`. */
  method ExtractProductTitles(page: SellerPage, maxProducts: int) returns (productTitles: seq<string>)
    ensures productTitles == ProductTitles(page, maxProducts)
  {
    var productElements: seq<Option<string>> := [];
    for i := 0 to |ProductTitleSelectors|
      invariant forall j :: 0 <= j < i ==> page.titleQuery(ProductTitleSelectors[j]) == []
      invariant i > 0 ==> productElements == page.titleQuery(ProductTitleSelectors[i - 1])
    {
      productElements := page.titleQuery(ProductTitleSelectors[i]);
      if productElements != [] {
        break;
      }
    }
    assert productElements == ProductElements(page);
    var elements := SliceTo(productElements, maxProducts);
    productTitles := [];
    for i := 0 to |elements|
      invariant productTitles == TitlesOf(elements[..i])
    {
      assert elements[..i + 1][..i] == elements[..i];
      var titleText := elements[i];
      if titleText.Some? && titleText.value != "" {
        productTitles := productTitles + [Strip(titleText.value)];
      }
    }
    assert elements[..|elements|] == elements;
  }

  /** The titles work element by element. */
  lemma {:induction false} TitlesOfAppend(a: seq<Option<string>>, b: seq<Option<string>>)
    ensures TitlesOf(a + b) == TitlesOf(a) + TitlesOf(b)
    decreases |b|
  {
    if b == [] {
      assert a + b == a;
    } else {
      var front := b[..|b| - 1];
      assert (a + b)[..|a + b| - 1] == a + front;
      assert (a + b)[|a + b| - 1] == b[|b| - 1];
      TitlesOfAppend(a, front);
    }
  }

  /** Never more titles than elements; empty texts are dropped and the
      rest kept stripped. */
  lemma {:induction false} TitlesOfBounds(elements: seq<Option<string>>)
    ensures |TitlesOf(elements)| <= |elements|
    ensures (forall j :: 0 <= j < |elements| ==> Truthy(elements[j])) ==> |TitlesOf(elements)| == |elements|
    ensures (forall j :: 0 <= j < |elements| ==> !Truthy(elements[j])) ==> TitlesOf(elements) == []
  {
    if elements != [] {
      TitlesOfBounds(elements[..|elements| - 1]);
    }
  }

  /** A non-negative cap bounds the number of titles. */
  lemma ProductTitlesCapped(page: SellerPage, maxProducts: int)
    requires maxProducts >= 0
    ensures |ProductTitles(page, maxProducts)| <= maxProducts
  {
    TitlesOfBounds(SliceTo(ProductElements(page), maxProducts));
  }

  /** The more specific title selector wins whenever it matches. */
  lemma ProductSelectorFallback(page: SellerPage, maxProducts: int)
    ensures page.titleQuery(ProductTitleSelectors[0]) != []
            ==> ProductTitles(page, maxProducts) == TitlesOf(SliceTo(page.titleQuery(ProductTitleSelectors[0]), maxProducts))
    ensures page.titleQuery(ProductTitleSelectors[0]) == []
            ==> ProductTitles(page, maxProducts) == TitlesOf(SliceTo(page.titleQuery(ProductTitleSelectors[1]), maxProducts))
  {
  }

  /** What one try of `fetch_seller_products` meets: whether the try body
      completes, and the page. `navigation` is the first exception the body
      raises, whether launching the browser, opening the seller page or
      reading the seller name and the product titles; `page` is what those
      readers see when none raises. */
  datatype FetchAttempt = FetchAttempt(navigation: Step, page: SellerPage)

  /** The dictionary `fetch_seller_products` returns. */
  datatype SellerProducts = SellerProducts(sellerName: string, sellerUrl: string, productTitles: seq<string>)

  /** The `ConnectionError`, chained to the last exception. */
  datatype ConnectionFailure = ConnectionError(message: string, cause: Raised)

  const ConnectionFailedPrefix: string := "Yahoo Auctionsへの接続が3回のリトライ後も失敗しました: "

  function ConnectionMessage(sellerUrl: string): string {
    ConnectionFailedPrefix + sellerUrl
  }

  /** Index of the first try from `i` on that opens the page; 3 when none
      of the three does. */
  function FirstLoaded(attempts: nat -> FetchAttempt, i: nat): (k: nat)
    requires i <= MaxRetries
    ensures i <= k <= MaxRetries
    ensures k < MaxRetries ==> attempts(k).navigation.Completes?
    ensures forall j :: i <= j < k ==> attempts(j).navigation.Raises?
    decreases MaxRetries - i
  {
    if i == MaxRetries then i
    else if attempts(i).navigation.Completes? then i
    else FirstLoaded(attempts, i + 1)
  }

  /** The reference for `fetch_seller_products`: the result and the
      sleeps. The first try that opens the page gives the result, after one
      sleep per earlier try; when all three fail the error carries the
      third failure, after two sleeps. */
  function FetchProducts(sellerUrl: string, maxProducts: int, attempts: nat -> FetchAttempt, delays: seq<int>)
    : (Result<SellerProducts, ConnectionFailure>, seq<int>)
    requires |delays| >= MaxRetries - 1
  {
    var k := FirstLoaded(attempts, 0);
    if k < MaxRetries then
      var page := attempts(k).page;
      (Ok(SellerProducts(SellerName(page), sellerUrl, ProductTitles(page, maxProducts))), delays[..k])
    else (Err(ConnectionError(ConnectionMessage(sellerUrl), attempts(MaxRetries - 1).navigation.error)),
          delays[..MaxRetries - 1])
  }

  /** The fetch retries every failure and never sleeps after the last
      try: a success echoes the URL asked for; a failure comes only after
      three failed tries with exactly two sleeps and names the URL. */
  lemma FetchProductsSpec(sellerUrl: string, maxProducts: int, attempts: nat -> FetchAttempt, delays: seq<int>)
    requires |delays| >= MaxRetries - 1
    ensures var (r, sleeps) := FetchProducts(sellerUrl, maxProducts, attempts, delays);
            && |sleeps| <= MaxRetries - 1
            && (r.Ok? ==> r.value.sellerUrl == sellerUrl)
            && (r.Err? <==> forall j :: 0 <= j < MaxRetries ==> attempts(j).navigation.Raises?)
            && (r.Err? ==> |sleeps| == 2 && r.error.cause == attempts(2).navigation.error
                           && r.error.message[|r.error.message| - |sellerUrl|..] == sellerUrl)
  {
    var k := FirstLoaded(attempts, 0);
    if k < MaxRetries {
      assert attempts(k).navigation.Completes?;
    }
  }

  // ---------------------------------------------------------------------
  // Login attempt

  /** What one login attempt meets, in order: whether reading the saved
      session fails; whether adding its cookies and opening Auctions
      completes; the restored page; whether opening the login page,
      filling the phone number and clicking `次へ` completes (the optional
      buttons after it swallow their failures); the SMS input; the code
      form; the page after the swallowed move to Auctions; the cookies the
      context reports, or the exception reading them raises; and how saving
      them fails. An exception raised anywhere from launching the browser
      to clicking `次へ` is `toSms`. */
  datatype YahooAttempt = YahooAttempt(
    readFails: bool,
    restoreLoad: Step,
    restoredView: PageView,
    toSms: Step,
    sms: SmsInput,
    form: SmsForm,
    finalView: PageView,
    cookies: Result<seq<Cookie>, Raised>,
    saveFault: SaveFault)

  /** From opening the login page to submitting the code: the first
      exception raised, or what was submitted. */
  function CodeEntry(a: YahooAttempt): Result<CodeSubmission, Raised> {
    if a.toSms.Raises? then Err(a.toSms.error)
    else match SmsCode(a.sms)
      case Err(e) => Err(e)
      case Ok(code) => SmsSubmission(a.form, code)
  }

  /** The fresh login of one attempt, from launching the browser on. */
  function FreshLoginSpec(st: AgentState, dir: string, a: YahooAttempt): (AttemptOutcome, AgentState) {
    var h := Launch(st.handles);
    match CodeEntry(a)
    case Err(e) => (AttemptRaised(e), AgentState(h, st.files))
    case Ok(_) =>
      if LoggedInVerdict(h.page, a.finalView) then
        match a.cookies
        case Err(e) => (AttemptRaised(e), AgentState(h, st.files))
        case Ok(cookies) => (Validated, AgentState(h, SaveEffect(st.files, dir, ServiceName, cookies, a.saveFault)))
      else (NotValidated, AgentState(h, st.files))
  }

  /** One pass of the body of the `login` loop. A restored session that
      fails the check is not closed before the fresh login. */
  function AttemptSpec(st: AgentState, dir: string, a: YahooAttempt): (AttemptOutcome, AgentState) {
    var (restored, h1) := RestoreStep(st, dir, a);
    if RestoredSessionPasses(st, dir, a) then (Validated, AgentState(h1, st.files))
    else FreshLoginSpec(AgentState(h1, st.files), dir, a)
  }

  /** The restore step of an attempt: `_restore_session` runs only when
      the session file exists. */
  function RestoreStep(st: AgentState, dir: string, a: YahooAttempt): (bool, Handles) {
    if SessionPath(dir, ServiceName) in st.files
    then RestoreSpec(st.handles, st.files, dir, ServiceName, a.readFails, a.restoreLoad)
    else (false, st.handles)
  }

  /** The attempt ends with the restored session: it was restored and the
      restored page passes the check. */
  predicate RestoredSessionPasses(st: AgentState, dir: string, a: YahooAttempt) {
    RestoreStep(st, dir, a).0 && LoggedInVerdict(RestoreStep(st, dir, a).1.page, a.restoredView)
  }

  function AttemptStep(dir: string, attempts: nat -> YahooAttempt): (AgentState, nat) -> (AttemptOutcome, AgentState) {
    (st: AgentState, i: nat) => AttemptSpec(st, dir, attempts(i))
  }

  /** The reference for `login`: a failed proxy check raises at once,
      with no attempt, no sleep and no change; otherwise the retry
      machine. */
  function LoginSpec(st: AgentState, dir: string, proxy: ProxyCheck, attempts: nat -> YahooAttempt,
                     delays: seq<int>): (LoginRun, AgentState)
    requires |delays| >= MaxRetries - 1
  {
    match VerifyProxy(proxy)
    case Fail(e) => (LoginRun(LoginFailed(ProxyAuthenticationError(e.message)), 0, []), st)
    case Pass => RunFrom(st, AttemptStep(dir, attempts), delays, 0)
  }

  /** The proxy check runs once and is never retried: when it fails the
      login makes no attempt; when it passes the machine makes one to
      three. */
  lemma ProxyCheckRunsOnce(st: AgentState, dir: string, proxy: ProxyCheck, attempts: nat -> YahooAttempt,
                           delays: seq<int>)
    requires |delays| >= MaxRetries - 1
    ensures var (run, st2) := LoginSpec(st, dir, proxy, attempts, delays);
            && (VerifyProxy(proxy).Fail? ==>
                  run.attempts == 0 && run.sleeps == [] && st2 == st
                  && run.result == LoginFailed(ProxyAuthenticationError(VerifyProxy(proxy).error.message)))
            && (VerifyProxy(proxy).Pass? ==>
                  1 <= run.attempts <= MaxRetries
                  && !(run.result.LoginFailed? && run.result.failure.ProxyAuthenticationError?))
  {
    if VerifyProxy(proxy).Pass? {
      LoginRunNeverProxyError(st, AttemptStep(dir, attempts), delays);
    }
  }

  /** A fresh login whose code is accepted and whose final page passes
      the check saves the context's cookies under `yahoo`, whether there
      was no session file or the saved session failed to restore or to
      pass the check. When reading the cookies raises, the attempt raises
      that exception and writes nothing. */
  lemma FreshLoginSavesSession(st: AgentState, dir: string, a: YahooAttempt)
    requires !RestoredSessionPasses(st, dir, a)
    requires a.toSms == Completes && SmsCode(a.sms).Ok?
    requires SmsSubmission(a.form, SmsCode(a.sms).value).Ok?
    requires LoggedInVerdict(true, a.finalView) && a.saveFault == NoFault
    ensures var (o, st2) := AttemptSpec(st, dir, a);
            && (a.cookies.Ok? ==>
                  && o == Validated
                  && st2.files == st.files[SessionPath(dir, ServiceName) := Valid(a.cookies.value)]
                  && LoadResult(st2.files, dir, ServiceName, false) == Some(a.cookies.value))
            && (a.cookies.Err? ==> o == AttemptRaised(a.cookies.error) && st2.files == st.files)
  {
  }

  /** A blank SMS entry ends the attempt with the `ValueError`, and a
      timed-out one with the SMS timeout, which the machine retries or, on
      the last attempt, turns into the login timeout. */
  lemma SmsFailuresRaise(st: AgentState, dir: string, a: YahooAttempt)
    requires !RestoredSessionPasses(st, dir, a) && a.toSms == Completes
    ensures a.sms.InputTimedOut? ==> AttemptSpec(st, dir, a).0 == AttemptRaised(Timeout(SmsTimeoutMessage))
    ensures a.sms.Entered? && AllSpace(a.sms.text)
            ==> AttemptSpec(st, dir, a).0 == AttemptRaised(Failure(SmsEmptyMessage))
  {
    SmsCodeCases(a.sms);
  }

  /** An attempt that does not pass the check leaves the session files as
      they were; a restored session that passes writes nothing either. */
  lemma FailedAttemptKeepsFiles(st: AgentState, dir: string, a: YahooAttempt)
    ensures AttemptSpec(st, dir, a).0 != Validated ==> AttemptSpec(st, dir, a).1.files == st.files
    ensures RestoredSessionPasses(st, dir, a) ==> AttemptSpec(st, dir, a) == (Validated, AgentState(RestoreStep(st, dir, a).1, st.files))
  {
  }

  /** `YahooAuctionScraper`. */
  class YahooAgent {
    const sessions: SessionStore
    const proxyConfig: map<string, string>
    const loginUrl: string
    const auctionsUrl: string
    /** The schedule as written in the constructor. */
    const retryDelays: seq<int> := [2, 4, 8]
    var playwright: bool
    var browser: bool
    var context: bool
    var page: bool

    function Handles(): Handles
      reads this
    {
      Browser.Handles(playwright, browser, context, page)
    }

    function State(): AgentState
      reads this, sessions
    {
      AgentState(Handles(), sessions.files)
    }

    /** The constructor once the proxy keys are checked. */
    constructor (sessions: SessionStore, proxyConfig: map<string, string>, loginUrl: string, auctionsUrl: string)
      requires MissingProxyKeys(proxyConfig) == {}
      ensures this.sessions == sessions && this.proxyConfig == proxyConfig
      ensures this.loginUrl == loginUrl && this.auctionsUrl == auctionsUrl
      ensures Handles() == NoHandles
    {
      this.sessions := sessions;
      this.proxyConfig := proxyConfig;
      this.loginUrl := loginUrl;
      this.auctionsUrl := auctionsUrl;
      playwright, browser, context, page := false, false, false, false;
    }

    /** `_launch_browser_with_proxy`: creates each missing handle. */
    method LaunchBrowserWithProxy()
      modifies this
      ensures Handles() == Launch(old(Handles()))
    {
      if !playwright { playwright := true; }
      if !browser { browser := true; }
      if !context { context := true; }
      if !page { page := true; }
    }

    /** `_restore_session`. */
    method RestoreSession(readFails: bool, restoreLoad: Step) returns (restored: bool)
      modifies this
      ensures (restored, Handles())
              == RestoreSpec(old(Handles()), sessions.files, sessions.sessionDir, ServiceName, readFails, restoreLoad)
    {
      var cookies := sessions.LoadSession(ServiceName, readFails);
      if cookies.None? || cookies.value == [] {
        return false;
      }
      LaunchBrowserWithProxy();
      restored := restoreLoad.Completes?;
    }

    /** `is_logged_in`. */
    method IsLoggedIn(view: PageView) returns (loggedIn: bool)
      ensures loggedIn == LoggedInVerdict(page, view)
    {
      if !page {
        return false;
      }
      var currentUrl := view.url;
      if Contains(currentUrl, LoginHost) {
        return false;
      }
      var sels := Indicators();
      assert sels[1..] == UserMenuSelectors;
      var logoutButton := view.query(LogoutSelector);
      if logoutButton == ProbeRaises {
        return false;
      }
      if logoutButton == Found {
        return true;
      }
      for i := 0 to |UserMenuSelectors|
        invariant FirstIndicator(view.query, sels) == FirstIndicator(view.query, UserMenuSelectors[i..])
      {
        var element := view.query(UserMenuSelectors[i]);
        if element == ProbeRaises {
          return false;
        }
        if element == Found {
          return true;
        }
        assert UserMenuSelectors[i..][1..] == UserMenuSelectors[i + 1..];
      }
      if Contains(currentUrl, YahooDomain) {
        var loginForm := view.query(LoginFormSelector);
        if loginForm == ProbeRaises {
          return false;
        }
        if loginForm == NotFound {
          return true;
        }
      }
      loggedIn := false;
    }

    /** `close`, as for the Rapras agent. */
    method Close(fault: Option<Slot>)
      modifies this
      ensures Handles() == Browser.Close(old(Handles()), fault)
    {
      if page {
        if fault == Some(PageSlot) { return; }
        page := false;
      }
      if context {
        if fault == Some(ContextSlot) { return; }
        context := false;
      }
      if browser {
        if fault == Some(BrowserSlot) { return; }
        browser := false;
      }
      if playwright {
        if fault == Some(PlaywrightSlot) { return; }
        playwright := false;
      }
    }

    /** From opening the login page to submitting the code. */
    method EnterCode(a: YahooAttempt) returns (r: Result<CodeSubmission, Raised>)
      ensures r == CodeEntry(a)
    {
      if a.toSms.Raises? {
        return Err(a.toSms.error);
      }
      var smsCode := PromptForSmsCode(a.sms);
      if smsCode.Err? {
        return Err(smsCode.error);
      }
      r := FillSmsCode(a.form, smsCode.value);
    }

    /** The fresh login of one attempt. */
    method FreshLogin(a: YahooAttempt) returns (outcome: AttemptOutcome)
      modifies this, sessions
      ensures (outcome, State()) == FreshLoginSpec(old(State()), sessions.sessionDir, a)
    {
      LaunchBrowserWithProxy();
      var submitted := EnterCode(a);
      if submitted.Err? {
        return AttemptRaised(submitted.error);
      }
      var valid := IsLoggedIn(a.finalView);
      if valid {
        if a.cookies.Err? {
          return AttemptRaised(a.cookies.error);
        }
        sessions.SaveSession(ServiceName, a.cookies.value, a.saveFault);
        return Validated;
      }
      outcome := NotValidated;
    }

    /** One pass of the `login` loop body. */
    method RunAttempt(a: YahooAttempt) returns (outcome: AttemptOutcome)
      modifies this, sessions
      ensures (outcome, State()) == AttemptSpec(old(State()), sessions.sessionDir, a)
    {
      var sessionFound := sessions.SessionExists(ServiceName);
      if sessionFound {
        var restored := RestoreSession(a.readFails, a.restoreLoad);
        if restored {
          var valid := IsLoggedIn(a.restoredView);
          if valid {
            return Validated;
          }
        }
      }
      outcome := FreshLogin(a);
    }

    /** `login`: the proxy check, then the retry machine over the given
        attempts. */
    method Login(proxy: ProxyCheck, attempts: nat -> YahooAttempt) returns (run: LoginRun)
      modifies this, sessions
      ensures (run, State()) == LoginSpec(old(State()), sessions.sessionDir, proxy, attempts, retryDelays)
    {
      var check := VerifyProxy(proxy);
      if check.Fail? {
        return LoginRun(LoginFailed(ProxyAuthenticationError(check.error.message)), 0, []);
      }
      ghost var start := State();
      ghost var step := AttemptStep(sessions.sessionDir, attempts);
      var attempt: nat := 0;
      var sleeps: seq<int> := [];
      PrefixedStart(start, step, retryDelays);
      while attempt < MaxRetries
        invariant attempt <= MaxRetries
        invariant RunFrom(start, step, retryDelays, 0)
                  == Prefixed(attempt, sleeps, RunFrom(State(), step, retryDelays, attempt))
      {
        ghost var before := State();
        var outcome := RunAttempt(attempts(attempt));
        assert step(before, attempt) == (outcome, State());
        if Stops(attempt, outcome) {
          PrefixedStop(before, step, retryDelays, attempt, sleeps);
          return LoginRun(Terminal(outcome), attempt + 1, sleeps);
        }
        PrefixedContinue(before, step, retryDelays, attempt, sleeps);
        // `_retry_with_backoff`, only before another attempt
        sleeps := sleeps + Backoff(attempt, retryDelays);
        attempt := attempt + 1;
      }
      PrefixedExhausted(State(), step, retryDelays, sleeps);
      run := LoginRun(Terminal(NotValidated), MaxRetries, sleeps);
    }

    /** `fetch_seller_products`: launches the browser when there is no
        page, then tries up to three times; returns the result and the
        sleeps taken. */
    method FetchSellerProducts(sellerUrl: string, maxProducts: int, attempts: nat -> FetchAttempt)
      returns (r: Result<SellerProducts, ConnectionFailure>, sleeps: seq<int>)
      modifies this
      ensures (r, sleeps) == FetchProducts(sellerUrl, maxProducts, attempts, retryDelays)
      ensures Handles() == if old(page) then old(Handles()) else Launch(old(Handles()))
    {
      var lastException: Option<Raised> := None;
      var attempt: nat := 0;
      sleeps := [];
      while attempt < MaxRetries
        invariant attempt <= MaxRetries
        invariant FirstLoaded(attempts, 0) == FirstLoaded(attempts, attempt)
        invariant sleeps == retryDelays[..if attempt < MaxRetries then attempt else MaxRetries - 1]
        invariant attempt > 0 ==> lastException == Some(attempts(attempt - 1).navigation.error)
        invariant attempt == 0 ==> Handles() == old(Handles())
        invariant attempt > 0 ==> Handles() == if old(page) then old(Handles()) else Launch(old(Handles()))
      {
        if !page {
          LaunchBrowserWithProxy();
        }
        var a := attempts(attempt);
        if a.navigation.Completes? {
          var sellerName := ExtractSellerName(a.page);
          var productTitles := ExtractProductTitles(a.page, maxProducts);
          return Ok(SellerProducts(sellerName, sellerUrl, productTitles)), sleeps;
        }
        lastException := Some(a.navigation.error);
        if attempt < MaxRetries - 1 {
          assert retryDelays[..attempt + 1] == retryDelays[..attempt] + [retryDelays[attempt]];
          sleeps := sleeps + [retryDelays[attempt]];
        }
        attempt := attempt + 1;
      }
      r := Err(ConnectionError(ConnectionMessage(sellerUrl), lastException.value));
    }
  }

  /** `YahooAuctionScraper(...)`: a `ValueError` naming the missing proxy
      keys, or a new agent without browser handles. */
  method NewYahooAgent(sessions: SessionStore, proxyConfig: map<string, string>, loginUrl: string,
                       auctionsUrl: string)
    returns (r: Result<YahooAgent, ProxyConfigError>)
    ensures MissingProxyKeys(proxyConfig) != {} <==> r.Err?
    ensures r.Err? ==> r.error == MissingKeys(MissingProxyKeys(proxyConfig))
    ensures r.Ok? ==> fresh(r.value) && r.value.sessions == sessions && r.value.proxyConfig == proxyConfig
                      && r.value.Handles() == NoHandles
  {
    var missingKeys := RequiredProxyKeys - proxyConfig.Keys;
    if missingKeys != {} {
      return Err(MissingKeys(missingKeys));
    }
    var agent := new YahooAgent(sessions, proxyConfig, loginUrl, auctionsUrl);
    r := Ok(agent);
  }
}
