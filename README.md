# A model of the fairy seller pipeline

fairy collects seller data from two auction sites and classifies the
sellers.

- The **Rapras agent** logs in with a username and password and reads a
  seller ranking.
- The **Yahoo Auctions agent** works through an authenticated proxy and
  logs in by phone number and SMS code. It then reads each seller's name
  and product titles.
- An **anime classifier** asks the Gemini command-line tool whether a
  product title names an anime work.
- A **CSV exporter** writes the sellers with a tri-state "二次創作"
  (derivative work) column.
- A **session store** keeps each service's cookies in a JSON file.
- **Configuration loaders** read credentials from the environment.

This project models these six modules in Dafny and proves what they
promise. The browser, the Gemini subprocess, the file system, the clock
and the keyboard are replaced by inputs:

- a page is a record of observations: what a query finds, whether a
  navigation completes, the text of an element;
- a login attempt is a record of what it meets, in order;
- the Gemini tool is an oracle from prompt to outcome;
- the session directory is a map from path to `Valid(cookies) | Corrupt`;
- the current time is a `DateTime` argument.

The model follows the code's form:

- Pure code becomes functions and lemmas. This covers the configuration
  loaders, the CSV tables and file names, the flag text, the reply
  parser and the title truncation.
- Code that mutates state becomes imperative Dafny:
  - The two agents are classes with four bool handle fields (`playwright`,
    `browser`, `context`, `page`).
  - The session store is a class whose `files` map its methods reassign.
  - The retry loops, the row filter, the selector fallbacks, the SMS
    submission chain and the seller loop of the classifier are methods
    with loops. Each is proved equal to a reference function, and the
    properties are proved about that function.

The two login loops share one retry machine, `Retry.RunFrom`, over the
agent state. The loops in `RaprasAgent.Login` and `YahooAgent.Login` are
proved to compute it, through the loop invariant
`RunFrom(start, …, 0) == Prefixed(attempt, sleeps, RunFrom(State(), …, attempt))`.
A run records its result, the number of attempts and the backoff sleeps,
in order.

Files:

| file | modules |
|---|---|
| `common.dfy` | `Wrappers` (Option, Result, Outcome) and `Text`, which models the Python string built-ins the core uses: `strip`, `split`, `join`, `in`, `replace`, slicing, `int`, path joining |
| `settings.dfy` | `Settings` |
| `session_manager.dfy` | `SessionManager` |
| `browser.dfy` | `Browser`: handles, launching, closing, observations |
| `agent_state.dfy` | `Agents`: the state the login machines act on, and session restore |
| `retry.dfy` | `Retry`: the login retry machine |
| `rapras_scraper.dfy` | `RaprasScraper` |
| `yahoo_scraper.dfy` | `YahooScraper` |
| `anime_filter.dfy` | `AnimeFilter` |
| `csv_exporter.dfy` | `CsvExporter` |

Where the repository's tests or documentation disagree with the code, the model follows the code:

- Both agents back off 2, 4 and then 8 seconds. For the Yahoo agent these
  are the literal `[2, 4, 8]` at modules/scraper/yahoo_scraper.py:64.
  The Yahoo tests expect `[1, 2, 4]`.
- A missing key in the CSV exporter raises `KeyError`. The tests expect a
  `ValueError` from input validation that the code does not have.
- `fetch_seller_links` validates neither dates nor `min_price`.

## Model

| member | source | states |
|---|---|---|
| Settings.FirstMissingIndex | modules/config/settings.py:40-51 | the index of the first variable that is unset or empty: every earlier one is present, and the one at the index is not |
| Settings.FirstMissingOfTwo | modules/config/settings.py:40-51 | with two variables checked in order, the first missing one is the first if it is absent, else the second if it is absent, else none |
| Settings.FirstMissingOfThree | modules/config/settings.py:85-102 | the same for three variables checked in order |
| Settings.GetEnvPresent | modules/config/settings.py:40-51 | `os.getenv` gives a falsy value exactly when the variable is unset or empty; otherwise it gives the value |
| Settings.MissingMessageNames | modules/config/settings.py:44-51 | the error message starts with the variable's name, and distinct variables give distinct messages |
| Settings.RaprasConfigSpec | modules/config/settings.py:31-53 | `load_rapras_config` fails exactly when a variable is missing, naming the first of username and password to be missing; on success both fields equal the environment values verbatim, whitespace included |
| Settings.RaprasUsernameFirst | modules/config/settings.py:40-45 | a missing username is reported whatever the password is, so the password is never examined first |
| Settings.YahooConfigSpec | modules/config/settings.py:56-73 | `load_yahoo_config` fails exactly when `YAHOO_PHONE_NUMBER` is unset or empty, naming it; otherwise it returns the value |
| Settings.ProxyConfigSpec | modules/config/settings.py:76-104 | `load_proxy_config` checks url, username and password in that order and fails naming the first one missing; otherwise it returns the three values |
| SessionManager.SessionPathInjective | modules/scraper/session_manager.py:37 | two relative service names share a session file only when they are equal |
| SessionManager.SaveLoadRoundTrip | modules/scraper/session_manager.py:33-41 | loading after a successful save gives the saved cookies back |
| SessionManager.SaveOverwrites | modules/scraper/session_manager.py:40-41 | a later save replaces an earlier one |
| SessionManager.LoadNoneCases | modules/scraper/session_manager.py:60-81 | `load_session` gives a value exactly when the file exists, parses and its read does not fail, and the value is then the stored list; every other case gives `None` |
| SessionManager.FailedSaveLoadsNothingNew | modules/scraper/session_manager.py:33-46 | a save that fails before the file is opened leaves the directory unchanged; a save that breaks off while writing leaves nothing loadable; neither raises |
| SessionManager.DeleteRemovesAndIsIdempotent | modules/scraper/session_manager.py:95-110 | after a delete the session is gone and loads as `None`, and deleting it again changes nothing |
| SessionManager.DeleteAbsentUnchanged | modules/scraper/session_manager.py:103-110 | deleting a session that does not exist changes nothing |
| SessionManager.ServicesIndependent | modules/scraper/session_manager.py:33-110 | saving or deleting one service leaves another service's load result and file presence unchanged |
| SessionManager.SessionStore.constructor | modules/scraper/session_manager.py:15-21 | a manager over the directory, holding the given files |
| SessionManager.SessionStore.SaveSession | modules/scraper/session_manager.py:23-46 | the new files are the save effect on the old, for each way the write can fail |
| SessionManager.SessionStore.LoadSession | modules/scraper/session_manager.py:48-81 | returns the reference load result, and changes nothing |
| SessionManager.SessionStore.SessionExists | modules/scraper/session_manager.py:83-93 | true exactly when the service's file is in the directory |
| SessionManager.SessionStore.DeleteSession | modules/scraper/session_manager.py:95-110 | the new files are the old ones without the service's file, unless `unlink` fails |
| SessionManager.SessionLifecycle | modules/scraper/session_manager.py:23-110 | after a successful save the session exists and loads the saved cookies; after a delete it no longer exists |
| Browser.Launch | modules/scraper/yahoo_scraper.py:269-292 | after launching, every handle is set and each is set only with the one it was created from |
| Browser.CloseReleases | modules/scraper/rapras_scraper.py:209-231 | after `close` a handle is still set exactly when it was set and closing broke off at that handle or at one released before it |
| Browser.CloseClearsAll | modules/scraper/rapras_scraper.py:209-231 | `close` without a failure clears every handle |
| Browser.CloseKeepsChained | modules/scraper/rapras_scraper.py:209-231 | `close` keeps each handle set only with the one it was created from |
| Browser.CloseIdempotent | modules/scraper/yahoo_scraper.py:640-662 | closing twice without failures is closing once |
| Agents.RestoreSucceedsIff | modules/scraper/rapras_scraper.py:139-157 | `_restore_session` reports success exactly when a non-empty cookie list loads and opening the site completes; it leaves the browser untouched or fully launched |
| Retry.BackoffSchedule | modules/scraper/rapras_scraper.py:45 | the schedule has one entry per attempt, and entry `i` is `2**(i+1)` |
| Retry.BackoffScheduleValues | modules/scraper/rapras_scraper.py:45 | for three attempts the schedule is 2, 4, 8 |
| Retry.PrefixedContinue | modules/scraper/rapras_scraper.py:100-104 | an attempt that does not stop the run adds its backoff to the sleeps taken and moves the run to the next attempt |
| Retry.PrefixedStop | modules/scraper/rapras_scraper.py:94-118 | an attempt that stops the run ends it with the result that attempt decides |
| Retry.PrefixedExhausted | modules/scraper/rapras_scraper.py:121-123 | running out of attempts ends the run with the invalid-credentials `LoginError` |
| Retry.PrefixedStart | modules/scraper/rapras_scraper.py:64 | the loop starts with no attempt made and no sleep taken |
| Retry.RunFromSpec | modules/scraper/rapras_scraper.py:64-123 | the run makes between one and the remaining number of attempts; sleeps come from the schedule in order, one before every attempt after the first; every attempt but the last failed; the run stops early only on success; the last attempt decides the result and leaves the final state |
| Retry.LoginRunBounds | modules/scraper/rapras_scraper.py:64-123 | `login` makes one to three attempts and sleeps one time fewer, taking the first entries of the schedule |
| Retry.RunSucceedsIff | modules/scraper/rapras_scraper.py:64-104 | from any attempt on, the run succeeds exactly when one of the remaining attempts validates |
| Retry.LoginSucceedsIff | modules/scraper/rapras_scraper.py:64-123 | `login` returns True exactly when one of its three attempts validates |
| Retry.LoginFailureKinds | modules/scraper/rapras_scraper.py:106-123 | a failed `login` made three attempts and two sleeps. A timeout in the third gives `TimeoutError("Login timed out after 3 attempts")`, any other exception gives `LoginError` with its message, and a failed check gives the invalid-credentials `LoginError` |
| Retry.LoginRunNeverProxyError | modules/scraper/yahoo_scraper.py:90-167 | the retry machine never raises `ProxyAuthenticationError` |
| RaprasScraper.RaprasAgent.constructor | modules/scraper/rapras_scraper.py:22-48 | a new agent holds no browser handle |
| RaprasScraper.RaprasAgent.LaunchBrowser | modules/scraper/rapras_scraper.py:125-137 | each missing handle is created and the others are kept |
| RaprasScraper.RaprasAgent.RestoreSession | modules/scraper/rapras_scraper.py:139-157 | the result and the new handles are those of the restore reference |
| RaprasScraper.RaprasAgent.IsLoggedIn | modules/scraper/rapras_scraper.py:189-207 | true exactly when there is a page and the logout-link lookup finds one; a failing lookup gives false |
| RaprasScraper.RaprasAgent.Close | modules/scraper/rapras_scraper.py:209-231 | releases page, context, browser and Playwright in that order; a failure is swallowed and ends the release at that handle |
| RaprasScraper.RaprasAgent.RunAttempt | modules/scraper/rapras_scraper.py:66-99 | one pass of the loop body gives the reference outcome and state: restore, check, close the restored browser, launch, log in, check, save |
| RaprasScraper.RaprasAgent.Login | modules/scraper/rapras_scraper.py:50-123 | the run, its sleeps and the final state are those of the retry machine over the given attempts |
| RaprasScraper.RaprasAgent.FetchSellerLinks | modules/scraper/rapras_scraper.py:237-318 | without a page, a `RuntimeError`; an exception opening the ranking page, listing its rows or reading a row's cells (other than the `ValueError` and `AttributeError` that skip a row) is raised again unchanged; otherwise the entries of the kept rows, in row order |
| RaprasScraper.RetryDelaysValues | modules/scraper/rapras_scraper.py:45 | the agent's schedule is 2, 4, 8 seconds |
| RaprasScraper.KeptRowIff | modules/scraper/rapras_scraper.py:272-304 | a row is kept exactly when it has a name cell and a price cell, the price parses after dropping `,` and `円`, the price is at least the floor, and there is a link cell; the entry holds the name, the parsed price and the link |
| RaprasScraper.SellerLinksAppend | modules/scraper/rapras_scraper.py:272-308 | the filter works row by row, so the entries of two runs of rows are those of the first followed by those of the second |
| RaprasScraper.SellerLinksBounds | modules/scraper/rapras_scraper.py:290-304 | there are never more entries than rows, and every entry clears the floor |
| RaprasScraper.IntStringChars | modules/scraper/rapras_scraper.py:287 | `str(n)` is made of digits and at most a leading `-` |
| RaprasScraper.DropSeparators | modules/scraper/rapras_scraper.py:287 | dropping `,` and `円` from a text that has neither, followed by `円`, gives the text back |
| RaprasScraper.ParsePriceOfYen | modules/scraper/rapras_scraper.py:287 | a price written as `str(n)` followed by `円` parses to `n` |
| RaprasScraper.PriceFloorInclusive | modules/scraper/rapras_scraper.py:290-294 | a row priced exactly at the floor is kept, and one priced one below it is dropped |
| RaprasScraper.AggregationUrlParts | modules/scraper/rapras_scraper.py:258-262 | the ranking URL starts with the site URL and ends with the end date |
| RaprasScraper.RestoredSessionSkipsLogin | modules/scraper/rapras_scraper.py:69-75 | a restored session that passes the check succeeds without touching the session file, whatever the login page would do |
| RaprasScraper.FreshLoginSavesSession | modules/scraper/rapras_scraper.py:69-99 | when the attempt does not end with a restored session that passes the check (no session file, a failed restore, or a restored page that fails the check), a fresh login that passes the check saves the cookies under `rapras` and the next load gives them back; when reading the cookies raises, the attempt raises that exception and writes nothing |
| RaprasScraper.FailedAttemptKeepsFiles | modules/scraper/rapras_scraper.py:69-104 | an attempt that does not pass the check leaves the session files unchanged |
| RaprasScraper.AttemptLeavesBrowserOpen | modules/scraper/rapras_scraper.py:69-82 | every attempt ends with every browser handle set |
| RaprasScraper.LoginSchedule | modules/scraper/rapras_scraper.py:43-123 | `login` makes one to three attempts and sleeps the first entries of 2, 4; a failed login slept 2 then 4 |
| YahooScraper.MissingProxyKeysIff | modules/scraper/yahoo_scraper.py:49-52 | no key is missing exactly when `url`, `username` and `password` are all present, and the missing keys are exactly the absent required ones |
| YahooScraper.NewYahooAgent | modules/scraper/yahoo_scraper.py:28-66 | the constructor raises `ValueError` exactly when a required proxy key is missing, naming exactly those keys; otherwise it gives a new agent without handles |
| YahooScraper.YahooAgent.constructor | modules/scraper/yahoo_scraper.py:54-66 | an agent over the store and proxy configuration, holding no browser handle |
| YahooScraper.VerifyProxyIff | modules/scraper/yahoo_scraper.py:169-242 | the proxy check passes exactly when the browser starts, Google opens, and the IP page either fails (which is only logged) or shows `164.70.96.2` once stripped; a different address is named in the error |
| YahooScraper.IpCheckStrips | modules/scraper/yahoo_scraper.py:213-226 | whitespace around the expected address is accepted, and an empty or missing body is a mismatch |
| YahooScraper.PromptForSmsCode | modules/scraper/yahoo_scraper.py:359-388 | returns the reference SMS result |
| YahooScraper.SmsCodeCases | modules/scraper/yahoo_scraper.py:376-388 | a timeout raises the SMS `TimeoutError`, and a blank entry raises `ValueError`; otherwise the code is the stripped entry, non-empty, with no whitespace at either end |
| YahooScraper.SmsCodeStable | modules/scraper/yahoo_scraper.py:380-384 | an accepted code, typed again as returned, is accepted unchanged |
| YahooScraper.FirstFound | modules/scraper/yahoo_scraper.py:405-412 | the index of the first selector whose lookup finds a field: no earlier one finds one, and the result is the list's length when none does |
| YahooScraper.FillSmsCode | modules/scraper/yahoo_scraper.py:390-465 | returns the reference submission |
| YahooScraper.SmsSubmissionFirstWorking | modules/scraper/yahoo_scraper.py:396-458 | the code is filled at the first field found and submitted by the first way that works: by role, else submit, else Enter. The submission succeeds exactly when a field is found, filling completes, one way works and the page settles |
| YahooScraper.FirstIndicatorFound | modules/scraper/yahoo_scraper.py:498-513 | when no lookup fails, the indicators decide exactly when one of them is found, and then they decide "logged in" |
| YahooScraper.LoggedInVerdictIff | modules/scraper/yahoo_scraper.py:477-527 | when no indicator lookup fails: logged in exactly when there is a page, the URL is not on the login host, and a logout link or user-menu element is found or the URL is on a Yahoo domain without a login form |
| YahooScraper.LoggedOutCases | modules/scraper/yahoo_scraper.py:483-527 | never logged in without a page or on the login host; a failing logout-link lookup means logged out; a found one means logged in |
| YahooScraper.FirstIndicatorDecides | modules/scraper/yahoo_scraper.py:498-513 | after lookups that find nothing, the next lookup decides: a raise gives "logged out", a find "logged in" |
| YahooScraper.LookupRaisesLoggedOut | modules/scraper/yahoo_scraper.py:498-527 | any exception in the cascade means logged out: an indicator lookup that raises after the earlier ones found nothing, and a login-form lookup that raises after no indicator is found |
| YahooScraper.YahooAgent.IsLoggedIn | modules/scraper/yahoo_scraper.py:477-527 | returns the cascade's verdict for the agent's page |
| YahooScraper.FirstNamed | modules/scraper/yahoo_scraper.py:605-610 | the index of the first selector whose element has non-empty text: no earlier one has, and the result is the list's length when none has |
| YahooScraper.ExtractSellerName | modules/scraper/yahoo_scraper.py:596-612 | returns the reference seller name |
| YahooScraper.SellerNameCases | modules/scraper/yahoo_scraper.py:603-612 | without any non-empty text the name is `不明なセラー`; otherwise it is the stripped text of the first selector whose element has a non-empty text, the more specific selector first, so a whitespace-only text gives `""` |
| YahooScraper.ExtractProductTitles | modules/scraper/yahoo_scraper.py:614-638 | returns the reference titles: the stripped texts of those elements whose text is non-empty, among the first `max_products` elements of the first selector that matches; a whitespace-only text gives `""` |
| YahooScraper.TitlesOfAppend | modules/scraper/yahoo_scraper.py:633-636 | titles are read element by element, so the titles of two runs of elements are those of the first followed by those of the second |
| YahooScraper.TitlesOfBounds | modules/scraper/yahoo_scraper.py:633-636 | never more titles than elements; when every text is non-empty there is one title per element, and when none is there are no titles |
| YahooScraper.ProductTitlesCapped | modules/scraper/yahoo_scraper.py:633 | with a non-negative cap there are at most `max_products` titles |
| YahooScraper.ProductSelectorFallback | modules/scraper/yahoo_scraper.py:624-630 | the product-title selector is used whenever it matches, and the generic title selector only when it does not |
| YahooScraper.FirstLoaded | modules/scraper/yahoo_scraper.py:550-588 | the index of the first fetch attempt that opens the page: every earlier one raised, and the result is 3 when none opens it |
| YahooScraper.FetchProductsSpec | modules/scraper/yahoo_scraper.py:548-594 | a successful fetch echoes the URL asked for. A failure happens exactly when all three attempts raise; it comes after exactly two sleeps, is caused by the third exception and names the URL. There are never more than two sleeps |
| YahooScraper.YahooAgent.FetchSellerProducts | modules/scraper/yahoo_scraper.py:529-594 | the result and the sleeps are the reference fetch, and the browser is launched when there was no page, else left as it was |
| YahooScraper.ProxyCheckRunsOnce | modules/scraper/yahoo_scraper.py:82-90 | a failed proxy check raises its error with no attempt, no sleep and no change of state; a passing one leads to one to three attempts that never raise the proxy error |
| YahooScraper.FreshLoginSavesSession | modules/scraper/yahoo_scraper.py:91-143 | when the attempt does not end with a restored session that passes the check, a fresh login whose code is accepted and whose final page passes the check validates and saves the cookies so that they load under `yahoo`; when reading the cookies raises, the attempt raises that exception and writes nothing |
| YahooScraper.SmsFailuresRaise | modules/scraper/yahoo_scraper.py:91-121 | when the attempt goes on to a fresh login, a timed-out SMS entry ends it with the SMS timeout, and a blank one with the `ValueError` |
| YahooScraper.FailedAttemptKeepsFiles | modules/scraper/yahoo_scraper.py:91-148 | an attempt that does not pass the check leaves the session files unchanged, and a restored session that passes ends the attempt without writing |
| YahooScraper.YahooAgent.LaunchBrowserWithProxy | modules/scraper/yahoo_scraper.py:269-292 | each missing handle is created and the others are kept |
| YahooScraper.YahooAgent.RestoreSession | modules/scraper/yahoo_scraper.py:294-312 | the result and the new handles are those of the restore reference |
| YahooScraper.YahooAgent.Close | modules/scraper/yahoo_scraper.py:640-662 | releases page, context, browser and Playwright in that order; a failure is swallowed and ends the release |
| YahooScraper.YahooAgent.EnterCode | modules/scraper/yahoo_scraper.py:108-121 | opening the login page, the SMS prompt and the code form give the reference submission or the first exception |
| YahooScraper.YahooAgent.FreshLogin | modules/scraper/yahoo_scraper.py:104-148 | the outcome and the new state are the reference fresh login: launch, enter the code, check the final page, save on success |
| YahooScraper.YahooAgent.RunAttempt | modules/scraper/yahoo_scraper.py:91-148 | one pass of the loop body gives the reference outcome and state; a restored session that fails the check is not closed |
| YahooScraper.YahooAgent.Login | modules/scraper/yahoo_scraper.py:68-167 | the run and the final state are the proxy check followed by the retry machine with delays 2, 4, 8 |
| AnimeFilter.ExtractTitleWordsSplit | modules/analyzer/anime_filter.py:37-48 | the extract splits back into at most `max_words` of the title's own words, in order, and into all of them when the title has fewer |
| AnimeFilter.ExtractTitleWordsBlank | modules/analyzer/anime_filter.py:37-91 | the extract is blank exactly when the title has no words |
| AnimeFilter.ParseGeminiResponse | modules/analyzer/anime_filter.py:50-71 | True exactly when no negative marker (いいえ, ではありません, ではない) occurs and はい or アニメ does; any negative marker forces False |
| AnimeFilter.IsAnimeTitleOutcome | modules/analyzer/anime_filter.py:73-117 | a title without words answers False and does not run the tool. Any other title runs it, and the answer is an error exactly when the run fails or times out, and the parsed stripped reply when it completes |
| AnimeFilter.BlankTitleSkipsOracle | modules/analyzer/anime_filter.py:86-91 | a title without words answers False whatever the tool would say |
| AnimeFilter.ScanTitles | modules/analyzer/anime_filter.py:143-158 | the tool runs at most once per classified title, at most every title is classified, and a non-empty list classifies at least one |
| AnimeFilter.ScanPositiveIff | modules/analyzer/anime_filter.py:143-158 | a seller is positive exactly when one of its titles classifies True; errors and negatives never make it positive |
| AnimeFilter.ScanStopsAtFirstPositive | modules/analyzer/anime_filter.py:146-153 | when the first positive title is at index k, exactly k+1 titles are classified and the seller is positive |
| AnimeFilter.ScanWithoutPositive | modules/analyzer/anime_filter.py:143-158 | without a positive title every title is classified and the seller is negative; this covers no titles and titles that all error |
| AnimeFilter.CountConsulting | modules/analyzer/anime_filter.py:89-91 | no more titles run the tool than there are titles |
| AnimeFilter.ScanInvocations | modules/analyzer/anime_filter.py:86-158 | the tool runs once for each classified title that has words, and for no other |
| AnimeFilter.CountConsultingAll | modules/analyzer/anime_filter.py:146-153 | when every title has words, the tool runs once per classified title |
| AnimeFilter.ScanSellerTitles | modules/analyzer/anime_filter.py:143-158 | the title loop gives the reference verdict and the reference count of tool runs |
| AnimeFilter.ClassifySeller | modules/analyzer/anime_filter.py:136-166 | the record has the seller's name (default "Unknown"), URL (default "") and verdict, and the count is the seller's tool runs |
| AnimeFilter.ClassifySellers | modules/analyzer/anime_filter.py:134-172 | one record per seller, in input order, each the reference record, with each seller's number of tool runs |
| AnimeFilter.FilterSellers | modules/analyzer/anime_filter.py:119-172 | `filter_sellers` gives one record per seller, in input order, classified through the Gemini tool, with the number of tool runs per seller |
| CsvExporter.FlagText | modules/storage/csv_exporter.py:53-68 | the cell is one of はい, いいえ, 未判定 |
| CsvExporter.FlagRoundTrip | modules/storage/csv_exporter.py:63-68 | reading the cell back gives the flag |
| CsvExporter.FlagTextInjective | modules/storage/csv_exporter.py:63-68 | two flags share a cell text exactly when they are equal: True, False and undetermined stay apart |
| CsvExporter.Column | modules/storage/csv_exporter.py:110-143 | a column exists exactly when every seller has the key; it then holds each seller's value, in seller order |
| CsvExporter.Rows | modules/storage/csv_exporter.py:110-116 | row `i` of the DataFrame holds the `i`-th cell of each column |
| CsvExporter.FlagColumn | modules/storage/csv_exporter.py:141 | the flag column holds each seller's flag text, in seller order |
| CsvExporter.Undetermined | modules/storage/csv_exporter.py:114 | the intermediate flag column is 未判定 for every seller |
| CsvExporter.IntermediateTableContents | modules/storage/csv_exporter.py:92-117 | the intermediate table fails exactly when a key is missing, naming `seller_name` first. Otherwise it has the header セラー名, セラーページURL, 二次創作 and one row per seller in input order: the name, the URL and 未判定 |
| CsvExporter.FinalTableContents | modules/storage/csv_exporter.py:119-144 | the final table fails exactly when a key is missing, naming it. Otherwise it has the same header and one row per seller in input order, with the name, the URL and a flag cell that reads back as the seller's flag |
| CsvExporter.EmptyExports | modules/storage/csv_exporter.py:110-143 | without sellers both tables hold the header and no row |
| CsvExporter.FinalWithoutFlagsIsIntermediate | modules/storage/csv_exporter.py:110-143 | for sellers without flags the final table is the intermediate one |
| CsvExporter.Padded | modules/storage/csv_exporter.py:49 | a zero-padded field has exactly the width, all digits |
| CsvExporter.PaddedValue | modules/storage/csv_exporter.py:49 | a zero-padded field reads back as its value |
| CsvExporter.Timestamp | modules/storage/csv_exporter.py:49 | the stamp is 15 characters: digits, with `_` at position 8 |
| CsvExporter.TimestampFields | modules/storage/csv_exporter.py:49 | year, month, day, hour, minute and second sit at positions 0-3, 4-5, 6-7, 9-10, 11-12 and 13-14 |
| CsvExporter.TimestampRoundTrip | modules/storage/csv_exporter.py:49 | parsing the stamp gives the time back |
| CsvExporter.FilenameRoundTrip | modules/storage/csv_exporter.py:49-50 | the file name `sellers_{stamp}{suffix}.csv` parses back into the time and the suffix |
| CsvExporter.ExportsNeverCollide | modules/storage/csv_exporter.py:50-136 | an intermediate and a final export never share a file name |
| CsvExporter.GenerateFilepath | modules/storage/csv_exporter.py:39-51 | the path ends with the file name, and is the directory followed by the name when the directory ends with `/` |
| CsvExporter.SaveCsv | modules/storage/csv_exporter.py:70-90 | the save succeeds exactly when the write does, returning the path; a failure is an `IOError` whose message is `CSV書き込み失敗: ` followed by the path |
| CsvExporter.ExportOutcomes | modules/storage/csv_exporter.py:92-144 | an export succeeds exactly when no key is missing and the write succeeds. It then writes its table to a file whose name parses back to the time and the suffix: none for the intermediate export, `_final` for the final one. A missing key gives the `KeyError` |
| Text.Strip | modules/analyzer/anime_filter.py:89-106 | the result is empty exactly when the text is all whitespace; otherwise it is the text without its leading and trailing whitespace, beginning and ending with a non-space |
| Text.StripIdempotent | modules/scraper/yahoo_scraper.py:380-384 | stripping twice is stripping once |
| Text.StripPadded | modules/scraper/yahoo_scraper.py:216 | whitespace around a text whose ends are not whitespace is removed exactly |
| Text.Split | modules/analyzer/anime_filter.py:47 | every piece of `str.split()` is a non-empty word without whitespace |
| Text.SplitJoin | modules/analyzer/anime_filter.py:47-48 | splitting words joined by single spaces gives the words back |
| Text.JoinAllSpace | modules/analyzer/anime_filter.py:48-89 | words joined by single spaces are blank only when there are none |
| Text.SliceTo | modules/analyzer/anime_filter.py:48 | `s[:n]` is the first `n` elements for a non-negative `n` and drops `-n` from the end for a negative one |
| Text.DecimalStringValue | modules/scraper/rapras_scraper.py:287 | a number's decimal digits read back as the number |
| Text.ParseIntDigits | modules/scraper/rapras_scraper.py:287 | `int` of a digit string is its value |
| Text.ParseIntString | modules/scraper/rapras_scraper.py:287 | `int(str(n)) == n` for every integer |
| Text.RemoveChar | modules/scraper/rapras_scraper.py:287 | `replace(c, "")` leaves no `c` and never lengthens the text |
| Text.RemoveCharAppend | modules/scraper/rapras_scraper.py:287 | removing a character works piece by piece |
| Text.RemoveCharAbsent | modules/scraper/rapras_scraper.py:287 | removing a character that does not occur changes nothing |

## Left out

- Browser automation is a set of inputs. Playwright launching, navigation, `wait_for_load_state`, selectors, `add_cookies` and `context.cookies()` become observations; the four handles become bools.
- An exception raised inside a `try` body is recorded once, as the first exception of that body, not at the call that raises it. In a login attempt, `login` (Rapras) and `toSms` (Yahoo) stand for any exception from launching the browser to clicking the button. In `fetch_seller_links`, `navigation` stands for any exception from opening the page to reading a row's cells other than the `ValueError` and `AttributeError` that skip a row; one from a row cell aborts the fetch as a failed page load does. In `fetch_seller_products`, `navigation` stands for any exception from launching the browser, opening the seller page or reading the seller name and titles, and every such exception is retried. Each of these ends in the same outcome as the modelled raise.
- A launch that fails part-way is not modelled. `_launch_browser` and `_launch_browser_with_proxy` always create every missing handle. The temporary proxy-check browser's launch failure is modelled.
- The 30-second navigation timeouts, the 5-second and 3-second button waits and the 2-second sleep after the SMS code are not modelled. The model records only the backoff sleeps; a timeout is an observation (`Timeout` versus `Failure`).
- Playwright's own `TimeoutError` does not derive from the built-in `TimeoutError` that `except TimeoutError` catches. The model sorts exceptions by which `except` clause catches them, and takes that as given.
- `Locator.wait_for` returns `None`, so the `if button:` branches after it never click in the real library. The model takes the lookup result as given.
- The passkey and "send code" buttons are not modelled. `_click_send_sms_button` swallows their failures, so only the first `次へ` click is an observation.
- `asyncio.wait_for`, `to_thread(input)` and the console prompts of `_prompt_for_sms_code` are not modelled. The keyboard entry or its timeout is an input.
- Logging is left out: it has no effect on results.
- The `gemini` subprocess is an oracle from prompt to outcome, and its command line and model name are not modelled. `filter_sellers` catches only `GeminiAPIError` from `is_anime_title`; other exceptions are not modelled.
- The file system is a map from path to content: `mkdir`, JSON serialisation, the file encoding, `os.makedirs`, pandas `to_csv` and the UTF-8 BOM. A corrupt file and the three disk failures are inputs.
- SessionManager.LoadNoneCases: a `Corrupt` file always loads as `None`. A file that is not valid UTF-8, such as a write that broke off inside a multi-byte character written with `ensure_ascii=False`, makes `json.load` raise `UnicodeDecodeError`, which `load_session` does not catch. Both agents' `_restore_session` catch every exception, so the attempt restores nothing either way.
- `datetime.now()` is an argument. Years are limited to four digits.
- The proxy configuration error keeps its missing keys as a set, because Python's message prints the set in no fixed order. The exact message text is not modelled.
- Text.ParseInt: does not accept non-ASCII decimal digits (for example full-width `１`) that Python's `int` accepts; it follows `int` on ASCII digits, signs, `_` separators and surrounding whitespace.
- SessionManager.SessionPathInjective: is stated for service names that do not start with `/`. An absolute name makes `Path` discard the directory. The model also joins the name as written, while `Path` collapses `//` and `/./` inside it, so Python gives `a//b` and `a/b` the same file where the model keeps them apart.
- YahooScraper.YahooAgent.constructor: requires the proxy keys to be present. The raising path of the Python constructor is `NewYahooAgent`.
- The headless flag and the login and auctions URLs are kept as fields but do not affect the model.
- The seller pipeline in `main.py` and the concurrency around it are not part of this model. Neither are the logger, the data-only modules, or the demo scripts `sample.py` and `back.py`.
