/** The anime-seller classifier: each product title is cut to its first two
    words, sent to the Gemini command-line tool as a yes/no question, and the
    reply is parsed; a seller is an anime seller as soon as one title is. */
module AnimeFilter {
  import opened Wrappers
  import opened Text

  /** Words of a title kept for the prompt (the default `max_words`). */
  const MaxTitleWords: int := 2

  const NegativeMarkers: seq<string> := ["いいえ", "ではありません", "ではない"]
  const AffirmativeMarker: string := "はい"
  const AnimeKeyword: string := "アニメ"

  const UnknownSellerName: string := "Unknown"

  /** What one run of `gemini -m <model> -p <prompt>` gives back: its
      standard output, a non-zero exit with its standard error, or the
      30-second timeout. */
  datatype CliOutcome = Completed(stdout: string) | NonZeroExit(stderr: string) | TimedOut

  /** The Gemini command-line tool, as a function from prompt to outcome. */
  type Oracle = string -> CliOutcome

  datatype GeminiApiError = GeminiApiError(message: string)

  /** A seller as the classifier receives it; each key may be missing. */
  datatype SellerInput = SellerInput(
    sellerName: Option<string>,
    sellerUrl: Option<string>,
    productTitles: Option<seq<string>>)

  /** A seller as the classifier returns it: exactly these three keys. */
  datatype ClassifiedSeller = ClassifiedSeller(sellerName: string, sellerUrl: string, isAnimeSeller: bool)

  /** The first `maxWords` whitespace-separated words of `title`, joined by
      single spaces. */
  function ExtractTitleWords(title: string, maxWords: int): (r: string) {
    Join(SliceTo(Split(title), maxWords), " ")
  }

  /** Splitting the extract gives back at most `maxWords` of the title's own
      words, in order: all of them when the title has fewer. */
  lemma ExtractTitleWordsSplit(title: string, maxWords: int)
    requires maxWords >= 0
    ensures var words := Split(title);
            var kept := Split(ExtractTitleWords(title, maxWords));
            && |kept| == (if |words| < maxWords then |words| else maxWords)
            && kept == words[..|kept|]
  {
    var kept := SliceTo(Split(title), maxWords);
    SplitJoin(kept);
  }

  /** The extract is blank exactly when the title has no words at all. */
  lemma ExtractTitleWordsBlank(title: string, maxWords: int)
    requires maxWords > 0
    ensures Strip(ExtractTitleWords(title, maxWords)) == [] <==> Split(title) == []
  {
    var kept := SliceTo(Split(title), maxWords);
    JoinAllSpace(kept);
  }

  predicate HasNegative(response: string) {
    exists k :: 0 <= k < |NegativeMarkers| && Contains(response, NegativeMarkers[k])
  }

  /** Reads the tool's reply: positive when it says "はい", or mentions
      "アニメ", and carries no negative marker. */
  function ParseGeminiResponse(response: string): (r: bool)
    ensures r <==> !HasNegative(response)
                   && (Contains(response, AffirmativeMarker) || Contains(response, AnimeKeyword))
    ensures HasNegative(response) ==> !r
  {
    var hasNegative := Contains(response, NegativeMarkers[0])
                       || Contains(response, NegativeMarkers[1])
                       || Contains(response, NegativeMarkers[2]);
    var hasPositive := Contains(response, AffirmativeMarker);
    if hasPositive && !hasNegative then true
    else if Contains(response, AnimeKeyword) && !hasNegative then true
    else false
  }

  const ExecutionFailedPrefix: string := "Gemini CLI execution failed: "
  const PromptPrefix: string := "このタイトルはアニメ作品ですか?(タイトル: "

  function Prompt(extracted: string): string {
    PromptPrefix + extracted + ")"
  }

  /** Whether classifying `title` runs the tool at all. */
  predicate Consults(title: string) {
    Strip(ExtractTitleWords(title, MaxTitleWords)) != []
  }

  /** `is_anime_title`: a blank extract answers False without the tool; a
      failing or timed-out run is an error, never a boolean. */
  function IsAnimeTitle(title: string, oracle: Oracle): Result<bool, GeminiApiError> {
    var extracted := ExtractTitleWords(title, MaxTitleWords);
    if Strip(extracted) == [] then Ok(false)
    else
      match oracle(Prompt(extracted))
      case Completed(out) => Ok(ParseGeminiResponse(Strip(out)))
      case NonZeroExit(err) => Err(GeminiApiError(ExecutionFailedPrefix + err))
      case TimedOut => Err(GeminiApiError("Gemini CLI timeout after 30 seconds"))
  }

  /** `is_anime_title`'s contract: a title without words answers False and
      never runs the tool; any other title runs it, and the answer is an
      error exactly when the run fails or times out, and the parsed reply
      when it completes. */
  lemma IsAnimeTitleOutcome(title: string, oracle: Oracle)
    ensures var r := IsAnimeTitle(title, oracle);
            var run := oracle(Prompt(ExtractTitleWords(title, MaxTitleWords)));
            && (Consults(title) <==> Split(title) != [])
            && (Split(title) == [] ==> r == Ok(false))
            && (Split(title) != [] ==> (r.Err? <==> !run.Completed?))
            && (Split(title) != [] && run.Completed? ==> r == Ok(ParseGeminiResponse(Strip(run.stdout))))
  {
    ExtractTitleWordsBlank(title, MaxTitleWords);
  }

  /** A title without words is classified without consulting the tool: the
      answer is False whatever the tool would have said. */
  lemma BlankTitleSkipsOracle(title: string, o1: Oracle, o2: Oracle)
    requires Split(title) == []
    ensures IsAnimeTitle(title, o1) == IsAnimeTitle(title, o2) == Ok(false)
  {
    ExtractTitleWordsBlank(title, MaxTitleWords);
  }

  /** `is_anime_title` for one title, as a value the seller loop applies
      together with the test for whether the title runs the tool. */
  type Classifier = string -> Result<bool, GeminiApiError>

  function TitleClassifier(oracle: Oracle): Classifier {
    title => IsAnimeTitle(title, oracle)
  }

  /** The outcome of scanning one seller's titles: whether a positive was
      found, how many titles were classified, how often the tool ran. */
  datatype Scan = Scan(positive: bool, checked: nat, invoked: nat)

  /** The title loop of `filter_sellers`, as a specification: classify in
      order, skip titles that error, stop at the first positive.
      `consults` tells which titles run the tool. */
  function ScanTitles(titles: seq<string>, classify: Classifier, consults: string -> bool): (s: Scan)
    ensures s.invoked <= s.checked <= |titles|
    ensures titles != [] ==> s.checked >= 1
    decreases |titles|
  {
    if titles == [] then Scan(false, 0, 0)
    else
      var used := if consults(titles[0]) then 1 else 0;
      if classify(titles[0]) == Ok(true) then Scan(true, 1, used)
      else
        var rest := ScanTitles(titles[1..], classify, consults);
        Scan(rest.positive, rest.checked + 1, rest.invoked + used)
  }

  predicate IsPositive(titles: seq<string>, classify: Classifier, k: int)
    requires 0 <= k < |titles|
  {
    classify(titles[k]) == Ok(true)
  }

  /** A seller is positive exactly when one of its titles is classified
      True; errors and negatives never make it positive. */
  lemma {:induction false} ScanPositiveIff(titles: seq<string>, classify: Classifier, consults: string -> bool)
    ensures ScanTitles(titles, classify, consults).positive
            <==> exists k :: 0 <= k < |titles| && IsPositive(titles, classify, k)
  {
    if titles != [] && !IsPositive(titles, classify, 0) {
      ScanPositiveIff(titles[1..], classify, consults);
      if exists k :: 0 <= k < |titles| && IsPositive(titles, classify, k) {
        var k :| 0 <= k < |titles| && IsPositive(titles, classify, k);
        assert IsPositive(titles[1..], classify, k - 1);
      }
      if exists k :: 0 <= k < |titles[1..]| && IsPositive(titles[1..], classify, k) {
        var k :| 0 <= k < |titles[1..]| && IsPositive(titles[1..], classify, k);
        assert IsPositive(titles, classify, k + 1);
      }
    }
  }

  /** Early exit: when the first positive title is at index `k`, exactly
      `k + 1` titles are classified and the seller is positive. */
  lemma {:induction false} ScanStopsAtFirstPositive(titles: seq<string>, classify: Classifier,
                                                    consults: string -> bool, k: nat)
    requires k < |titles| && IsPositive(titles, classify, k)
    requires forall j :: 0 <= j < k ==> !IsPositive(titles, classify, j)
    ensures ScanTitles(titles, classify, consults).positive
    ensures ScanTitles(titles, classify, consults).checked == k + 1
  {
    if k > 0 {
      assert !IsPositive(titles, classify, 0);
      forall j | 0 <= j < k - 1 ensures !IsPositive(titles[1..], classify, j) {
        assert !IsPositive(titles, classify, j + 1);
      }
      assert IsPositive(titles[1..], classify, k - 1);
      ScanStopsAtFirstPositive(titles[1..], classify, consults, k - 1);
    }
  }

  /** Without a positive title every title is classified, and the seller is
      negative: this covers no titles at all and titles that all error. */
  lemma {:induction false} ScanWithoutPositive(titles: seq<string>, classify: Classifier,
                                               consults: string -> bool)
    requires forall j :: 0 <= j < |titles| ==> !IsPositive(titles, classify, j)
    ensures !ScanTitles(titles, classify, consults).positive
    ensures ScanTitles(titles, classify, consults).checked == |titles|
  {
    if titles != [] {
      assert !IsPositive(titles, classify, 0);
      forall j | 0 <= j < |titles| - 1 ensures !IsPositive(titles[1..], classify, j) {
        assert !IsPositive(titles, classify, j + 1);
      }
      ScanWithoutPositive(titles[1..], classify, consults);
    }
  }

  /** The number of titles among `titles` that run the tool. */
  function CountConsulting(titles: seq<string>, consults: string -> bool): (n: nat)
    ensures n <= |titles|
  {
    if titles == [] then 0
    else (if consults(titles[0]) then 1 else 0) + CountConsulting(titles[1..], consults)
  }

  /** The tool runs once for every classified title that has words, and for
      no other. */
  lemma {:induction false} ScanInvocations(titles: seq<string>, classify: Classifier, consults: string -> bool)
    ensures var s := ScanTitles(titles, classify, consults);
            s.invoked == CountConsulting(titles[..s.checked], consults)
  {
    if titles != [] {
      var s := ScanTitles(titles, classify, consults);
      if classify(titles[0]) == Ok(true) {
        assert titles[..1][1..] == [];
      } else {
        ScanInvocations(titles[1..], classify, consults);
        assert titles[..s.checked][1..] == titles[1..][..s.checked - 1];
      }
    }
  }

  /** With every title non-blank the tool runs once per classified title. */
  lemma {:induction false} CountConsultingAll(titles: seq<string>, consults: string -> bool)
    requires forall j :: 0 <= j < |titles| ==> consults(titles[j])
    ensures CountConsulting(titles, consults) == |titles|
  {
    if titles != [] {
      CountConsultingAll(titles[1..], consults);
    }
  }

  /** The record `filter_sellers` emits for one seller when titles are
      classified by `classify`: missing keys become "Unknown", "" and no
      titles. */
  function ClassifiedWith(seller: SellerInput, classify: Classifier, consults: string -> bool): ClassifiedSeller {
    ClassifiedSeller(
      seller.sellerName.GetOr(UnknownSellerName),
      seller.sellerUrl.GetOr(""),
      ScanTitles(seller.productTitles.GetOr([]), classify, consults).positive)
  }

  /** The same record with titles classified through the Gemini CLI. */
  function Classified(seller: SellerInput, oracle: Oracle): ClassifiedSeller {
    ClassifiedWith(seller, TitleClassifier(oracle), Consults)
  }

  /** How many times the CLI runs for one seller. */
  function InvocationsFor(seller: SellerInput, classify: Classifier, consults: string -> bool): nat {
    ScanTitles(seller.productTitles.GetOr([]), classify, consults).invoked
  }

  /** The title loop of `filter_sellers` for one seller: classify titles in
      order, skip those that error, stop after the first True; also counts
      the titles that ran the tool. */
  method ScanSellerTitles(productTitles: seq<string>, isAnimeTitle: Classifier, consults: string -> bool)
    returns (isAnimeSeller: bool, calls: nat)
    ensures isAnimeSeller == ScanTitles(productTitles, isAnimeTitle, consults).positive
    ensures calls == ScanTitles(productTitles, isAnimeTitle, consults).invoked
  {
    isAnimeSeller, calls := false, 0;
    var idx: nat := 0;
    while idx < |productTitles|
      invariant 0 <= idx <= |productTitles|
      invariant !isAnimeSeller ==>
                  var rest := ScanTitles(productTitles[idx..], isAnimeTitle, consults);
                  ScanTitles(productTitles, isAnimeTitle, consults)
                  == Scan(rest.positive, idx + rest.checked, calls + rest.invoked)
      invariant isAnimeSeller ==> ScanTitles(productTitles, isAnimeTitle, consults) == Scan(true, idx, calls)
    {
      var title := productTitles[idx];
      assert productTitles[idx..][1..] == productTitles[idx + 1..];
      if consults(title) {
        calls := calls + 1;
      }
      var verdict := isAnimeTitle(title);
      idx := idx + 1;
      if verdict == Ok(true) {
        isAnimeSeller := true;
        break;
      }
    }
  }

  /** The body of `filter_sellers` for one seller. */
  method ClassifySeller(seller: SellerInput, isAnimeTitle: Classifier, consults: string -> bool)
    returns (record: ClassifiedSeller, calls: nat)
    ensures record == ClassifiedWith(seller, isAnimeTitle, consults)
    ensures calls == InvocationsFor(seller, isAnimeTitle, consults)
  {
    var sellerName := seller.sellerName.GetOr(UnknownSellerName);
    var productTitles := seller.productTitles.GetOr([]);
    var isAnimeSeller;
    isAnimeSeller, calls := ScanSellerTitles(productTitles, isAnimeTitle, consults);
    record := ClassifiedSeller(sellerName, seller.sellerUrl.GetOr(""), isAnimeSeller);
  }

  /** The seller loop of `filter_sellers` over the classifier `isAnimeTitle`. */
  method ClassifySellers(sellers: seq<SellerInput>, isAnimeTitle: Classifier, consults: string -> bool)
    returns (result: seq<ClassifiedSeller>, invocations: seq<nat>)
    ensures |result| == |sellers| && |invocations| == |sellers|
    ensures forall i :: 0 <= i < |sellers| ==> result[i] == ClassifiedWith(sellers[i], isAnimeTitle, consults)
    ensures forall i :: 0 <= i < |sellers| ==> invocations[i] == InvocationsFor(sellers[i], isAnimeTitle, consults)
  {
    result, invocations := [], [];
    for i := 0 to |sellers|
      invariant |result| == i && |invocations| == i
      invariant forall j :: 0 <= j < i ==> result[j] == ClassifiedWith(sellers[j], isAnimeTitle, consults)
      invariant forall j :: 0 <= j < i ==> invocations[j] == InvocationsFor(sellers[j], isAnimeTitle, consults)
    {
      var record, calls := ClassifySeller(sellers[i], isAnimeTitle, consults);
      result := result + [record];
      invocations := invocations + [calls];
    }
  }

  /** `filter_sellers`: one output record per seller, in input order, each
      classified through the Gemini CLI, and for each seller the number of
      times the CLI ran for it. */
  method FilterSellers(sellers: seq<SellerInput>, oracle: Oracle)
    returns (result: seq<ClassifiedSeller>, invocations: seq<nat>)
    ensures |result| == |sellers| && |invocations| == |sellers|
    ensures forall i :: 0 <= i < |sellers| ==> result[i] == Classified(sellers[i], oracle)
    ensures forall i :: 0 <= i < |sellers| ==>
              invocations[i] == InvocationsFor(sellers[i], TitleClassifier(oracle), Consults)
  {
    result, invocations := ClassifySellers(sellers, TitleClassifier(oracle), Consults);
  }
}
