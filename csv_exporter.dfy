/** The CSV exporter: three columns built from the seller list, a
    tri-state flag rendered as Japanese text, a timestamped file name, and
    a write failure reported as an `IOError`. The write itself is an input. */
module CsvExporter {
  import opened Wrappers
  import opened Text

  const DefaultOutputDir: string := "output/"

  const NameHeader: string := "セラー名"
  const UrlHeader: string := "セラーページURL"
  const FlagHeader: string := "二次創作"
  const Header: seq<string> := [NameHeader, UrlHeader, FlagHeader]

  const FlagYes: string := "はい"
  const FlagNo: string := "いいえ"
  const FlagUndetermined: string := "未判定"

  const IntermediateSuffix: string := ""
  const FinalSuffix: string := "_final"

  const WriteFailurePrefix: string := "CSV書き込み失敗: "

  /** A seller as the exporter receives it. `isAnimeSeller` is `Some(b)`
      only when the key holds the boolean `b`; a missing key, `None` and
      any other value all read as `None`. */
  datatype ExportRecord = ExportRecord(
    sellerName: Option<string>,
    sellerUrl: Option<string>,
    isAnimeSeller: Option<bool>)

  /** The two keys the columns index with `s[key]`. */
  datatype Key = SellerName | SellerUrl

  function KeyName(key: Key): string {
    match key
    case SellerName => "seller_name"
    case SellerUrl => "seller_url"
  }

  datatype ExportError = KeyError(key: string) | IOError(message: string)

  /** A table as pandas writes it: a header line, then one line per row. */
  datatype Table = Table(header: seq<string>, rows: seq<seq<string>>)

  /** A file the exporter wrote, and its content. */
  datatype CsvFile = CsvFile(path: string, table: Table)

  // ---------------------------------------------------------------- flag

  /** `_map_is_anime_seller`. */
  function FlagText(value: Option<bool>): (t: string)
    ensures t in {FlagYes, FlagNo, FlagUndetermined}
  {
    match value
    case Some(true) => FlagYes
    case Some(false) => FlagNo
    case None => FlagUndetermined
  }

  /** Reading a 二次創作 cell back. */
  function ParseFlag(t: string): Option<Option<bool>> {
    if t == FlagYes then Some(Some(true))
    else if t == FlagNo then Some(Some(false))
    else if t == FlagUndetermined then Some(None)
    else None
  }

  /** The cell text tells the three states apart: reading it back gives
      the flag, so distinct flags never share a cell text. */
  lemma FlagRoundTrip(value: Option<bool>)
    ensures ParseFlag(FlagText(value)) == Some(value)
  {
  }

  lemma FlagTextInjective(v1: Option<bool>, v2: Option<bool>)
    ensures FlagText(v1) == FlagText(v2) <==> v1 == v2
  {
    FlagRoundTrip(v1);
    FlagRoundTrip(v2);
  }

  // ------------------------------------------------------------- columns

  function Field(s: ExportRecord, key: Key): Option<string> {
    match key
    case SellerName => s.sellerName
    case SellerUrl => s.sellerUrl
  }

  predicate HasKey(sellers: seq<ExportRecord>, key: Key) {
    forall i :: 0 <= i < |sellers| ==> Field(sellers[i], key).Some?
  }

  /** `[s[key] for s in sellers]`: the key's values in seller order, or
      `None` when some seller lacks the key (Python raises `KeyError`). */
  function Column(sellers: seq<ExportRecord>, key: Key): (c: Option<seq<string>>)
    ensures c.Some? <==> HasKey(sellers, key)
    ensures c.Some? ==> |c.value| == |sellers|
                        && forall i :: 0 <= i < |sellers| ==> c.value[i] == Field(sellers[i], key).value
  {
    if sellers == [] then Some([])
    else
      match Field(sellers[0], key)
      case None => None
      case Some(v) =>
        match Column(sellers[1..], key)
        case None =>
          assert !Field(sellers[1..][0], key).Some? || !HasKey(sellers[1..], key);
          None
        case Some(rest) => Some([v] + rest)
  }

  /** `pd.DataFrame({...})` from three equally long columns: row `i` holds
      the `i`-th cell of each. */
  function Rows(names: seq<string>, urls: seq<string>, flags: seq<string>): (rows: seq<seq<string>>)
    requires |names| == |urls| == |flags|
    ensures |rows| == |names|
    ensures forall i :: 0 <= i < |rows| ==> rows[i] == [names[i], urls[i], flags[i]]
  {
    if names == [] then []
    else [[names[0], urls[0], flags[0]]] + Rows(names[1..], urls[1..], flags[1..])
  }

  function FlagColumn(sellers: seq<ExportRecord>): (c: seq<string>)
    ensures |c| == |sellers|
    ensures forall i :: 0 <= i < |sellers| ==> c[i] == FlagText(sellers[i].isAnimeSeller)
  {
    if sellers == [] then [] else [FlagText(sellers[0].isAnimeSeller)] + FlagColumn(sellers[1..])
  }

  function Undetermined(n: nat): (c: seq<string>)
    ensures |c| == n && forall i :: 0 <= i < n ==> c[i] == FlagUndetermined
  {
    if n == 0 then [] else Undetermined(n - 1) + [FlagUndetermined]
  }

  /** The DataFrame of either export. The name column is built before the
      URL column, so a missing `seller_name` anywhere is reported first. */
  function BuildTable(sellers: seq<ExportRecord>, flags: seq<string>): Result<Table, ExportError>
    requires |flags| == |sellers|
  {
    match Column(sellers, SellerName)
    case None => Err(KeyError(KeyName(SellerName)))
    case Some(names) =>
      match Column(sellers, SellerUrl)
      case None => Err(KeyError(KeyName(SellerUrl)))
      case Some(urls) => Ok(Table(Header, Rows(names, urls, flags)))
  }

  /** The table of `export_intermediate_csv`. */
  function IntermediateTable(sellers: seq<ExportRecord>): Result<Table, ExportError> {
    BuildTable(sellers, Undetermined(|sellers|))
  }

  /** The table of `export_final_csv`. */
  function FinalTable(sellers: seq<ExportRecord>): Result<Table, ExportError> {
    BuildTable(sellers, FlagColumn(sellers))
  }

  /** Which `KeyError` a seller list raises, if any: `seller_name` when any
      seller lacks it, else `seller_url` when any seller lacks that. */
  function MissingKey(sellers: seq<ExportRecord>): Option<string> {
    if !HasKey(sellers, SellerName) then Some("seller_name")
    else if !HasKey(sellers, SellerUrl) then Some("seller_url")
    else None
  }

  /** The intermediate table: the fixed header, then one row per seller in
      input order with its name, its URL and "未判定"; the export fails
      exactly when a key is missing, naming it. */
  lemma IntermediateTableContents(sellers: seq<ExportRecord>)
    ensures var r := IntermediateTable(sellers);
            && (r.Err? <==> MissingKey(sellers).Some?)
            && (r.Err? ==> r.error == KeyError(MissingKey(sellers).value))
            && (r.Ok? ==>
                  && r.value.header == [NameHeader, UrlHeader, FlagHeader]
                  && |r.value.rows| == |sellers|
                  && forall i :: 0 <= i < |sellers| ==>
                       r.value.rows[i]
                       == [sellers[i].sellerName.value, sellers[i].sellerUrl.value, FlagUndetermined])
  {
  }

  /** The final table: as the intermediate one, but the 二次創作 cell is
      the flag's text, "未判定" when the flag is missing or not a boolean. */
  lemma FinalTableContents(sellers: seq<ExportRecord>)
    ensures var r := FinalTable(sellers);
            && (r.Err? <==> MissingKey(sellers).Some?)
            && (r.Err? ==> r.error == KeyError(MissingKey(sellers).value))
            && (r.Ok? ==>
                  && r.value.header == [NameHeader, UrlHeader, FlagHeader]
                  && |r.value.rows| == |sellers|
                  && forall i :: 0 <= i < |sellers| ==>
                       && r.value.rows[i][..2] == [sellers[i].sellerName.value, sellers[i].sellerUrl.value]
                       && ParseFlag(r.value.rows[i][2]) == Some(sellers[i].isAnimeSeller))
  {
    if FinalTable(sellers).Ok? {
      var t := FinalTable(sellers).value;
      forall i | 0 <= i < |sellers|
        ensures t.rows[i][..2] == [sellers[i].sellerName.value, sellers[i].sellerUrl.value]
        ensures ParseFlag(t.rows[i][2]) == Some(sellers[i].isAnimeSeller)
      {
        FlagRoundTrip(sellers[i].isAnimeSeller);
      }
    }
  }

  /** Without sellers both exports hold the header and no rows. */
  lemma EmptyExports()
    ensures IntermediateTable([]) == Ok(Table(Header, []))
    ensures FinalTable([]) == Ok(Table(Header, []))
  {
  }

  /** Both exports agree on everything but the 二次創作 column: the final
      table of sellers that carry no flag is the intermediate table. */
  lemma FinalWithoutFlagsIsIntermediate(sellers: seq<ExportRecord>)
    requires forall i :: 0 <= i < |sellers| ==> sellers[i].isAnimeSeller.None?
    ensures FinalTable(sellers) == IntermediateTable(sellers)
  {
    assert FlagColumn(sellers) == Undetermined(|sellers|);
  }

  // ------------------------------------------------------------ file name

  /** A `datetime` as `strftime("%Y%m%d_%H%M%S")` reads it. */
  datatype DateTime = DateTime(year: int, month: int, day: int, hour: int, minute: int, second: int)

  /** Field ranges of a `datetime`, limited to four-digit years. */
  predicate ValidDateTime(t: DateTime) {
    && 1000 <= t.year <= 9999 && 1 <= t.month <= 12 && 1 <= t.day <= 31
    && 0 <= t.hour <= 23 && 0 <= t.minute <= 59 && 0 <= t.second <= 59
  }

  /** `n` in decimal, zero-padded to `width` digits. */
  function Padded(n: nat, width: nat): (s: string)
    ensures |s| == width
    ensures forall i :: 0 <= i < |s| ==> IsDigit(s[i])
  {
    if width == 0 then "" else Padded(n / 10, width - 1) + [DigitChar(n % 10)]
  }

  lemma {:induction false} PaddedValue(n: nat, width: nat)
    requires n < Pow10(width)
    ensures DecimalValue(Padded(n, width)) == n
  {
    if width > 0 {
      var s := Padded(n, width);
      assert s[..|s| - 1] == Padded(n / 10, width - 1);
      PaddedValue(n / 10, width - 1);
    }
  }

  function Pow10(k: nat): nat {
    if k == 0 then 1 else 10 * Pow10(k - 1)
  }

  /** `strftime("%Y%m%d_%H%M%S")`. */
  function Timestamp(t: DateTime): (s: string)
    requires ValidDateTime(t)
    ensures |s| == 15 && s[8] == '_'
    ensures forall i :: 0 <= i < 15 && i != 8 ==> IsDigit(s[i])
  {
    Padded(t.year, 4) + Padded(t.month, 2) + Padded(t.day, 2) + "_"
    + Padded(t.hour, 2) + Padded(t.minute, 2) + Padded(t.second, 2)
  }

  /** Reading a `%Y%m%d_%H%M%S` stamp back into its fields. */
  function ParseTimestamp(s: string): Option<DateTime> {
    if |s| == 15 && s[8] == '_' && (forall i :: 0 <= i < 15 && i != 8 ==> IsDigit(s[i])) then
      Some(DateTime(DecimalValue(s[0..4]), DecimalValue(s[4..6]), DecimalValue(s[6..8]),
                    DecimalValue(s[9..11]), DecimalValue(s[11..13]), DecimalValue(s[13..15])))
    else None
  }

  /** Where each field sits in the stamp. */
  lemma TimestampFields(t: DateTime)
    requires ValidDateTime(t)
    ensures var s := Timestamp(t);
            && s[0..4] == Padded(t.year, 4) && s[4..6] == Padded(t.month, 2)
            && s[6..8] == Padded(t.day, 2) && s[9..11] == Padded(t.hour, 2)
            && s[11..13] == Padded(t.minute, 2) && s[13..15] == Padded(t.second, 2)
  {
    var s := Timestamp(t);
    var date := Padded(t.year, 4) + Padded(t.month, 2) + Padded(t.day, 2);
    var time := Padded(t.hour, 2) + Padded(t.minute, 2) + Padded(t.second, 2);
    assert s == date + "_" + time;
    assert s[0..4] == date[0..4] == Padded(t.year, 4);
    assert s[4..6] == date[4..6] == Padded(t.month, 2);
    assert s[6..8] == date[6..8] == Padded(t.day, 2);
    assert s[9..11] == time[0..2] == Padded(t.hour, 2);
    assert s[11..13] == time[2..4] == Padded(t.minute, 2);
    assert s[13..15] == time[4..6] == Padded(t.second, 2);
  }

  /** The stamp keeps every field: parsing it gives the time back. */
  lemma TimestampRoundTrip(t: DateTime)
    requires ValidDateTime(t)
    ensures ParseTimestamp(Timestamp(t)) == Some(t)
  {
    assert Pow10(2) == 100 && Pow10(4) == 10000 by {
      assert Pow10(1) == 10;
      assert Pow10(3) == 1000;
    }
    TimestampFields(t);
    PaddedValue(t.year, 4);
    PaddedValue(t.month, 2);
    PaddedValue(t.day, 2);
    PaddedValue(t.hour, 2);
    PaddedValue(t.minute, 2);
    PaddedValue(t.second, 2);
  }

  /** `f"sellers_{timestamp}{suffix}.csv"`. */
  function Filename(t: DateTime, suffix: string): string
    requires ValidDateTime(t)
  {
    "sellers_" + Timestamp(t) + suffix + ".csv"
  }

  /** What a file name tells back: its time and its suffix. */
  function ParseFilename(name: string): Option<(DateTime, string)> {
    if |name| >= 27 && name[..8] == "sellers_" && name[|name| - 4..] == ".csv" then
      match ParseTimestamp(name[8..23])
      case Some(t) => Some((t, name[23..|name| - 4]))
      case None => None
    else None
  }

  /** The file name carries the time and the suffix: two exports get the
      same name only when both are equal. */
  lemma FilenameRoundTrip(t: DateTime, suffix: string)
    requires ValidDateTime(t)
    ensures ParseFilename(Filename(t, suffix)) == Some((t, suffix))
  {
    var name := Filename(t, suffix);
    assert name[..8] == "sellers_";
    assert name[8..23] == Timestamp(t);
    assert name[23..|name| - 4] == suffix;
    assert name[|name| - 4..] == ".csv";
    TimestampRoundTrip(t);
  }

  /** An intermediate and a final export never share a file name. */
  lemma ExportsNeverCollide(t1: DateTime, t2: DateTime)
    requires ValidDateTime(t1) && ValidDateTime(t2)
    ensures Filename(t1, IntermediateSuffix) != Filename(t2, FinalSuffix)
  {
    assert |Filename(t1, IntermediateSuffix)| == 27;
    assert |Filename(t2, FinalSuffix)| == 33;
  }

  /** `_generate_filepath`: the file name inside the output directory. */
  function GenerateFilepath(outputDir: string, now: DateTime, suffix: string): (path: string)
    requires ValidDateTime(now)
    ensures var name := Filename(now, suffix);
            |name| <= |path| && path[|path| - |name|..] == name
    ensures outputDir != [] && outputDir[|outputDir| - 1] == '/' ==> path == outputDir + Filename(now, suffix)
  {
    var name := Filename(now, suffix);
    assert name[0] == 's';
    JoinPath(outputDir, name)
  }

  // ---------------------------------------------------------------- write

  /** `_save_csv`: the path when the write succeeds, else an `IOError`
      naming the path. `writeFails` is the outcome of `to_csv`. */
  function SaveCsv(table: Table, path: string, writeFails: bool): (r: Result<CsvFile, ExportError>)
    ensures r.Ok? <==> !writeFails
    ensures r.Ok? ==> r.value == CsvFile(path, table)
    ensures r.Err? ==> r.error.IOError?
                       && |WriteFailurePrefix| <= |r.error.message|
                       && r.error.message[..|WriteFailurePrefix|] == WriteFailurePrefix
                       && r.error.message[|WriteFailurePrefix|..] == path
  {
    if writeFails then Err(IOError(WriteFailurePrefix + path)) else Ok(CsvFile(path, table))
  }

  /** A CSV exporter writing under `outputDir`. */
  datatype Exporter = Exporter(outputDir: string) {

    /** `export_intermediate_csv`, with the current time `now`. */
    function ExportIntermediateCsv(sellers: seq<ExportRecord>, now: DateTime, writeFails: bool)
      : Result<CsvFile, ExportError>
      requires ValidDateTime(now)
    {
      var path := GenerateFilepath(outputDir, now, IntermediateSuffix);
      match IntermediateTable(sellers)
      case Err(e) => Err(e)
      case Ok(table) => SaveCsv(table, path, writeFails)
    }

    /** `export_final_csv`, with the current time `now`. */
    function ExportFinalCsv(sellers: seq<ExportRecord>, now: DateTime, writeFails: bool)
      : Result<CsvFile, ExportError>
      requires ValidDateTime(now)
    {
      var path := GenerateFilepath(outputDir, now, FinalSuffix);
      match FinalTable(sellers)
      case Err(e) => Err(e)
      case Ok(table) => SaveCsv(table, path, writeFails)
    }
  }

  /** An export succeeds exactly when no key is missing and the write
      succeeds; it then writes the intermediate table to a file named by
      the time with no suffix, or the final table to one with `_final`. */
  lemma ExportOutcomes(e: Exporter, sellers: seq<ExportRecord>, now: DateTime, writeFails: bool)
    requires ValidDateTime(now)
    ensures var r := e.ExportIntermediateCsv(sellers, now, writeFails);
            && (r.Ok? <==> MissingKey(sellers).None? && !writeFails)
            && (r.Ok? ==> r.value.table == IntermediateTable(sellers).value
                          && ParseFilename(r.value.path[|r.value.path| - 27..]) == Some((now, IntermediateSuffix)))
            && (MissingKey(sellers).Some? ==> r == Err(KeyError(MissingKey(sellers).value)))
    ensures var r := e.ExportFinalCsv(sellers, now, writeFails);
            && (r.Ok? <==> MissingKey(sellers).None? && !writeFails)
            && (r.Ok? ==> r.value.table == FinalTable(sellers).value
                          && ParseFilename(r.value.path[|r.value.path| - 33..]) == Some((now, FinalSuffix)))
            && (MissingKey(sellers).Some? ==> r == Err(KeyError(MissingKey(sellers).value)))
  {
    IntermediateTableContents(sellers);
    FinalTableContents(sellers);
    FilenameRoundTrip(now, IntermediateSuffix);
    FilenameRoundTrip(now, FinalSuffix);
  }
}
