/** The read-only block validator: it looks a block up by hash prefix and prints a
    report in one of two fixed text shapes. The database is an input: the outcomes of
    opening it, of the single-row query for a given pattern, and of closing it. */
module Validate {
  import opened Results
  import Decimal
  import FlatJson

  /** One row of the `chain` table. */
  datatype Block = Block(
    blockNumber: Decimal.I64,
    slotNumber: Decimal.I64,
    hash: string,
    prevHash: string,
    leaderVrf: string,
    orphaned: bool)

  /** A storage error, represented by its display text. */
  datatype DbError = DbError(message: string)

  /** What the database at the given path does: whether it opens, which row (or error)
      the `hash LIKE ?` query yields for each pattern, and whether it closes. */
  datatype Database = Database(
    open: Result<(), DbError>,
    queryRow: string -> Result<Block, DbError>,
    close: Result<(), DbError>)

  /** The search pattern: the hash the user gave, followed by one `%`. */
  function LikePattern(hash: string): (like: string)
    ensures |like| == |hash| + 1
    ensures like[..|like| - 1] == hash
    ensures like[|like| - 1] == '%'
  {
    hash + "%"
  }

  /** Opens the database, runs the query, then closes the database. A failed open is
      returned at once. A failed close replaces the query's outcome, even a found block.
      Otherwise the query's outcome is returned unchanged. */
  function QueryBlock(db: Database, like: string): (r: Result<Block, DbError>)
    ensures db.open.Err? ==> r == Err(db.open.error)
    ensures db.open.Ok? && db.close.Err? ==> r == Err(db.close.error)
    ensures db.open.Ok? && db.close.Ok? ==> r == db.queryRow(like)
    ensures r.Ok? <==> db.open.Ok? && db.close.Ok? && db.queryRow(like).Ok?
  {
    if db.open.Err? then Err(db.open.error)
    else if db.close.Err? then Err(db.close.error)
    else db.queryRow(like)
  }

  /** The status word of a found block. */
  function Status(b: Block): (status: string)
    ensures status == "orphaned" <==> b.orphaned
    ensures status == "ok" <==> !b.orphaned
  {
    if b.orphaned then "orphaned" else "ok"
  }

  /** The fields of the report, in the order they are printed. */
  function ReportFields(res: Result<Block, DbError>): (fs: seq<FlatJson.Field>)
    ensures res.Ok? ==>
      && |fs| == 6
      && fs[0].0 == "status" && fs[1].0 == "block_number" && fs[2].0 == "slot_number"
      && fs[3].0 == "hash" && fs[4].0 == "prev_hash" && fs[5].0 == "leader_vrf"
      && fs[0].1 == Status(res.value)
      && fs[1].1 == Decimal.IntText(res.value.blockNumber)
      && fs[2].1 == Decimal.IntText(res.value.slotNumber)
      && Decimal.ReadInt(fs[1].1) == Some(res.value.blockNumber)
      && Decimal.ReadInt(fs[2].1) == Some(res.value.slotNumber)
      && fs[3].1 == res.value.hash
      && fs[4].1 == res.value.prevHash
      && fs[5].1 == res.value.leaderVrf
    ensures res.Err? ==> fs == [("status", "error"), ("errorMessage", res.error.message)]
  {
    match res
    case Ok(b) =>
      Decimal.IntTextRoundTrip(b.blockNumber);
      Decimal.IntTextRoundTrip(b.slotNumber);
      [ ("status", Status(b)),
        ("block_number", Decimal.IntText(b.blockNumber)),
        ("slot_number", Decimal.IntText(b.slotNumber)),
        ("hash", b.hash),
        ("prev_hash", b.prevHash),
        ("leader_vrf", b.leaderVrf) ]
    case Err(e) =>
      [("status", "error"), ("errorMessage", e.message)]
  }

  /** The text `println!` writes for a lookup outcome, trailing line end included. */
  function RenderReport(res: Result<Block, DbError>): string {
    FlatJson.Render(ReportFields(res)) + "\n"
  }

  /** Recovers a lookup outcome from report fields, when they have one of the two report shapes. */
  function FieldsOutcome(fs: seq<FlatJson.Field>): Option<Result<Block, DbError>> {
    if |fs| == 2 && fs[0] == ("status", "error") && fs[1].0 == "errorMessage" then
      Some(Err(DbError(fs[1].1)))
    else if
      && |fs| == 6
      && fs[0].0 == "status" && (fs[0].1 == "ok" || fs[0].1 == "orphaned")
      && fs[1].0 == "block_number" && fs[2].0 == "slot_number"
      && fs[3].0 == "hash" && fs[4].0 == "prev_hash" && fs[5].0 == "leader_vrf"
    then
      match (Decimal.ReadInt(fs[1].1), Decimal.ReadInt(fs[2].1))
      case (Some(bn), Some(sn)) =>
        Some(Ok(Block(bn, sn, fs[3].1, fs[4].1, fs[5].1, fs[0].1 == "orphaned")))
      case _ => None
    else None
  }

  /** Reads a printed report back into the lookup outcome it reports. */
  function ReadReport(out: string): Option<Result<Block, DbError>> {
    if |out| == 0 || out[|out| - 1] != '\n' then None
    else
      match FlatJson.Read(out[..|out| - 1])
      case None => None
      case Some(fs) => FieldsOutcome(fs)
  }

  /** No free-text part of the outcome contains a double quote. */
  predicate OutcomeQuoteFree(res: Result<Block, DbError>) {
    match res
    case Ok(b) =>
      FlatJson.QuoteFree(b.hash) && FlatJson.QuoteFree(b.prevHash) && FlatJson.QuoteFree(b.leaderVrf)
    case Err(e) => FlatJson.QuoteFree(e.message)
  }

  /** Printed numbers hold only a sign and digits, so never a double quote. */
  lemma IntTextQuoteFree(n: Decimal.I64)
    ensures FlatJson.QuoteFree(Decimal.IntText(n))
  {
    var s := Decimal.IntText(n);
    forall i | 0 <= i < |s| ensures s[i] != '"' {
      assert s[i] == '-' || Decimal.IsDigit(s[i]);
    }
  }

  /** The report's keys are fixed words without double quotes. */
  lemma ReportKeysQuoteFree(res: Result<Block, DbError>)
    ensures forall i :: 0 <= i < |ReportFields(res)| ==> FlatJson.QuoteFree(ReportFields(res)[i].0)
  {
    var fs := ReportFields(res);
    forall i | 0 <= i < |fs| ensures FlatJson.QuoteFree(fs[i].0) {
      if res.Err? {
        assert fs[i].0 == if i == 0 then "status" else "errorMessage";
      } else if i == 0 {
        assert fs[i].0 == "status";
      } else if i == 1 {
        assert fs[i].0 == "block_number";
      } else if i == 2 {
        assert fs[i].0 == "slot_number";
      } else if i == 3 {
        assert fs[i].0 == "hash";
      } else if i == 4 {
        assert fs[i].0 == "prev_hash";
      } else {
        assert fs[i].0 == "leader_vrf";
      }
    }
  }

  /** The report's values are free of double quotes when the outcome's free text is. */
  lemma ReportValuesQuoteFree(res: Result<Block, DbError>)
    requires OutcomeQuoteFree(res)
    ensures forall i :: 0 <= i < |ReportFields(res)| ==> FlatJson.QuoteFree(ReportFields(res)[i].1)
  {
    var fs := ReportFields(res);
    match res
    case Ok(b) =>
      IntTextQuoteFree(b.blockNumber);
      IntTextQuoteFree(b.slotNumber);
      assert FlatJson.QuoteFree(fs[0].1) by {
        if b.orphaned { assert fs[0].1 == "orphaned"; } else { assert fs[0].1 == "ok"; }
      }
    case Err(e) =>
      assert fs[0].1 == "error";
  }

  lemma ReportFieldsQuoteFree(res: Result<Block, DbError>)
    requires OutcomeQuoteFree(res)
    ensures FlatJson.FieldsQuoteFree(ReportFields(res))
  {
    ReportKeysQuoteFree(res);
    ReportValuesQuoteFree(res);
  }

  lemma ReportFieldsOutcome(res: Result<Block, DbError>)
    ensures FieldsOutcome(ReportFields(res)) == Some(res)
  {
  }

  /** The printed report carries the whole lookup outcome: status, both numbers, the
      three hashes, or the error text. Because values are inserted without escaping,
      this holds when none of them contains a double quote. */
  lemma ReportRoundTrip(res: Result<Block, DbError>)
    requires OutcomeQuoteFree(res)
    ensures ReadReport(RenderReport(res)) == Some(res)
  {
    var fs := ReportFields(res);
    ReportFieldsQuoteFree(res);
    FlatJson.ReadRender(fs);
    ReportFieldsOutcome(res);
    var out := RenderReport(res);
    assert out[..|out| - 1] == FlatJson.Render(fs);
  }

  /** Only report fields rebuild an outcome: the fields are exactly that outcome's fields. */
  lemma FieldsOutcomeOnlyReportFields(fs: seq<FlatJson.Field>, res: Result<Block, DbError>)
    requires FieldsOutcome(fs) == Some(res)
    ensures fs == ReportFields(res)
  {
    if res.Ok? {
      var b := res.value;
      Decimal.ReadIntOnlyIntText(fs[1].1, b.blockNumber);
      Decimal.ReadIntOnlyIntText(fs[2].1, b.slotNumber);
      assert fs[0].1 == Status(b);
      assert fs[0] == ("status", Status(b));
    } else {
      assert fs[0] == ("status", "error");
    }
  }

  /** What `ReadReport` found when it read an outcome from `out`. */
  lemma ReadReportParts(out: string, res: Result<Block, DbError>)
    requires ReadReport(out) == Some(res)
    ensures |out| > 0 && out[|out| - 1] == '\n'
    ensures FlatJson.Read(out[..|out| - 1]).Some?
    ensures FieldsOutcome(FlatJson.Read(out[..|out| - 1]).value) == Some(res)
  {
  }

  /** A text that ends with a line end is the rest of it followed by that line end. */
  lemma SplitLineEnd(out: string)
    requires |out| > 0 && out[|out| - 1] == '\n'
    ensures out == out[..|out| - 1] + "\n"
  {
    assert out[|out| - 1..] == "\n";
    assert out == out[..|out| - 1] + out[|out| - 1..];
  }

  /** The reader accepts only printed reports: text that reads as an outcome is exactly
      the report printed for that outcome. With `ReportRoundTrip`, reading and printing
      are inverse to each other on quote-free outcomes. */
  lemma ReadReportOnlyRendered(out: string, res: Result<Block, DbError>)
    requires ReadReport(out) == Some(res)
    ensures out == RenderReport(res)
  {
    ReadReportParts(out, res);
    var body := out[..|out| - 1];
    var fs := FlatJson.Read(body).value;
    FieldsOutcomeOnlyReportFields(fs, res);
    FlatJson.RenderRead(body, fs);
    assert RenderReport(res) == body + "\n";
    SplitLineEnd(out);
  }

  /** A prefix of a text is a prefix of that text with a line end added. */
  lemma PrefixOfLine(p: string, s: string)
    requires p <= s
    ensures p <= s + "\n"
  {
    assert (s + "\n")[..|p|] == s[..|p|];
  }

  /** The word after `status`: the block's status, or `error`. */
  function StatusWord(res: Result<Block, DbError>): string {
    if res.Ok? then Status(res.value) else "error"
  }

  /** Whatever the outcome, and whatever characters its values contain, the report opens
      with a brace line and then the status line. */
  lemma ReportStartsWithStatus(res: Result<Block, DbError>)
    ensures "{\n \"status\": \"" + StatusWord(res) + "\"" <= RenderReport(res)
  {
    var fs := ReportFields(res);
    var w := StatusWord(res);
    assert fs[0] == ("status", w);
    FlatJson.RenderStartsWithFirstMember(fs);
    FlatJson.OpenMember(fs[0]);
    assert "{\n" + " \"" + "status" + "\"" + ": \"" == "{\n \"status\": \"";
    PrefixOfLine("{\n \"status\": \"" + w + "\"", FlatJson.Render(fs));
  }

  /** `validate_block`: looks the hash up as a prefix and returns the printed report. */
  function ValidateBlock(hash: string, db: Database): (out: string)
    ensures "{\n \"status\": \"" + StatusWord(QueryBlock(db, hash + "%")) + "\"" <= out
    ensures db.open.Ok? && db.close.Ok? && OutcomeQuoteFree(db.queryRow(hash + "%")) ==>
      ReadReport(out) == Some(db.queryRow(hash + "%"))
    ensures db.open.Err? && FlatJson.QuoteFree(db.open.error.message) ==>
      ReadReport(out) == Some(Err(db.open.error))
    ensures db.open.Ok? && db.close.Err? && FlatJson.QuoteFree(db.close.error.message) ==>
      ReadReport(out) == Some(Err(db.close.error))
  {
    var res := QueryBlock(db, LikePattern(hash));
    ReportStartsWithStatus(res);
    assert OutcomeQuoteFree(res) ==> ReadReport(RenderReport(res)) == Some(res) by {
      if OutcomeQuoteFree(res) { ReportRoundTrip(res); }
    }
    RenderReport(res)
  }

  /** A database holding one block whose hash starts with `abc1`. */
  function SampleDatabase(orphaned: bool): Database {
    var b := SampleBlock(orphaned);
    Database(Ok(()), (like: string) => if like == "abc1%" then Ok(b) else Err(DbError("Query returned no rows")), Ok(()))
  }

  function SampleBlock(orphaned: bool): Block {
    Block(5, 100, "abc123", "000", "deadbeef", orphaned)
  }

  lemma SampleFields(orphaned: bool)
    ensures ReportFields(Ok(SampleBlock(orphaned))) ==
      [ ("status", if orphaned then "orphaned" else "ok"), ("block_number", "5"), ("slot_number", "100"),
        ("hash", "abc123"), ("prev_hash", "000"), ("leader_vrf", "deadbeef") ]
  {
    assert Decimal.IntText(5) == "5";
    assert Decimal.NatText(10) == "10";
    assert Decimal.IntText(100) == "100";
  }

  /** The report for a live block found by its prefix. */
  lemma SampleLiveReport()
    ensures ValidateBlock("abc1", SampleDatabase(false)) == FlatJson.Render(
      [ ("status", "ok"), ("block_number", "5"), ("slot_number", "100"),
        ("hash", "abc123"), ("prev_hash", "000"), ("leader_vrf", "deadbeef") ]) + "\n"
  {
    assert QueryBlock(SampleDatabase(false), LikePattern("abc1")) == Ok(SampleBlock(false));
    SampleFields(false);
  }

  /** The report for the same block once it has been orphaned. */
  lemma SampleOrphanedReport()
    ensures ValidateBlock("abc1", SampleDatabase(true)) == FlatJson.Render(
      [ ("status", "orphaned"), ("block_number", "5"), ("slot_number", "100"),
        ("hash", "abc123"), ("prev_hash", "000"), ("leader_vrf", "deadbeef") ]) + "\n"
  {
    assert QueryBlock(SampleDatabase(true), LikePattern("abc1")) == Ok(SampleBlock(true));
    SampleFields(true);
  }

  /** An error report renders its two members, status first. */
  lemma ErrorReportMembers(message: string)
    ensures RenderReport(Err(DbError(message))) ==
      "{\n" + (FlatJson.Member(("status", "error")) + (",\n" + FlatJson.Member(("errorMessage", message)))) + "\n}" + "\n"
  {
    var f0 := ("status", "error");
    var f1 := ("errorMessage", message);
    assert ReportFields(Err(DbError(message))) == [f0] + [f1];
    FlatJson.MembersSingle(f1);
    FlatJson.MembersCons(f0, [f1]);
  }

  /** Moving the message of a rendered error report to the top level of the concatenation. */
  lemma RegroupErrorText(m0: string, k: string, message: string)
    ensures "{\n" + (m0 + (",\n" + (k + message + "\""))) + "\n}" + "\n"
         == ("{\n" + m0 + ",\n" + k) + message + "\"\n}\n"
  {
    assert "\"" + "\n}" + "\n" == "\"\n}\n";
    assert "{\n" + (m0 + (",\n" + (k + message + "\""))) + "\n}" + "\n"
        == ("{\n" + m0 + ",\n" + k) + message + ("\"" + "\n}" + "\n");
  }

  /** The rendered first line of an error report, with the line break after it. */
  lemma ErrorTemplateHead()
    ensures "{\n" + FlatJson.Member(("status", "error")) + ",\n" == "{\n \"status\": \"error\",\n"
  {
    assert FlatJson.Member(("status", "error")) == " \"status\": \"error\"";
    assert "{\n" + " \"status\": \"error\"" == "{\n \"status\": \"error\"";
  }

  /** Every error report is the fixed error template, one printed line per piece, with the
      message inserted verbatim whatever characters it contains. */
  lemma ErrorReportText(message: string)
    ensures RenderReport(Err(DbError(message))) ==
      "{\n \"status\": \"error\",\n" + " \"errorMessage\": \"" + message + "\"\n}\n"
  {
    ErrorReportMembers(message);
    var m0 := FlatJson.Member(("status", "error"));
    var k := " \"" + "errorMessage" + "\"" + ": \"";
    assert k == " \"errorMessage\": \"";
    assert FlatJson.Member(("errorMessage", message)) == k + message + "\"";
    RegroupErrorText(m0, k, message);
    ErrorTemplateHead();
  }

  /** The second line of the not-found report, as printed. */
  lemma NotFoundLine()
    ensures " \"errorMessage\": \"" + "Query returned no rows" + "\"\n}\n"
         == " \"errorMessage\": \"Query returned no rows\"\n" + "}\n"
  {
    var y := " \"errorMessage\": \"" + "Query returned no rows";
    assert y == " \"errorMessage\": \"Query returned no rows";
    assert y + "\"\n" == " \"errorMessage\": \"Query returned no rows\"\n";
  }

  /** Rewriting the tail of a text that starts with a fixed head. */
  lemma ReplaceTail(head: string, a: string, b: string, c: string, d: string, e: string)
    requires a + b + c == d + e
    ensures head + a + b + c == head + d + e
  {
    assert head + a + b + c == head + (a + b + c);
    assert head + d + e == head + (d + e);
  }

  /** The exact text printed for a failed lookup with the not-found message, line by line. */
  lemma NotFoundReportText()
    ensures RenderReport(Err(DbError("Query returned no rows"))) ==
      "{\n \"status\": \"error\",\n" + " \"errorMessage\": \"Query returned no rows\"\n" + "}\n"
  {
    ErrorReportText("Query returned no rows");
    NotFoundLine();
    ReplaceTail("{\n \"status\": \"error\",\n", " \"errorMessage\": \"", "Query returned no rows", "\"\n}\n",
                " \"errorMessage\": \"Query returned no rows\"\n", "}\n");
  }

  /** The exact text printed for a prefix that matches no row. */
  lemma SampleNotFoundReport()
    ensures ValidateBlock("ffff", SampleDatabase(false)) ==
      "{\n \"status\": \"error\",\n" + " \"errorMessage\": \"Query returned no rows\"\n" + "}\n"
  {
    var like := LikePattern("ffff");
    assert like[0] == 'f';
    assert like != "abc1%" by { assert "abc1%"[0] == 'a'; }
    assert QueryBlock(SampleDatabase(false), like) == Err(DbError("Query returned no rows"));
    NotFoundReportText();
  }
}
