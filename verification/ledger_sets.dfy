/** The ledger-data selector of the leader-log command and its text parser. */
module LedgerSets {
  import opened Results

  /** Which epoch's stake snapshot to use: `Mark` for the next epoch, `Set` for the
      current one, `Go` for the previous one. */
  datatype LedgerSet = Mark | Set | Go

  /** The parser's error type. In Rust it has no values at all; here it has one, and
      `FromStr` is proved never to produce it. */
  datatype ParseError = Infallible

  /** `LedgerSet::from_str`: `next`, `current` and `prev` select their ledger set;
      every other text silently selects the current one. */
  function FromStr(text: string): (r: Result<LedgerSet, ParseError>)
    ensures r.Ok?
    ensures r.value == Mark <==> text == "next"
    ensures r.value == Go <==> text == "prev"
    ensures r.value == Set <==> text != "next" && text != "prev"
  {
    if text == "next" then Ok(Mark)
    else if text == "current" then Ok(Set)
    else if text == "prev" then Ok(Go)
    else Ok(Set)
  }

  /** The keyword that names each ledger set on the command line. */
  function Keyword(l: LedgerSet): (k: string)
    ensures FromStr(k) == Ok(l)
    ensures k == "next" || k == "current" || k == "prev"
  {
    match l
    case Mark => "next"
    case Set => "current"
    case Go => "prev"
  }

  /** Any text other than the three keywords parses like `current`. */
  lemma FallbackIsCurrent(text: string)
    requires text != "next" && text != "current" && text != "prev"
    ensures FromStr(text) == FromStr("current") == Ok(Set)
  {
  }

  /** Parsing then naming gives back the text exactly when the text is a keyword. */
  lemma KeywordOfParse(text: string)
    ensures Keyword(FromStr(text).value) == text <==> text in {"next", "current", "prev"}
  {
  }
}
