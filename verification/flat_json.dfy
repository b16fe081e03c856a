/** The fixed text shape of the validator's report: an opening brace on its own line,
    one ` "key": "value"` line per field separated by `,` line ends, and a closing brace.
    Keys and values are inserted verbatim, without escaping. `Read` is the matching
    reader; it recovers the fields whenever no key or value contains a double quote. */
module FlatJson {
  import opened Results

  /** A key and its value. */
  type Field = (string, string)

  predicate QuoteFree(s: string) {
    '"' !in s
  }

  predicate FieldsQuoteFree(fs: seq<Field>) {
    forall i :: 0 <= i < |fs| ==> QuoteFree(fs[i].0) && QuoteFree(fs[i].1)
  }

  /** One field line, without its line end: a space, then the quoted key, a colon, a space, the quoted value. */
  function Member(f: Field): string {
    " \"" + f.0 + "\"" + ": \"" + f.1 + "\""
  }

  /** A field line followed by `tail`, grouped the way the reader takes it apart. */
  lemma MemberThen(f: Field, tail: string)
    ensures Member(f) + tail == " \"" + f.0 + "\"" + (": \"" + f.1 + "\"" + tail)
  {
    var a, b := " \"" + f.0 + "\"", ": \"" + f.1 + "\"";
    assert Member(f) == a + b;
    assert (a + b) + tail == a + (b + tail);
  }

  function Members(fs: seq<Field>): (s: string)
    ensures |s| == 0 <==> |fs| == 0
    decreases |fs|
  {
    if |fs| == 0 then ""
    else if |fs| == 1 then Member(fs[0])
    else Member(fs[0]) + ",\n" + Members(fs[1..])
  }

  function Render(fs: seq<Field>): string {
    "{\n" + Members(fs) + "\n}"
  }

  /** Splits `s` at its first double quote into the text before it and the text after it. */
  function SplitAtQuote(s: string): (r: Option<(string, string)>)
    ensures r.None? <==> QuoteFree(s)
    ensures r.Some? ==> QuoteFree(r.value.0) && s == r.value.0 + "\"" + r.value.1
    decreases |s|
  {
    if |s| == 0 then None
    else if s[0] == '"' then Some(([], s[1..]))
    else
      match SplitAtQuote(s[1..])
      case None => None
      case Some(p) => Some(([s[0]] + p.0, p.1))
  }

  /** Reads the text after an opening quote up to the closing one, when `s` starts with `opener`. */
  function ReadQuoted(s: string, opener: string): (r: Option<(string, string)>)
    requires |opener| > 0
    ensures r.Some? ==> QuoteFree(r.value.0) && s == opener + r.value.0 + "\"" + r.value.1
  {
    if |s| >= |opener| && s[..|opener|] == opener then
      match SplitAtQuote(s[|opener|..])
      case None => None
      case Some(p) =>
        assert s == opener + s[|opener|..];
        Some(p)
    else None
  }

  /** Reads one field line and returns the field and the text after it. */
  function ReadLine(t: string): (r: Option<(Field, string)>)
    ensures r.Some? ==> QuoteFree(r.value.0.0) && QuoteFree(r.value.0.1)
    ensures r.Some? ==> t == Member(r.value.0) + r.value.1
  {
    match ReadQuoted(t, " \"")
    case None => None
    case Some(kr) =>
      match ReadQuoted(kr.1, ": \"")
      case None => None
      case Some(vr) =>
        MemberThen((kr.0, vr.0), vr.1);
        Some(((kr.0, vr.0), vr.1))
  }

  /** Reads the field lines between the braces. */
  function ReadMembers(t: string): Option<seq<Field>>
    decreases |t|
  {
    if |t| == 0 then Some([])
    else
      match ReadLine(t)
      case None => None
      case Some(line) =>
        var (f, rest) := line;
        if |rest| == 0 then Some([f])
        else if |rest| <= 2 || rest[..2] != ",\n" then None
        else
          match ReadMembers(rest[2..])
          case None => None
          case Some(fs) => Some([f] + fs)
  }

  function Read(s: string): Option<seq<Field>> {
    if |s| >= 4 && s[..2] == "{\n" && s[|s| - 2..] == "\n}" then ReadMembers(s[2..|s| - 2])
    else None
  }

  lemma {:induction false} SplitAtFirstQuote(a: string, b: string)
    requires QuoteFree(a)
    ensures SplitAtQuote(a + "\"" + b) == Some((a, b))
    decreases |a|
  {
    if |a| == 0 {
      assert a + "\"" + b == "\"" + b;
    } else {
      var s := a + "\"" + b;
      assert s[0] == a[0] && a[0] != '"';
      assert s[1..] == a[1..] + "\"" + b;
      assert QuoteFree(a[1..]);
      SplitAtFirstQuote(a[1..], b);
      assert [a[0]] + a[1..] == a;
    }
  }

  lemma ReadQuotedAfter(opener: string, a: string, b: string)
    requires |opener| > 0 && QuoteFree(a)
    ensures ReadQuoted(opener + a + "\"" + b, opener) == Some((a, b))
  {
    var s := opener + a + "\"" + b;
    assert s[..|opener|] == opener;
    assert s[|opener|..] == a + "\"" + b;
    SplitAtFirstQuote(a, b);
  }

  /** A field line followed by `tail` reads back as that field, leaving `tail`. */
  lemma ReadLineOfMember(f: Field, tail: string)
    requires QuoteFree(f.0) && QuoteFree(f.1)
    ensures ReadLine(Member(f) + tail) == Some((f, tail))
  {
    var r1 := ": \"" + f.1 + "\"" + tail;
    MemberThen(f, tail);
    ReadQuotedAfter(" \"", f.0, r1);
    assert r1 == ": \"" + f.1 + "\"" + tail;
    ReadQuotedAfter(": \"", f.1, tail);
  }

  lemma ReadLastLine(f: Field)
    requires QuoteFree(f.0) && QuoteFree(f.1)
    ensures ReadMembers(Member(f)) == Some([f])
  {
    ReadLineOfMember(f, "");
    assert Member(f) + "" == Member(f);
  }

  lemma ReadInnerLine(f: Field, rest: string, fs: seq<Field>)
    requires QuoteFree(f.0) && QuoteFree(f.1)
    requires |rest| > 0 && ReadMembers(rest) == Some(fs)
    ensures ReadMembers(Member(f) + (",\n" + rest)) == Some([f] + fs)
  {
    var tail := ",\n" + rest;
    ReadLineOfMember(f, tail);
    assert tail[..2] == ",\n";
    assert tail[2..] == rest;
  }

  lemma MembersSingle(f: Field)
    ensures Members([f]) == Member(f)
  {
  }

  /** `Members` of a list given by its first field and the non-empty rest. */
  lemma MembersCons(f: Field, fs: seq<Field>)
    requires |fs| > 0
    ensures Members([f] + fs) == Member(f) + (",\n" + Members(fs))
  {
    var g := [f] + fs;
    assert |g| > 1 && g[0] == f;
    assert g[1..] == fs;
  }

  lemma {:induction false} ReadMembersOfMembers(fs: seq<Field>)
    requires FieldsQuoteFree(fs)
    ensures ReadMembers(Members(fs)) == Some(fs)
    decreases |fs|
  {
    if |fs| > 0 {
      var f, fs' := fs[0], fs[1..];
      assert fs == [f] + fs';
      assert QuoteFree(f.0) && QuoteFree(f.1);
      if |fs'| == 0 {
        MembersSingle(f);
        ReadLastLine(f);
        assert fs == [f];
        assert Members(fs) == Member(f);
      } else {
        assert FieldsQuoteFree(fs') by {
          forall i | 0 <= i < |fs'| ensures QuoteFree(fs'[i].0) && QuoteFree(fs'[i].1) {
            assert fs'[i] == fs[i + 1];
          }
        }
        ReadMembersOfMembers(fs');
        MembersCons(f, fs');
        ReadInnerLine(f, Members(fs'), fs');
        assert Members(fs) == Member(f) + (",\n" + Members(fs'));
      }
    }
  }

  /** Rendering then reading gives back the same fields, in the same order, whenever no
      key or value contains a double quote. */
  lemma ReadRender(fs: seq<Field>)
    requires FieldsQuoteFree(fs)
    ensures Read(Render(fs)) == Some(fs)
  {
    var s := Render(fs);
    assert s[2..|s| - 2] == Members(fs);
    ReadMembersOfMembers(fs);
  }

  /** How `ReadMembers` continues after reading a first line `f` from `t`. */
  lemma ReadMembersAfterLine(t: string, f: Field, rest: string, fs: seq<Field>)
    requires |t| > 0 && ReadLine(t) == Some((f, rest))
    requires ReadMembers(t) == Some(fs)
    ensures |rest| == 0 ==> fs == [f]
    ensures |rest| > 0 ==>
      && |rest| > 2 && rest[..2] == ",\n"
      && ReadMembers(rest[2..]).Some?
      && fs == [f] + ReadMembers(rest[2..]).value
  {
  }

  lemma {:induction false} MembersOfReadMembers(t: string, fs: seq<Field>)
    requires ReadMembers(t) == Some(fs)
    ensures Members(fs) == t
    decreases |t|
  {
    if |t| > 0 {
      var line := ReadLine(t).value;
      var f, rest := line.0, line.1;
      ReadMembersAfterLine(t, f, rest, fs);
      if |rest| == 0 {
        MembersSingle(f);
        assert fs == [f];
        assert t == Member(f) + rest == Member(f);
      } else {
        var fs' := ReadMembers(rest[2..]).value;
        MembersOfReadMembers(rest[2..], fs');
        MembersCons(f, fs');
        assert rest == ",\n" + rest[2..];
      }
    }
  }

  /** The reader accepts only rendered text: whatever it reads is the rendering of the
      fields it returns. */
  lemma RenderRead(s: string, fs: seq<Field>)
    requires Read(s) == Some(fs)
    ensures Render(fs) == s
  {
    var m := s[2..|s| - 2];
    assert s[..2] == "{\n" && s[|s| - 2..] == "\n}";
    MembersOfReadMembers(m, fs);
    assert s == s[..2] + m + s[|s| - 2..];
  }

  /** The brace line and a field line, split at the start of the field's value. */
  lemma OpenMember(f: Field)
    ensures "{\n" + Member(f) == ("{\n" + " \"" + f.0 + "\"" + ": \"") + f.1 + "\""
  {
    assert "{\n" + Member(f) == "{\n" + (" \"" + f.0 + "\"" + ": \"" + f.1 + "\"");
  }

  /** Putting the same text in front keeps a prefix a prefix, and so does adding text behind. */
  lemma PrefixUnderHeadAndTail(head: string, p: string, s: string, tail: string)
    requires p <= s
    ensures head + p <= head + s + tail
  {
    assert (head + s + tail)[..|head + p|] == head + s[..|p|];
  }

  /** A rendering of at least one field starts with the opening brace and the first field line. */
  lemma RenderStartsWithFirstMember(fs: seq<Field>)
    requires |fs| > 0
    ensures "{\n" + Member(fs[0]) <= Render(fs)
  {
    var m := Members(fs);
    assert Member(fs[0]) <= m by {
      if |fs| > 1 {
        assert m == Member(fs[0]) + (",\n" + Members(fs[1..]));
      }
    }
    PrefixUnderHeadAndTail("{\n", Member(fs[0]), m, "\n}");
  }

}
