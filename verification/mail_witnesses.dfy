/** Two messages that do not come back as they were sent. */
module MailWitnesses {
  import opened Options
  import opened Sets
  import opened Text
  import opened SortedKeys
  import opened Mail
  import opened MailLines
  import opened MailParse
  import opened MailHops

  function Untyped(contentType: string): Option<string> {
    None
  }

  /** A message with a subject and a body of one unterminated line, untyped. */
  const NOTE := Message(map["Subject" := ["hi"]], "bye", [])

  lemma OneLineWf(key: string, value: string, body: string)
    requires WfKey(key) && WfValue(value) && key in SIGNATURE_FIELDS && body != "" && PlainChars(body)
    ensures var m := Message(map[key := [value]], body, []);
            Wf(m, Untyped) && !WholeLines(m) && RestKeys(m.header) == {} && DropCr(body) == body
  {
    DropCrPlain(body);
  }

  lemma NoteIsWf()
    ensures Wf(NOTE, Untyped) && !WholeLines(NOTE) && RestKeys(NOTE.header) == {} && DropCr("bye") == "bye"
  {
    assert SIGNATURE_FIELDS[3] == "Subject";
    OneLineWf("Subject", "hi", "bye");
  }

  /** The transfer ends the line, and the signed form is another one. */
  lemma UnterminatedLineChanges()
    ensures Wf(NOTE, Untyped) && Lists([], RestKeys(NOTE.header))
    ensures var r := Received(NOTE, [], Untyped);
            r.Some? && r.value.preamble == "bye\n" && SignedForm(r.value, Untyped) != SignedForm(NOTE, Untyped)
  {
    NoteIsWf();
    var h, keys := NOTE.header, SIGNATURE_FIELDS + [];
    AllKeys(h, []);
    PrintPlain(NOTE, keys, "");
    TransferPlain(h, keys, "bye");
    assert RawText(NOTE, [], Untyped) == Print(NOTE, keys, "");
    var head := Eol(HeaderLines(h, keys) + [""], "");
    Assoc(head, "bye", "\n");
    assert "bye" + "\n" == "bye\n";
    ParsePlain(h, keys, Untyped, "", "bye\n");
    BrokenLine(NOTE, [], Untyped);
  }

  lemma MarkCuts(first: string, mark: string, rest: string)
    requires '\n' !in first && '\n' !in mark && !("--" <= first) && "--" <= mark
    ensures var body := first + ['\n'] + (mark + ['\n'] + rest);
            && !NoDelimiterLine(body, Some(""))
            && ParseBody(Some(""), body).Parsed? && ParseBody(Some(""), body).preamble == first
  {
    var tail := mark + ['\n'] + rest;
    SplitPrefix(first, tail, '\n');
    SplitPrefix(mark, rest, '\n');
    var pieces := Split(first + ['\n'] + tail, '\n');
    assert pieces == [first] + ([mark] + Split(rest, '\n'));
    assert pieces[1..][0] == mark && |pieces| >= 3 && Dash("") == "--";
    assert PrefixAt(pieces, "--") == 1;
    assert pieces[..1] == [first];
  }

  /** A plain text body with a signature mark loses everything from the mark on:
      a text/plain article has no boundary parameter, which reads as "". */
  lemma SignatureMarkCuts()
    ensures var r := ParseBody(Some(""), "bye\n-- \nJoe\n");
            r.Parsed? && r.preamble == "bye" && !NoDelimiterLine("bye\n-- \nJoe\n", Some(""))
  {
    assert "bye\n-- \nJoe\n" == "bye" + ['\n'] + ("-- " + ['\n'] + "Joe\n");
    assert "bye"[0] != "--"[0];
    MarkCuts("bye", "-- ", "Joe\n");
  }

  // ---- printed texts --------------------------------------------------------

  lemma {:induction false} OneField(h: Header, k: string, keys: seq<string>)
    requires h.Keys == {k} && Distinct(keys)
    ensures HeaderLines(h, keys) == if k in keys then FieldLines(k, h[k]) else []
    decreases |keys|
  {
    if keys != [] {
      var n := |keys| - 1;
      OneField(h, k, keys[..n]);
      assert keys == keys[..n] + [keys[n]];
    }
  }

  /** A field of one value is a line of key, colon, blank and value. */
  lemma OneLine(key: string, value: string)
    ensures FieldLines(key, [value]) == [key + ": " + value]
  {
    assert [value][..0] == [];
    assert FieldLines(key, []) == [];
  }

  lemma PrintsField(m: Message, key: string, value: string, media: Media)
    requires m.header == map[key := [value]] && key in SIGNATURE_FIELDS
    ensures RawText(m, [], media) == key + ": " + value + "\r\n\r\n" + BodyText(m, BoundaryOf(m, media))
    ensures SignedForm(m, media) == RawText(m, [], media)
  {
    SignatureFieldsDistinct();
    assert SIGNATURE_FIELDS + [] == SIGNATURE_FIELDS;
    OneField(m.header, key, SIGNATURE_FIELDS);
    OneLine(key, value);
    var line := key + ": " + value;
    assert [line][1..] == [];
    assert Eol([line], "\r") == line + "\r" + "\n" + Eol([], "\r");
    assert line + "\r" + "\n" + "" + "\r\n" == line + "\r\n\r\n";
  }

  lemma LastPartText(c: Part, b: string)
    requires c.header == map[]
    ensures PartsText([c], b, false) == "\r\n--" + b + "\r\n\r\n" + Crlf(c.content) + "\r\n--" + b + "--\r\n"
  {
    assert PartHeaderLines(map[]) == [] && [c][1..] == [];
    assert PartsText([], b, false) == "\r\n--" + b + "--\r\n";
    assert PartsText([c], b, false) == "\r\n--" + b + "\r\n" + "" + "\r\n" + Crlf(c.content) + PartsText([], b, false);
    assert "\r\n--" + b + "\r\n" + "" + "\r\n" == "\r\n--" + b + "\r\n\r\n";
    Assoc("\r\n--" + b + "\r\n\r\n" + Crlf(c.content), "\r\n--" + b, "--\r\n");
    Assoc("\r\n--" + b + "\r\n\r\n" + Crlf(c.content), "\r\n--", b);
  }

  lemma FirstPartText(p: Part, c: Part, b: string)
    requires p.header == map[]
    ensures PartsText([p, c], b, true) == "--" + b + "\r\n\r\n" + Crlf(p.content) + PartsText([c], b, false)
  {
    assert PartHeaderLines(map[]) == [] && [p, c][1..] == [c];
    assert PartsText([p, c], b, true) == "--" + b + "\r\n" + "" + "\r\n" + Crlf(p.content) + PartsText([c], b, false);
    assert "--" + b + "\r\n" + "" + "\r\n" == "--" + b + "\r\n\r\n";
  }

  /** How two parts are printed: behind the preamble, each behind a delimiter, with a
      closing delimiter; and a single part is not printed at all. */
  lemma PartsPrinted(m: Message, p: Part, c: Part, b: string)
    requires p.header == map[] && c.header == map[]
    ensures BodyText(m.(parts := [p, c]), b)
            == Crlf(m.preamble) + ("\r\n" + ("--" + b + "\r\n\r\n" + Crlf(p.content)
               + ("\r\n--" + b + "\r\n\r\n" + Crlf(c.content) + "\r\n--" + b + "--\r\n")))
    ensures BodyText(m.(parts := [p]), b) == BodyText(m.(parts := []), b) == Crlf(m.preamble)
  {
    LastPartText(c, b);
    FirstPartText(p, c, b);
  }

  /** The body of a message with a delimiter on its first of several lines cannot be
      read, and no other. */
  lemma PanicsExactly(boundary: Option<string>, body: string)
    ensures ParseBody(boundary, body).Panics?
            <==> boundary.Some? && |Split(body, '\n')| > 1 && "--" + boundary.value <= Split(body, '\n')[0]
  {
  }

  /** A line in a part that starts like a delimiter and goes on with anything but a
      blank or two dashes is content. */
  lemma LookalikeKept(b: string, rest: string)
    requires rest != "" && rest[0] !in {' ', '\t', '\r'} && !("--" <= rest) && '\n' !in b && '\n' !in rest
    requires rest[|rest| - 1] != '\r'
    ensures ReadParts(["--" + b, "", "--" + b + rest, "--" + b + "--"], b, true) == [Part(map[], "--" + b + rest)]
  {
    var open, line, close := "--" + b, "--" + b + rest, "--" + b + "--";
    var lines := [open, "", line, close];
    assert open[|Dash(b)|..] == "" && line[|Dash(b)|..] == rest && close[|Dash(b)|..] == "--";
    assert close[|Dash(b)| + 2..] == "";
    assert lines[1..] == ["", line, close] && ["", line, close][1..] == [line, close] && [line, close][1..] == [close];
    assert BlankAt(["", line, close]) == 0 && ["", line, close][..0] == [];
    assert MarkAt([line, close], b) == 1 && [line, close][..1] == [line] && [line, close][1..] == [close];
    assert !IsClose(open, b) && IsDelimiter(open, b) && IsClose(close, b);
    assert ReadParts([close], b, false) == [];
  }
}
