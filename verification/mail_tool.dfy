/** MessageTool (pkg/messages/messages.go): the printer and the parser step by
    step, each proved to print and to read what module Mail says. */
module MailTool {
  import opened Options
  import opened Text
  import opened SortedKeys
  import opened Mail
  import opened MailLines
  import opened MailHops

  // ---- printing -------------------------------------------------------------

  lemma EolLine(lines: seq<string>, line: string)
    ensures Eol(lines + [line], "\r") == Eol(lines, "\r") + (line + "\r\n")
  {
    EolConcat(lines, [line], "\r");
    assert Eol([], "\r") == "" && [line][1..] == [];
    assert Eol([line], "\r") == line + "\r" + "\n" + "";
  }

  /** The printed fields of one header key, appended to the buffer. */
  method WriteField(buf: string, key: string, values: seq<string>) returns (r: string)
    ensures r == buf + Eol(FieldLines(key, values), "\r")
  {
    r := buf;
    assert Eol(FieldLines(key, []), "\r") == "";
    for j := 0 to |values|
      invariant r == buf + Eol(FieldLines(key, values[..j]), "\r")
    {
      assert values[..j + 1][..j] == values[..j];
      EolLine(FieldLines(key, values[..j]), key + ": " + values[j]);
      r := r + (key + ": " + values[j] + "\r\n");
    }
    assert values[..|values|] == values;
  }

  lemma NextField(h: Header, keys: seq<string>, key: string)
    ensures Eol(HeaderLines(h, keys + [key]), "\r")
            == Eol(HeaderLines(h, keys), "\r") + (if key in h then Eol(FieldLines(key, h[key]), "\r") else "")
  {
    HeaderLinesSnoc(h, keys, key);
    if key in h {
      EolConcat(HeaderLines(h, keys), FieldLines(key, h[key]), "\r");
    } else {
      assert HeaderLines(h, keys) + [] == HeaderLines(h, keys);
    }
  }

  method WriteFields(h: Header, buf: string, keys: seq<string>) returns (r: string)
    ensures r == buf + Eol(HeaderLines(h, keys), "\r")
  {
    r := buf;
    for i := 0 to |keys|
      invariant r == buf + Eol(HeaderLines(h, keys[..i]), "\r")
    {
      assert keys[..i + 1] == keys[..i] + [keys[i]];
      NextField(h, keys[..i], keys[i]);
      ghost var more := if keys[i] in h then Eol(FieldLines(keys[i], h[keys[i]]), "\r") else "";
      Assoc(buf, Eol(HeaderLines(h, keys[..i]), "\r"), more);
      if keys[i] in h {
        r := WriteField(r, keys[i], h[keys[i]]);
      }
    }
    assert keys[..|keys|] == keys;
  }

  lemma OneListed(order: seq<string>, all: set<string>, todo: set<string>, key: string)
    requires Lists(order, all - todo) && key in todo
    ensures key in all ==> Lists(order + [key], all - (todo - {key}))
    ensures key !in all ==> Lists(order, all - (todo - {key}))
  {
  }

  /** The fields that are not written yet, in whatever order the map yields them. */
  method WriteRest(h: Header, buf: string, written: seq<string>) returns (r: string, ghost order: seq<string>)
    requires buf == Eol(HeaderLines(h, written), "\r")
    ensures Lists(order, h.Keys - (set k | k in written))
    ensures r == Eol(HeaderLines(h, written + order), "\r")
    ensures exists keys :: Lists(keys, h.Keys - (set k | k in written)) && r == Eol(HeaderLines(h, written + keys), "\r")
  {
    r, order := buf, [];
    var todo := h.Keys;
    ghost var all := h.Keys - (set k | k in written);
    assert written + [] == written;
    while todo != {}
      invariant todo <= h.Keys
      invariant Lists(order, all - todo)
      invariant r == Eol(HeaderLines(h, written + order), "\r")
    {
      var key :| key in todo;
      OneListed(order, all, todo, key);
      todo := todo - {key};
      if key !in written {
        NextField(h, written + order, key);
        Assoc(written, order, [key]);
        r := WriteField(r, key, h[key]);
        order := order + [key];
      }
    }
    assert all - todo == all;
  }

  function Delimiter(b: string, first: bool): string {
    (if first then "--" else "\r\n--") + b + "\r\n"
  }

  function PartText(p: Part): string {
    Eol(PartHeaderLines(p.header), "\r") + "\r\n" + Crlf(p.content)
  }

  lemma PartsTextStep(parts: seq<Part>, i: nat, b: string, r: string)
    requires i < |parts|
    ensures r + PartsText(parts[i..], b, i == 0)
            == (r + Delimiter(b, i == 0) + PartText(parts[i])) + PartsText(parts[i + 1..], b, false)
  {
    var d, fields, content := Delimiter(b, i == 0), Eol(PartHeaderLines(parts[i].header), "\r"), Crlf(parts[i].content);
    var tail := PartsText(parts[i + 1..], b, false);
    assert parts[i..][1..] == parts[i + 1..];
    assert PartsText(parts[i..], b, i == 0) == d + fields + "\r\n" + content + tail;
    Assoc(d, fields, "\r\n");
    Assoc(d, fields + "\r\n", content);
    Assoc(r, d, PartText(parts[i]));
    Assoc(r, d + PartText(parts[i]), tail);
  }

  /** CreatePart and the write of the content. */
  method WritePart(buf: string, p: Part, b: string, first: bool) returns (r: string)
    ensures r == buf + Delimiter(b, first) + PartText(p)
  {
    r := buf + Delimiter(b, first);
    ghost var start := r;
    r := WriteFields(p.header, r, Sorted(p.header.Keys));
    r := r + "\r\n";
    r := r + Crlf(p.content);
    ghost var fields := Eol(PartHeaderLines(p.header), "\r");
    Assoc(start, fields, "\r\n");
    Assoc(start, fields + "\r\n", Crlf(p.content));
  }

  /** The multipart writer, part by part, then the closing delimiter. */
  method WriteParts(buf: string, parts: seq<Part>, b: string) returns (r: string)
    requires parts != []
    ensures r == buf + PartsText(parts, b, true)
  {
    r := buf;
    assert parts[0..] == parts;
    for i := 0 to |parts|
      invariant r + PartsText(parts[i..], b, i == 0) == buf + PartsText(parts, b, true)
    {
      PartsTextStep(parts, i, b, r);
      r := WritePart(r, parts[i], b, i == 0);
    }
    r := r + ("\r\n--" + b + "--\r\n");
  }

  // ---- parsing --------------------------------------------------------------

  /** One call of NextPart: the part and where the reader stands after it, or
      nothing at the closing delimiter, at the end, and at what it cannot read. */
  function NextPart(lines: seq<string>, b: string, first: bool): (r: Option<(Part, seq<string>)>)
    ensures r.Some? ==> |r.value.1| < |lines|
    decreases |lines|
  {
    if lines == [] || IsClose(lines[0], b) then None
    else if !IsDelimiter(lines[0], b) then (if first then NextPart(lines[1..], b, true) else None)
    else
      var rest := lines[1..];
      var n := BlankAt(rest);
      if n == |rest| || ParseHeader(rest[..n]).None? then None
      else
        var content := rest[n + 1..];
        var k := MarkAt(content, b);
        Some((Part(ParseHeader(rest[..n]).value, StripCr(Join(content[..k], '\n'))), content[k..]))
  }

  /** Calling NextPart until it fails yields exactly the parts of the grammar. */
  lemma {:induction false} PartsOneByOne(lines: seq<string>, b: string, first: bool)
    ensures ReadParts(lines, b, first)
            == match NextPart(lines, b, first)
               case None => []
               case Some(p) => [p.0] + ReadParts(p.1, b, false)
    decreases |lines|
  {
    if lines != [] && !IsClose(lines[0], b) && !IsDelimiter(lines[0], b) && first {
      PartsOneByOne(lines[1..], b, true);
    }
  }

  method ReadAllParts(lines: seq<string>, b: string) returns (parts: seq<Part>)
    ensures parts == ReadParts(lines, b, true)
  {
    parts := [];
    var rest, first := lines, true;
    var next := NextPart(rest, b, first);
    while next.Some?
      invariant next == NextPart(rest, b, first)
      invariant parts + ReadParts(rest, b, first) == ReadParts(lines, b, true)
      decreases |rest|
    {
      PartsOneByOne(rest, b, first);
      parts := parts + [next.value.0];
      rest, first := next.value.1, false;
      next := NextPart(rest, b, first);
    }
    PartsOneByOne(rest, b, first);
  }

  lemma FirstLine(s: string)
    requires IndexOf(s, '\n') < |s|
    ensures var i := IndexOf(s, '\n'); Split(s, '\n') == [s[..i]] + Split(s[i + 1..], '\n')
  {
    IndexSplits(s, '\n');
    SplitAt(s, IndexOf(s, '\n'), '\n');
  }

  lemma SplitAt(s: string, i: nat, sep: char)
    requires i < |s| && s[i] == sep && sep !in s[..i]
    ensures Split(s, sep) == [s[..i]] + Split(s[i + 1..], sep)
  {
    var a, b := s[..i], s[i + 1..];
    assert s == a + [sep] + b;
    SplitPrefix(a, b, sep);
  }

  lemma OnlyLine(s: string)
    requires IndexOf(s, '\n') == |s|
    ensures Split(s, '\n') == [s]
  {
    IndexSplits(s, '\n');
    assert s[..|s|] == s;
    SplitPlain(s, '\n');
  }

  lemma {:induction false} PrefixAtLater(before: seq<string>, rest: seq<string>, p: string)
    requires rest != [] && forall i | 0 <= i < |before| :: !(p <= before[i])
    ensures PrefixAt(before + rest, p) == |before| + PrefixAt(rest, p)
    decreases |before|
  {
    if before == [] {
      assert before + rest == rest;
    } else {
      PrefixAtLater(before[1..], rest, p);
      assert (before + rest)[1..] == before[1..] + rest;
    }
  }

  lemma {:induction false} EolIsJoin(lines: seq<string>)
    requires lines != []
    ensures Eol(lines, "") == Join(lines, '\n') + "\n"
    decreases |lines|
  {
    assert lines[0] + "" + "\n" == lines[0] + "\n";
    if |lines| > 1 {
      EolIsJoin(lines[1..]);
    } else {
      assert Eol(lines, "") == lines[0] + "\n" + "";
    }
  }

  /** Lines with their ends, then the join of the others, is the join of all. */
  lemma EolJoin(lines: seq<string>, others: seq<string>)
    requires others != []
    ensures Eol(lines, "") + Join(others, '\n') == Join(lines + others, '\n')
  {
    var rest := Join(others, '\n');
    if lines == [] {
      assert lines + others == others && "" + rest == rest;
    } else {
      EolIsJoin(lines);
      JoinConcat(lines, others, '\n');
    }
  }

  /** Whether ParseBody meets a delimiter. */
  predicate HasDelimiter(boundary: Option<string>, body: string) {
    boundary.Some? && !NoDelimiterLine(body, boundary)
  }

  /** The printer and parser state: a header, a preamble, parts. */
  class MessageTool {
    var header: Header
    var preamble: string
    var parts: seq<Part>
    const media: Media

    constructor (h: Header, m: Media)
      ensures View() == Message(h, "", []) && media == m
    {
      header, preamble, parts, media := h, "", [], m;
    }

    function View(): Message
      reads this
    {
      Message(header, preamble, parts)
    }

    /** What writeRaw needs: the preamble is used as a format string, and more
        than one part is printed by a writer that only a readable media type
        gives, with a boundary it accepts. */
    predicate Printable()
      reads this
    {
      '%' !in preamble && (|parts| > 1 ==> Boundary(header, media).Some? && ValidBoundary(Boundary(header, media).value))
    }

    /** writeRaw: the text is the print of the message, the unsigned fields left
        out when signing, in some order otherwise; the preamble keeps its new
        line ends. */
    method WriteRaw(signing: bool) returns (text: string, ghost order: seq<string>)
      requires Printable()
      modifies `preamble
      ensures preamble == Crlf(old(preamble)) && Printable()
      ensures signing ==> text == SignedForm(old(View()), media)
      ensures !signing ==> Lists(order, RestKeys(header)) && text == RawText(old(View()), order, media)
    {
      ghost var m := View();
      text := WriteFields(header, "", SIGNATURE_FIELDS);
      order := [];
      assert text == Eol(HeaderLines(header, SIGNATURE_FIELDS), "\r") && SIGNATURE_FIELDS + [] == SIGNATURE_FIELDS;
      if !signing {
        text, order := WriteRest(header, text, SIGNATURE_FIELDS);
      }
      assert text == Eol(HeaderLines(header, SIGNATURE_FIELDS + order), "\r");
      text := WriteBody(text + "\r\n");
    }

    /** The second half of writeRaw: the preamble, then two or more parts. */
    method WriteBody(buf: string) returns (text: string)
      requires Printable()
      modifies `preamble
      ensures preamble == Crlf(old(preamble)) && Printable()
      ensures text == buf + BodyText(old(View()), BoundaryOf(old(View()), media))
    {
      ghost var p := preamble;
      preamble := DropCr(preamble);
      preamble := AddCr(preamble);
      CrlfChars(p, '%');
      text := buf + preamble;
      if |parts| > 1 {
        text := text + "\r\n";
        ghost var b := Boundary(header, media).value;
        text := WriteParts(text, parts, Boundary(header, media).value);
        Assoc(buf, Crlf(p), "\r\n");
        Assoc(buf, Crlf(p) + "\r\n", PartsText(parts, b, true));
        Assoc(Crlf(p), "\r\n", PartsText(parts, b, true));
      } else {
        assert Crlf(p) + "" == Crlf(p);
      }
    }

    /** Sign: what it leaves behind is the signed message, its preamble's line ends
        rewritten, and the text is that message's. */
    method Sign(key: nat, s: Scheme) returns (text: string, ghost order: seq<string>)
      requires Printable()
      modifies `header, `preamble
      ensures View() == MailHops.Sign(old(View()), key, s, media).(preamble := Crlf(old(preamble)))
      ensures Lists(order, RestKeys(header)) && text == RawText(View(), order, media)
    {
      ghost var m := View();
      header := header["Approved" := [s.pub(key)]];
      header := header["From" := [s.torId(key)]];
      SignatureFieldsDistinct();
      assert Boundary(header, media) == Boundary(m.header, media);
      ghost var a := Set(Set(m, "Approved", s.pub(key)), "From", s.torId(key));
      assert View() == a;
      var data, _ := WriteRaw(true);
      header := header[SIGNATURE_HEADER := [s.sign(key, data)]];
      assert Boundary(header, media) == Boundary(m.header, media);
      ghost var n := View();
      assert n == MailHops.Sign(m, key, s, media).(preamble := Crlf(m.preamble));
      text, order := WriteRaw(false);
      CrlfTwice(m.preamble);
      assert View() == n;
    }

    /** Verify rebuilds the signed form and asks the signature scheme. */
    method Verify(s: Scheme) returns (ok: bool)
      requires Printable()
      modifies `preamble
      ensures ok == MailHops.Verify(old(View()), s, media)
      ensures preamble == Crlf(old(preamble))
    {
      var data, _ := WriteRaw(true);
      ok := s.verify(Get(header, "Approved"), data, Get(header, SIGNATURE_HEADER));
    }

    /** ParseBody: lines go to the preamble until one starts like a delimiter, then
        the multipart reader takes over.  ok is false where the source panics, on a
        delimiter without any line before it; without a delimiter the parts stay
        what they were. */
    method ParseBody(body: string) returns (ok: bool)
      modifies `preamble, `parts
      ensures ok <==> Mail.ParseBody(Boundary(header, media), body).Parsed?
      ensures ok ==> preamble == Mail.ParseBody(Boundary(header, media), body).preamble
      ensures ok ==> parts == if HasDelimiter(Boundary(header, media), body)
                              then Mail.ParseBody(Boundary(header, media), body).parts else old(parts)
    {
      var boundary := Boundary(header, media);
      ghost var n := 0;
      var text, rest := "", body;
      assert Reading(boundary, body, n, text, rest) by {
        assert Split(body, '\n')[..0] == [] && Split(body, '\n')[0..] == Split(body, '\n');
      }
      while true
        invariant Reading(boundary, body, n, text, rest) && parts == old(parts)
        decreases |rest|
      {
        IndexSplits(rest, '\n');
        var i := IndexOf(rest, '\n');
        if i == |rest| {
          AtEnd(boundary, body, n, text, rest);
          preamble := text + rest;
          return true;
        }
        var line := rest[..i];
        if boundary.Some? && Dash(boundary.value) <= line {
          FirstLine(rest);
          AtDelimiter(boundary.value, body, n, text, rest, line, rest[i + 1..]);
          preamble := text;
          if preamble == "" {
            return false;
          }
          preamble := preamble[..|preamble| - 1];
          parts := ReadAllParts(Split(rest, '\n'), boundary.value);
          return true;
        }
        FirstLine(rest);
        AtLine(boundary, body, n, text, rest, line, rest[i + 1..]);
        text, rest, n := text + (line + "\n"), rest[i + 1..], n + 1;
      }
    }
  }

  /** ParseBody after n of the pieces, none of them a delimiter. */
  ghost predicate ReadLines(boundary: Option<string>, pieces: seq<string>, n: nat, text: string, more: seq<string>) {
    && n < |pieces| && text == Eol(pieces[..n], "") && more == pieces[n..]
    && (boundary.Some? ==> forall i | 0 <= i < n :: !(Dash(boundary.value) <= pieces[i]))
  }

  ghost predicate Reading(boundary: Option<string>, body: string, n: nat, text: string, rest: string) {
    ReadLines(boundary, Split(body, '\n'), n, text, Split(rest, '\n'))
  }

  lemma AtEnd(boundary: Option<string>, body: string, n: nat, text: string, rest: string)
    requires Reading(boundary, body, n, text, rest) && IndexOf(rest, '\n') == |rest|
    ensures !HasDelimiter(boundary, body) && text + rest == body
    ensures ParseBody(boundary, body) == Parsed(body, [])
  {
    var pieces := Split(body, '\n');
    OnlyLine(rest);
    WholeBody(body, pieces, n, rest);
    assert n == |pieces| - 1;
    if boundary.Some? {
      NoPrefix(pieces, n, Dash(boundary.value));
    }
  }

  lemma NoPrefix(pieces: seq<string>, n: nat, p: string)
    requires n == |pieces| - 1 && forall i | 0 <= i < n :: !(p <= pieces[i])
    ensures PrefixAt(pieces, p) == n
  {
    PrefixAtLater(pieces[..n], pieces[n..], p);
    assert pieces == pieces[..n] + pieces[n..];
  }

  lemma AtLine(boundary: Option<string>, body: string, n: nat, text: string, rest: string, line: string, after: string)
    requires Reading(boundary, body, n, text, rest) && Split(rest, '\n') == [line] + Split(after, '\n')
    requires boundary.Some? ==> !(Dash(boundary.value) <= line)
    ensures Reading(boundary, body, n + 1, text + (line + "\n"), after)
  {
    NextPiece(boundary, Split(body, '\n'), n, text, Split(rest, '\n'), line, Split(after, '\n'));
  }

  lemma NextPiece(boundary: Option<string>, pieces: seq<string>, n: nat, text: string,
                  more: seq<string>, line: string, after: seq<string>)
    requires ReadLines(boundary, pieces, n, text, more) && more == [line] + after && after != []
    requires boundary.Some? ==> !(Dash(boundary.value) <= line)
    ensures ReadLines(boundary, pieces, n + 1, text + (line + "\n"), after)
  {
    assert pieces[n..][0] == line && pieces[n..][1..] == pieces[n + 1..];
    assert pieces[..n + 1] == pieces[..n] + [line];
    EolConcat(pieces[..n], [line], "");
    EolOne(line, "");
    assert line + "" + "\n" == line + "\n";
  }

  lemma AtDelimiter(b: string, body: string, n: nat, text: string, rest: string, line: string, after: string)
    requires Reading(Some(b), body, n, text, rest)
    requires Split(rest, '\n') == [line] + Split(after, '\n') && Dash(b) <= line
    ensures HasDelimiter(Some(b), body)
    ensures text == "" <==> n == 0
    ensures text == "" ==> ParseBody(Some(b), body) == Panics
    ensures text != "" ==> ParseBody(Some(b), body) == Parsed(text[..|text| - 1], ReadParts(Split(rest, '\n'), b, true))
  {
    var pieces := Split(body, '\n');
    PrefixAtHere(pieces, n, Dash(b), line, Split(after, '\n'));
    if n > 0 {
      EolIsJoin(pieces[..n]);
      assert text == Join(pieces[..n], '\n') + "\n";
    }
  }

  lemma PrefixAtHere(pieces: seq<string>, n: nat, p: string, line: string, after: seq<string>)
    requires n < |pieces| && pieces[n..] == [line] + after && after != [] && p <= line
    requires forall i | 0 <= i < n :: !(p <= pieces[i])
    ensures PrefixAt(pieces, p) == n < |pieces| - 1
  {
    assert pieces[n..][0] == line;
    PrefixAtLater(pieces[..n], pieces[n..], p);
    assert pieces == pieces[..n] + pieces[n..];
  }

  lemma WholeBody(body: string, pieces: seq<string>, n: nat, rest: string)
    requires pieces == Split(body, '\n') && n < |pieces| && Split(rest, '\n') == pieces[n..]
    ensures Eol(pieces[..n], "") + rest == body
  {
    JoinSplit(body, '\n');
    JoinSplit(rest, '\n');
    assert pieces == pieces[..n] + pieces[n..];
    EolJoin(pieces[..n], pieces[n..]);
  }

  lemma CrlfChars(s: string, c: char)
    requires c != '\r' && c != '\n'
    ensures c in Crlf(s) <==> c in s
  {
    DropCrChar(s, c);
    AddCrChar(DropCr(s), c);
  }

  lemma {:induction false} DropCrChar(s: string, c: char)
    requires c != '\r'
    ensures c in DropCr(s) <==> c in s
  {
    if s != "" {
      DropCrChar(s[1..], c);
      assert s == [s[0]] + s[1..];
    }
  }

  lemma {:induction false} AddCrChar(s: string, c: char)
    requires c != '\r'
    ensures c in AddCr(s) <==> c in s
  {
    if s != "" {
      AddCrChar(s[1..], c);
      assert s == [s[0]] + s[1..];
    }
  }

  /** Rewriting the preamble's line ends again changes nothing. */
  lemma CrlfTwice(s: string)
    ensures Crlf(Crlf(s)) == Crlf(s)
  {
    DropCrCrlf(s);
  }
}
