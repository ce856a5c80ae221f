/** The reader undoes the writer, under either line end. */
module MailParse {
  import opened Options
  import opened Text
  import opened Sets
  import opened SortedKeys
  import opened Mail
  import opened MailLines

  // ---- a printed message as lines -------------------------------------------

  function ContentLines(content: string): seq<string> {
    Split(DropCr(content), '\n')
  }

  function PartLines(parts: seq<Part>, b: string): seq<string> {
    if parts == [] then [Dash(b) + "--"]
    else [Dash(b)] + PartHeaderLines(parts[0].header) + [""] + ContentLines(parts[0].content) + PartLines(parts[1..], b)
  }

  function BodyLines(m: Message, b: string): seq<string> {
    ContentLines(m.preamble) + PartLines(m.parts, b)
  }

  function AllLines(m: Message, keys: seq<string>, b: string): seq<string> {
    HeaderLines(m.header, keys) + [""] + BodyLines(m, b)
  }

  lemma CrlfLines(s: string)
    ensures Crlf(s) + "\r\n" == Eol(ContentLines(s), "\r")
    ensures PlainLines(ContentLines(s))
  {
    DropCrNoCr(s);
    AddCrLines(DropCr(s));
  }

  /** What follows a content is the line end that belongs to the next delimiter,
      and then lines. */
  lemma {:induction false} PartsTextLines(parts: seq<Part>, b: string)
    ensures PartsText(parts, b, false) == "\r\n" + Eol(PartLines(parts, b), "\r")
    ensures parts != [] ==> PartsText(parts, b, true) == Eol(PartLines(parts, b), "\r")
    decreases |parts|
  {
    if parts == [] {
      EolOne(Dash(b) + "--", "\r");
      assert "\r\n--" + b + "--\r\n" == "\r\n" + (Dash(b) + "--" + "\r" + "\n");
    } else {
      PartsTextLines(parts[1..], b);
      PartTextLines(parts[0], b, PartsText(parts[1..], b, false), PartLines(parts[1..], b));
    }
  }

  lemma PartTextLines(p: Part, b: string, rest: string, lines: seq<string>)
    requires rest == "\r\n" + Eol(lines, "\r")
    ensures "--" + b + "\r\n" + Eol(PartHeaderLines(p.header), "\r") + "\r\n" + Crlf(p.content) + rest
            == Eol([Dash(b)] + PartHeaderLines(p.header) + [""] + ContentLines(p.content) + lines, "\r")
    ensures "\r\n--" + b + "\r\n" + Eol(PartHeaderLines(p.header), "\r") + "\r\n" + Crlf(p.content) + rest
            == "\r\n" + Eol([Dash(b)] + PartHeaderLines(p.header) + [""] + ContentLines(p.content) + lines, "\r")
  {
    var hl, cl := PartHeaderLines(p.header), ContentLines(p.content);
    PartHeadText(hl, b);
    var head := "--" + b + "\r\n" + Eol(hl, "\r") + "\r\n";
    PartTailText([Dash(b)] + hl + [""], head, p.content, rest, lines);
    FrontAssoc("--" + b + "\r\n", Eol(hl, "\r"), Crlf(p.content), rest);
    assert "\r\n--" + b + "\r\n" == "\r\n" + ("--" + b + "\r\n");
  }

  lemma PartHeadText(hl: seq<string>, b: string)
    ensures "--" + b + "\r\n" + Eol(hl, "\r") + "\r\n" == Eol([Dash(b)] + hl + [""], "\r")
  {
    EolOne(Dash(b), "\r");
    EolOne("", "\r");
    EolConcat([Dash(b)], hl, "\r");
    EolConcat([Dash(b)] + hl, [""], "\r");
    assert Dash(b) + "\r" + "\n" == "--" + b + "\r\n" && "" + "\r" + "\n" == "\r\n";
  }

  lemma PartTailText(front: seq<string>, head: string, content: string, rest: string, lines: seq<string>)
    requires head == Eol(front, "\r") && rest == "\r\n" + Eol(lines, "\r")
    ensures head + Crlf(content) + rest == Eol(front + ContentLines(content) + lines, "\r")
  {
    var cl := ContentLines(content);
    CrlfLines(content);
    EolConcat(front, cl, "\r");
    EolConcat(front + cl, lines, "\r");
    Assoc(head, Crlf(content), rest);
    Assoc(Crlf(content), "\r\n", Eol(lines, "\r"));
    Assoc(head, Eol(cl, "\r"), Eol(lines, "\r"));
  }

  lemma FrontAssoc(d: string, fields: string, content: string, rest: string)
    ensures ("\r\n" + d) + fields + "\r\n" + content + rest == "\r\n" + (d + fields + "\r\n" + content + rest)
  {
  }

  lemma PrintLines(m: Message, keys: seq<string>, b: string)
    requires |m.parts| > 1
    ensures Print(m, keys, b) == Eol(AllLines(m, keys, b), "\r")
  {
    var hl, pl := HeaderLines(m.header, keys), PartLines(m.parts, b);
    PartsTextLines(m.parts, b);
    CrlfLines(m.preamble);
    Assoc(Crlf(m.preamble), "\r\n", Eol(pl, "\r"));
    EolConcat(ContentLines(m.preamble), pl, "\r");
    assert BodyText(m, b) == Eol(BodyLines(m, b), "\r");
    EolOne("", "\r");
    EolConcat(hl, [""], "\r");
    EolConcat(hl + [""], BodyLines(m, b), "\r");
  }

  lemma LinesArePlain(m: Message, keys: seq<string>, b: string)
    requires WfHeader(m.header) && ValidBoundary(b) && WfParts(m.parts, b)
    ensures PlainLines(AllLines(m, keys, b)) && PlainLines(BodyLines(m, b))
  {
    HeaderLinesPlain(m.header, keys);
    CrlfLines(m.preamble);
    PartLinesArePlain(m.parts, b);
  }

  lemma BoundaryPlain(b: string)
    requires ValidBoundary(b)
    ensures PlainChars(b)
  {
  }

  lemma PlainConcat(a: seq<string>, b: seq<string>)
    requires PlainLines(a) && PlainLines(b)
    ensures PlainLines(a + b)
  {
  }

  lemma {:induction false} PartLinesArePlain(parts: seq<Part>, b: string)
    requires ValidBoundary(b) && WfParts(parts, b)
    ensures PlainLines(PartLines(parts, b))
    decreases |parts|
  {
    BoundaryPlain(b);
    if parts != [] {
      assert WfParts(parts[1..], b);
      PartLinesArePlain(parts[1..], b);
      PartHeadPlain(parts[0].header, b);
      var head := [Dash(b)] + PartHeaderLines(parts[0].header) + [""];
      CrlfLines(parts[0].content);
      PlainConcat(head, ContentLines(parts[0].content));
      PlainConcat(head + ContentLines(parts[0].content), PartLines(parts[1..], b));
    }
  }

  lemma PartHeadPlain(h: Header, b: string)
    requires WfHeader(h) && PlainChars(b)
    ensures PlainLines([Dash(b)] + PartHeaderLines(h) + [""])
  {
    HeaderLinesPlain(h, Sorted(h.Keys));
  }

  // ---- delimiters -----------------------------------------------------------

  lemma DashLineIs(b: string, eol: string)
    requires ValidBoundary(b) && LineEnd(eol)
    ensures IsDelimiter(Dash(b) + eol, b) && IsMark(Dash(b) + eol, b) && !IsClose(Dash(b) + eol, b)
  {
    assert (Dash(b) + eol)[|Dash(b)|..] == eol;
    if eol == "\r" {
      assert eol[1..] == "";
      assert TrimLeft(eol) == TrimLeft("") == "";
    }
  }

  lemma CloseLineIs(b: string, eol: string)
    requires ValidBoundary(b) && LineEnd(eol)
    ensures IsClose(Dash(b) + "--" + eol, b) && IsMark(Dash(b) + "--" + eol, b)
  {
    var l := Dash(b) + "--" + eol;
    assert l[|Dash(b)| + 2..] == eol;
    assert l[|Dash(b)|..] == "--" + eol;
    assert Dash(b) + "--" <= l;
    if eol == "\r" {
      assert eol[1..] == "";
      assert TrimLeft(eol) == TrimLeft("") == "";
    }
  }

  /** A line end makes no line start like a delimiter. */
  lemma NoDashSuffixed(l: string, b: string, eol: string)
    requires ValidBoundary(b) && LineEnd(eol) && !(Dash(b) <= l)
    ensures !(Dash(b) <= l + eol)
  {
    BoundaryPlain(b);
    var d, t := Dash(b), l + eol;
    assert d[|d| - 1] == b[|b| - 1] && d[|d| - 1] != '\r';
    if |d| <= |l| {
      assert t[..|d|] == l[..|d|];
      assert d <= t <==> t[..|d|] == d;
    } else if |d| == |t| {
      assert t[|d| - 1] == '\r';
    }
  }

  ghost predicate NoDash(lines: seq<string>, b: string) {
    forall i | 0 <= i < |lines| :: !(Dash(b) <= lines[i])
  }

  lemma {:induction false} PrefixAtLines(lines: seq<string>, b: string, eol: string, rest: seq<string>)
    requires ValidBoundary(b) && LineEnd(eol) && NoDash(lines, b)
    requires |rest| > 1 && Dash(b) <= rest[0]
    ensures PrefixAt(Suffixed(lines, eol) + rest, Dash(b)) == |lines|
    decreases |lines|
  {
    if lines != [] {
      NoDashSuffixed(lines[0], b, eol);
      PrefixAtLines(lines[1..], b, eol, rest);
      assert (Suffixed(lines, eol) + rest)[1..] == Suffixed(lines[1..], eol) + rest;
    }
  }

  lemma {:induction false} MarkAtLines(lines: seq<string>, b: string, eol: string, rest: seq<string>)
    requires ValidBoundary(b) && LineEnd(eol) && NoDash(lines, b)
    requires rest != [] && IsMark(rest[0], b)
    ensures MarkAt(Suffixed(lines, eol) + rest, b) == |lines|
    decreases |lines|
  {
    if lines != [] {
      NoDashSuffixed(lines[0], b, eol);
      MarkAtLines(lines[1..], b, eol, rest);
      assert (Suffixed(lines, eol) + rest)[1..] == Suffixed(lines[1..], eol) + rest;
    }
  }

  // ---- reading the parts ----------------------------------------------------

  lemma JoinContent(content: string, eol: string)
    requires LineEnd(eol)
    ensures DropCr(Join(Suffixed(ContentLines(content), eol), '\n')) == DropCr(content)
  {
    CrlfLines(content);
    JoinSuffixed(ContentLines(content), eol);
    JoinSplit(DropCr(content), '\n');
  }

  lemma SortedHeader(h: Header)
    ensures Distinct(Sorted(h.Keys)) && Restrict(h, Sorted(h.Keys)) == h
  {
  }

  lemma PartLinesStart(parts: seq<Part>, b: string, eol: string)
    requires ValidBoundary(b) && LineEnd(eol)
    ensures PartLines(parts, b) != [] && IsMark(PartLines(parts, b)[0] + eol, b)
    ensures Dash(b) <= PartLines(parts, b)[0] + eol
  {
    DashLineIs(b, eol);
    CloseLineIs(b, eol);
  }

  /** ReadParts on a delimiter line, a header of n lines, an empty line, and a
      content of k lines before the next mark. */
  lemma ReadStep(d: string, rest: seq<string>, b: string, first: bool, n: nat, k: nat, h: Header)
    requires IsDelimiter(d, b) && !IsClose(d, b)
    requires BlankAt(rest) == n < |rest| && ParseHeader(rest[..n]) == Some(h)
    requires MarkAt(rest[n + 1..], b) == k < |rest[n + 1..]|
    ensures ReadParts([d] + rest, b, first)
            == [Part(h, StripCr(Join(rest[n + 1..][..k], '\n')))] + ReadParts(rest[n + 1..][k..], b, false)
  {
    assert ([d] + rest)[1..] == rest;
  }

  /** The header of a printed text, and where its body starts. */
  lemma ParseHead(h: Header, keys: seq<string>, eol: string, body: seq<string>)
    requires WfHeader(h) && Distinct(keys) && LineEnd(eol)
    ensures var pieces := Suffixed(HeaderLines(h, keys), eol) + [eol] + body;
            var n := BlankAt(pieces);
            && n == |HeaderLines(h, keys)| < |pieces|
            && ParseHeader(pieces[..n]) == Some(Restrict(h, keys)) && pieces[n + 1..] == body
  {
    var hl := HeaderLines(h, keys);
    HeaderLinesPlain(h, keys);
    BlankAtFields(hl, eol, body);
    ParseHeaderLines(h, keys, eol);
    HeadSlices(Suffixed(hl, eol), eol, body);
  }

  lemma HeadSlices(front: seq<string>, blank: string, rest: seq<string>)
    ensures (front + [blank] + rest)[..|front|] == front && (front + [blank] + rest)[|front| + 1..] == rest
  {
  }

  /** One part read off the front of its lines. */
  lemma ReadOnePart(p: Part, b: string, eol: string, tail: seq<string>, first: bool)
    requires ValidBoundary(b) && LineEnd(eol) && WfHeader(p.header) && NoDash(ContentLines(p.content), b)
    requires tail != [] && IsMark(tail[0], b)
    ensures var hl, cl := PartHeaderLines(p.header), ContentLines(p.content);
            ReadParts([Dash(b) + eol] + (Suffixed(hl, eol) + [eol] + (Suffixed(cl, eol) + tail)), b, first)
            == [Part(p.header, StripCr(Join(Suffixed(cl, eol), '\n')))] + ReadParts(tail, b, false)
  {
    var hl, cl := PartHeaderLines(p.header), ContentLines(p.content);
    var content := Suffixed(cl, eol) + tail;
    var rest := Suffixed(hl, eol) + [eol] + content;
    DashLineIs(b, eol);
    PartHeadRead(p.header, eol, content);
    MarkAtLines(cl, b, eol, tail);
    assert content[..|cl|] == Suffixed(cl, eol) && content[|cl|..] == tail;
    ReadStep(Dash(b) + eol, rest, b, first, |hl|, |cl|, p.header);
  }

  lemma PartHeadRead(h: Header, eol: string, content: seq<string>)
    requires WfHeader(h) && LineEnd(eol)
    ensures var hl := PartHeaderLines(h);
            var rest := Suffixed(hl, eol) + [eol] + content;
            BlankAt(rest) == |hl| < |rest| && ParseHeader(rest[..|hl|]) == Some(h) && rest[|hl| + 1..] == content
  {
    SortedHeader(h);
    ParseHead(h, Sorted(h.Keys), eol, content);
  }

  lemma Regroup<T>(a: seq<T>, b: seq<T>, c: seq<T>, d: seq<T>, e: seq<T>, f: seq<T>)
    ensures a + b + c + d + e + f == a + (b + c + (d + (e + f)))
  {
  }

  lemma PartLinesSuffixed(parts: seq<Part>, b: string, eol: string, end: seq<string>)
    requires parts != []
    ensures var hl, cl := PartHeaderLines(parts[0].header), ContentLines(parts[0].content);
            Suffixed(PartLines(parts, b), eol) + end
            == [Dash(b) + eol] + (Suffixed(hl, eol) + [eol] + (Suffixed(cl, eol) + (Suffixed(PartLines(parts[1..], b), eol) + end)))
  {
    var hl, cl := PartHeaderLines(parts[0].header), ContentLines(parts[0].content);
    var pl := PartLines(parts[1..], b);
    FiveSuffixed([Dash(b)], hl, [""], cl, pl, eol);
    SuffixedOne(Dash(b), eol);
    SuffixedOne("", eol);
    assert "" + eol == eol;
    Regroup([Dash(b) + eol], Suffixed(hl, eol), [eol], Suffixed(cl, eol), Suffixed(pl, eol), end);
  }

  lemma SuffixedOne(l: string, eol: string)
    ensures Suffixed([l], eol) == [l + eol]
  {
  }

  lemma FiveSuffixed(a: seq<string>, b: seq<string>, c: seq<string>, d: seq<string>, e: seq<string>, eol: string)
    ensures Suffixed(a + b + c + d + e, eol)
            == Suffixed(a, eol) + Suffixed(b, eol) + Suffixed(c, eol) + Suffixed(d, eol) + Suffixed(e, eol)
  {
    SuffixedConcat(a, b, eol);
    SuffixedConcat(a + b, c, eol);
    SuffixedConcat(a + b + c, d, eol);
    SuffixedConcat(a + b + c + d, e, eol);
  }

  lemma CanonPartsCons(p: Part, parts: seq<Part>)
    ensures CanonParts([p] + parts) == [CanonPart(p)] + CanonParts(parts)
  {
    assert ([p] + parts)[1..] == parts;
  }

  lemma {:induction false} ReadPartLines(parts: seq<Part>, b: string, eol: string, first: bool)
    requires ValidBoundary(b) && LineEnd(eol) && WfParts(parts, b)
    ensures CanonParts(ReadParts(Suffixed(PartLines(parts, b), eol) + [""], b, first)) == CanonParts(parts)
    decreases |parts|
  {
    if parts == [] {
      CloseLineIs(b, eol);
      assert PartLines(parts, b) == [Dash(b) + "--"];
      assert (Suffixed(PartLines(parts, b), eol) + [""])[0] == Dash(b) + "--" + eol;
    } else {
      var p := parts[0];
      var tail := Suffixed(PartLines(parts[1..], b), eol) + [""];
      assert WfParts(parts[1..], b);
      ReadPartLines(parts[1..], b, eol, false);
      PartLinesStart(parts[1..], b, eol);
      PartLinesSuffixed(parts, b, eol, [""]);
      ReadOnePart(p, b, eol, tail, first);
      var cl := Join(Suffixed(ContentLines(p.content), eol), '\n');
      StripCrDrop(cl);
      JoinContent(p.content, eol);
      CanonPartsCons(Part(p.header, StripCr(cl)), ReadParts(tail, b, false));
      CanonPartsCons(p, parts[1..]);
      assert [p] + parts[1..] == parts;
    }
  }

  // ---- reading a message ----------------------------------------------------

  /** Where ParseBody stops in the pieces of a printed body. */
  lemma ParsePieces(pre: seq<string>, rest: seq<string>, b: string, eol: string)
    requires ValidBoundary(b) && LineEnd(eol) && NoDash(pre, b) && pre != []
    requires |rest| > 1 && Dash(b) <= rest[0]
    requires forall i | 0 <= i < |Suffixed(pre, eol) + rest| :: '\n' !in (Suffixed(pre, eol) + rest)[i]
    ensures ParseBody(Some(b), Join(Suffixed(pre, eol) + rest, '\n'))
            == Parsed(Join(Suffixed(pre, eol), '\n'), ReadParts(rest, b, true))
  {
    var pieces := Suffixed(pre, eol) + rest;
    SplitJoin(pieces, '\n');
    PrefixAtLines(pre, b, eol, rest);
    assert pieces[..|pre|] == Suffixed(pre, eol) && pieces[|pre|..] == rest;
  }

  lemma BodyPieces(m: Message, b: string, eol: string)
    requires ValidBoundary(b) && LineEnd(eol) && WfParts(m.parts, b) && WfHeader(m.header)
    ensures var pieces := Suffixed(ContentLines(m.preamble), eol) + (Suffixed(PartLines(m.parts, b), eol) + [""]);
            && pieces == Suffixed(BodyLines(m, b), eol) + [""]
            && forall i | 0 <= i < |pieces| :: '\n' !in pieces[i]
  {
    var pre, pl := ContentLines(m.preamble), PartLines(m.parts, b);
    LinesArePlain(m, [], b);
    SuffixedConcat(pre, pl, eol);
    Assoc(Suffixed(pre, eol), Suffixed(pl, eol), [""]);
    PlainPieces(BodyLines(m, b), eol);
  }

  lemma PlainPieces(lines: seq<string>, eol: string)
    requires PlainLines(lines) && LineEnd(eol)
    ensures forall i | 0 <= i < |Suffixed(lines, eol) + [""]| :: '\n' !in (Suffixed(lines, eol) + [""])[i]
  {
  }

  lemma ParseBodyLines(m: Message, b: string, eol: string)
    requires ValidBoundary(b) && LineEnd(eol) && WfParts(m.parts, b) && NoDashLine(DropCr(m.preamble), b)
    requires WfHeader(m.header)
    ensures var r := ParseBody(Some(b), Join(Suffixed(BodyLines(m, b), eol) + [""], '\n'));
            r.Parsed? && DropCr(r.preamble) == DropCr(m.preamble) && CanonParts(r.parts) == CanonParts(m.parts)
  {
    BodyPieces(m, b, eol);
    PartLinesStart(m.parts, b, eol);
    ParsePieces(ContentLines(m.preamble), Suffixed(PartLines(m.parts, b), eol) + [""], b, eol);
    JoinContent(m.preamble, eol);
    ReadPartLines(m.parts, b, eol, true);
  }

  /** Content-Type is among the printed fields, so the boundary survives. */
  lemma BoundaryKept(h: Header, keys: seq<string>, media: Media)
    requires "Content-Type" in keys
    ensures Boundary(Restrict(h, keys), media) == Boundary(h, media)
  {
  }

  /** The pieces of a printed multipart message. */
  lemma SplitAllLines(m: Message, keys: seq<string>, b: string, eol: string)
    requires WfHeader(m.header) && ValidBoundary(b) && WfParts(m.parts, b) && LineEnd(eol)
    ensures Split(Eol(AllLines(m, keys, b), eol), '\n')
            == Suffixed(HeaderLines(m.header, keys), eol) + [eol] + (Suffixed(BodyLines(m, b), eol) + [""])
  {
    var hl, bl := HeaderLines(m.header, keys), BodyLines(m, b);
    var lines := AllLines(m, keys, b);
    LinesArePlain(m, keys, b);
    SplitEol(lines, eol, "");
    assert Eol(lines, eol) + "" == Eol(lines, eol);
    SuffixedConcat(hl, [""], eol);
    SuffixedConcat(hl + [""], bl, eol);
    SuffixedOne("", eol);
    assert "" + eol == eol;
    Assoc(Suffixed(hl, eol) + [eol], Suffixed(bl, eol), [""]);
  }

  lemma ParseLines(m: Message, keys: seq<string>, media: Media, eol: string)
    requires WfHeader(m.header) && WfMultipart(m, media) && Distinct(keys) && "Content-Type" in keys && LineEnd(eol)
    ensures var r := Parse(Eol(AllLines(m, keys, BoundaryOf(m, media)), eol), media);
            r.Some? && Canon(r.value) == Canon(m.(header := Restrict(m.header, keys)))
  {
    var b := BoundaryOf(m, media);
    SplitAllLines(m, keys, b, eol);
    ParseHead(m.header, keys, eol, Suffixed(BodyLines(m, b), eol) + [""]);
    BoundaryKept(m.header, keys, media);
    ParseBodyLines(m, b, eol);
  }

  // ---- messages without parts -----------------------------------------------

  lemma PrintPlain(m: Message, keys: seq<string>, b: string)
    requires |m.parts| <= 1
    ensures Print(m, keys, b) == Eol(HeaderLines(m.header, keys) + [""], "\r") + Crlf(m.preamble)
  {
    var hl := HeaderLines(m.header, keys);
    EolOne("", "\r");
    EolConcat(hl, [""], "\r");
    assert Crlf(m.preamble) + "" == Crlf(m.preamble);
  }

  /** Reading a header followed by a body without parts. */
  lemma ParsePlain(h: Header, keys: seq<string>, media: Media, eol: string, body: string)
    requires WfHeader(h) && Distinct(keys) && "Content-Type" in keys && LineEnd(eol)
    ensures Parse(Eol(HeaderLines(h, keys) + [""], eol) + body, media)
            == match ParseBody(Boundary(h, media), body)
               case Parsed(preamble, parts) => Some(Message(Restrict(h, keys), preamble, parts))
               case Panics => None
  {
    var hl := HeaderLines(h, keys);
    HeaderLinesPlain(h, keys);
    assert PlainLines(hl + [""]);
    SplitEol(hl + [""], eol, body);
    SuffixedConcat(hl, [""], eol);
    assert Suffixed([""], eol) == [eol] by {
      assert "" + eol == eol;
    }
    ParseHead(h, keys, eol, Split(body, '\n'));
    JoinSplit(body, '\n');
    BoundaryKept(h, keys, media);
  }

  /** The body is read as it stands exactly when no complete line of it starts
      like a delimiter; as an absent boundary parameter reads as "", a text/plain
      article must have no line starting with two dashes. */
  lemma PlainBodyExact(boundary: Option<string>, body: string)
    ensures ParseBody(boundary, body) == Parsed(body, []) <==> NoDelimiterLine(body, boundary)
  {
    if boundary.Some? {
      var pieces := Split(body, '\n');
      var i := PrefixAt(pieces, Dash(boundary.value));
      if 0 < i < |pieces| - 1 {
        JoinSplit(body, '\n');
        JoinConcat(pieces[..i], pieces[i..], '\n');
        assert pieces == pieces[..i] + pieces[i..];
      }
    }
  }

  lemma TransferPlain(h: Header, keys: seq<string>, s: string)
    requires WfHeader(h)
    ensures Transfer(Eol(HeaderLines(h, keys) + [""], "\r") + Crlf(s))
            == Eol(HeaderLines(h, keys) + [""], "") + DropCr(s) + (if EndsLine(DropCr(s)) then "" else "\n")
  {
    var lines := HeaderLines(h, keys) + [""];
    HeaderLinesPlain(h, keys);
    assert PlainLines(lines);
    ToLfEol(lines, Crlf(s));
    ToLfBody(s);
    EolEndsLine(lines, "");
    LastLineEnd(Eol(lines, ""), DropCr(s));
  }

  lemma ToLfBody(s: string)
    ensures ToLf(Crlf(s)) == DropCr(s)
  {
    DropCrNoCr(s);
    ToLfCrlf(DropCr(s), "");
    assert Crlf(s) + "" == Crlf(s) && DropCr(s) + ToLf("") == DropCr(s);
  }

  lemma LastLineEnd(head: string, s: string)
    requires head != "" && EndsLine(head)
    ensures var t := head + s;
            (if t[|t| - 1] != '\n' then t + "\n" else t) == t + (if EndsLine(s) then "" else "\n")
  {
    var t := head + s;
    assert t[|t| - 1] == if s == "" then head[|head| - 1] else s[|s| - 1];
    assert t + "" == t;
  }

  lemma {:induction false} EolEndsLine(lines: seq<string>, eol: string)
    requires lines != []
    ensures Eol(lines, eol) != "" && EndsLine(Eol(lines, eol))
    decreases |lines|
  {
    if |lines| > 1 {
      EolEndsLine(lines[1..], eol);
    } else {
      EolOne(lines[0], eol);
    }
  }

  // ---- the round trip -------------------------------------------------------

  /** m survives the block of whole lines it travels in. */
  predicate WholeLines(m: Message) {
    m.parts == [] ==> EndsLine(DropCr(m.preamble))
  }

  /** Print and parse: for every well-formed message, reading what was printed,
      from a file or after a transfer, gives the printed fields, the preamble and
      the parts back up to line ends. */
  lemma PrintParse(m: Message, keys: seq<string>, media: Media)
    requires Wf(m, media) && Distinct(keys) && "Content-Type" in keys
    ensures var text := Print(m, keys, BoundaryOf(m, media));
            var back := Canon(m.(header := Restrict(m.header, keys)));
            && Parse(text, media).Some? && Canon(Parse(text, media).value) == back
            && (WholeLines(m) ==> Parse(Transfer(text), media).Some? && Canon(Parse(Transfer(text), media).value) == back)
  {
    if WfMultipart(m, media) {
      PrintParseMultipart(m, keys, media);
    } else {
      PrintParsePlain(m, keys, media);
    }
  }

  lemma PrintParseMultipart(m: Message, keys: seq<string>, media: Media)
    requires WfHeader(m.header) && WfMultipart(m, media) && Distinct(keys) && "Content-Type" in keys
    ensures var text := Print(m, keys, BoundaryOf(m, media));
            var back := Canon(m.(header := Restrict(m.header, keys)));
            && Parse(text, media).Some? && Canon(Parse(text, media).value) == back
            && Parse(Transfer(text), media).Some? && Canon(Parse(Transfer(text), media).value) == back
  {
    var b := BoundaryOf(m, media);
    var lines := AllLines(m, keys, b);
    PrintLines(m, keys, b);
    ParseLines(m, keys, media, "\r");
    LinesArePlain(m, keys, b);
    ToLfEol(lines, "");
    assert Eol(lines, "\r") + "" == Eol(lines, "\r") && Eol(lines, "") + "" == Eol(lines, "");
    EolEndsLine(lines, "");
    ParseLines(m, keys, media, "");
  }

  lemma PrintParsePlain(m: Message, keys: seq<string>, media: Media)
    requires WfHeader(m.header) && WfPlain(m, media) && Distinct(keys) && "Content-Type" in keys
    ensures var text := Print(m, keys, BoundaryOf(m, media));
            var back := Canon(m.(header := Restrict(m.header, keys)));
            && Parse(text, media).Some? && Canon(Parse(text, media).value) == back
            && (WholeLines(m) ==> Parse(Transfer(text), media).Some? && Canon(Parse(Transfer(text), media).value) == back)
  {
    PrintPlain(m, keys, BoundaryOf(m, media));
    ParsePlain(m.header, keys, media, "\r", Crlf(m.preamble));
    PlainBodyExact(Boundary(m.header, media), Crlf(m.preamble));
    DropCrCrlf(m.preamble);
    if WholeLines(m) {
      TransferPlain(m.header, keys, m.preamble);
      var head := Eol(HeaderLines(m.header, keys) + [""], "");
      assert head + DropCr(m.preamble) + "" == head + DropCr(m.preamble);
      ParsePlain(m.header, keys, media, "", DropCr(m.preamble));
      PlainBodyExact(Boundary(m.header, media), DropCr(m.preamble));
      DropCrNoCr(m.preamble);
    }
  }
}
