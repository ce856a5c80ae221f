/** The canonical message form (pkg/messages/messages.go): what writeRaw prints,
    what comes back out of a message's text, and what a transfer does to it.
    Texts are strings of characters; header keys are in canonical MIME form. */
module Mail {
  import opened Options
  import opened Text
  import opened SortedKeys

  type Header = map<string, seq<string>>

  datatype Part = Part(header: Header, content: string)

  datatype Message = Message(header: Header, preamble: string, parts: seq<Part>)

  /** `mime.ParseMediaType` as far as the relay looks: no media type, or the value
      of its boundary parameter ("" when it has none). */
  type Media = string -> Option<string>

  const SIGNATURE_HEADER := "X-Kothawoc-Signature"

  const SIGNATURE_FIELDS: seq<string> :=
    ["From", "Newsgroups", "Date", "Subject", "Approved", "Control", "Distribution", "Message-Id",
     "Supersedes", "Sender", "Mime-Version", "Content-Type", "Content-Transfer-Encoding"]

  /** `Header.Get`. */
  function Get(h: Header, key: string): string {
    if key in h && h[key] != [] then h[key][0] else ""
  }

  function Boundary(h: Header, media: Media): Option<string> {
    media(Get(h, "Content-Type"))
  }

  // ---- line ends ------------------------------------------------------------

  function DropCr(s: string): string {
    if s == "" then "" else if s[0] == '\r' then DropCr(s[1..]) else [s[0]] + DropCr(s[1..])
  }

  function AddCr(s: string): string {
    if s == "" then "" else if s[0] == '\n' then "\r\n" + AddCr(s[1..]) else [s[0]] + AddCr(s[1..])
  }

  /** The two replacements writeRaw makes on preamble and contents. */
  function Crlf(s: string): string {
    AddCr(DropCr(s))
  }

  // ---- printing -------------------------------------------------------------

  function FieldLines(key: string, values: seq<string>): seq<string> {
    if values == [] then []
    else FieldLines(key, values[..|values| - 1]) + [key + ": " + values[|values| - 1]]
  }

  /** The fields named by keys, in that order. */
  function HeaderLines(h: Header, keys: seq<string>): seq<string> {
    if keys == [] then []
    else
      var k := keys[|keys| - 1];
      HeaderLines(h, keys[..|keys| - 1]) + (if k in h then FieldLines(k, h[k]) else [])
  }

  /** Each line with its end: eol is "" for LF and "\r" for CRLF. */
  function Eol(lines: seq<string>, eol: string): string {
    if lines == [] then "" else lines[0] + eol + "\n" + Eol(lines[1..], eol)
  }

  function PartHeaderLines(h: Header): seq<string> {
    HeaderLines(h, Sorted(h.Keys))
  }

  /** The multipart writer: a delimiter in front of every part and a closing one. */
  function PartsText(parts: seq<Part>, b: string, first: bool): string {
    if parts == [] then "\r\n--" + b + "--\r\n"
    else
      (if first then "--" else "\r\n--") + b + "\r\n"
      + Eol(PartHeaderLines(parts[0].header), "\r") + "\r\n"
      + Crlf(parts[0].content) + PartsText(parts[1..], b, false)
  }

  /** Parts are printed from the second on: a single one is left out. */
  function BodyText(m: Message, b: string): string {
    Crlf(m.preamble) + (if |m.parts| > 1 then "\r\n" + PartsText(m.parts, b, true) else "")
  }

  /** writeRaw with the header fields in the order of keys. */
  function Print(m: Message, keys: seq<string>, b: string): string {
    Eol(HeaderLines(m.header, keys), "\r") + "\r\n" + BodyText(m, b)
  }

  /** The signed form: only the signature fields, then the body. */
  function Signed(m: Message, b: string): string {
    Print(m, SIGNATURE_FIELDS, b)
  }

  function RestKeys(h: Header): set<string> {
    h.Keys - (set k | k in SIGNATURE_FIELDS)
  }

  // ---- transfer -------------------------------------------------------------

  /** Every CRLF becomes LF. */
  function ToLf(s: string): string {
    if s == "" then ""
    else if |s| >= 2 && s[0] == '\r' && s[1] == '\n' then "\n" + ToLf(s[2..])
    else [s[0]] + ToLf(s[1..])
  }

  /** A posted article travels as a block of whole lines (section 3.1.1 of
      RFC 3977) and is read with LF line ends. */
  function Transfer(text: string): string {
    var t := ToLf(text);
    if t != "" && t[|t| - 1] != '\n' then t + "\n" else t
  }

  // ---- parsing --------------------------------------------------------------

  function StripCr(s: string): string {
    if s != "" && s[|s| - 1] == '\r' then s[..|s| - 1] else s
  }

  function ParseField(line: string): Option<(string, string)>
  {
    var i := IndexOf(line, ':');
    if i == 0 || i >= |line| then None else Some((line[..i], TrimSpace(line[i + 1..])))
  }

  function Add(h: Header, key: string, value: string): Header {
    h[key := (if key in h then h[key] else []) + [value]]
  }

  function ParseHeader(lines: seq<string>): Option<Header> {
    if lines == [] then Some(map[])
    else
      var n := |lines| - 1;
      match (ParseHeader(lines[..n]), ParseField(lines[n]))
      case (Some(h), Some(f)) => Some(Add(h, f.0, f.1))
      case _ => None
  }

  /** The first line that is empty but for its line end; |lines| when there is none. */
  function BlankAt(lines: seq<string>): (n: nat)
    ensures n <= |lines|
  {
    if lines == [] || StripCr(lines[0]) == "" then 0 else 1 + BlankAt(lines[1..])
  }

  function Dash(b: string): string {
    "--" + b
  }

  /** A line at which the content of a part ends. */
  predicate IsMark(line: string, b: string) {
    Dash(b) <= line &&
    var rest := line[|Dash(b)|..];
    rest == "" || rest[0] == ' ' || rest[0] == '\t' || rest[0] == '\r' || "--" <= rest
  }

  predicate IsDelimiter(line: string, b: string) {
    Dash(b) <= line && TrimSpace(line[|Dash(b)|..]) == ""
  }

  predicate IsClose(line: string, b: string) {
    Dash(b) + "--" <= line && TrimSpace(line[|Dash(b)| + 2..]) == ""
  }

  function MarkAt(lines: seq<string>, b: string): (n: nat)
    ensures n <= |lines|
  {
    if lines == [] || IsMark(lines[0], b) then 0 else 1 + MarkAt(lines[1..], b)
  }

  /** The multipart reader, on the pieces of a text between LFs.  It keeps the
      parts it has when it meets something it cannot read. */
  function ReadParts(lines: seq<string>, b: string, first: bool): seq<Part>
    decreases |lines|
  {
    if lines == [] || IsClose(lines[0], b) then []
    else if !IsDelimiter(lines[0], b) then (if first then ReadParts(lines[1..], b, true) else [])
    else
      var rest := lines[1..];
      var n := BlankAt(rest);
      if n == |rest| || ParseHeader(rest[..n]).None? then []
      else
        var content := rest[n + 1..];
        var k := MarkAt(content, b);
        [Part(ParseHeader(rest[..n]).value, StripCr(Join(content[..k], '\n')))]
        + (if k == |content| then [] else ReadParts(content[k..], b, false))
  }

  /** The first complete line with prefix p; |pieces| - 1 when there is none, the
      last piece being the unterminated rest of the text. */
  function PrefixAt(pieces: seq<string>, p: string): (n: nat)
    requires pieces != []
    ensures n < |pieces|
  {
    if |pieces| == 1 || p <= pieces[0] then 0 else 1 + PrefixAt(pieces[1..], p)
  }

  datatype Parsed = Parsed(preamble: string, parts: seq<Part>) | Panics

  /** ParseBody: the preamble up to the first line that starts like a delimiter,
      without its last LF, then the parts.  A delimiter on the very first line
      leaves no preamble to take an LF from, and the source panics. */
  function ParseBody(boundary: Option<string>, body: string): Parsed {
    match boundary
    case None => Parsed(body, [])
    case Some(b) =>
      var pieces := Split(body, '\n');
      var i := PrefixAt(pieces, Dash(b));
      if i == |pieces| - 1 then Parsed(body, [])
      else if i == 0 then Panics
      else Parsed(Join(pieces[..i], '\n'), ReadParts(pieces[i..], b, true))
  }

  /** A message from its text; None when the header cannot be read. */
  function Parse(text: string, media: Media): Option<Message> {
    var pieces := Split(text, '\n');
    var n := BlankAt(pieces);
    match ParseHeader(pieces[..n])
    case None => None
    case Some(h) =>
      var body := if n == |pieces| then "" else Join(pieces[n + 1..], '\n');
      match ParseBody(Boundary(h, media), body)
      case Parsed(preamble, parts) => Some(Message(h, preamble, parts))
      case Panics => None
  }

  // ---- messages equal up to line ends ---------------------------------------

  function CanonPart(p: Part): Part {
    p.(content := DropCr(p.content))
  }

  function CanonParts(parts: seq<Part>): (r: seq<Part>)
    ensures |r| == |parts|
    ensures forall i | 0 <= i < |parts| :: r[i] == CanonPart(parts[i])
  {
    if parts == [] then [] else [CanonPart(parts[0])] + CanonParts(parts[1..])
  }

  /** The message with all line ends LF. */
  function Canon(m: Message): Message {
    Message(m.header, DropCr(m.preamble), CanonParts(m.parts))
  }

  // ---- well-formed messages -------------------------------------------------

  predicate PlainChars(s: string) {
    '\r' !in s && '\n' !in s
  }

  predicate WfKey(k: string) {
    k != "" && PlainChars(k) && ':' !in k
  }

  predicate WfValue(v: string) {
    PlainChars(v) && (v == "" || (!IsSpace(v[0]) && !IsSpace(v[|v| - 1])))
  }

  ghost predicate WfHeader(h: Header) {
    forall k | k in h :: WfKey(k) && h[k] != [] && forall i | 0 <= i < |h[k]| :: WfValue(h[k][i])
  }

  predicate BoundaryChar(c: char) {
    'a' <= c <= 'z' || 'A' <= c <= 'Z' || '0' <= c <= '9' || c in "'()+_,-./:=? "
  }

  /** What the multipart writer accepts. */
  predicate ValidBoundary(b: string) {
    1 <= |b| <= 70 && b[|b| - 1] != ' ' && forall i | 0 <= i < |b| :: BoundaryChar(b[i])
  }

  ghost predicate NoDashLine(s: string, b: string) {
    forall i | 0 <= i < |Split(s, '\n')| :: !(Dash(b) <= Split(s, '\n')[i])
  }

  ghost predicate WfParts(parts: seq<Part>, b: string) {
    forall i | 0 <= i < |parts| :: WfHeader(parts[i].header) && NoDashLine(DropCr(parts[i].content), b)
  }

  /** A message with two or more parts that the writer and the reader both take
      for one: a boundary the writer accepts, and no line of preamble or contents
      that starts like a delimiter. */
  ghost predicate WfMultipart(m: Message, media: Media) {
    && |m.parts| > 1
    && Boundary(m.header, media).Some?
    && var b := Boundary(m.header, media).value;
       ValidBoundary(b) && NoDashLine(DropCr(m.preamble), b) && WfParts(m.parts, b)
  }

  predicate EndsLine(s: string) {
    s == "" || s[|s| - 1] == '\n'
  }

  /** No complete line of s is taken for a delimiter. */
  predicate NoDelimiterLine(s: string, boundary: Option<string>) {
    boundary.Some? ==> PrefixAt(Split(s, '\n'), Dash(boundary.value)) == |Split(s, '\n')| - 1
  }

  /** A message without parts, and no line, with either line end, that is taken
      for a delimiter. */
  predicate WfPlain(m: Message, media: Media) {
    var b := Boundary(m.header, media);
    m.parts == [] && NoDelimiterLine(DropCr(m.preamble), b) && NoDelimiterLine(Crlf(m.preamble), b)
  }

  ghost predicate Wf(m: Message, media: Media) {
    WfHeader(m.header) && (WfMultipart(m, media) || WfPlain(m, media))
  }

  /** The boundary the writer uses; it is only looked at for multipart messages. */
  function BoundaryOf(m: Message, media: Media): string {
    match Boundary(m.header, media)
    case Some(b) => b
    case None => ""
  }
}
