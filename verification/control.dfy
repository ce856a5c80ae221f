/** Newgroup control messages (pkg/messages/control.go): how the sender builds the
    Control header and the group info part, and what the receiver reads back. */
module NewgroupText {
  import opened Text

  datatype Posting = PostingPermitted | PostingNotPermitted | PostingModerated | PostingUnknown

  datatype Maybe = Value(s: string) | Panics

  /** `strings.Split(s, sep)` for a separator of several characters. */
  function SplitOn(s: string, sep: string): (r: seq<string>)
    requires sep != ""
    ensures |r| >= 1
    decreases |s|
  {
    if s == "" then [""]
    else if sep <= s then [""] + SplitOn(s[|sep|..], sep)
    else
      var r := SplitOn(s[1..], sep);
      [[s[0]] + r[0]] + r[1..]
  }

  /** The full group name that goes into the message. */
  function GroupTitle(owner: string, fullname: string): string {
    var names := SplitOn(fullname, owner + ".");
    owner + "." + (if |names| > 1 then names[1] else names[0])
  }

  /** As written, the flag goes with permitted posting. */
  function Flag(posting: Posting): string {
    if posting.PostingPermitted? then " moderated" else ""
  }

  function ControlHeader(title: string, posting: Posting): string {
    "newgroup " + title + Flag(posting)
  }

  const INFO_LEAD := "For your newsgroups file:"

  /** The group info part once transport has turned its CRLF into LF. */
  function GroupInfo(title: string, description: string, posting: Posting): string {
    INFO_LEAD + "\n" + title + " " + description + Flag(posting)
  }

  /** What CheckControl takes for the description; its slices may be out of range. */
  function ReadDescription(control: string, info: string): Maybe {
    DescriptionIn(Split(info, '\n'), if |Split(control, ' ')| == 3 then 1 else 0)
  }

  function DescriptionIn(lines: seq<string>, flaglen: nat): Maybe {
    if |lines| < 2 then Panics
    else
      var data := Split(lines[1], ' ');
      if |data| - flaglen < 2 then Panics else Value(Join(data[2..|data| - flaglen], ' '))
  }

  /** CheckControl's description after all group info parts: empty without one,
      the last one's otherwise, and a panic as soon as one cannot be sliced. */
  function ReadInfos(control: string, infos: seq<string>): Maybe {
    if infos == [] then Value("")
    else if ReadInfos(control, infos[..|infos| - 1]).Panics? then Panics
    else ReadDescription(control, infos[|infos| - 1])
  }

  lemma {:induction false} PanicsEarly(control: string, infos: seq<string>, n: nat)
    requires n <= |infos| && ReadInfos(control, infos).Value?
    ensures ReadInfos(control, infos[..n]).Value?
    decreases |infos|
  {
    if n == |infos| {
      assert infos[..n] == infos;
    } else {
      PanicsEarly(control, infos[..|infos| - 1], n);
      assert infos[..|infos| - 1][..n] == infos[..n];
    }
  }

  /** The loop over a newgroup's parts. */
  method ReadInfoParts(control: string, infos: seq<string>) returns (description: string)
    requires ReadInfos(control, infos).Value?
    ensures description == ReadInfos(control, infos).s
  {
    var flaglen := if |Split(control, ' ')| == 3 then 1 else 0;
    description := "";
    for i := 0 to |infos|
      invariant ReadInfos(control, infos[..i]) == Value(description)
    {
      PanicsEarly(control, infos, i + 1);
      assert infos[..i + 1][..i] == infos[..i];
      var data := Split(Split(infos[i], '\n')[1], ' ');
      description := Join(data[2..|data| - flaglen], ' ');
    }
    assert infos[..|infos|] == infos;
  }

  lemma OneInfo(control: string, info: string)
    ensures ReadInfos(control, [info]) == ReadDescription(control, info)
  {
    assert [info][..0] == [];
  }

  lemma SplitHead(c: char, s: string, sep: char)
    ensures var r := Split(s, sep);
            Split([c] + s, sep) == if c == sep then [""] + r else [[c] + r[0]] + r[1..]
  {
    assert ([c] + s)[1..] == s;
  }

  lemma HeadOfConcat(c: char, r: seq<string>, q: seq<string>)
    requires r != []
    ensures (r + q)[0] == r[0] && [[c] + (r + q)[0]] + (r + q)[1..] == ([[c] + r[0]] + r[1..]) + q
    ensures [""] + (r + q) == ([""] + r) + q
  {
  }

  lemma {:induction false} SplitConcat(p: string, s: string, sep: char)
    ensures Split(p + [sep] + s, sep) == Split(p, sep) + Split(s, sep)
  {
    if p == "" {
      assert p + [sep] + s == [sep] + s;
      SplitHead(sep, s, sep);
    } else {
      SplitConcat(p[1..], s, sep);
      assert p == [p[0]] + p[1..] && p + [sep] + s == [p[0]] + (p[1..] + [sep] + s);
      SplitHead(p[0], p[1..], sep);
      SplitHead(p[0], p[1..] + [sep] + s, sep);
      HeadOfConcat(p[0], Split(p[1..], sep), Split(s, sep));
    }
  }

  lemma FlaggedWords(s: string, posting: Posting)
    ensures Split(s + Flag(posting), ' ') == Split(s, ' ') + (if posting.PostingPermitted? then ["moderated"] else [])
  {
    if posting.PostingPermitted? {
      assert s + Flag(posting) == s + [' '] + "moderated";
      SplitConcat(s, "moderated", ' ');
      SplitPlain("moderated", ' ');
    } else {
      assert s + Flag(posting) == s;
    }
  }

  lemma ControlWords(title: string, posting: Posting)
    requires ' ' !in title
    ensures Split(ControlHeader(title, posting), ' ')
            == ["newgroup", title] + (if posting.PostingPermitted? then ["moderated"] else [])
  {
    assert ControlHeader(title, posting) == "newgroup" + [' '] + (title + Flag(posting));
    SplitPrefix("newgroup", title + Flag(posting), ' ');
    FlaggedWords(title, posting);
    SplitPlain(title, ' ');
  }

  lemma InfoLine(title: string, description: string, posting: Posting)
    requires '\n' !in title && '\n' !in description
    ensures Split(GroupInfo(title, description, posting), '\n')
            == [INFO_LEAD, title + " " + description + Flag(posting)]
  {
    var line := title + " " + description + Flag(posting);
    assert GroupInfo(title, description, posting) == INFO_LEAD + ['\n'] + line;
    SplitPrefix(INFO_LEAD, line, '\n');
    SplitPlain(line, '\n');
  }

  lemma InfoWords(title: string, description: string, posting: Posting)
    requires ' ' !in title
    ensures Split(title + " " + description + Flag(posting), ' ')
            == [title] + (Split(description, ' ') + (if posting.PostingPermitted? then ["moderated"] else []))
  {
    assert title + " " + description + Flag(posting) == title + [' '] + (description + Flag(posting));
    SplitPrefix(title, description + Flag(posting), ' ');
    FlaggedWords(description, posting);
  }

  /** Read-back: for every single-line description and space-free name, whatever
      the posting status, header and body agree on the flag and the receiver gets
      the description's words from the second on. */
  lemma DescriptionReadBack(title: string, description: string, posting: Posting)
    requires ' ' !in title && '\n' !in title && '\n' !in description
    ensures ReadInfos(ControlHeader(title, posting), [GroupInfo(title, description, posting)])
            == Value(Join(Split(description, ' ')[1..], ' '))
  {
    OneInfo(ControlHeader(title, posting), GroupInfo(title, description, posting));
    ControlWords(title, posting);
    InfoLine(title, description, posting);
    InfoWords(title, description, posting);
    var flags := if posting.PostingPermitted? then ["moderated"] else [];
    var line := title + " " + description + Flag(posting);
    DescriptionOf([INFO_LEAD, line], title, Split(description, ' '), flags);
  }

  lemma DescriptionOf(lines: seq<string>, title: string, words: seq<string>, flags: seq<string>)
    requires |lines| == 2 && words != [] && Split(lines[1], ' ') == [title] + (words + flags)
    ensures DescriptionIn(lines, |flags|) == Value(Join(words[1..], ' '))
  {
    DropEnds(title, words, flags);
  }

  lemma DropEnds(title: string, words: seq<string>, flags: seq<string>)
    requires words != []
    ensures var data := [title] + (words + flags);
            |data| - |flags| >= 2 && data[2..|data| - |flags|] == words[1..]
  {
  }

  /** Of several info parts the last one counts. */
  lemma LastInfoCounts(infos: seq<string>, title: string, description: string, posting: Posting)
    requires ' ' !in title && '\n' !in title && '\n' !in description
    requires ReadInfos(ControlHeader(title, posting), infos).Value?
    ensures ReadInfos(ControlHeader(title, posting), infos + [GroupInfo(title, description, posting)])
            == Value(Join(Split(description, ' ')[1..], ' '))
  {
    DescriptionReadBack(title, description, posting);
    OneInfo(ControlHeader(title, posting), GroupInfo(title, description, posting));
    var more := infos + [GroupInfo(title, description, posting)];
    assert more[..|more| - 1] == infos;
  }

  /** The description comes back whole exactly when it is empty. */
  lemma DescriptionWhole(title: string, description: string, posting: Posting)
    requires ' ' !in title && '\n' !in title && '\n' !in description
    ensures ReadInfos(ControlHeader(title, posting), [GroupInfo(title, description, posting)]) == Value(description)
            <==> description == ""
  {
    var words := Split(description, ' ');
    DescriptionReadBack(title, description, posting);
    JoinSplit(description, ' ');
    if |words| == 1 {
      assert Join(words[1..], ' ') == "";
    } else {
      assert |Join(words, ' ')| == |words[0]| + 1 + |Join(words[1..], ' ')|;
    }
  }

  // ---- the title ------------------------------------------------------------

  ghost predicate Contains(s: string, sep: string) {
    exists i :: 0 <= i <= |s| && sep <= s[i..]
  }

  lemma {:induction false} SplitOnAbsent(s: string, sep: string)
    requires sep != "" && !Contains(s, sep)
    ensures SplitOn(s, sep) == [s]
    decreases |s|
  {
    if s != "" {
      assert s[0..] == s;
      forall i | 0 <= i <= |s| - 1 ensures !(sep <= s[1..][i..]) {
        assert s[1..][i..] == s[i + 1..];
      }
      SplitOnAbsent(s[1..], sep);
      assert !(sep <= s);
      assert [s[0]] + s[1..] == s;
    }
  }

  /** An owner's name for his group, with or without his own id in front, gives
      the same title. */
  lemma TitleIsOwned(owner: string, rest: string)
    requires !Contains(rest, owner + ".")
    ensures GroupTitle(owner, owner + "." + rest) == owner + "." + rest
    ensures GroupTitle(owner, rest) == owner + "." + rest
  {
    var sep := owner + ".";
    SplitOnAbsent(rest, sep);
    assert (sep + rest)[|sep|..] == rest;
    assert sep <= sep + rest;
    assert SplitOn(sep + rest, sep) == [""] + [rest];
  }
}
