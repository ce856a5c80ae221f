/** Line ends, lines and header fields: printing and reading them back. */
module MailLines {
  import opened Options
  import opened Text
  import opened Sets
  import opened SortedKeys
  import opened Mail

  lemma Assoc<T>(a: seq<T>, b: seq<T>, c: seq<T>)
    ensures a + b + c == a + (b + c)
  {
  }

  // ---- line ends ------------------------------------------------------------

  lemma {:induction false} DropCrConcat(a: string, b: string)
    ensures DropCr(a + b) == DropCr(a) + DropCr(b)
  {
    if a == "" {
      assert a + b == b && "" + DropCr(b) == DropCr(b);
    } else {
      DropCrConcat(a[1..], b);
      assert (a + b)[1..] == a[1..] + b;
      Assoc([a[0]], DropCr(a[1..]), DropCr(b));
    }
  }

  lemma {:induction false} DropCrPlain(s: string)
    requires '\r' !in s
    ensures DropCr(s) == s
  {
    if s != "" {
      DropCrPlain(s[1..]);
      assert s == [s[0]] + s[1..];
    }
  }

  lemma {:induction false} DropCrNoCr(s: string)
    ensures '\r' !in DropCr(s)
    ensures DropCr(DropCr(s)) == DropCr(s)
  {
    if s != "" {
      DropCrNoCr(s[1..]);
      if s[0] != '\r' {
        assert ([s[0]] + DropCr(s[1..]))[1..] == DropCr(s[1..]);
      }
    }
  }

  lemma {:induction false} AddCrConcat(a: string, b: string)
    ensures AddCr(a + b) == AddCr(a) + AddCr(b)
  {
    if a == "" {
      assert a + b == b && "" + AddCr(b) == AddCr(b);
    } else {
      AddCrConcat(a[1..], b);
      assert (a + b)[1..] == a[1..] + b;
      Assoc(if a[0] == '\n' then "\r\n" else [a[0]], AddCr(a[1..]), AddCr(b));
    }
  }

  lemma {:induction false} DropAddCr(s: string)
    requires '\r' !in s
    ensures DropCr(AddCr(s)) == s
  {
    if s != "" {
      DropAddCr(s[1..]);
      assert s == [s[0]] + s[1..];
      if s[0] == '\n' {
        DropCrConcat("\r\n", AddCr(s[1..]));
        DropCrConcat("\r", "\n");
        DropCrPlain("\n");
        assert "\r\n" == "\r" + "\n" && "\r"[1..] == "";
      } else {
        assert AddCr(s)[1..] == AddCr(s[1..]);
      }
    }
  }

  lemma DropCrCrlf(s: string)
    ensures DropCr(Crlf(s)) == DropCr(s)
  {
    DropCrNoCr(s);
    DropAddCr(DropCr(s));
  }

  lemma ToLfLineEnd(rest: string)
    ensures ToLf("\r\n" + rest) == "\n" + ToLf(rest)
  {
    assert ("\r\n" + rest)[2..] == rest;
  }

  lemma ToLfChar(c: char, rest: string)
    requires c != '\r'
    ensures ToLf([c] + rest) == [c] + ToLf(rest)
  {
    assert ([c] + rest)[1..] == rest;
  }

  lemma {:induction false} ToLfCrlf(s: string, rest: string)
    requires '\r' !in s
    ensures ToLf(AddCr(s) + rest) == s + ToLf(rest)
  {
    if s == "" {
      assert AddCr(s) + rest == rest && s + ToLf(rest) == ToLf(rest);
    } else {
      ToLfCrlf(s[1..], rest);
      var u := AddCr(s[1..]);
      if s[0] == '\n' {
        Assoc("\r\n", u, rest);
        ToLfLineEnd(u + rest);
      } else {
        Assoc([s[0]], u, rest);
        ToLfChar(s[0], u + rest);
      }
      Assoc([s[0]], s[1..], ToLf(rest));
      assert s == [s[0]] + s[1..];
    }
  }

  lemma StripCrDrop(s: string)
    ensures DropCr(StripCr(s)) == DropCr(s)
  {
    if s != "" && s[|s| - 1] == '\r' {
      assert s == s[..|s| - 1] + "\r";
      DropCrConcat(s[..|s| - 1], "\r");
    }
  }

  // ---- lines ----------------------------------------------------------------

  lemma EolOne(l: string, eol: string)
    ensures Eol([l], eol) == l + eol + "\n"
  {
    assert Eol([l], eol) == l + eol + "\n" + "";
  }

  /** The same lines as they stand in a text with line end eol. */
  function Suffixed(lines: seq<string>, eol: string): (r: seq<string>)
    ensures |r| == |lines|
    ensures forall i | 0 <= i < |lines| :: r[i] == lines[i] + eol
  {
    if lines == [] then [] else [lines[0] + eol] + Suffixed(lines[1..], eol)
  }

  predicate LineEnd(eol: string) {
    eol == "" || eol == "\r"
  }

  ghost predicate PlainLines(lines: seq<string>) {
    forall i | 0 <= i < |lines| :: PlainChars(lines[i])
  }

  lemma SuffixedConcat(a: seq<string>, b: seq<string>, eol: string)
    ensures Suffixed(a + b, eol) == Suffixed(a, eol) + Suffixed(b, eol)
  {
  }

  lemma {:induction false} EolConcat(a: seq<string>, b: seq<string>, eol: string)
    ensures Eol(a + b, eol) == Eol(a, eol) + Eol(b, eol)
  {
    if a == [] {
      assert a + b == b;
    } else {
      EolConcat(a[1..], b, eol);
      assert (a + b)[1..] == a[1..] + b;
    }
  }

  /** Splitting a text of lines gives the lines back, then the rest. */
  lemma {:induction false} SplitEol(lines: seq<string>, eol: string, rest: string)
    requires PlainLines(lines) && LineEnd(eol)
    ensures Split(Eol(lines, eol) + rest, '\n') == Suffixed(lines, eol) + Split(rest, '\n')
    decreases |lines|
  {
    if lines == [] {
      assert Eol(lines, eol) + rest == rest;
    } else {
      var l, tail := lines[0] + eol, Eol(lines[1..], eol);
      assert PlainLines(lines[1..]) && '\n' !in l;
      SplitEol(lines[1..], eol, rest);
      assert Eol(lines, eol) == l + ['\n'] + tail;
      Assoc(l + ['\n'], tail, rest);
      SplitPrefix(l, tail + rest, '\n');
      Assoc([l], Suffixed(lines[1..], eol), Split(rest, '\n'));
    }
  }

  lemma {:induction false} ToLfEol(lines: seq<string>, rest: string)
    requires PlainLines(lines)
    ensures ToLf(Eol(lines, "\r") + rest) == Eol(lines, "") + ToLf(rest)
    decreases |lines|
  {
    if lines == [] {
      assert Eol(lines, "\r") + rest == rest;
    } else {
      ToLfEol(lines[1..], rest);
      var l, more := lines[0], Eol(lines[1..], "\r");
      assert l + "\r" + "\n" == l + "\r\n";
      Assoc(l + "\r\n", more, rest);
      Assoc(l, "\r\n", more + rest);
      ToLfPlain(l, "\r\n" + (more + rest));
      ToLfLineEnd(more + rest);
      Assoc(l, "\n", ToLf(more + rest));
      assert l + "" + "\n" == l + "\n";
      Assoc(l + "\n", Eol(lines[1..], ""), ToLf(rest));
    }
  }

  lemma {:induction false} ToLfPlain(s: string, rest: string)
    requires PlainChars(s)
    ensures ToLf(s + rest) == s + ToLf(rest)
  {
    if s == "" {
      assert s + rest == rest && "" + ToLf(rest) == ToLf(rest);
    } else {
      ToLfPlain(s[1..], rest);
      assert s == [s[0]] + s[1..];
      Assoc([s[0]], s[1..], rest);
      ToLfChar(s[0], s[1..] + rest);
      Assoc([s[0]], s[1..], ToLf(rest));
    }
  }

  lemma {:induction false} AddCrPlain(s: string)
    requires '\n' !in s
    ensures AddCr(s) == s
  {
    if s != "" {
      AddCrPlain(s[1..]);
      assert s == [s[0]] + s[1..];
    }
  }

  lemma {:induction false} AddCrJoin(lines: seq<string>)
    requires PlainLines(lines) && lines != []
    ensures AddCr(Join(lines, '\n')) + "\r\n" == Eol(lines, "\r")
    decreases |lines|
  {
    AddCrPlain(lines[0]);
    if |lines| == 1 {
      assert Eol(lines, "\r") == lines[0] + "\r" + "\n" + "";
    } else {
      var rest := Join(lines[1..], '\n');
      AddCrJoin(lines[1..]);
      AddCrConcat(lines[0] + ['\n'], rest);
      AddCrConcat(lines[0], ['\n']);
      assert AddCr(['\n']) == "\r\n" by {
        assert ['\n'][1..] == "";
      }
      assert lines[0] + "\r\n" == lines[0] + "\r" + "\n";
      Assoc(lines[0] + "\r\n", AddCr(rest), "\r\n");
    }
  }

  lemma {:induction false} SplitPlainLines(s: string)
    requires '\r' !in s
    ensures PlainLines(Split(s, '\n'))
  {
    forall i | 0 <= i < |Split(s, '\n')| ensures '\r' !in Split(s, '\n')[i] {
      SplitPieces(s, '\n', i);
    }
  }

  /** A CR-free text, its line ends made CRLF and the last one added, is its lines. */
  lemma AddCrLines(s: string)
    requires '\r' !in s
    ensures AddCr(s) + "\r\n" == Eol(Split(s, '\n'), "\r")
    ensures PlainLines(Split(s, '\n'))
  {
    SplitPlainLines(s);
    AddCrJoin(Split(s, '\n'));
    JoinSplit(s, '\n');
  }

  /** Joining lines with their ends and dropping the CRs gives the LF text. */
  lemma {:induction false} JoinSuffixed(lines: seq<string>, eol: string)
    requires PlainLines(lines) && LineEnd(eol) && lines != []
    ensures DropCr(Join(Suffixed(lines, eol), '\n')) == Join(lines, '\n')
    decreases |lines|
  {
    DropCrPlain(lines[0]);
    DropCrConcat(lines[0], eol);
    assert DropCr(eol) == "" by {
      assert "\r"[1..] == "";
    }
    assert lines[0] + "" == lines[0];
    if |lines| > 1 {
      var l, rest := lines[0] + eol, Suffixed(lines[1..], eol);
      JoinSuffixed(lines[1..], eol);
      assert Suffixed(lines, eol)[1..] == rest;
      DropCrConcat(l + ['\n'], Join(rest, '\n'));
      DropCrConcat(l, ['\n']);
      DropCrPlain(['\n']);
    }
  }

  // ---- header fields --------------------------------------------------------

  lemma TrimLeftBlank(v: string, eol: string)
    requires WfValue(v) && LineEnd(eol)
    ensures TrimSpace(" " + v + eol) == v
  {
    var s := " " + v + eol;
    assert s[1..] == v + eol;
    assert TrimLeft(s) == TrimLeft(v + eol);
    if v == "" {
      assert v + eol == eol;
      if eol == "\r" {
        assert eol[1..] == "";
        assert TrimLeft(eol) == TrimLeft("") == "";
      }
    } else {
      assert TrimLeft(v + eol) == v + eol;
      assert TrimRight(v) == v;
      if eol == "\r" {
        assert (v + eol)[..|v + eol| - 1] == v;
      } else {
        assert v + eol == v;
      }
    }
  }

  lemma ParseFieldLine(k: string, v: string, eol: string)
    requires WfKey(k) && WfValue(v) && LineEnd(eol)
    ensures ParseField(k + ": " + v + eol) == Some((k, v))
  {
    var line := k + ": " + v + eol;
    assert line == k + [':'] + (" " + v + eol);
    IndexOfFirst(k, ':', " " + v + eol);
    assert line[|k| + 1..] == " " + v + eol && line[..|k|] == k;
    TrimLeftBlank(v, eol);
  }

  ghost predicate WfValues(vs: seq<string>) {
    forall i | 0 <= i < |vs| :: WfValue(vs[i])
  }

  lemma ParseHeaderSnoc(lines: seq<string>, l: string)
    ensures ParseHeader(lines + [l])
            == match (ParseHeader(lines), ParseField(l))
               case (Some(h), Some(f)) => Some(Add(h, f.0, f.1))
               case _ => None
  {
    assert (lines + [l])[..|lines|] == lines;
  }

  lemma {:induction false} ParseFieldLines(before: seq<string>, h: Header, k: string, vs: seq<string>, eol: string)
    requires ParseHeader(before) == Some(h) && k !in h && WfKey(k) && WfValues(vs) && LineEnd(eol)
    ensures ParseHeader(before + Suffixed(FieldLines(k, vs), eol)) == Some(if vs == [] then h else h[k := vs])
    decreases |vs|
  {
    if vs == [] {
      assert before + Suffixed(FieldLines(k, vs), eol) == before;
    } else {
      var n := |vs| - 1;
      var some, l := FieldLines(k, vs[..n]), k + ": " + vs[n];
      ParseFieldLines(before, h, k, vs[..n], eol);
      ParseFieldLine(k, vs[n], eol);
      SuffixedConcat(some, [l], eol);
      assert Suffixed([l], eol) == [l + eol];
      Assoc(before, Suffixed(some, eol), [l + eol]);
      ParseHeaderSnoc(before + Suffixed(some, eol), l + eol);
      AddLast(h, k, vs);
    }
  }

  lemma AddLast(h: Header, k: string, vs: seq<string>)
    requires k !in h && vs != []
    ensures var n := |vs| - 1;
            Add(if n == 0 then h else h[k := vs[..n]], k, vs[n]) == h[k := vs]
  {
    assert vs[..|vs| - 1] + [vs[|vs| - 1]] == vs;
  }

  function Restrict(h: Header, keys: seq<string>): Header {
    map k | k in h && k in keys :: h[k]
  }

  lemma RestrictSnoc(h: Header, front: seq<string>, k: string)
    requires k !in front
    ensures Restrict(h, front + [k]) == if k in h then Restrict(h, front)[k := h[k]] else Restrict(h, front)
  {
    assert forall x :: x in front + [k] <==> x == k || x in front;
  }

  lemma HeaderLinesSnoc(h: Header, front: seq<string>, k: string)
    ensures HeaderLines(h, front + [k]) == HeaderLines(h, front) + (if k in h then FieldLines(k, h[k]) else [])
  {
    assert (front + [k])[..|front|] == front;
  }

  lemma ParseHeaderSnocKey(h: Header, front: seq<string>, k: string, eol: string)
    requires WfHeader(h) && k !in front && LineEnd(eol)
    requires ParseHeader(Suffixed(HeaderLines(h, front), eol)) == Some(Restrict(h, front))
    ensures ParseHeader(Suffixed(HeaderLines(h, front + [k]), eol)) == Some(Restrict(h, front + [k]))
  {
    HeaderLinesSnoc(h, front, k);
    RestrictSnoc(h, front, k);
    if k in h {
      ParseFieldLines(Suffixed(HeaderLines(h, front), eol), Restrict(h, front), k, h[k], eol);
      SuffixedConcat(HeaderLines(h, front), FieldLines(k, h[k]), eol);
    } else {
      assert HeaderLines(h, front) + [] == HeaderLines(h, front);
    }
  }

  /** Reading a printed header gives back the fields that were printed. */
  lemma {:induction false} ParseHeaderLines(h: Header, keys: seq<string>, eol: string)
    requires WfHeader(h) && Distinct(keys) && LineEnd(eol)
    ensures ParseHeader(Suffixed(HeaderLines(h, keys), eol)) == Some(Restrict(h, keys))
    decreases |keys|
  {
    if keys == [] {
      assert Restrict(h, keys) == map[];
    } else {
      var k, front := keys[|keys| - 1], keys[..|keys| - 1];
      ParseHeaderLines(h, front, eol);
      assert keys == front + [k];
      ParseHeaderSnocKey(h, front, k, eol);
    }
  }

  /** A header line: something, then a colon. */
  predicate FieldLine(l: string) {
    PlainChars(l) && l != ""
  }

  lemma {:induction false} FieldLinesPlain(k: string, vs: seq<string>)
    requires WfKey(k) && WfValues(vs)
    ensures forall i | 0 <= i < |FieldLines(k, vs)| :: FieldLine(FieldLines(k, vs)[i])
    decreases |vs|
  {
    if vs != [] {
      FieldLinesPlain(k, vs[..|vs| - 1]);
      assert WfValue(vs[|vs| - 1]);
    }
  }

  lemma {:induction false} HeaderLinesPlain(h: Header, keys: seq<string>)
    requires WfHeader(h)
    ensures forall i | 0 <= i < |HeaderLines(h, keys)| :: FieldLine(HeaderLines(h, keys)[i])
    decreases |keys|
  {
    if keys != [] {
      var n := |keys| - 1;
      HeaderLinesPlain(h, keys[..n]);
      if keys[n] in h {
        FieldLinesPlain(keys[n], h[keys[n]]);
      }
    }
  }

  /** The empty line after the fields is where the header ends. */
  lemma {:induction false} BlankAtFields(lines: seq<string>, eol: string, rest: seq<string>)
    requires LineEnd(eol) && forall i | 0 <= i < |lines| :: FieldLine(lines[i])
    ensures BlankAt(Suffixed(lines, eol) + [eol] + rest) == |lines|
    decreases |lines|
  {
    var all := Suffixed(lines, eol) + [eol] + rest;
    if lines == [] {
      assert all[0] == eol;
    } else {
      BlankAtFields(lines[1..], eol, rest);
      assert all[1..] == Suffixed(lines[1..], eol) + [eol] + rest;
      assert all[0] == lines[0] + eol && FieldLine(lines[0]);
      assert StripCr(lines[0] + eol) == lines[0];
    }
  }
}
