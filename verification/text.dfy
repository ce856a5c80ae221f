/** Strings as the source's `strings` package treats them. */
module Text {

  /** `strings.Split(s, string(sep))`. */
  function Split(s: string, sep: char): (r: seq<string>)
    ensures |r| >= 1
    ensures forall i | 0 <= i < |r| :: sep !in r[i]
  {
    if s == "" then [""]
    else
      var r := Split(s[1..], sep);
      if s[0] == sep then [""] + r else [[s[0]] + r[0]] + r[1..]
  }

  /** `strings.Join(parts, string(sep))`. */
  function Join(parts: seq<string>, sep: char): string {
    if parts == [] then ""
    else if |parts| == 1 then parts[0]
    else parts[0] + [sep] + Join(parts[1..], sep)
  }

  lemma {:induction false} JoinSplit(s: string, sep: char)
    ensures Join(Split(s, sep), sep) == s
  {
    if s != "" {
      JoinSplit(s[1..], sep);
      var r := Split(s[1..], sep);
      if s[0] != sep {
        if |r| > 1 {
          assert Join(r, sep) == r[0] + [sep] + Join(r[1..], sep);
        }
      }
    }
  }

  /** Pieces of a text hold only its characters. */
  lemma {:induction false} SplitPieces(s: string, sep: char, i: nat)
    requires i < |Split(s, sep)|
    ensures forall c | c in Split(s, sep)[i] :: c in s
  {
    if s != "" {
      var r := Split(s[1..], sep);
      if s[0] == sep {
        if i > 0 {
          SplitPieces(s[1..], sep, i - 1);
        }
      } else {
        SplitPieces(s[1..], sep, i);
      }
    }
  }

  lemma {:induction false} SplitPlain(s: string, sep: char)
    requires sep !in s
    ensures Split(s, sep) == [s]
  {
    if s != "" {
      SplitPlain(s[1..], sep);
      assert [s[0]] + s[1..] == s;
    }
  }

  lemma {:induction false} SplitPrefix(p: string, s: string, sep: char)
    requires sep !in p
    ensures Split(p + [sep] + s, sep) == [p] + Split(s, sep)
  {
    var t := p + [sep] + s;
    if p == "" {
      assert t[1..] == s;
    } else {
      SplitPrefix(p[1..], s, sep);
      assert t[1..] == p[1..] + [sep] + s;
      assert t[0] == p[0] && [p[0]] + p[1..] == p;
      assert Split(t, sep) == [[p[0]] + p[1..]] + Split(s, sep);
    }
  }

  /** Splitting undoes joining when no part contains the separator. */
  lemma {:induction false} SplitJoin(parts: seq<string>, sep: char)
    requires parts != [] && forall i | 0 <= i < |parts| :: sep !in parts[i]
    ensures Split(Join(parts, sep), sep) == parts
    decreases |parts|
  {
    if |parts| == 1 {
      SplitPlain(parts[0], sep);
    } else {
      SplitJoin(parts[1..], sep);
      SplitPrefix(parts[0], Join(parts[1..], sep), sep);
    }
  }

  lemma {:induction false} JoinConcat(a: seq<string>, b: seq<string>, sep: char)
    requires a != [] && b != []
    ensures Join(a + b, sep) == Join(a, sep) + [sep] + Join(b, sep)
  {
    if |a| == 1 {
      assert (a + b)[1..] == b;
    } else {
      JoinConcat(a[1..], b, sep);
      assert (a + b)[1..] == a[1..] + b;
    }
  }

  /** The first place of c in s; |s| when there is none. */
  function IndexOf(s: string, c: char): nat {
    if s == "" || s[0] == c then 0 else 1 + IndexOf(s[1..], c)
  }

  lemma {:induction false} IndexSplits(s: string, c: char)
    ensures IndexOf(s, c) <= |s| && c !in s[..IndexOf(s, c)]
    ensures IndexOf(s, c) < |s| ==> s[IndexOf(s, c)] == c
  {
    if s != "" && s[0] != c {
      IndexSplits(s[1..], c);
      var i := IndexOf(s[1..], c);
      assert s[..i + 1] == [s[0]] + s[1..][..i];
    }
  }

  lemma {:induction false} IndexOfFirst(k: string, c: char, rest: string)
    requires c !in k
    ensures IndexOf(k + [c] + rest, c) == |k|
  {
    if k != "" {
      IndexOfFirst(k[1..], c, rest);
      assert (k + [c] + rest)[1..] == k[1..] + [c] + rest;
    }
  }

  predicate IsSpace(c: char) {
    c == ' ' || c == '\t' || c == '\n' || c == '\r'
  }

  function TrimLeft(s: string): string {
    if s != "" && IsSpace(s[0]) then TrimLeft(s[1..]) else s
  }

  function TrimRight(s: string): string {
    if s != "" && IsSpace(s[|s| - 1]) then TrimRight(s[..|s| - 1]) else s
  }

  /** `strings.TrimSpace` on the ASCII blanks a header can hold. */
  function TrimSpace(s: string): string {
    TrimRight(TrimLeft(s))
  }
}
