/** The keys of a header in ascending order, as the multipart writer prints them. */
module SortedKeys {

  /** Lexicographic order. */
  predicate Le(a: string, b: string) {
    a == "" || (b != "" && (a[0] < b[0] || (a[0] == b[0] && Le(a[1..], b[1..]))))
  }

  lemma {:induction false} LeTotal(a: string, b: string)
    ensures Le(a, b) || Le(b, a)
    ensures Le(a, b) && Le(b, a) ==> a == b
  {
    if a != "" && b != "" && a[0] == b[0] {
      LeTotal(a[1..], b[1..]);
      assert a == [a[0]] + a[1..] && b == [b[0]] + b[1..];
    }
  }

  lemma {:induction false} LeTrans(a: string, b: string, c: string)
    requires Le(a, b) && Le(b, c)
    ensures Le(a, c)
  {
    if a != "" && a[0] == b[0] && b[0] == c[0] {
      LeTrans(a[1..], b[1..], c[1..]);
    }
  }

  predicate IsLeast(s: set<string>, m: string) {
    m in s && forall x | x in s :: Le(m, x)
  }

  lemma {:induction false} LeastExists(s: set<string>) returns (m: string)
    requires s != {}
    ensures IsLeast(s, m)
    decreases s
  {
    var c :| c in s;
    m := c;
    LeTotal(c, c);
    var rest := s - {c};
    if rest != {} {
      var n := LeastExists(rest);
      LeTotal(c, n);
      if Le(n, c) {
        m := n;
      }
      forall x | x in s ensures Le(m, x) {
        if x != c {
          assert x in rest && Le(n, x);
          if m == c {
            LeTrans(c, n, x);
          }
        }
      }
    } else {
      assert s == {c};
    }
  }

  lemma LeastUnique(s: set<string>)
    requires s != {}
    ensures exists m :: IsLeast(s, m)
    ensures forall m, n | IsLeast(s, m) && IsLeast(s, n) :: m == n
  {
    var m := LeastExists(s);
    forall m, n | IsLeast(s, m) && IsLeast(s, n) ensures m == n {
      LeTotal(m, n);
    }
  }

  function Least(s: set<string>): (m: string)
    requires s != {}
    ensures IsLeast(s, m)
  {
    LeastUnique(s);
    var m :| m in s && IsLeast(s, m);
    m
  }

  ghost predicate Lists(r: seq<string>, s: set<string>) {
    && (forall k :: k in r <==> k in s)
    && (forall i, j | 0 <= i < j < |r| :: r[i] != r[j])
  }

  /** `sort.Strings` of a map's keys. */
  function Sorted(s: set<string>): (r: seq<string>)
    ensures Lists(r, s)
    ensures forall i, j | 0 <= i < j < |r| :: Le(r[i], r[j])
  {
    if s == {} then []
    else
      var m := Least(s);
      [m] + Sorted(s - {m})
  }
}
