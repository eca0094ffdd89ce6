/** ServiceAccount user names (`parse_service_account_username`,
    app/crates/kif-federation/src/k8s.rs). */
module Username {
  import opened Crds

  const PREFIX := "system:serviceaccount:"

  /** `split`: the pieces between the separators, at least one. */
  function Split(s: string, sep: char): (r: seq<string>)
    ensures r != []
  {
    if s == "" then [""]
    else
      var rest := Split(s[1..], sep);
      if s[0] == sep then [""] + rest else [[s[0]] + rest[0]] + rest[1..]
  }

  function Parse(u: string): Option<(string, string)> {
    if !(PREFIX <= u) then None
    else
      var parts := Split(u[|PREFIX|..], ':');
      if |parts| < 2 || parts[0] == "" || parts[1] == "" then None else Some((parts[0], parts[1]))
  }

  function Print(ns: string, sa: string): string {
    PREFIX + ns + ":" + sa
  }

  predicate Plain(s: string) {
    s != "" && ':' !in s
  }

  /** A string without the separator is one piece. */
  lemma {:induction false} SplitNone(s: string, sep: char)
    requires sep !in s
    ensures Split(s, sep) == [s]
  {
    if s != "" {
      SplitNone(s[1..], sep);
      assert [s[0]] + s[1..] == s;
    }
  }

  /** The first separator ends the first piece. */
  lemma {:induction false} SplitFirst(a: string, t: string, sep: char)
    requires sep !in a
    ensures Split(a + [sep] + t, sep) == [a] + Split(t, sep)
  {
    if a == "" {
      assert (a + [sep] + t)[1..] == t;
    } else {
      assert (a + [sep] + t)[1..] == a[1..] + [sep] + t;
      SplitFirst(a[1..], t, sep);
      assert [a[0]] + a[1..] == a;
    }
  }

  /** The first piece, and what follows it. */
  lemma {:induction false} SplitInverse(s: string, sep: char) returns (t: string)
    ensures sep !in Split(s, sep)[0]
    ensures if |Split(s, sep)| == 1 then s == Split(s, sep)[0]
            else s == Split(s, sep)[0] + [sep] + t && Split(t, sep) == Split(s, sep)[1..]
  {
    if s == "" {
      t := "";
    } else if s[0] == sep {
      t := s[1..];
      assert s == "" + [sep] + t;
    } else {
      t := SplitInverse(s[1..], sep);
      assert s == [s[0]] + s[1..];
      assert |Split(s, sep)| > 1 ==> s == Split(s, sep)[0] + [sep] + t;
    }
  }

  /** Parsing gives exactly the names that were printed: both non-empty and without colon, and the
      input is their printed form, or goes on after it with a colon. */
  lemma ParseInvertsPrint(u: string, ns: string, sa: string)
    ensures Parse(u) == Some((ns, sa)) <==> Plain(ns) && Plain(sa) && (u == Print(ns, sa) || Print(ns, sa) + ":" <= u)
  {
    if Parse(u) == Some((ns, sa)) {
      ParsedIsPrinted(u, ns, sa);
    }
    if Plain(ns) && Plain(sa) {
      if u == Print(ns, sa) {
        assert u[|PREFIX|..] == ns + [':'] + sa;
        SplitFirst(ns, sa, ':');
        SplitNone(sa, ':');
      } else if Print(ns, sa) + ":" <= u {
        var more := u[|Print(ns, sa)| + 1..];
        assert u == Print(ns, sa) + ":" + more;
        assert u[|PREFIX|..] == ns + [':'] + (sa + [':'] + more);
        SplitFirst(ns, sa + [':'] + more, ':');
        SplitFirst(sa, more, ':');
      }
    }
  }

  lemma ParsedIsPrinted(u: string, ns: string, sa: string)
    requires Parse(u) == Some((ns, sa))
    ensures Plain(ns) && Plain(sa) && (u == Print(ns, sa) || Print(ns, sa) + ":" <= u)
  {
    var rest := u[|PREFIX|..];
    assert u == PREFIX + rest;
    var t := SplitInverse(rest, ':');
    assert rest == ns + [':'] + t && Split(t, ':')[0] == sa;
    var t' := SplitInverse(t, ':');
    if |Split(t, ':')| == 1 {
      Reassemble(ns, sa);
    } else {
      Reassemble(ns, sa + [':'] + t');
      PrefixOf(ns, sa, t');
    }
  }

  lemma Reassemble(ns: string, t: string)
    ensures PREFIX + (ns + [':'] + t) == PREFIX + ns + ":" + t
  {
  }

  lemma PrefixOf(ns: string, sa: string, t: string)
    ensures Print(ns, sa) + ":" <= PREFIX + ns + ":" + (sa + [':'] + t)
  {
    assert PREFIX + ns + ":" + (sa + [':'] + t) == Print(ns, sa) + ":" + t;
  }

  /** What names the input does not parse: it has no two non-empty first pieces after the prefix. */
  lemma ParseFails(u: string)
    ensures Parse(u) == None <==>
      forall ns, sa :: Plain(ns) && Plain(sa) ==> u != Print(ns, sa) && !(Print(ns, sa) + ":" <= u)
  {
    forall ns, sa
      ensures Parse(u) == None && Plain(ns) && Plain(sa) ==> u != Print(ns, sa) && !(Print(ns, sa) + ":" <= u)
    {
      ParseInvertsPrint(u, ns, sa);
    }
    if Parse(u).Some? {
      ParseInvertsPrint(u, Parse(u).value.0, Parse(u).value.1);
    }
  }

  /** One user name names one account. */
  lemma PrintInjective(ns: string, sa: string, ns': string, sa': string)
    requires Plain(ns) && Plain(sa) && Plain(ns') && Plain(sa') && Print(ns, sa) == Print(ns', sa')
    ensures ns == ns' && sa == sa'
  {
    ParseInvertsPrint(Print(ns, sa), ns, sa);
    ParseInvertsPrint(Print(ns', sa'), ns', sa');
  }
}
