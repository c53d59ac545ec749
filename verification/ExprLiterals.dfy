/** What `sanitizeExpr` does to a name, to a literal and to everything else, told by their characters. */
module ExprLiterals {
  import opened Wrappers
  import opened Expr

  // ---- names ----

  predicate LetterOrDigit(c: char) {
    'a' <= c <= 'z' || 'A' <= c <= 'Z' || '0' <= c <= '9'
  }

  /** Every hyphen stands between two letters or digits, and there is nothing else. */
  ghost predicate Joined(t: string) {
    && (forall i :: 0 <= i < |t| ==> LetterOrDigit(t[i]) || t[i] == '-')
    && (forall i :: 0 <= i < |t| && t[i] == '-' ==> i + 1 < |t| && LetterOrDigit(t[i + 1]))
  }

  /** A hyphenated name: words of letters and digits joined by single hyphens, the first starting with a letter. */
  ghost predicate HyphenName(t: string) {
    && t != "" && ('a' <= t[0] <= 'z' || 'A' <= t[0] <= 'Z')
    && Joined(t) && '-' in t
  }

  /** Nothing at the start of `more` prolongs a name that stands before it. */
  predicate EndsName(more: string) {
    || more == ""
    || (!LetterOrDigit(more[0]) && (more[0] == '-' ==> |more| == 1 || !LetterOrDigit(more[1])))
  }

  lemma WordRunIs(s: string, n: nat)
    requires n <= |s| && (forall i :: 0 <= i < n ==> LetterOrDigit(s[i])) && (n == |s| || !LetterOrDigit(s[n]))
    ensures WordRun(s) == n
  {
    assert forall i :: 0 <= i < WordRun(s) ==> IsWord(s[i]);
  }

  lemma JoinedTail(t: string, n: nat)
    requires Joined(t) && n <= |t|
    ensures Joined(t[n..])
  {
    forall i | 0 <= i < |t[n..]| && t[n..][i] == '-' ensures i + 1 < |t[n..]| && LetterOrDigit(t[n..][i + 1]) {
      assert t[n + i] == '-';
    }
  }

  /** A hyphen and a word are taken, and then what follows. */
  lemma GroupsNext(s: string, w: nat)
    requires |s| >= 2 && s[0] == '-' && w == WordRun(s[1..]) && w > 0
    ensures 1 + w <= |s| && Groups(s) == 1 + w + Groups(s[1 + w..])
  {
  }

  lemma FirstWord(g: string) returns (w: nat)
    requires Joined(g) && g != "" && g[0] == '-'
    ensures w == WordRun(g[1..]) && 1 <= w < |g| && (1 + w < |g| ==> g[1 + w] == '-')
  {
    w := WordRun(g[1..]);
    assert g[1..][0] == g[1];
    if 1 + w < |g| {
      assert g[1..][w] == g[1 + w];
    }
  }

  lemma WordBefore(g: string, more: string, w: nat)
    requires g != "" && w == WordRun(g[1..]) && (1 + w < |g| ==> g[1 + w] == '-') && EndsName(more)
    ensures WordRun((g + more)[1..]) == w && (g + more)[1 + w..] == g[1 + w..] + more
  {
    var u := (g + more)[1..];
    assert u == g[1..] + more;
    assert forall i :: 0 <= i < w ==> IsWord(g[1..][i]) && u[i] == g[1..][i];
    if w < |u| {
      assert u[w] == if 1 + w < |g| then g[1 + w] else more[0];
    }
    WordRunIs(u, w);
  }

  /** What follows the first word of a name is taken whole. */
  lemma {:induction false} GroupsOfName(g: string, more: string)
    requires Joined(g) && (g != "" ==> g[0] == '-') && EndsName(more)
    ensures Groups(g + more) == |g|
    decreases |g|
  {
    if g == "" {
      assert g + more == more;
      if |more| >= 2 && more[0] == '-' {
        WordRunIs(more[1..], 0);
      }
    } else {
      hide Groups, WordRun, Joined;
      var w := FirstWord(g);
      WordBefore(g, more, w);
      assert (g + more)[0] == '-';
      GroupsNext(g + more, w);
      JoinedTail(g, 1 + w);
      GroupsOfName(g[1 + w..], more);
    }
  }

  lemma IdentOfName(t: string, more: string)
    requires HyphenName(t) && EndsName(more)
    ensures IdentLen(t + more) == |t|
  {
    hide Groups;
    var w := WordRun(t);
    var i :| 0 <= i < |t| && t[i] == '-';
    assert !IsWord(t[i]) && i >= w;
    WordRunIs(t + more, w);
    assert (t + more)[w..] == t[w..] + more;
    JoinedTail(t, w);
    GroupsOfName(t[w..], more);
  }

  /** A hyphenated name outside a literal is put in quotes. */
  lemma NameQuoted(t: string, more: string)
    requires HyphenName(t) && EndsName(more)
    ensures SanitizeExpr(t + more) == "\"" + t + "\"" + SanitizeExpr(more)
  {
    IdentOfName(t, more);
    assert (t + more)[0] == t[0] && (t + more)[..|t|] == t;
    Step(Hyphenated(t), more);
  }

  lemma JoinNext(word: string, tail: string)
    requires word != "" && (forall i :: 0 <= i < |word| ==> LetterOrDigit(word[i]))
    requires Joined(tail) && (tail != "" ==> tail[0] == '-')
    ensures Joined("-" + word + tail)
  {
    var t := "-" + word + tail;
    assert t[1] == word[0];
    forall i | 0 <= i < |t| && t[i] == '-' ensures i + 1 < |t| && LetterOrDigit(t[i + 1]) {
      if i > 0 {
        assert i > |word| && tail[i - 1 - |word|] == t[i];
        assert t[i + 1] == tail[i - |word|];
      }
    }
  }

  lemma GroupsNone(s: string)
    requires |s| < 2 || s[0] != '-' || WordRun(s[1..]) == 0
    requires s == "" || !LetterOrDigit(s[0])
    ensures Groups(s) == 0 && EndsName(s)
  {
    if |s| >= 2 && s[0] == '-' {
      assert s[1..][0] == s[1];
    }
  }

  /** The groups taken form the rest of a name, and end it. */
  lemma {:induction false} GroupsShape(s: string)
    requires s == "" || !LetterOrDigit(s[0])
    ensures Joined(s[..Groups(s)]) && (Groups(s) > 0 ==> s[0] == '-') && EndsName(s[Groups(s)..])
    decreases |s|
  {
    hide Groups, WordRun, Joined, EndsName;
    if |s| >= 2 && s[0] == '-' && WordRun(s[1..]) > 0 {
      var w := WordRun(s[1..]);
      GroupsNext(s, w);
      var word, rest := s[1..][..w], s[1 + w..];
      assert rest != "" ==> rest[0] == s[1..][w];
      assert rest == "" || !LetterOrDigit(rest[0]);
      GroupsShape(rest);
      JoinNext(word, rest[..Groups(rest)]);
      assert s[..Groups(s)] == "-" + word + rest[..Groups(rest)];
      assert s[Groups(s)..] == rest[Groups(rest)..];
    } else {
      GroupsNone(s);
      assert s[..0] == "" && s[0..] == s;
      NothingJoined();
    }
  }

  lemma NothingJoined()
    ensures Joined("")
  {
  }

  lemma WordThen(word: string, tail: string)
    requires word != "" && (forall i :: 0 <= i < |word| ==> LetterOrDigit(word[i]))
    requires Joined(tail)
    ensures Joined(word + tail)
  {
    var t := word + tail;
    forall i | 0 <= i < |t| && t[i] == '-' ensures i + 1 < |t| && LetterOrDigit(t[i + 1]) {
      assert i >= |word| && tail[i - |word|] == t[i];
      assert t[i + 1] == tail[i + 1 - |word|];
    }
  }

  /** Only hyphenated names are put in quotes, and they are taken whole. */
  lemma OnlyNamesQuoted(s: string)
    requires s != "" && Next(s).Hyphenated?
    ensures HyphenName(Next(s).text) && EndsName(s[|Next(s).text|..])
  {
    hide Groups, Joined, EndsName, QuoteRest, TickRest;
    var w, n := WordRun(s), IdentLen(s);
    var t := Next(s).text;
    GroupsShape(s[w..]);
    assert t == s[..w] + s[w..][..n - w];
    WordThen(s[..w], s[w..][..n - w]);
    assert s[w] == s[w..][0] == '-' && t[w] == s[w];
    assert s[n..] == s[w..][n - w..];
    assert t[0] == s[0];
  }

  lemma QuotedHasHyphen(s: string)
    requires s != "" && Next(s).Hyphenated?
    ensures '-' in s
  {
    OnlyNamesQuoted(s);
    var i :| 0 <= i < |Next(s).text| && Next(s).text[i] == '-';
    assert s[i] == '-';
  }

  /** An expression without a hyphen is left as it is. */
  lemma {:induction false} NoHyphenUnchanged(s: string)
    requires '-' !in s
    ensures SanitizeExpr(s) == s
    decreases |s|
  {
    if s != "" {
      var n := |Next(s).text|;
      if Next(s).Hyphenated? {
        QuotedHasHyphen(s);
      }
      Unfold(s, n);
      NoHyphenUnchanged(s[n..]);
      Split(s, n);
    }
  }

  // ---- literals ----

  /** The inside of a quoted literal: no quote or backslash, except where a backslash escapes what follows it on the line. */
  predicate Inside(x: string)
    decreases |x|
  {
    || x == ""
    || (x[0] != '"' && x[0] != '\\' && Inside(x[1..]))
    || (|x| >= 2 && x[0] == '\\' && x[1] != '\n' && Inside(x[2..]))
  }

  lemma {:induction false} QuoteRestInside(x: string, more: string)
    requires Inside(x)
    ensures QuoteRest(x + "\"" + more) == Some(|x| + 1)
    decreases |x|
  {
    var s := x + "\"" + more;
    if x == "" {
      assert s[0] == '"';
    } else if x[0] != '\\' {
      assert s[1..] == x[1..] + "\"" + more;
      QuoteRestInside(x[1..], more);
    } else {
      assert s[2..] == x[2..] + "\"" + more && s[1] == x[1];
      QuoteRestInside(x[2..], more);
    }
  }

  /** A closed quoted literal is kept, hyphens and escaped quotes in it included. */
  lemma QuotedLiteralKept(x: string, more: string)
    requires Inside(x)
    ensures SanitizeExpr("\"" + x + "\"" + more) == "\"" + x + "\"" + SanitizeExpr(more)
  {
    hide QuoteRest, TickRest, IdentLen, SanitizeExpr, Inside;
    var t, s := "\"" + x + "\"", "\"" + x + "\"" + more;
    QuoteRestInside(x, more);
    assert s[0] == '"' && s[1..] == x + "\"" + more && s[..|t|] == t;
    Step(Quoted(t), more);
  }

  lemma {:induction false} TickRestInside(x: string, more: string)
    requires '`' !in x
    ensures TickRest(x + "`" + more) == Some(|x| + 1)
    decreases |x|
  {
    var s := x + "`" + more;
    if x == "" {
      assert s[0] == '`';
    } else {
      assert s[1..] == x[1..] + "`" + more && x[0] in x;
      assert forall c :: c in x[1..] ==> c in x;
      TickRestInside(x[1..], more);
    }
  }

  /** A closed backtick literal is kept. */
  lemma TickedLiteralKept(x: string, more: string)
    requires '`' !in x
    ensures SanitizeExpr("`" + x + "`" + more) == "`" + x + "`" + SanitizeExpr(more)
  {
    hide QuoteRest, TickRest, IdentLen, SanitizeExpr, Inside;
    var t, s := "`" + x + "`", "`" + x + "`" + more;
    TickRestInside(x, more);
    assert s[0] == '`' && s[1..] == x + "`" + more && s[..|t|] == t;
    Step(Ticked(t), more);
  }
}
