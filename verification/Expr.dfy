/** `sanitizeExpr` of internal/orchestrator/runner/expr.go, with its regular expression as a scanner. */
module Expr {
  import opened Wrappers

  predicate IsLetter(c: char) {
    'a' <= c <= 'z' || 'A' <= c <= 'Z'
  }

  predicate IsWord(c: char) {
    IsLetter(c) || '0' <= c <= '9'
  }

  /** One step of the leftmost-first scan: a match of the expression, or a character it skips. */
  datatype Token =
    | Quoted(text: string)   // a closed "..." literal, kept
    | Ticked(text: string)   // a closed `...` literal, kept
    | Hyphenated(text: string) // a bare hyphenated identifier, to be quoted
    | Plain(text: string)    // one character no match starts at

  /** Length of the rest of a "..." literal including the closing quote; None when it is not closed. */
  function QuoteRest(s: string): (n: Option<nat>)
    ensures n.Some? ==> 1 <= n.value <= |s| && s[n.value - 1] == '"'
  {
    if s == [] then None
    else if s[0] == '"' then Some(1)
    else if s[0] != '\\' then
      match QuoteRest(s[1..]) case None => None case Some(n) => Some(n + 1)
    else if |s| >= 2 && s[1] != '\n' then
      match QuoteRest(s[2..]) case None => None case Some(n) => Some(n + 2)
    else None
  }

  function TickRest(s: string): (n: Option<nat>)
    ensures n.Some? ==> 1 <= n.value <= |s| && s[n.value - 1] == '`'
  {
    if s == [] then None
    else if s[0] == '`' then Some(1)
    else match TickRest(s[1..]) case None => None case Some(n) => Some(n + 1)
  }

  /** The longest run of letters and digits. */
  function WordRun(s: string): (n: nat)
    ensures n <= |s| && (forall i :: 0 <= i < n ==> IsWord(s[i])) && (n < |s| ==> !IsWord(s[n]))
  {
    if s == [] || !IsWord(s[0]) then 0 else 1 + WordRun(s[1..])
  }

  /** Length of the longest run of `-word` groups. */
  function Groups(s: string): (n: nat)
    ensures n <= |s|
    ensures forall i :: 0 <= i < n ==> IsWord(s[i]) || s[i] == '-'
    ensures n > 0 ==> s[0] == '-' && IsWord(s[n - 1])
  {
    if |s| < 2 || s[0] != '-' then 0
    else
      var w := WordRun(s[1..]);
      if w == 0 then 0 else 1 + w + Groups(s[1 + w..])
  }

  /** Length of a hyphenated identifier at the start of `s`, or 0. */
  function IdentLen(s: string): (n: nat)
    ensures n <= |s|
    ensures forall i :: 0 <= i < n ==> IsWord(s[i]) || s[i] == '-'
    ensures n > 0 ==> IsLetter(s[0]) && IsWord(s[n - 1])
  {
    if s == [] || !IsLetter(s[0]) then 0
    else
      var w := WordRun(s);
      var g := Groups(s[w..]);
      if g == 0 then 0 else w + g
  }

  function Next(s: string): (t: Token)
    requires s != []
    ensures t.text != [] && |t.text| <= |s| && t.text == s[..|t.text|]
  {
    if s[0] == '"' && QuoteRest(s[1..]).Some? then Quoted(s[..1 + QuoteRest(s[1..]).value])
    else if s[0] == '`' && TickRest(s[1..]).Some? then Ticked(s[..1 + TickRest(s[1..]).value])
    else if IdentLen(s) > 0 then Hyphenated(s[..IdentLen(s)])
    else Plain(s[..1])
  }

  function Tokens(s: string): seq<Token> {
    if s == [] then [] else [Next(s)] + Tokens(s[|Next(s).text|..])
  }

  function Rewrite(t: Token): string {
    if t.Hyphenated? then "\"" + t.text + "\"" else t.text
  }

  function Concat(tokens: seq<Token>): string {
    if tokens == [] then [] else Rewrite(tokens[0]) + Concat(tokens[1..])
  }

  function SanitizeExpr(s: string): string {
    Concat(Tokens(s))
  }

  /** The text without the quotes the rewriting inserts. */
  function Original(tokens: seq<Token>): string {
    if tokens == [] then [] else tokens[0].text + Original(tokens[1..])
  }

  lemma Split(s: string, n: nat)
    requires n <= |s|
    ensures s[..n] + s[n..] == s
  {
  }

  lemma Unfold(s: string, n: nat)
    requires s != [] && n == |Next(s).text|
    ensures Tokens(s) == [Next(s)] + Tokens(s[n..])
    ensures SanitizeExpr(s) == Rewrite(Next(s)) + SanitizeExpr(s[n..])
    ensures Original(Tokens(s)) == Next(s).text + Original(Tokens(s[n..]))
  {
    assert Tokens(s)[1..] == Tokens(s[n..]);
  }

  /** The rewriting only inserts quotes: the tokens it is made from spell the input. */
  lemma {:induction false} TokensSpellInput(s: string)
    ensures Original(Tokens(s)) == s
  {
    if s != [] {
      var n := |Next(s).text|;
      Unfold(s, n);
      TokensSpellInput(s[n..]);
      Split(s, n);
    }
  }

  /** Every double quote outside a backtick literal belongs to a closed literal. */
  ghost predicate QuotesClosed(s: string) {
    forall t :: t in Tokens(s) ==> t.Plain? ==> t.text != "\""
  }

  /** What a scan of the rewritten text must find in place of a token. */
  function Requoted(t: Token): Token {
    if t.Hyphenated? then Quoted(Rewrite(t)) else t
  }

  function RequotedAll(tokens: seq<Token>): seq<Token> {
    if tokens == [] then [] else [Requoted(tokens[0])] + RequotedAll(tokens[1..])
  }

  // Facts about single scanning functions: what they find depends only on the text they match.

  lemma {:induction false} QuoteRestLocal(s: string, u: string)
    requires QuoteRest(s).Some? && QuoteRest(s).value <= |u|
    requires forall i :: 0 <= i < QuoteRest(s).value ==> u[i] == s[i]
    ensures QuoteRest(u) == QuoteRest(s)
    decreases |s|
  {
    if s[0] == '"' {
    } else if s[0] != '\\' {
      QuoteRestLocal(s[1..], u[1..]);
    } else {
      QuoteRestLocal(s[2..], u[2..]);
    }
  }

  lemma {:induction false} TickRestLocal(s: string, u: string)
    requires TickRest(s).Some? && TickRest(s).value <= |u|
    requires forall i :: 0 <= i < TickRest(s).value ==> u[i] == s[i]
    ensures TickRest(u) == TickRest(s)
    decreases |s|
  {
    if s[0] != '`' {
      TickRestLocal(s[1..], u[1..]);
    }
  }

  /** A literal without quotes or backslashes is closed by the first quote that follows. */
  lemma {:induction false} QuoteRestOfIdent(u: string, n: nat)
    requires n < |u| && u[n] == '"'
    requires forall i :: 0 <= i < n ==> IsWord(u[i]) || u[i] == '-'
    ensures QuoteRest(u) == Some(n + 1)
    decreases n
  {
    if n > 0 {
      QuoteRestOfIdent(u[1..], n - 1);
    }
  }

  lemma {:induction false} TickRestAbsent(s: string)
    ensures TickRest(s).None? <==> forall i :: 0 <= i < |s| ==> s[i] != '`'
    decreases |s|
  {
    if s != [] && s[0] != '`' {
      TickRestAbsent(s[1..]);
      if TickRest(s).None? {
        assert forall i :: 1 <= i < |s| ==> s[i] == s[1..][i - 1];
      } else {
        var i :| 0 <= i < |s[1..]| && s[1..][i] == '`';
        assert s[i + 1] == '`';
      }
    }
  }

  /** Rewriting keeps the first character, except where an identifier gets quoted. */
  lemma FirstKept(s: string)
    requires s != [] && IdentLen(s) == 0
    ensures SanitizeExpr(s) != [] && SanitizeExpr(s)[0] == s[0]
  {
    assert Tokens(s)[0] == Next(s);
  }

  /** A run of letters and digits that does not start an identifier is copied. */
  lemma {:induction false} RunKept(s: string)
    requires Groups(s[WordRun(s)..]) == 0
    ensures WordRun(SanitizeExpr(s)) == WordRun(s)
    ensures Groups(SanitizeExpr(s)[WordRun(s)..]) == 0
    decreases |s|
  {
    var out := SanitizeExpr(s);
    if s == [] {
    } else if IsWord(s[0]) {
      assert Tokens(s)[0] == Plain(s[..1]) && Tokens(s)[1..] == Tokens(s[1..]);
      assert s[1..][WordRun(s[1..])..] == s[WordRun(s)..];
      RunKept(s[1..]);
      assert out == s[..1] + SanitizeExpr(s[1..]);
      assert out[1..] == SanitizeExpr(s[1..]);
      assert out[WordRun(s)..] == SanitizeExpr(s[1..])[WordRun(s[1..])..];
    } else {
      assert s[0..] == s && out[0..] == out;
      FirstKept(s);
      if s[0] == '-' {
        assert Tokens(s)[0] == Plain(s[..1]) && Tokens(s)[1..] == Tokens(s[1..]);
        assert out == s[..1] + SanitizeExpr(s[1..]);
        assert out[1..] == SanitizeExpr(s[1..]);
        if |s| > 1 {
          FirstKept(s[1..]);
        }
      }
    }
  }

  lemma {:induction false} NoNewTicks(tokens: seq<Token>)
    requires forall i :: 0 <= i < |Original(tokens)| ==> Original(tokens)[i] != '`'
    ensures forall i :: 0 <= i < |Concat(tokens)| ==> Concat(tokens)[i] != '`'
  {
    if tokens != [] {
      var text, rest := tokens[0].text, Original(tokens[1..]);
      assert Original(tokens) == text + rest;
      assert forall i :: 0 <= i < |text| ==> Original(tokens)[i] == text[i];
      assert forall i :: 0 <= i < |rest| ==> Original(tokens)[|text| + i] == rest[i];
      NoNewTicks(tokens[1..]);
    }
  }

  /** A skipped character is skipped again when the rewritten text is scanned. */
  lemma PlainKept(s: string)
    requires s != [] && Next(s).Plain? && s[0] != '"'
    ensures SanitizeExpr(s) != [] && Next(SanitizeExpr(s)) == Next(s)
  {
    var out := SanitizeExpr(s);
    assert Tokens(s)[0] == Next(s) && Tokens(s)[1..] == Tokens(s[1..]);
    assert out == s[..1] + SanitizeExpr(s[1..]);
    assert out[1..] == SanitizeExpr(s[1..]) && out[0] == s[0];
    if s[0] == '`' {
      TickRestAbsent(s[1..]);
      TokensSpellInput(s[1..]);
      NoNewTicks(Tokens(s[1..]));
      TickRestAbsent(out[1..]);
    } else if IsLetter(s[0]) {
      RunKept(s);
    }
    assert out[..1] == s[..1];
  }

  lemma QuotedKept(s: string, rest: string)
    requires s != [] && Next(s).Quoted?
    ensures Next(Next(s).text + rest) == Next(s)
  {
    var out, n := Next(s).text + rest, |Next(s).text|;
    QuoteRestLocal(s[1..], out[1..]);
    assert out[..n] == Next(s).text;
  }

  lemma TickedKept(s: string, rest: string)
    requires s != [] && Next(s).Ticked?
    ensures Next(Next(s).text + rest) == Next(s)
  {
    var out, n := Next(s).text + rest, |Next(s).text|;
    TickRestLocal(s[1..], out[1..]);
    assert out[..n] == Next(s).text;
  }

  lemma HyphenatedQuoted(text: string, rest: string)
    requires forall i :: 0 <= i < |text| ==> IsWord(text[i]) || text[i] == '-'
    ensures Next("\"" + text + "\"" + rest) == Quoted("\"" + text + "\"")
  {
    var n := |text|;
    var out := "\"" + text + "\"" + rest;
    var u := out[1..];
    assert u == text + ("\"" + rest);
    QuoteRestOfIdent(u, n);
    assert out[..n + 2] == "\"" + text + "\"";
  }

  /** The first token of the rewritten text is the rewriting of the first token. */
  lemma NextRequoted(s: string)
    requires s != [] && (Next(s).Plain? ==> s[0] != '"')
    ensures SanitizeExpr(s) != [] && Next(SanitizeExpr(s)) == Requoted(Next(s))
    ensures SanitizeExpr(s)[|Requoted(Next(s)).text|..] == SanitizeExpr(s[|Next(s).text|..])
  {
    var rest := SanitizeExpr(s[|Next(s).text|..]);
    Unfold(s, |Next(s).text|);
    match Next(s) {
      case Quoted(_) => QuotedKept(s, rest);
      case Ticked(_) => TickedKept(s, rest);
      case Hyphenated(text) => HyphenatedQuoted(text, rest);
      case Plain(_) => PlainKept(s);
    }
  }

  /** Scanning the rewritten text finds the same tokens, each identifier now inside quotes. */
  lemma {:induction false} ScanOfSanitized(s: string)
    requires QuotesClosed(s)
    ensures Tokens(SanitizeExpr(s)) == RequotedAll(Tokens(s))
    decreases |s|
  {
    if s != [] {
      var n := |Next(s).text|;
      Unfold(s, n);
      assert Next(s) in Tokens(s);
      assert QuotesClosed(s[n..]) by {
        forall t | t in Tokens(s[n..]) ensures t in Tokens(s) {
        }
      }
      assert Next(s).Plain? ==> Next(s).text == s[..1] == [s[0]];
      NextRequoted(s);
      ScanOfSanitized(s[n..]);
    }
  }

  lemma {:induction false} RequotedFacts(tokens: seq<Token>)
    ensures |RequotedAll(tokens)| == |tokens|
    ensures forall i :: 0 <= i < |tokens| ==> RequotedAll(tokens)[i] == Requoted(tokens[i])
    ensures Concat(RequotedAll(tokens)) == Concat(tokens)
  {
    if tokens != [] {
      RequotedFacts(tokens[1..]);
      assert RequotedAll(tokens)[1..] == RequotedAll(tokens[1..]);
    }
  }

  /**
   * On expressions with closed quotes: a second pass changes nothing, no bare hyphenated
   * identifier is left, and every literal comes out as it went in, at its place.
   */
  lemma SanitizeTheorem(s: string)
    requires QuotesClosed(s)
    ensures SanitizeExpr(SanitizeExpr(s)) == SanitizeExpr(s)
    ensures forall t :: t in Tokens(SanitizeExpr(s)) ==> !t.Hyphenated?
    ensures |Tokens(SanitizeExpr(s))| == |Tokens(s)|
    ensures forall i :: 0 <= i < |Tokens(s)| ==>
      Tokens(SanitizeExpr(s))[i] == if Tokens(s)[i].Hyphenated? then Quoted("\"" + Tokens(s)[i].text + "\"") else Tokens(s)[i]
  {
    ScanOfSanitized(s);
    RequotedFacts(Tokens(s));
  }

  lemma {:induction false} NoQuoteInside(w: string)
    requires forall i :: 0 <= i < |w| ==> IsWord(w[i]) || w[i] == '-'
    ensures QuoteRest(w).None?
  {
    if w != [] {
      NoQuoteInside(w[1..]);
    }
  }

  lemma ScanIdent(more: string)
    requires more == "" || !(IsWord(more[0]) || more[0] == '-')
    ensures Next("a-b" + more) == Hyphenated("a-b")
  {
    var s := "a-b" + more;
    var u := s[1..];
    assert s[0] == 'a' && u[0] == '-' && u[1..][0] == 'b';
    assert u[1..][1..] == more && u[2..] == more;
    assert WordRun(u[1..]) == 1;
    assert Groups(u) == 2 + Groups(u[2..]);
    assert WordRun(u) == 0 && WordRun(s) == 1;
    assert s[..3] == "a-b";
  }

  lemma LoneQuote()
    ensures SanitizeExpr("\"") == "\"" && |Next("\"").text| == 1
  {
    Unfold("\"", 1);
  }

  /** One token followed by a tail. */
  lemma Step(t: Token, tail: string)
    requires t.text != [] && Next(t.text + tail) == t
    ensures SanitizeExpr(t.text + tail) == Rewrite(t) + SanitizeExpr(tail)
    ensures t in Tokens(t.text + tail)
  {
    var s := t.text + tail;
    Unfold(s, |t.text|);
    assert s[|t.text|..] == tail;
  }

  lemma SanitizeIdent(more: string)
    requires more == "" || !(IsWord(more[0]) || more[0] == '-')
    ensures SanitizeExpr("a-b" + more) == "\"" + "a-b" + "\"" + SanitizeExpr(more)
  {
    ScanIdent(more);
    Step(Hyphenated("a-b"), more);
  }

  lemma OpenQuote(tail: string)
    requires QuoteRest(tail).None?
    ensures SanitizeExpr("\"" + tail) == "\"" + SanitizeExpr(tail)
    ensures !QuotesClosed("\"" + tail)
  {
    assert ("\"" + tail)[1..] == tail;
    Step(Plain("\""), tail);
  }

  lemma UnclosedOnce(w: string)
    requires forall i :: 0 <= i < |w| ==> IsWord(w[i]) || w[i] == '-'
    requires SanitizeExpr(w) == "\"" + w + "\""
    ensures !QuotesClosed("\"" + w)
    ensures SanitizeExpr("\"" + w) == "\"" + ("\"" + w + "\"")
  {
    NoQuoteInside(w);
    OpenQuote(w);
  }

  lemma SanitizeIdentAlone()
    ensures SanitizeExpr("a-b") == "\"" + "a-b" + "\""
  {
    SanitizeIdent("");
    assert "a-b" + "" == "a-b";
    assert SanitizeExpr("") == "";
  }

  lemma UnclosedTwice()
    ensures |SanitizeExpr("\"\"" + ("a-b" + "\""))| == 8
  {
    var s := "\"\"" + ("a-b" + "\"");
    assert s[1..][0] == '"' && s[..2] == "\"\"";
    Step(Quoted("\"\""), "a-b" + "\"");
    SanitizeIdent("\"");
    LoneQuote();
  }

  /** After a quote that is never closed, a second pass quotes an identifier once more. */
  lemma UnclosedQuoteBreaksIdempotence()
    ensures !QuotesClosed("\"a-b")
    ensures SanitizeExpr(SanitizeExpr("\"a-b")) != SanitizeExpr("\"a-b")
  {
    var once := "\"" + ("\"" + "a-b" + "\"");
    assert once == "\"\"" + ("a-b" + "\"");
    assert "\"" + "a-b" == "\"a-b";
    SanitizeIdentAlone();
    UnclosedOnce("a-b");
    UnclosedTwice();
    assert |once| == 6;
  }
}
