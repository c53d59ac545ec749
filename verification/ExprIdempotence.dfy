/** On exactly which expressions a second `sanitizeExpr` changes nothing. */
module ExprIdempotence {
  import opened Wrappers
  import opened Expr

  // ---- reading in escape pairs ----

  /** How a text that is read in escape pairs ends: outside a pair, inside one, or at an escaped newline. */
  datatype Ending = Outside | Escaped | Broken

  function Walk(u: string, escaped: bool): Ending {
    if u == [] then (if escaped then Escaped else Outside)
    else if escaped && u[0] == '\n' then Broken
    else Walk(u[1..], !escaped && u[0] == '\\')
  }

  function Later(n: nat, r: Option<nat>): Option<nat> {
    match r case None => None case Some(m) => Some(n + m)
  }

  /** `QuoteRest` one character at a time. */
  function QuoteFrom(s: string, escaped: bool): Option<nat> {
    if s == [] || (escaped && s[0] == '\n') then None
    else if !escaped && s[0] == '"' then Some(1)
    else Later(1, QuoteFrom(s[1..], !escaped && s[0] == '\\'))
  }

  lemma {:induction false} QuoteRestWalks(s: string)
    ensures QuoteRest(s) == QuoteFrom(s, false)
  {
    if s != [] {
      if s[0] == '\\' {
        if |s| >= 2 && s[1] != '\n' {
          assert s[1..][0] == s[1] && s[1..][1..] == s[2..];
          QuoteRestWalks(s[2..]);
        }
      } else {
        QuoteRestWalks(s[1..]);
      }
    }
  }

  /** A text that closes no literal is passed over. */
  lemma {:induction false} QuoteThrough(u: string, x: string, y: string, escaped: bool)
    requires QuoteFrom(u + y, escaped).None?
    ensures QuoteFrom(u + x, escaped) == match Walk(u, escaped)
      case Broken => None
      case Escaped => Later(|u|, QuoteFrom(x, true))
      case Outside => Later(|u|, QuoteFrom(x, false))
  {
    if u == [] {
      assert u + x == x;
    } else {
      assert (u + x)[0] == u[0] && (u + x)[1..] == u[1..] + x;
      assert (u + y)[0] == u[0] && (u + y)[1..] == u[1..] + y;
      if !(escaped && u[0] == '\n') {
        QuoteThrough(u[1..], x, y, !escaped && u[0] == '\\');
      }
    }
  }

  lemma {:induction false} WalkConcat(a: string, b: string, escaped: bool)
    ensures Walk(a + b, escaped) == if Walk(a, escaped) == Broken then Broken else Walk(b, Walk(a, escaped) == Escaped)
  {
    if a == [] {
      assert a + b == b;
    } else {
      assert (a + b)[0] == a[0] && (a + b)[1..] == a[1..] + b;
      if !(escaped && a[0] == '\n') {
        WalkConcat(a[1..], b, !escaped && a[0] == '\\');
      }
    }
  }

  // ---- the condition ----

  /** How much text stands before the first bare hyphenated identifier. */
  function FirstIdent(s: string): (k: Option<nat>)
    ensures k.Some? ==> k.value < |s| && Next(s[k.value..]).Hyphenated?
  {
    if s == [] then None
    else if Next(s).Hyphenated? then Some(0)
    else
      var n := |Next(s).text|;
      assert forall k :: 0 <= k <= |s[n..]| ==> s[n..][k..] == s[n + k..];
      Later(n, FirstIdent(s[n..]))
  }

  /** There is a next identifier, and the text before it ends outside an escape. */
  predicate Exposed(s: string) {
    FirstIdent(s).Some? && Walk(s[..FirstIdent(s).value], false) == Outside
  }

  /** After every quote that is never closed, the next identifier is not exposed. */
  predicate Steady(s: string) {
    s == [] || (Steady(s[|Next(s).text|..]) && (Next(s) == Plain("\"") ==> !Exposed(s[1..])))
  }

  // ---- texts without identifiers, and up to the first one ----

  lemma FirstUnfolds(s: string)
    requires s != []
    ensures FirstIdent(s) == if Next(s).Hyphenated? then Some(0) else Later(|Next(s).text|, FirstIdent(s[|Next(s).text|..]))
  {
    hide Next;
  }

  lemma SteadyUnfolds(s: string)
    requires s != []
    ensures Steady(s) <==> Steady(s[|Next(s).text|..]) && (Next(s) == Plain("\"") ==> !Exposed(s[1..]))
  {
    hide Next, Exposed;
  }

  /** A text after its first `n` characters, up to character `k` and from there. */
  lemma Shift(s: string, n: nat, k: nat)
    requires n <= k <= |s|
    ensures s[n..][..k - n] == s[n..k] && s[n..][k - n..] == s[k..] && s[..k] == s[..n] + s[n..k]
  {
  }

  lemma {:induction false} NoIdent(s: string)
    requires FirstIdent(s).None?
    ensures SanitizeExpr(s) == s && Steady(s)
  {
    if s != [] {
      var n := |Next(s).text|;
      Unfold(s, n);
      NoIdent(s[n..]);
      Split(s, n);
    }
  }

  lemma {:induction false} UpToIdent(s: string)
    requires FirstIdent(s).Some?
    ensures SanitizeExpr(s) == s[..FirstIdent(s).value] + SanitizeExpr(s[FirstIdent(s).value..])
  {
    hide FirstIdent, Next, SanitizeExpr, Tokens;
    FirstUnfolds(s);
    if Next(s).Hyphenated? {
      assert s[0..] == s && s[..0] == "";
    } else {
      var n, k := |Next(s).text|, FirstIdent(s).value;
      Unfold(s, n);
      UpToIdent(s[n..]);
      Shift(s, n, k);
      Joined(s[..n], s[n..k], SanitizeExpr(s[k..]));
    }
  }

  lemma Joined(a: string, b: string, c: string)
    ensures a + (b + c) == (a + b) + c
  {
  }

  /** Inside one long escape-paired text, the quotes are all escaped and all see the same next identifier. */
  lemma {:induction false} EscapedIsSteady(s: string, escaped: bool)
    requires FirstIdent(s).Some? && QuoteFrom(s, escaped).None?
    requires Walk(s[..FirstIdent(s).value], escaped) == Escaped
    ensures var k := FirstIdent(s).value; Steady(s) <==> Steady(s[k + |Next(s[k..]).text|..])
    decreases |s|
  {
    hide FirstIdent, Next, Steady, Exposed, Walk, QuoteFrom;
    FirstUnfolds(s);
    SteadyUnfolds(s);
    var k := FirstIdent(s).value;
    if Next(s).Hyphenated? {
      assert s[0..] == s;
    } else {
      var n := |Next(s).text|;
      var rest, e := s[n..], Walk(s[..n], escaped) == Escaped;
      Shift(s, n, k);
      WalkConcat(s[..n], s[n..k], escaped);
      Split(s, n);
      QuoteThrough(s[..n], rest, rest, escaped);
      EscapedIsSteady(rest, e);
      Shift(s, n, k + |Next(s[k..]).text|);
      if Next(s) == Plain("\"") {
        EscapedQuote(s, escaped);
        NotExposed(rest);
      }
    }
  }

  /** A quote that is passed over is escaped, and ends the escape. */
  lemma EscapedQuote(s: string, escaped: bool)
    requires s != [] && s[..1] == "\"" && QuoteFrom(s, escaped).None?
    ensures escaped && Walk(s[..1], escaped) == Outside
  {
    assert s[0] == s[..1][0] == '"' && s[..1][1..] == [];
  }

  lemma NotExposed(s: string)
    requires FirstIdent(s).Some? && Walk(s[..FirstIdent(s).value], false) == Escaped
    ensures !Exposed(s)
  {
  }

  // ---- a pass that changes nothing ----

  /** No bare hyphenated identifier. */
  ghost predicate Idle(s: string) {
    forall t :: t in Tokens(s) ==> !t.Hyphenated?
  }

  lemma IdleUnfolds(s: string)
    requires s != []
    ensures Idle(s) <==> !Next(s).Hyphenated? && Idle(s[|Next(s).text|..])
  {
    Unfold(s, |Next(s).text|);
    var rest := Tokens(s[|Next(s).text|..]);
    forall t ensures t in Tokens(s) <==> t == Next(s) || t in rest {
    }
  }

  /** A pass changes the text exactly when it quotes something. */
  lemma {:induction false} IdleExactly(s: string)
    ensures |SanitizeExpr(s)| >= |s|
    ensures Idle(s) ==> SanitizeExpr(s) == s
    ensures !Idle(s) ==> |SanitizeExpr(s)| > |s|
  {
    if s != [] {
      var n := |Next(s).text|;
      Unfold(s, n);
      IdleUnfolds(s);
      IdleExactly(s[n..]);
      Split(s, n);
    }
  }

  // ---- the second pass ----

  /** A run of letters and digits is found again in a text that agrees with it and the character after. */
  lemma {:induction false} RunAgain(s: string, u: string)
    requires WordRun(s) < |s| && WordRun(s) < |u|
    requires forall i :: 0 <= i <= WordRun(s) ==> u[i] == s[i]
    ensures WordRun(u) == WordRun(s)
  {
    if IsWord(s[0]) {
      RunAgain(s[1..], u[1..]);
    }
  }

  /** One group follows. */
  lemma GroupStarts(s: string)
    ensures Groups(s) > 0 <==> |s| >= 2 && s[0] == '-' && IsWord(s[1])
    ensures Groups(s) > 0 ==> Groups(s) >= 2
  {
    if |s| >= 2 {
      assert s[1..][0] == s[1];
    }
  }

  /** An identifier starts with a letter, and its first run is followed by a hyphen and more. */
  lemma IdentStarts(s: string)
    requires s != [] && IsLetter(s[0])
    ensures var n := WordRun(s);
      && (IdentLen(s) > 0 <==> n + 1 < |s| && s[n] == '-' && IsWord(s[n + 1]))
      && (IdentLen(s) > 0 ==> IdentLen(s) >= n + 2)
  {
    hide Groups, WordRun;
    var rest := s[WordRun(s)..];
    GroupStarts(rest);
  }

  /** An identifier whose opening quote was taken for the end of a literal is bare again. */
  lemma BareAgain(s: string, x: string)
    requires s != [] && Next(s).Hyphenated?
    ensures Next(Next(s).text + x).Hyphenated?
  {
    hide Groups, WordRun;
    var u, n := Next(s).text + x, WordRun(s);
    IdentStarts(s);
    assert forall i :: 0 <= i <= n + 1 ==> u[i] == s[i];
    RunAgain(s, u);
    IdentStarts(u);
  }

  /** A text that starts with a quote. */
  lemma NextAtQuote(tail: string)
    ensures Next("\"" + tail) ==
      if QuoteRest(tail).Some? then Quoted(("\"" + tail)[..1 + QuoteRest(tail).value]) else Plain("\"")
  {
    hide QuoteRest;
    assert ("\"" + tail)[0] == '"' && ("\"" + tail)[1..] == tail && ("\"" + tail)[..1] == "\"";
  }

  lemma UnclosedRewritten(s: string)
    requires s != [] && Next(s) == Plain("\"")
    ensures SanitizeExpr(s) == "\"" + SanitizeExpr(s[1..])
  {
    hide Next, Tokens;
    Unfold(s, 1);
  }

  /** The quote that is never closed, when the second pass does not find it closed either. */
  lemma StillOpen(s: string)
    requires s != [] && Next(s) == Plain("\"") && QuoteRest(SanitizeExpr(s[1..])).None?
    ensures Idle(SanitizeExpr(s)) <==> Idle(SanitizeExpr(s[1..]))
  {
    hide Next, SanitizeExpr, Idle, QuoteRest;
    var tail := SanitizeExpr(s[1..]);
    UnclosedRewritten(s);
    NextAtQuote(tail);
    IdleUnfolds("\"" + tail);
    assert ("\"" + tail)[1..] == tail;
  }

  /** When the second pass finds it closed after `n` characters. */
  lemma ClosedLater(s: string, n: nat)
    requires s != [] && Next(s) == Plain("\"") && QuoteRest(SanitizeExpr(s[1..])) == Some(n)
    ensures Idle(SanitizeExpr(s)) <==> Idle(SanitizeExpr(s[1..])[n..])
  {
    hide Next, SanitizeExpr, Idle, QuoteRest;
    var tail := SanitizeExpr(s[1..]);
    UnclosedRewritten(s);
    NextAtQuote(tail);
    IdleUnfolds("\"" + tail);
    assert ("\"" + tail)[1 + n..] == tail[n..];
  }

  /** What the quoted identifier does to the literal: `rest` is the text after the identifier. */
  lemma IdentCloses(w: string, rest: string)
    requires forall i :: 0 <= i < |w| ==> IsWord(w[i]) || w[i] == '-'
    ensures QuoteFrom("\"" + w + "\"" + rest, false) == Some(1)
    ensures QuoteFrom("\"" + w + "\"" + rest, true) == Some(|w| + 2)
  {
    var q := "\"" + w + "\"" + rest;
    assert q[1..] == w + "\"" + rest;
    QuoteRestOfIdent(w + "\"" + rest, |w|);
    QuoteRestWalks(w + "\"" + rest);
  }

  /** The text after the first identifier. */
  function AfterIdent(s: string): string
    requires FirstIdent(s).Some?
  {
    var k := FirstIdent(s).value;
    s[k + |Next(s[k..]).text|..]
  }

  /** The rewritten text: up to the first identifier, that identifier in quotes, and the rest. */
  function QuotedRest(s: string): string
    requires FirstIdent(s).Some?
  {
    "\"" + Next(s[FirstIdent(s).value..]).text + "\"" + SanitizeExpr(AfterIdent(s))
  }

  lemma RewrittenText(t: string)
    requires FirstIdent(t).Some?
    ensures SanitizeExpr(t) == t[..FirstIdent(t).value] + QuotedRest(t)
  {
    hide FirstIdent, Next, SanitizeExpr, Tokens;
    var k := FirstIdent(t).value;
    var w := Next(t[k..]).text;
    UpToIdent(t);
    Unfold(t[k..], |w|);
    Shift(t, k, k + |w|);
  }

  /** Where a scan for the closing quote ends in the rewritten text. */
  lemma ClosingQuote(t: string)
    requires FirstIdent(t).Some? && QuoteRest(t).None?
    ensures
      var k := FirstIdent(t).value;
      QuoteRest(SanitizeExpr(t)) == (
        match Walk(t[..k], false)
        case Broken => None
        case Escaped => Some(k + |Next(t[k..]).text| + 2)
        case Outside => Some(k + 1)
      )
  {
    hide FirstIdent, Next, SanitizeExpr, QuoteRest, QuoteFrom, Walk;
    var k := FirstIdent(t).value;
    var u, q := t[..k], QuotedRest(t);
    RewrittenText(t);
    Split(t, k);
    QuoteRestWalks(t);
    QuoteRestWalks(u + q);
    QuoteThrough(u, q, t[k..], false);
    IdentWord(t[k..]);
    IdentCloses(Next(t[k..]).text, SanitizeExpr(AfterIdent(t)));
  }

  lemma IdentWord(s: string)
    requires s != [] && Next(s).Hyphenated?
    ensures forall i :: 0 <= i < |Next(s).text| ==> IsWord(Next(s).text[i]) || Next(s).text[i] == '-'
  {
  }

  /** An unclosed quote with an identifier after it. */
  lemma OpenBeforeIdent(s: string)
    requires s != [] && Next(s) == Plain("\"") && FirstIdent(s[1..]).Some? && QuoteRest(s[1..]).None?
    ensures
      var t := s[1..];
      match Walk(t[..FirstIdent(t).value], false)
      case Broken => Idle(SanitizeExpr(s)) <==> Idle(SanitizeExpr(t))
      case Escaped => (Idle(SanitizeExpr(s)) <==> Idle(SanitizeExpr(AfterIdent(t)))) && (Steady(t) <==> Steady(AfterIdent(t)))
      case Outside => !Idle(SanitizeExpr(s))
  {
    hide FirstIdent, Next, SanitizeExpr, Walk, Idle, Steady, QuoteFrom, QuoteRest, Tokens;
    var t := s[1..];
    var k := FirstIdent(t).value;
    ClosingQuote(t);
    RewrittenText(t);
    match Walk(t[..k], false)
    case Broken => StillOpen(s);
    case Escaped =>
      ClosedLater(s, k + |Next(t[k..]).text| + 2);
      Tail(t[..k], Next(t[k..]).text, SanitizeExpr(AfterIdent(t)));
      QuoteRestWalks(t);
      EscapedIsSteady(t, false);
    case Outside =>
      ClosedLater(s, k + 1);
      Tail(t[..k], Next(t[k..]).text, SanitizeExpr(AfterIdent(t)));
      BareAgain(t[k..], "\"" + SanitizeExpr(AfterIdent(t)));
      Joined(Next(t[k..]).text, "\"", SanitizeExpr(AfterIdent(t)));
      IdleUnfolds(Next(t[k..]).text + "\"" + SanitizeExpr(AfterIdent(t)));
  }

  /** What is left of a rewritten text from the opening and from the closing quote of an identifier on. */
  lemma Tail(u: string, w: string, rest: string)
    ensures (u + ("\"" + w + "\"" + rest))[|u| + 1..] == w + "\"" + rest
    ensures (u + ("\"" + w + "\"" + rest))[|u| + |w| + 2..] == rest
  {
  }

  lemma {:induction false} IdleWhenSteady(s: string)
    ensures Idle(SanitizeExpr(s)) <==> Steady(s)
    decreases |s|
  {
    hide Idle, Walk, SanitizeExpr, FirstIdent, Next, Steady, AfterIdent;
    if s == [] {
      NothingIsIdle();
    } else if Next(s) != Plain("\"") {
      SteadyUnfolds(s);
      Aligned(s);
      IdleWhenSteady(s[|Next(s).text|..]);
    } else {
      var t := s[1..];
      SteadyUnfolds(s);
      NotClosed(s);
      IdleWhenSteady(t);
      if FirstIdent(t).None? {
        NoIdent(t);
        StillOpen(s);
      } else {
        OpenBeforeIdent(s);
        AfterIsShorter(t);
        IdleWhenSteady(AfterIdent(t));
      }
    }
  }

  lemma AfterIsShorter(s: string)
    requires FirstIdent(s).Some?
    ensures |AfterIdent(s)| < |s|
  {
    hide FirstIdent, Next;
  }

  lemma NotClosed(s: string)
    requires s != [] && Next(s) == Plain("\"")
    ensures QuoteRest(s[1..]).None?
  {
    hide QuoteRest, IdentLen, TickRest;
    assert s[..1] == [s[0]];
  }

  lemma NothingIsIdle()
    ensures Idle(SanitizeExpr("")) && Steady("")
  {
  }

  /** Every token but an unclosed quote comes out as one token that is no identifier. */
  lemma Aligned(s: string)
    requires s != [] && Next(s) != Plain("\"")
    ensures Idle(SanitizeExpr(s)) <==> Idle(SanitizeExpr(s[|Next(s).text|..]))
  {
    if Next(s).Plain? {
      assert Next(s).text == s[..1] == [s[0]];
    }
    NextRequoted(s);
    IdleUnfolds(SanitizeExpr(s));
  }

  /**
   * A second pass changes nothing exactly when no unclosed quote exposes an identifier: when, after
   * every quote that is never closed, the text up to the next hyphenated identifier, read in escape
   * pairs, ends inside an escape or has an escaped newline.
   */
  lemma IdempotentExactly(s: string)
    ensures SanitizeExpr(SanitizeExpr(s)) == SanitizeExpr(s) <==> Steady(s)
  {
    IdleWhenSteady(s);
    IdleExactly(SanitizeExpr(s));
  }

  /** An expression whose quotes are all closed has no such quote. */
  lemma {:induction false} ClosedIsSteady(s: string)
    requires QuotesClosed(s)
    ensures Steady(s)
  {
    if s != [] {
      var n := |Next(s).text|;
      Unfold(s, n);
      assert Next(s) in Tokens(s);
      forall t | t in Tokens(s[n..]) ensures t in Tokens(s) {
      }
      ClosedIsSteady(s[n..]);
    }
  }
}
