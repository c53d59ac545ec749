/** Which tool calls need approval, in terms of the servers' rules and nothing else. */
module ApprovalRules {
  import opened Wrappers
  import opened Values
  import opened Metrics
  import opened AgentLoop
  import opened LoopProperties

  // ---- patterns ----

  /** The pattern is the first `n` characters of the tool's name and a star. */
  predicate StarAfter(pattern: string, tool: string, n: nat) {
    n <= |tool| && pattern == tool[..n] + "*"
  }

  /** A rule speaks of a tool when its pattern is the tool's name, or a beginning of it followed by a star. */
  predicate SpeaksOf(pattern: string, tool: string) {
    pattern == tool || exists n :: 0 <= n <= |tool| && StarAfter(pattern, tool, n)
  }

  lemma PrefixPattern(tool: string, prefix: string)
    ensures MatchesPattern(tool, prefix + "*") <==> prefix <= tool
  {
    assert (prefix + "*")[..|prefix|] == prefix;
  }

  lemma ExactPattern(tool: string, pattern: string)
    requires pattern == "" || pattern[|pattern| - 1] != '*'
    ensures MatchesPattern(tool, pattern) <==> tool == pattern
  {
  }

  /** The pattern test decides exactly that. */
  lemma MatchesExactly(tool: string, pattern: string)
    ensures MatchesPattern(tool, pattern) <==> SpeaksOf(pattern, tool)
  {
    hide MatchesPattern;
    if pattern == "" || pattern[|pattern| - 1] != '*' {
      ExactPattern(tool, pattern);
    } else {
      var prefix := pattern[..|pattern| - 1];
      assert pattern == prefix + "*";
      PrefixPattern(tool, prefix);
      if prefix <= tool {
        assert StarAfter(pattern, tool, |prefix|);
      }
      forall n | 0 <= n <= |tool| && StarAfter(pattern, tool, n) ensures prefix <= tool {
        assert (tool[..n] + "*")[..n] == tool[..n];
      }
      if pattern == tool {
        assert prefix <= tool;
      }
    }
  }

  // ---- the server a call goes to ----

  predicate Offers(world: World, i: nat, name: string) {
    world.discovery(i).Some? && name in world.discovery(i).value
  }

  /** Server `i` offers the tool, and no later server does. */
  predicate LastToOffer(n: nat, world: World, name: string, i: nat) {
    i < n && Offers(world, i, name) && forall j :: i < j < n ==> !Offers(world, j, name)
  }

  /** A tool goes to the last server that offers it. */
  lemma {:induction false} RoutedToLast(servers: seq<Server>, world: World, name: string)
    requires Discover(servers, world).Some?
    ensures forall i :: 0 <= i < |servers| ==> world.discovery(i).Some?
    ensures var routing := Discover(servers, world).value;
      if name in routing then exists i: nat :: LastToOffer(|servers|, world, name, i) && routing[name] == servers[i]
      else forall i :: 0 <= i < |servers| ==> !Offers(world, i, name)
    decreases |servers|
  {
    if servers != [] {
      var n := |servers| - 1;
      RoutedToLast(servers[..n], world, name);
      var before := Discover(servers[..n], world).value;
      if Offers(world, n, name) {
        assert LastToOffer(|servers|, world, name, n);
      } else if name in before {
        var i: nat :| LastToOffer(n, world, name, i) && before[name] == servers[..n][i];
        assert LastToOffer(|servers|, world, name, i);
      }
    }
  }

  // ---- legs ----

  /** None of the rules speaks of the tool. */
  ghost predicate NoRule(rules: seq<Rule>, tool: string) {
    forall rule :: rule in rules ==> !SpeaksOf(rule.pattern, tool)
  }

  /** Rule `k` is the first that speaks of the tool. */
  ghost predicate FirstRule(rules: seq<Rule>, tool: string, k: nat) {
    k < |rules| && SpeaksOf(rules[k].pattern, tool) && forall j :: 0 <= j < k ==> !SpeaksOf(rules[j].pattern, tool)
  }

  lemma ShiftRule(rules: seq<Rule>, tool: string, k: nat)
    requires rules != [] && !SpeaksOf(rules[0].pattern, tool) && FirstRule(rules[1..], tool, k)
    ensures FirstRule(rules, tool, k + 1)
  {
    hide SpeaksOf;
    forall j | 0 <= j < k + 1 ensures !SpeaksOf(rules[j].pattern, tool) {
      if j > 0 {
        assert rules[1..][j - 1] == rules[j];
      }
    }
  }

  lemma {:induction false} FoundRule(tool: string, rules: seq<Rule>)
    ensures match FindRule(tool, rules)
      case None => NoRule(rules, tool)
      case Some(rule) => exists k: nat :: FirstRule(rules, tool, k) && rule == rules[k]
  {
    hide SpeaksOf, MatchesPattern;
    if rules != [] {
      MatchesExactly(tool, rules[0].pattern);
      FoundRule(tool, rules[1..]);
      if SpeaksOf(rules[0].pattern, tool) {
        assert FirstRule(rules, tool, 0);
      } else if k: nat :| FirstRule(rules[1..], tool, k) && FindRule(tool, rules[1..]) == Some(rules[1..][k]) {
        ShiftRule(rules, tool, k);
      }
    }
  }

  /** The last server to offer the tool has no rule that speaks of it. */
  ghost predicate Ungoverned(req: Request, world: World, tool: string) {
    exists i: nat :: LastToOffer(|req.servers|, world, tool, i) && NoRule(req.servers[i].rules, tool)
  }

  /**
   * A call a leg makes without pre-approval goes to the last server that offers the tool, and no
   * rule of that server has the tool's name, or a beginning of it followed by a star, as its pattern.
   */
  lemma UnaskedCallsAreUngoverned(req: Request, world: World, e: Event)
    requires e in RunLeg(req, world).state.events && e.Called? && !e.preApproved
    ensures Ungoverned(req, world, e.call.name)
  {
    hide RunLeg, FindRule;
    var name := e.call.name;
    DiscoveredBeforeCalls(req, world);
    var routing := Discover(req.servers, world).value;
    ApprovalGate(req, world, routing);
    assert Permitted(req, routing, e);
    RoutedToLast(req.servers, world, name);
    FoundRule(name, routing[name].rules);
  }

  lemma DiscoveredBeforeCalls(req: Request, world: World)
    ensures RunLeg(req, world).state.events != [] || RunLeg(req, world).outcome.Suspended? ==> Discover(req.servers, world).Some?
  {
  }

  /** Server `i` is the last to offer the call's tool, and its rule `k` the first that speaks of it, as the leg reports. */
  ghost predicate SuspendedBy(req: Request, world: World, p: Pending, i: nat, k: nat) {
    && LastToOffer(|req.servers|, world, p.call.name, i)
    && FirstRule(req.servers[i].rules, p.call.name, k)
    && var rule := req.servers[i].rules[k];
       p.onReject == rule.onReject && p.timeoutMS == rule.timeoutMS && p.timeoutBehavior == rule.timeoutBehavior
  }

  /** A leg suspends on a call its server has a rule for, and reports the first such rule. */
  lemma SuspendedByFirstRule(req: Request, world: World) returns (i: nat, k: nat)
    requires RunLeg(req, world).outcome.Suspended?
    ensures SuspendedBy(req, world, RunLeg(req, world).outcome.pending, i, k)
  {
    hide RunLeg, FindRule, SpeaksOf;
    DiscoveredBeforeCalls(req, world);
    var routing := Discover(req.servers, world).value;
    var p := RunLeg(req, world).outcome.pending;
    ApprovalGate(req, world, routing);
    assert p.call.name in routing && FindRule(p.call.name, routing[p.call.name].rules).Some?;
    RoutedToLast(req.servers, world, p.call.name);
    FoundRule(p.call.name, routing[p.call.name].rules);
    i :| LastToOffer(|req.servers|, world, p.call.name, i) && routing[p.call.name] == req.servers[i];
    k :| FirstRule(req.servers[i].rules, p.call.name, k) && FindRule(p.call.name, req.servers[i].rules) == Some(req.servers[i].rules[k]);
  }

  // ---- turns ----

  /** Ten turns where the request sets none. */
  lemma TurnsAllowed(req: Request, world: World)
    ensures var (leg, T) := (RunLeg(req, world), if req.maxTurns > 0 then req.maxTurns else 10);
      TallyOf(leg.state.events).turns <= T && Asks(leg.state.events) <= T + 2
  {
    LegIsGood(req, world);
    CallBound(req, world);
  }
}
