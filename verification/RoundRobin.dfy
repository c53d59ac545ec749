/** The round-robin model choice of internal/gateway/dispatcher.go. */
module RoundRobin {
  import opened Wrappers

  const TWO_TO_THE_63: int := 0x8000_0000_0000_0000
  const TWO_TO_THE_64: int := 0x1_0000_0000_0000_0000

  newtype uint64 = x: int | 0 <= x < 0x1_0000_0000_0000_0000

  datatype ModelGroup = ModelGroup(name: string, models: seq<string>)

  // ---- machine arithmetic ----

  /** The conversion of a uint64 to int: the upper half of the range becomes negative. */
  function ToInt(x: uint64): int {
    if x as int < TWO_TO_THE_63 then x as int else x as int - TWO_TO_THE_64
  }

  /** The `%` of signed integers: the remainder has the sign of the dividend. */
  function Remainder(a: int, b: int): (r: int)
    requires b > 0
    ensures a >= 0 ==> 0 <= r < b
    ensures a < 0 ==> -b < r <= 0
  {
    if a >= 0 then a % b else -(-a % b)
  }

  /** The position chosen by the selection that finds the counter at `n`. */
  function Position(n: nat, k: nat): int
    requires k > 0
  {
    Remainder(ToInt((n % TWO_TO_THE_64) as uint64), k)
  }

  /** Adding one and taking it away again gives the value before, wrap-around or not. */
  lemma WrapsBack(x: int)
    requires 0 <= x < TWO_TO_THE_64
    ensures ((x + 1) % TWO_TO_THE_64 - 1) % TWO_TO_THE_64 == x && x % TWO_TO_THE_64 == x
  {
  }

  // ---- the dispatcher ----

  class Counter {
    var value: uint64

    constructor ()
      ensures value == 0
    {
      value := 0;
    }

    /** The atomic addition: wraps around. */
    method Add(n: uint64) returns (after: uint64)
      modifies this
      ensures after == value && value as int == (old(value) as int + n as int) % TWO_TO_THE_64
    {
      value := ((value as int + n as int) % TWO_TO_THE_64) as uint64;
      after := value;
    }
  }

  /** The first group of that name, as `Dispatch` looks it up. */
  function Named(groups: seq<ModelGroup>, name: string): (g: Option<ModelGroup>)
    ensures g.Some? ==> g.value in groups && g.value.name == name
    ensures g.None? <==> forall h :: h in groups ==> h.name != name
  {
    if groups == [] then None
    else if groups[0].name == name then Some(groups[0])
    else
      assert groups == [groups[0]] + groups[1..];
      Named(groups[1..], name)
  }

  /** Group `i` has the name, and none before it. */
  predicate FirstNamed(groups: seq<ModelGroup>, name: string, i: nat) {
    i < |groups| && groups[i].name == name && forall j :: 0 <= j < i ==> groups[j].name != name
  }

  /** Of several groups with one name the first is meant. */
  lemma {:induction false} NamedFirst(groups: seq<ModelGroup>, name: string, i: nat)
    requires FirstNamed(groups, name, i)
    ensures Named(groups, name) == Some(groups[i])
  {
    if i > 0 {
      assert groups[1..][i - 1] == groups[i];
      assert forall j :: 0 <= j < i - 1 ==> groups[1..][j] == groups[j + 1];
      NamedFirst(groups[1..], name, i - 1);
    }
  }

  class Dispatcher {
    const groups: seq<ModelGroup>
    var counters: map<string, Counter>

    /** Every group has a counter of its own; a repeated name shares one. */
    ghost predicate Valid()
      reads this
    {
      && (forall g :: g in groups ==> g.name in counters)
      && (forall a, b :: a in counters && b in counters && a != b ==> counters[a] != counters[b])
    }

    constructor (groups: seq<ModelGroup>)
      ensures Valid() && this.groups == groups
      ensures forall name :: name in counters ==> counters[name].value == 0 && fresh(counters[name])
    {
      this.groups := groups;
      counters := map[];
      new;
      for i := 0 to |groups|
        invariant this.groups == groups
        invariant forall j :: 0 <= j < i ==> groups[j].name in counters
        invariant forall name :: name in counters ==> counters[name].value == 0 && fresh(counters[name])
        invariant forall a, b :: a in counters && b in counters && a != b ==> counters[a] != counters[b]
      {
        var c := new Counter();
        counters := counters[groups[i].name := c];
      }
    }

    method FindGroup(name: string) returns (group: Option<ModelGroup>)
      ensures group == Named(groups, name)
    {
      for i := 0 to |groups|
        invariant Named(groups, name) == Named(groups[i..], name)
      {
        assert groups[i..][1..] == groups[i + 1..];
        if groups[i].name == name {
          return Some(groups[i]);
        }
      }
      return None;
    }

    /**
     * The model of the next selection of the group; without one when the index falls outside the
     * models, which the program answers with a panic.
     */
    method SelectModel(group: ModelGroup) returns (model: Option<string>)
      requires Valid() && group in groups && group.models != []
      modifies counters[group.name]
      ensures Valid() && counters == old(counters)
      ensures counters[group.name].value as int == (old(counters[group.name].value) as int + 1) % TWO_TO_THE_64
      ensures
        var i := Position(old(counters[group.name].value) as int, |group.models|);
        model == if 0 <= i < |group.models| then Some(group.models[i]) else None
    {
      var counter := counters[group.name];
      var next := counter.Add(1);
      WrapsBack(old(counter.value) as int);
      var idx: uint64 := ((next as int - 1) % TWO_TO_THE_64) as uint64;
      var i := Remainder(ToInt(idx), |group.models|);
      model := if 0 <= i < |group.models| then Some(group.models[i]) else None;
    }

    /** What `Dispatch` does up to the choice of the model: an error moves no counter. */
    method Choose(name: string) returns (r: Result<string>)
      requires Valid()
      modifies set c | c in counters :: counters[c]
      ensures Valid() && counters == old(counters)
      ensures forall c :: c in counters && c != name ==> counters[c].value == old(counters[c].value)
      ensures match Named(groups, name)
        case None => r == Err("unknown_group")
        case Some(g) =>
          if g.models == [] then r == Err("no_models_available") && counters[name].value == old(counters[name].value)
          else
            var i := Position(old(counters[name].value) as int, |g.models|);
            && r == (if 0 <= i < |g.models| then Ok(g.models[i]) else Err("index out of range"))
            && counters[name].value as int == (old(counters[name].value) as int + 1) % TWO_TO_THE_64
    {
      var group := FindGroup(name);
      if group.None? {
        return Err("unknown_group");
      }
      if group.value.models == [] {
        return Err("no_models_available");
      }
      var model := SelectModel(group.value);
      if model.None? {
        return Err("index out of range");
      }
      r := Ok(model.value);
    }
  }

  // ---- bound ----

  /**
   * The index is in range exactly for the first 2^63 selections of every 2^64, and beyond them for
   * those the number of models divides.
   */
  lemma InRange(n: nat, k: nat)
    requires k > 0
    ensures 0 <= Position(n, k) < k <==> n % TWO_TO_THE_64 < TWO_TO_THE_63 || (TWO_TO_THE_64 - n % TWO_TO_THE_64) % k == 0
  {
    var x := (n % TWO_TO_THE_64) as uint64;
    if x as int >= TWO_TO_THE_63 {
      assert ToInt(x) == -(TWO_TO_THE_64 - x as int);
    }
  }

  // ---- fairness ----

  /** How many of the first `n` selections chose position `i`. */
  function Chosen(n: nat, k: nat, i: nat): nat
    requires k > 0
  {
    if n == 0 then 0 else Chosen(n - 1, k, i) + if Position(n - 1, k) == i then 1 else 0
  }

  lemma PositionIsModulo(n: nat, k: nat)
    requires k > 0 && n < TWO_TO_THE_63
    ensures Position(n, k) == n % k
  {
    assert n % TWO_TO_THE_64 == n;
  }

  lemma NextQuotient(n: nat, k: nat)
    requires k > 0 && n > 0
    ensures if (n - 1) % k == k - 1 then n / k == (n - 1) / k + 1 && n % k == 0
            else n / k == (n - 1) / k && n % k == (n - 1) % k + 1
  {
    var q, r := (n - 1) / k, (n - 1) % k;
    assert n - 1 == q * k + r;
    if r == k - 1 {
      assert n == (q + 1) * k;
      DivMod(n, k, q + 1, 0);
    } else {
      DivMod(n, k, q, r + 1);
    }
  }

  lemma DivMod(n: nat, k: nat, q: nat, r: nat)
    requires k > 0 && n == q * k + r && r < k
    ensures n / k == q && n % k == r
  {
    var d := n / k - q;
    assert n == (n / k) * k + n % k;
    assert d * k == r - n % k;
    Multiple(d, k);
  }

  lemma Multiple(d: int, k: nat)
    ensures d >= 1 ==> d * k >= k
    ensures d <= -1 ==> d * k <= 0 - k
  {
  }

  /**
   * Fairness: after any `n` selections up to 2^63, position `i` has been chosen once for every full
   * round, and once more if the round under way has reached it.
   */
  lemma {:induction false} Fairness(n: nat, k: nat, i: nat)
    requires k > 0 && i < k && n <= TWO_TO_THE_63
    ensures Chosen(n, k, i) == n / k + if i < n % k then 1 else 0
  {
    if n == 0 {
      DivMod(0, k, 0, 0);
    } else {
      Fairness(n - 1, k, i);
      PositionIsModulo(n - 1, k);
      NextQuotient(n, k);
    }
  }

  // ---- concurrent selections ----

  /**
   * Selections under way: the counter, the values selections have taken from it but not used yet,
   * and the positions chosen so far.
   */
  datatype Selecting = Selecting(counter: nat, taken: seq<nat>, chosen: seq<int>)

  /** A selection advances the counter, atomically; later it turns the value it took into a position. */
  datatype Action = Advance | Pick(i: nat)

  function Next(s: Selecting, k: nat, a: Action): Option<Selecting>
    requires k > 0
  {
    match a
    case Advance => Some(s.(counter := s.counter + 1, taken := s.taken + [s.counter]))
    case Pick(i) =>
      if i < |s.taken| then
        Some(s.(taken := s.taken[..i] + s.taken[i + 1..], chosen := s.chosen + [Position(s.taken[i], k)]))
      else None
  }

  function Run(k: nat, schedule: seq<Action>): Option<Selecting>
    requires k > 0
  {
    if schedule == [] then Some(Selecting(0, [], []))
    else
      match Run(k, schedule[..|schedule| - 1])
      case None => None
      case Some(s) => Next(s, k, schedule[|schedule| - 1])
  }

  function Times(chosen: seq<int>, i: int): nat {
    if chosen == [] then 0 else Times(chosen[..|chosen| - 1], i) + if chosen[|chosen| - 1] == i then 1 else 0
  }

  function Due(taken: seq<nat>, k: nat, i: int): nat
    requires k > 0
  {
    if taken == [] then 0
    else Due(taken[..|taken| - 1], k, i) + if Position(taken[|taken| - 1], k) == i then 1 else 0
  }

  lemma {:induction false} DueConcat(a: seq<nat>, b: seq<nat>, k: nat, i: int)
    requires k > 0
    ensures Due(a + b, k, i) == Due(a, k, i) + Due(b, k, i)
  {
    if b == [] {
      assert a + b == a;
    } else {
      DueConcat(a, b[..|b| - 1], k, i);
      assert (a + b)[..|a + b| - 1] == a + b[..|b| - 1];
    }
  }

  lemma {:induction false} DueWithout(taken: seq<nat>, j: nat, k: nat, i: int)
    requires k > 0 && j < |taken|
    ensures Due(taken, k, i) == Due(taken[..j] + taken[j + 1..], k, i) + if Position(taken[j], k) == i then 1 else 0
  {
    var one := [taken[j]];
    assert taken == (taken[..j] + one) + taken[j + 1..];
    DueConcat(taken[..j] + one, taken[j + 1..], k, i);
    DueConcat(taken[..j], one, k, i);
    DueConcat(taken[..j], taken[j + 1..], k, i);
    assert one[..0] == [];
  }

  /** Chosen and still due together. */
  function Accounted(s: Selecting, k: nat, i: int): nat
    requires k > 0
  {
    Times(s.chosen, i) + Due(s.taken, k, i)
  }

  lemma Advanced(s: Selecting, k: nat, i: nat)
    requires k > 0 && Accounted(s, k, i) == Chosen(s.counter, k, i)
    ensures Accounted(Next(s, k, Advance).value, k, i) == Chosen(s.counter + 1, k, i)
  {
    assert (s.taken + [s.counter])[..|s.taken|] == s.taken;
  }

  lemma Picked(s: Selecting, k: nat, j: nat, i: nat)
    requires k > 0 && j < |s.taken|
    ensures Accounted(Next(s, k, Pick(j)).value, k, i) == Accounted(s, k, i)
  {
    DueWithout(s.taken, j, k, i);
    var chosen := s.chosen + [Position(s.taken[j], k)];
    assert chosen[..|s.chosen|] == s.chosen;
  }

  /** In every interleaving, positions chosen and still due are those of the first selections in turn. */
  lemma {:induction false} ChosenOrDue(k: nat, schedule: seq<Action>, i: nat)
    requires k > 0 && Run(k, schedule).Some?
    ensures var s := Run(k, schedule).value; Times(s.chosen, i) + Due(s.taken, k, i) == Chosen(s.counter, k, i)
  {
    hide Times, Due, Chosen, Position;
    if schedule == [] {
      NothingAccounted(k, i);
    } else {
      var before := Run(k, schedule[..|schedule| - 1]).value;
      ChosenOrDue(k, schedule[..|schedule| - 1], i);
      match schedule[|schedule| - 1]
      case Advance => Advanced(before, k, i);
      case Pick(j) => Picked(before, k, j, i);
    }
  }

  lemma NothingAccounted(k: nat, i: nat)
    requires k > 0
    ensures Times([], i) + Due([], k, i) == Chosen(0, k, i)
  {
  }

  /**
   * Fairness under concurrency: however selections interleave, once all that were started are done
   * each position has been chosen as often as if they had run one after the other.
   */
  lemma FairWhenConcurrent(k: nat, schedule: seq<Action>, i: nat)
    requires k > 0 && i < k && Run(k, schedule).Some?
    requires Run(k, schedule).value.taken == [] && Run(k, schedule).value.counter <= TWO_TO_THE_63
    ensures var s := Run(k, schedule).value; Times(s.chosen, i) == s.counter / k + if i < s.counter % k then 1 else 0
  {
    ChosenOrDue(k, schedule, i);
    Fairness(Run(k, schedule).value.counter, k, i);
  }
}
