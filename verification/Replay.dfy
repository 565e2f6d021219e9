/** How a subscribe replay is cut to its budget (src/gateway-service.js:5440-5473). */
module Replay {
  import opened Wrappers

  /** An event and the bytes of its serialized form. */
  datatype Event = Event(sequence: nat, bytes: nat)

  // With the separator that the array adds.
  function Cost(e: Event): nat { e.bytes + 1 }

  // What the newest n of a lane's candidates cost.
  function Newest(candidates: seq<Event>, n: nat): nat
    requires n <= |candidates|
  {
    if n == 0 then 0 else Newest(candidates, n - 1) + Cost(candidates[|candidates| - n])
  }

  // Lanes and how many each keeps.
  predicate Fits(lanes: seq<seq<Event>>, kept: seq<nat>) {
    |kept| == |lanes| && forall i | 0 <= i < |lanes| :: kept[i] <= |lanes[i]|
  }

  function Total(lanes: seq<seq<Event>>, kept: seq<nat>): nat
    requires Fits(lanes, kept)
  {
    if lanes == [] then 0
    else Total(lanes[..|lanes| - 1], kept[..|kept| - 1]) + Newest(lanes[|lanes| - 1], kept[|kept| - 1])
  }

  // The serialized bytes of the newest n of a lane's candidates.
  ghost function Bytes(candidates: seq<Event>, n: nat): nat
    requires n <= |candidates|
  {
    if n == 0 then 0 else Bytes(candidates, n - 1) + candidates[|candidates| - n].bytes
  }

  /** The cost is the events' own bytes and one separator each. */
  lemma {:induction false} NewestCosts(candidates: seq<Event>, n: nat)
    requires n <= |candidates|
    ensures Newest(candidates, n) == Bytes(candidates, n) + n
  {
    if n > 0 { NewestCosts(candidates, n - 1); }
  }

  // How many each lane had kept when lane i, in its round of that number, was up.
  function Before(kept: seq<nat>, i: nat, round: nat): (r: seq<nat>)
    ensures |r| == |kept|
  {
    seq(|kept|, j requires 0 <= j < |kept| => Min(kept[j], if j < i then round + 1 else round))
  }

  /** Whether lane i was stopped rightly: its next older event did not fit in what
      was left when, round by round, its turn came. */
  ghost predicate RightlyCut(lanes: seq<seq<Event>>, kept: seq<nat>, budget: nat, i: nat)
    requires Fits(lanes, kept) && i < |lanes| && kept[i] < |lanes[i]|
  {
    Total(lanes, Before(kept, i, kept[i])) + Cost(lanes[i][|lanes[i]| - kept[i] - 1]) > budget
  }

  /** What a replay keeps: within the budget, and every lane that was cut, cut in
      its turn. */
  ghost predicate RoundRobin(lanes: seq<seq<Event>>, kept: seq<nat>, budget: nat) {
    && Fits(lanes, kept) && Total(lanes, kept) <= budget
    && forall i | 0 <= i < |lanes| && kept[i] < |lanes[i]| :: RightlyCut(lanes, kept, budget, i)
  }

  lemma {:induction false} TotalStep(lanes: seq<seq<Event>>, kept: seq<nat>, i: nat)
    requires Fits(lanes, kept) && i < |lanes| && kept[i] < |lanes[i]|
    ensures Fits(lanes, kept[i := kept[i] + 1])
    ensures Total(lanes, kept[i := kept[i] + 1]) == Total(lanes, kept) + Cost(lanes[i][|lanes[i]| - kept[i] - 1])
    decreases |lanes|
  {
    var n := |lanes| - 1;
    var more := kept[i := kept[i] + 1];
    if i < n {
      TotalStep(lanes[..n], kept[..n], i);
      assert more[..n] == kept[..n][i := kept[i] + 1];
    } else {
      assert more[..n] == kept[..n];
    }
  }

  lemma {:induction false} NewestGrows(candidates: seq<Event>, a: nat, b: nat)
    requires a <= b <= |candidates|
    ensures Newest(candidates, a) <= Newest(candidates, b)
  {
    if a < b { NewestGrows(candidates, a, b - 1); }
  }

  lemma {:induction false} TotalGrows(lanes: seq<seq<Event>>, a: seq<nat>, b: seq<nat>)
    requires Fits(lanes, a) && Fits(lanes, b) && forall i | 0 <= i < |a| :: a[i] <= b[i]
    ensures Total(lanes, a) <= Total(lanes, b)
    decreases |lanes|
  {
    if lanes != [] {
      var n := |lanes| - 1;
      TotalGrows(lanes[..n], a[..n], b[..n]);
      NewestGrows(lanes[n], a[n], b[n]);
    }
  }

  /** A replay is locally maximal: no cut lane's next older event fits what is left. */
  lemma LocallyMaximal(lanes: seq<seq<Event>>, kept: seq<nat>, budget: nat, i: nat)
    requires RoundRobin(lanes, kept, budget) && i < |lanes| && kept[i] < |lanes[i]|
    ensures Total(lanes, kept) + Cost(lanes[i][|lanes[i]| - kept[i] - 1]) > budget
  {
    TotalGrows(lanes, Before(kept, i, kept[i]), kept);
  }

  /** And the result is the only one: no other choice is cut in turn. */
  lemma RoundRobinIsUnique(lanes: seq<seq<Event>>, a: seq<nat>, b: seq<nat>, budget: nat)
    requires RoundRobin(lanes, a, budget) && RoundRobin(lanes, b, budget)
    ensures a == b
  {
    if a != b {
      var i := FirstDifference(a, b);
      if a[i] < b[i] { DifferenceFits(lanes, a, b, budget, i); } else { DifferenceFits(lanes, b, a, budget, i); }
    }
  }

  // The lane at which two results part first: in the least round, and there at
  // the least index.
  lemma FirstDifference(a: seq<nat>, b: seq<nat>) returns (i: nat)
    requires |a| == |b| && a != b
    ensures i < |a| && a[i] != b[i]
    ensures forall j | 0 <= j < |a| && a[j] != b[j] :: Min(a[i], b[i]) <= Min(a[j], b[j])
    ensures forall j | 0 <= j < i && a[j] != b[j] :: Min(a[i], b[i]) < Min(a[j], b[j])
  {
    i :| 0 <= i < |a| && a[i] != b[i];
    var k := 0;
    var best := i;
    // The least, from the left.
    while k < |a|
      invariant 0 <= k <= |a| && best < |a| && a[best] != b[best]
      invariant best < k || best == i
      invariant forall j | 0 <= j < k && a[j] != b[j] :: Min(a[best], b[best]) <= Min(a[j], b[j])
      invariant forall j | 0 <= j < k && j < best && a[j] != b[j] :: Min(a[best], b[best]) < Min(a[j], b[j])
    {
      if a[k] != b[k] && (Min(a[k], b[k]) < Min(a[best], b[best])
        || (Min(a[k], b[k]) == Min(a[best], b[best]) && k < best)) {
        best := k;
      }
      k := k + 1;
    }
    i := best;
  }

  lemma BeforeIsLess(a: seq<nat>, b: seq<nat>, i: nat)
    requires |a| == |b| && i < |a| && a[i] < b[i]
    requires forall j | 0 <= j < |a| && a[j] != b[j] :: a[i] <= Min(a[j], b[j])
    requires forall j | 0 <= j < i && a[j] != b[j] :: a[i] < Min(a[j], b[j])
    ensures Before(a, i, a[i])[i] == a[i]
    ensures forall j | 0 <= j < |a| :: Before(a, i, a[i])[j] <= a[j] && Before(a, i, a[i])[j] <= b[j]
  {}

  // Up to that point both had kept the same, so what one took the other could.
  lemma DifferenceFits(lanes: seq<seq<Event>>, a: seq<nat>, b: seq<nat>, budget: nat, i: nat)
    requires Fits(lanes, a) && Fits(lanes, b) && Total(lanes, b) <= budget && i < |a| && a[i] < b[i]
    requires forall j | 0 <= j < |a| && a[j] != b[j] :: a[i] <= Min(a[j], b[j])
    requires forall j | 0 <= j < i && a[j] != b[j] :: a[i] < Min(a[j], b[j])
    ensures !RightlyCut(lanes, a, budget, i)
  {
    hide Total, Cost;
    var before := Before(a, i, a[i]);
    BeforeIsLess(a, b, i);
    TotalStep(lanes, before, i);
    TotalGrows(lanes, before[i := a[i] + 1], b);
  }

  // ----- The loop -----

  /** A subscription's session: its candidates, oldest first, where what it keeps
      starts, and what it keeps. */
  class Lane {
    const candidates: seq<Event>
    var from: nat
    var kept: seq<Event>

    constructor (candidates: seq<Event>)
      ensures this.candidates == candidates
    {
      this.candidates, from, kept := candidates, 0, [];
    }
  }

  function CandidatesOf(lanes: seq<Lane>): (all: seq<seq<Event>>)
    ensures |all| == |lanes|
  {
    seq(|lanes|, i requires 0 <= i < |lanes| => lanes[i].candidates)
  }

  function Reversed(s: seq<Event>): (r: seq<Event>)
    ensures |r| == |s|
  {
    if s == [] then [] else Reversed(s[1..]) + [s[0]]
  }

  lemma {:induction false} ReversedGrows(s: seq<Event>, e: Event)
    ensures Reversed([e] + s) == Reversed(s) + [e]
  {
    assert ([e] + s)[1..] == s;
  }

  lemma {:induction false} ReversedMore(s: seq<Event>, e: Event)
    ensures Reversed(s + [e]) == [e] + Reversed(s)
  {
    if s != [] {
      ReversedMore(s[1..], e);
      assert (s + [e])[1..] == s[1..] + [e];
    }
  }

  lemma {:induction false} ReversedTwice(s: seq<Event>)
    ensures Reversed(Reversed(s)) == s
  {
    if s != [] {
      ReversedTwice(s[1..]);
      ReversedMore(Reversed(s[1..]), s[0]);
    }
  }

  // The lanes as they stand in the loop: each holds its newest, newest first.
  ghost predicate Standing(lanes: seq<Lane>, kept: seq<nat>)
    reads lanes
  {
    && |kept| == |lanes|
    && forall i | 0 <= i < |lanes| ::
         && kept[i] <= |lanes[i].candidates| && lanes[i].from == |lanes[i].candidates| - kept[i]
         && lanes[i].kept == Reversed(lanes[i].candidates[lanes[i].from..])
  }

  predicate AllDistinct(lanes: seq<Lane>) { forall i, j | 0 <= i < j < |lanes| :: lanes[i] != lanes[j] }

  predicate Rising(open: seq<nat>, n: nat) {
    (forall k | 0 <= k < |open| :: open[k] < n) && forall k, l | 0 <= k < l < |open| :: open[k] < open[l]
  }

  method Keep(lane: Lane)
    requires 0 < lane.from <= |lane.candidates| && lane.kept == Reversed(lane.candidates[lane.from..])
    modifies lane
    ensures lane.from == old(lane.from) - 1 && lane.kept == Reversed(lane.candidates[lane.from..])
  {
    assert lane.candidates[lane.from - 1..] == [lane.candidates[lane.from - 1]] + lane.candidates[lane.from..];
    ReversedGrows(lane.candidates[lane.from..], lane.candidates[lane.from - 1]);
    lane.kept := lane.kept + [lane.candidates[lane.from - 1]];
    lane.from := lane.from - 1;
  }

  // A cut lane stays rightly cut while others keep more in later turns.
  lemma CutStays(all: seq<seq<Event>>, kept: seq<nat>, budget: nat, i: nat, k: nat)
    requires Fits(all, kept) && i < |all| && k < |all| && i != k && kept[k] < |all[k]| && kept[i] < |all[i]|
    requires RightlyCut(all, kept, budget, i) && kept[k] >= kept[i] + (if k < i then 1 else 0)
    ensures RightlyCut(all, kept[k := kept[k] + 1], budget, i)
  {
    assert Before(kept[k := kept[k] + 1], i, kept[i]) == Before(kept, i, kept[i]);
  }

  /** The lanes in the middle of a round: those in todo are still to come, those in
      next have kept one more and have more, and the rest are cut or have nothing
      older. */
  ghost predicate InRound(all: seq<seq<Event>>, kept: seq<nat>, budget: nat, done: set<nat>, todo: set<nat>,
      next: set<nat>, round: nat) {
    && Fits(all, kept) && Total(all, kept) <= budget
    && (forall i | i in todo :: i < |all| && kept[i] == round && kept[i] < |all[i]|)
    && (forall i | i in next :: i < |all| && i in done && kept[i] == round + 1 && kept[i] < |all[i]|)
    && (forall i | 0 <= i < |all| :: kept[i] <= if i in done then round + 1 else round)
    && (forall i | 0 <= i < |all| && kept[i] < |all[i]| ::
          i in todo || i in next || CutBy(all, kept, budget, i, round, i in done))
    && (forall d, t | d in done && t in todo :: d < t)
  }

  // Rightly cut, in this round or an earlier one.
  ghost predicate CutBy(all: seq<seq<Event>>, kept: seq<nat>, budget: nat, i: nat, round: nat, now: bool)
    requires Fits(all, kept) && i < |all| && kept[i] < |all[i]|
  {
    RightlyCut(all, kept, budget, i) && (kept[i] < round || (kept[i] == round && now))
  }

  // A lane that does not fit any more.
  lemma CutInTurn(all: seq<seq<Event>>, kept: seq<nat>, budget: nat, done: set<nat>, todo: set<nat>, next: set<nat>,
      round: nat, k: nat)
    requires InRound(all, kept, budget, done, todo, next, round) && k in todo && forall t | t in todo :: k <= t
    requires Total(all, kept) + Cost(all[k][|all[k]| - kept[k] - 1]) > budget
    ensures InRound(all, kept, budget, done + {k}, todo - {k}, next, round)
  {
    hide Total, RightlyCut;
    assert k !in done;
    CutNow(all, kept, budget, round, k);
  }

  lemma CutNow(all: seq<seq<Event>>, kept: seq<nat>, budget: nat, round: nat, k: nat)
    requires Fits(all, kept) && k < |all| && kept[k] == round && round < |all[k]|
    requires forall j | 0 <= j < |all| :: kept[j] <= if j < k then round + 1 else round
    requires Total(all, kept) + Cost(all[k][|all[k]| - kept[k] - 1]) > budget
    ensures RightlyCut(all, kept, budget, k)
  {
    assert Before(kept, k, round) == kept;
  }

  // A lane that keeps one more.
  lemma KeepInTurn(all: seq<seq<Event>>, kept: seq<nat>, budget: nat, done: set<nat>, todo: set<nat>, next: set<nat>,
      round: nat, k: nat)
    requires InRound(all, kept, budget, done, todo, next, round) && k in todo && forall t | t in todo :: k <= t
    requires Total(all, kept) + Cost(all[k][|all[k]| - kept[k] - 1]) <= budget
    ensures InRound(all, kept[k := kept[k] + 1], budget, done + {k}, todo - {k},
                    if kept[k] + 1 < |all[k]| then next + {k} else next, round)
  {
    hide Total, RightlyCut;
    var more := kept[k := kept[k] + 1];
    TotalStep(all, kept, k);
    assert k !in done && k !in next;
    forall i | 0 <= i < |all| && i != k && i !in todo && i !in next && kept[i] < |all[i]|
      ensures CutBy(all, more, budget, i, round, i in done)
    {
      CutStays(all, kept, budget, i, k);
    }
  }

  lemma RoundEnds(all: seq<seq<Event>>, kept: seq<nat>, budget: nat, done: set<nat>, next: set<nat>, round: nat)
    requires InRound(all, kept, budget, done, {}, next, round)
    ensures InRound(all, kept, budget, {}, next, {}, round + 1)
    ensures next == {} ==> RoundRobin(all, kept, budget)
  {
    hide Total, Before;
  }

  function Elements(s: seq<nat>): set<nat> { set i | i in s }

  lemma Turns(open: seq<nat>, n: nat, p: nat)
    requires Rising(open, n) && p < |open|
    ensures open[p] in Elements(open[p..]) && forall t | t in Elements(open[p..]) :: open[p] <= t
    ensures Elements(open[..p + 1]) == Elements(open[..p]) + {open[p]}
    ensures Elements(open[p + 1..]) == Elements(open[p..]) - {open[p]}
  {
    assert open[..p + 1] == open[..p] + [open[p]] && open[p..] == [open[p]] + open[p + 1..];
  }

  // The longest lane bounds the rounds.
  function Longest(all: seq<seq<Event>>): (n: nat)
    ensures forall i | 0 <= i < |all| :: |all[i]| <= n
  {
    if all == [] then 0
    else
      var rest := Longest(all[..|all| - 1]);
      if |all[|all| - 1]| > rest then |all[|all| - 1]| else rest
  }

  // One lane's turn.
  method Turn(lanes: seq<Lane>, i: nat, left: nat, ghost kept: seq<nat>) returns (fits: bool, more: bool, bytes: nat)
    requires AllDistinct(lanes) && Standing(lanes, kept) && i < |lanes| && kept[i] < |lanes[i].candidates|
    modifies lanes[i]
    ensures bytes == Cost(lanes[i].candidates[|lanes[i].candidates| - kept[i] - 1]) && fits == (bytes <= left)
    ensures Standing(lanes, if fits then kept[i := kept[i] + 1] else kept)
    ensures more == (fits && kept[i] + 1 < |lanes[i].candidates|)
  {
    hide Reversed;
    var lane := lanes[i];
    bytes := Cost(lane.candidates[lane.from - 1]);
    if bytes > left { return false, false, bytes; }
    Keep(lane);
    fits, more := true, lane.from > 0;
  }

  // One round: each open lane in turn, as long as its next older event fits.
  method Round(lanes: seq<Lane>, open: seq<nat>, budget: nat, remaining: nat, ghost before: seq<nat>, ghost round: nat)
    returns (next: seq<nat>, left: nat, ghost kept: seq<nat>)
    requires AllDistinct(lanes) && Standing(lanes, before) && Rising(open, |lanes|)
    requires InRound(CandidatesOf(lanes), before, budget, {}, Elements(open), {}, round)
    requires remaining + Total(CandidatesOf(lanes), before) == budget
    modifies lanes
    ensures Standing(lanes, kept) && Rising(next, |lanes|)
    ensures InRound(CandidatesOf(lanes), kept, budget, Elements(open), {}, Elements(next), round)
    ensures left + Total(CandidatesOf(lanes), kept) == budget
  {
    hide InRound, Total, Standing, Elements;
    next, left, kept := [], remaining, before;
    ghost var all := CandidatesOf(lanes);
    var p := 0;
    NoElements(open);
    InRoundFits(all, before, budget, {}, Elements(open), {}, round);
    while p < |open|
      invariant p <= |open| && Standing(lanes, kept) && Rising(next, if p < |open| then open[p] else |lanes|)
      invariant InRound(all, kept, budget, Elements(open[..p]), Elements(open[p..]), Elements(next), round)
      invariant Fits(all, kept) && left + Total(all, kept) == budget
    {
      var i := open[p];
      Turns(open, |lanes|, p);
      InRoundFits(all, kept, budget, Elements(open[..p]), Elements(open[p..]), Elements(next), round);
      var fits, more, bytes := Turn(lanes, i, left, kept);
      if !fits {
        CutInTurn(all, kept, budget, Elements(open[..p]), Elements(open[p..]), Elements(next), round, i);
      } else {
        KeepInTurn(all, kept, budget, Elements(open[..p]), Elements(open[p..]), Elements(next), round, i);
        TotalStep(all, kept, i);
        OneElement(next, i);
        left := left - bytes;
        kept := kept[i := kept[i] + 1];
        if more { next := next + [i]; }
      }
      p := p + 1;
    }
    NoElements(open);
  }

  lemma NoElements(open: seq<nat>)
    ensures open[0..] == open && Elements(open[..0]) == {} && Elements([]) == {}
    ensures open[..|open|] == open && Elements(open[|open|..]) == {}
  {
  }

  lemma OneElement(s: seq<nat>, i: nat)
    ensures Elements(s + [i]) == Elements(s) + {i}
  {
  }

  lemma InRoundFits(all: seq<seq<Event>>, kept: seq<nat>, budget: nat, done: set<nat>, todo: set<nat>,
      next: set<nat>, round: nat)
    requires InRound(all, kept, budget, done, todo, next, round)
    ensures Fits(all, kept) && forall i | i in todo :: i < |all| && kept[i] < |all[i]| && round < |all[i]|
  {
  }

  // Every lane starts with nothing kept.
  method Empty(lanes: seq<Lane>) returns (open: seq<nat>, ghost kept: seq<nat>)
    requires AllDistinct(lanes)
    modifies lanes
    ensures kept == seq(|lanes|, _ => 0) && Standing(lanes, kept) && Rising(open, |lanes|)
    ensures forall j | 0 <= j < |lanes| :: j in open <==> |lanes[j].candidates| > 0
  {
    open, kept := [], seq(|lanes|, _ => 0);
    for i := 0 to |lanes|
      invariant forall j | 0 <= j < i :: lanes[j].from == |lanes[j].candidates| && lanes[j].kept == []
      invariant Rising(open, i) && forall j | 0 <= j < i :: j in open <==> |lanes[j].candidates| > 0
    {
      lanes[i].from := |lanes[i].candidates|;
      lanes[i].kept := [];
      if lanes[i].from > 0 { open := open + [i]; }
    }
    assert forall i | 0 <= i < |lanes| :: lanes[i].candidates[|lanes[i].candidates|..] == [];
  }

  /** Each lane is left with the newest of its candidates, in order, as round robin
      over the lanes shares out the budget. */
  method BoundReplay(lanes: seq<Lane>, budget: nat) returns (ghost kept: seq<nat>)
    requires AllDistinct(lanes)
    modifies lanes
    ensures RoundRobin(CandidatesOf(lanes), kept, budget)
    ensures forall i | 0 <= i < |lanes| ::
              lanes[i].from == |lanes[i].candidates| - kept[i] && lanes[i].kept == lanes[i].candidates[lanes[i].from..]
  {
    hide InRound, Total, RoundRobin, Standing, Elements;
    var remaining: nat := budget;
    ghost var all := CandidatesOf(lanes);
    var open: seq<nat>;
    open, kept := Empty(lanes);
    NothingKept(all, budget, open);
    ghost var round := 0;
    while |open| > 0
      invariant Standing(lanes, kept) && Fits(all, kept) && Rising(open, |lanes|)
      invariant InRound(all, kept, budget, {}, Elements(open), {}, round)
      invariant remaining + Total(all, kept) == budget
      invariant open == [] ==> RoundRobin(all, kept, budget)
      decreases Longest(all) + 1 - round
    {
      InRoundFits(all, kept, budget, {}, Elements(open), {}, round);
      FirstElement(open);
      ghost var was := open;
      open, remaining, kept := Round(lanes, open, budget, remaining, kept, round);
      InRoundFits(all, kept, budget, Elements(was), {}, Elements(open), round);
      RoundEnds(all, kept, budget, Elements(was), Elements(open), round);
      NoElements(open);
      round := round + 1;
    }
    ReverseAll(lanes, kept);
  }

  lemma FirstElement(s: seq<nat>)
    requires s != []
    ensures s[0] in Elements(s)
  {
  }

  lemma NothingKept(all: seq<seq<Event>>, budget: nat, open: seq<nat>)
    requires Rising(open, |all|) && forall j | 0 <= j < |all| :: j in open <==> |all[j]| > 0
    ensures var none := seq(|all|, _ => 0);
            && Fits(all, none) && Total(all, none) == 0 && InRound(all, none, budget, {}, Elements(open), {}, 0)
            && (open == [] ==> RoundRobin(all, none, budget))
  {
    NoTotal(all);
  }

  lemma {:induction false} NoTotal(all: seq<seq<Event>>)
    ensures Total(all, seq(|all|, _ => 0)) == 0
    decreases |all|
  {
    if all != [] {
      NoTotal(all[..|all| - 1]);
      assert seq(|all|, _ => 0)[..|all| - 1] == seq(|all| - 1, _ => 0);
    }
  }

  // What a lane keeps leaves oldest first.
  method ReverseAll(lanes: seq<Lane>, ghost kept: seq<nat>)
    requires AllDistinct(lanes) && Standing(lanes, kept)
    modifies lanes
    ensures forall i | 0 <= i < |lanes| ::
              lanes[i].from == |lanes[i].candidates| - kept[i] && lanes[i].kept == lanes[i].candidates[lanes[i].from..]
  {
    hide Reversed;
    for i := 0 to |lanes|
      invariant forall j | 0 <= j < |lanes| :: lanes[j].from == |lanes[j].candidates| - kept[j]
      invariant forall j | 0 <= j < i :: lanes[j].kept == lanes[j].candidates[lanes[j].from..]
      invariant forall j | i <= j < |lanes| :: lanes[j].kept == Reversed(lanes[j].candidates[lanes[j].from..])
    {
      ReversedTwice(lanes[i].candidates[lanes[i].from..]);
      lanes[i].kept := Reversed(lanes[i].kept);
    }
  }
}
