/**
 Generation slots (packages/protocols/generation-queue.go): which node may
 generate a block at which second, and why no node stores two blocks in one of
 its slots.
 */
module Slots {

  const SECOND: nat := 1_000_000_000
  const MILLISECOND: nat := 1_000_000

  type Positive = n: int | n > 0 witness 1

  /** The first block's time in seconds, the slot length in nanoseconds and the number of nodes. */
  datatype Counter = Counter(start: int, duration: Positive, nodes: Positive)

  /** The counter that the node builds from its parameters: a generation time in
      milliseconds and a gap in seconds. */
  function NewCounter(start: int, generation: nat, gap: nat, nodes: Positive): Counter
    requires generation + gap > 0
  {
    Counter(start, generation * MILLISECOND + gap * SECOND, nodes)
  }

  datatype Result<T> = Value(v: T) | TimeError | WrongNodePosition

  /** Division of Go integers. */
  function Quotient(a: int, b: Positive): int {
    if a >= 0 then a / b else -((-a) / b)
  }

  /** The remainder of Go, which has the sign of the dividend. */
  function Remainder(a: int, b: Positive): int {
    a - b * Quotient(a, b)
  }

  /** The number of the slot of second `t`. */
  function Queue(c: Counter, t: int): Result<int> {
    if t < c.start then TimeError else Value(Quotient((t - c.start) * SECOND - 1, c.duration))
  }

  /** The first and the last second of the slot of `t`, as the query uses them:
      instants in nanoseconds cut to whole seconds. */
  function RangeByTime(c: Counter, t: int): Result<(int, int)> {
    match Queue(c, t)
    case Value(q) =>
      var from := c.duration * q + SECOND;
      var to := from + (c.duration - SECOND);
      Value((c.start + from / SECOND, c.start + to / SECOND))
    case TimeError => TimeError
    case WrongNodePosition => WrongNodePosition
  }

  function NodePosition(c: Counter, t: int): Result<int> {
    match Queue(c, t)
    case Value(q) => Value(Remainder(q, c.nodes))
    case TimeError => TimeError
    case WrongNodePosition => WrongNodePosition
  }

  function TimeToGenerate(c: Counter, t: int, node: int): Result<bool> {
    if node >= c.nodes then WrongNodePosition
    else
      match NodePosition(c, t)
      case Value(p) => Value(p == node)
      case TimeError => TimeError
      case WrongNodePosition => WrongNodePosition
  }

  // ----- the queried range is the slot -----

  lemma SlotBounds(d: int, q: int, n: int)
    requires d > 0 && n > 0
    ensures (n - 1) / d == q <==> d * q < n <= d * (q + 1)
  {
    var k := (n - 1) / d;
    assert n - 1 == d * k + (n - 1) % d;
    if d * q < n <= d * (q + 1) {
      assert d * q <= n - 1 < d * (q + 1);
      Between(d, k, q, n - 1);
    }
  }

  lemma Between(d: int, k: int, q: int, m: int)
    requires d > 0 && d * k <= m < d * k + d && d * q <= m < d * (q + 1)
    ensures k == q
  {
    Scaled(d, k + 1, q);
    Scaled(d, q + 1, k);
  }

  lemma Scaled(d: int, a: int, b: int)
    requires d > 0
    ensures a <= b ==> d * a <= d * b
  {
  }

  lemma SecondBounds(x: int, s: int)
    ensures s >= (x + SECOND) / SECOND <==> x < s * SECOND
    ensures s <= x / SECOND <==> s * SECOND <= x
  {
  }

  /** Which seconds the query covers, for every slot length: those of the slot of
      `t`, but the second of the first block only if a slot is one nanosecond long. */
  lemma {:induction false} RangeIsSlot(c: Counter, t: int, s: int)
    requires t >= c.start && s >= c.start
    ensures RangeByTime(c, t).Value?
    ensures var (from, to) := RangeByTime(c, t).v;
            from <= s <= to <==> Queue(c, s) == Queue(c, t) && (s > c.start || c.duration == 1)
  {
    hide Queue, RangeByTime;
    RangeBounds(c, t, s);
    InSlot(c, t, s);
  }

  /** The range in nanoseconds. */
  lemma {:induction false} RangeBounds(c: Counter, t: int, s: int)
    requires t >= c.start
    ensures Queue(c, t).Value? && RangeByTime(c, t).Value?
    ensures var (from, to) := RangeByTime(c, t).v;
            var q, n := Queue(c, t).v, (s - c.start) * SECOND;
            from <= s <= to <==> c.duration * q < n <= c.duration * (q + 1)
  {
    var d, n := c.duration, s - c.start;
    var q := Queue(c, t).v;
    hide Queue;
    assert d * q + SECOND + (d - SECOND) == d * (q + 1) == d * q + d;
    SecondBounds(d * q, n);
    SecondBounds(d * (q + 1), n);
  }

  lemma {:induction false} InSlot(c: Counter, t: int, s: int)
    requires t >= c.start && s >= c.start
    ensures Queue(c, t).Value?
    ensures var q, n := Queue(c, t).v, (s - c.start) * SECOND;
            c.duration * q < n <= c.duration * (q + 1) <==> Queue(c, s) == Queue(c, t) && (s > c.start || c.duration == 1)
  {
    var d, n := c.duration, (s - c.start) * SECOND;
    var q := Queue(c, t).v;
    if d > 1 {
      FirstSlot(c);
      assert q >= 0;
      if s > c.start { SlotBounds(d, q, n); } else { Scaled(d, 0, q); }
    }
  }

  /** The second of the first block lies in slot 0. */
  lemma FirstSlot(c: Counter)
    requires c.duration > 1
    ensures Queue(c, c.start) == Value(0)
  {
    assert 1 / c.duration == 0;
  }

  // ----- at most one block of a node in a slot -----

  /** The time and the node of a stored block. */
  datatype Stamp = Stamp(time: int, node: int)

  /** BlockForTimeExists: the query over the stored blocks. */
  method BlockForTimeExists(c: Counter, stored: seq<Stamp>, t: int, node: int) returns (r: Result<bool>)
    ensures r == Exists(c, stored, t, node)
  {
    var range := RangeByTime(c, t);
    if range.TimeError? { return TimeError; }
    if range.WrongNodePosition? { return WrongNodePosition; }
    var (from, to) := range.v;
    for i := 0 to |stored|
      invariant forall j :: 0 <= j < i ==> !Met(c, stored[j], Stamp(t, node))
    {
      if stored[i].node == node && from <= stored[i].time <= to { return Value(true); }
    }
    return Value(false);
  }

  /** The query of the block `t` meets the block `s`. */
  predicate Met(c: Counter, s: Stamp, t: Stamp) {
    var range := RangeByTime(c, t.time);
    range.Value? && s.node == t.node && range.v.0 <= s.time <= range.v.1
  }

  function Exists(c: Counter, stored: seq<Stamp>, t: int, node: int): Result<bool> {
    match RangeByTime(c, t)
    case Value(_) => Value(exists i :: 0 <= i < |stored| && Met(c, stored[i], Stamp(t, node)))
    case TimeError => TimeError
    case WrongNodePosition => WrongNodePosition
  }

  /** The blocks after the check of InsertIntoBlockchain. */
  function Insert(c: Counter, stored: seq<Stamp>, s: Stamp): seq<Stamp> {
    if Exists(c, stored, s.time, s.node) == Value(false) then stored + [s] else stored
  }

  function InsertAll(c: Counter, stored: seq<Stamp>, more: seq<Stamp>): seq<Stamp>
    decreases |more|
  {
    if more == [] then stored else InsertAll(c, Insert(c, stored, more[0]), more[1..])
  }

  predicate SameSlot(c: Counter, s: Stamp, t: Stamp) {
    s.node == t.node && Queue(c, s.time) == Queue(c, t.time)
  }

  /** If the blocks are of one node and in one slot, the earlier one, `s`, has the time of the first block. */
  predicate Apart(c: Counter, s: Stamp, t: Stamp) {
    SameSlot(c, s, t) ==> s.time == c.start && c.duration > 1
  }

  predicate OnePerSlot(c: Counter, stored: seq<Stamp>) {
    forall i, j :: 0 <= i < j < |stored| ==> Apart(c, stored[i], stored[j])
  }

  predicate FromStart(c: Counter, stored: seq<Stamp>) {
    forall i :: 0 <= i < |stored| ==> stored[i].time >= c.start
  }

  lemma {:induction false} FreeApart(c: Counter, s: Stamp, t: Stamp)
    requires s.time >= c.start && t.time >= c.start && !Met(c, s, t)
    ensures Apart(c, s, t)
  {
    hide RangeByTime, Queue;
    RangeIsSlot(c, t.time, s.time);
  }

  lemma {:induction false} InsertKeeps(c: Counter, stored: seq<Stamp>, s: Stamp)
    requires FromStart(c, stored) && OnePerSlot(c, stored)
    ensures FromStart(c, Insert(c, stored, s)) && OnePerSlot(c, Insert(c, stored, s))
  {
    hide Queue;
    if Exists(c, stored, s.time, s.node) == Value(false) {
      EarlyRefused(c, stored, s);
      hide RangeByTime;
      forall i | 0 <= i < |stored| ensures Apart(c, stored[i], s) { FreeApart(c, stored[i], s); }
    }
  }

  /** A time before the first block is an error. */
  lemma EarlyRefused(c: Counter, stored: seq<Stamp>, s: Stamp)
    requires Exists(c, stored, s.time, s.node) == Value(false)
    ensures s.time >= c.start
  {
  }

  /** However many blocks are offered, with whatever times, no node ever has two
      blocks in one slot, unless the earlier one has the time of the first block. */
  lemma {:induction false} NeverTwoInASlot(c: Counter, stored: seq<Stamp>, more: seq<Stamp>)
    requires FromStart(c, stored) && OnePerSlot(c, stored)
    ensures FromStart(c, InsertAll(c, stored, more)) && OnePerSlot(c, InsertAll(c, stored, more))
    decreases |more|
  {
    hide Insert, OnePerSlot, FromStart;
    if more != [] {
      InsertKeeps(c, stored, more[0]);
      NeverTwoInASlot(c, Insert(c, stored, more[0]), more[1..]);
    }
  }

  /** The exception does occur: any number of blocks with the time of the first
      block is stored in slot 0, one after the other. */
  lemma {:induction false} FirstSecondRepeats(c: Counter, node: int, k: nat)
    requires c.duration > 1
    ensures InsertAll(c, [], seq(k, _ => Stamp(c.start, node))) == seq(k, _ => Stamp(c.start, node))
  {
    FirstSecondFrom(c, node, 0, k);
    assert seq(0, _ => Stamp(c.start, node)) == [];
  }

  lemma {:induction false} FirstSecondFrom(c: Counter, node: int, n: nat, k: nat)
    requires c.duration > 1
    ensures InsertAll(c, seq(n, _ => Stamp(c.start, node)), seq(k, _ => Stamp(c.start, node))) ==
            seq(n + k, _ => Stamp(c.start, node))
    decreases k
  {
    hide RangeByTime, Queue;
    var s := Stamp(c.start, node);
    var stored := seq(n, _ => s);
    RangeIsSlot(c, c.start, c.start);
    if k > 0 {
      var more := seq(k, _ => s);
      assert more[1..] == seq(k - 1, _ => s);
      assert stored + [s] == seq(n + 1, _ => s);
      FirstSecondFrom(c, node, n + 1, k - 1);
    } else {
      assert seq(k, _ => s) == [];
    }
  }

  /** At every second after the first block exactly one node may generate. */
  lemma {:induction false} ExactlyOneGenerates(c: Counter, t: int) returns (p: int)
    requires t > c.start
    ensures 0 <= p < c.nodes
    ensures forall n :: 0 <= n < c.nodes ==> TimeToGenerate(c, t, n) == Value(n == p)
  {
    p := ((t - c.start) * SECOND - 1) / c.duration % c.nodes;
    PositiveRemainder(((t - c.start) * SECOND - 1) / c.duration, c.nodes);
  }

  /** Second `t` lies in slot `q`: more than `q` slot lengths and at most `q + 1` behind the first block. */
  predicate Within(c: Counter, q: int, t: int) {
    c.duration * q < (t - c.start) * SECOND <= c.duration * (q + 1)
  }

  /** Round `k` of the node at position `n`. */
  predicate InRound(c: Counter, n: int, k: int, t: int) {
    Within(c, n + k * c.nodes, t)
  }

  lemma {:induction false} SlotNumber(c: Counter, q: int, t: int)
    requires t > c.start
    ensures Queue(c, t) == Value(q) <==> q >= 0 && Within(c, q, t)
  {
    var n := (t - c.start) * SECOND;
    SlotBounds(c.duration, q, n);
    if q < 0 { Scaled(c.duration, q + 1, 0); }
  }

  lemma {:induction false} Positions(q: int, n: int, k: int, nodes: int)
    requires nodes > 0 && 0 <= n < nodes && q == n + k * nodes
    ensures q % nodes == n && q / nodes == k
  {
    var r, d := q % nodes, q / nodes;
    assert q == d * nodes + r;
    if d > k { assert (d - k) * nodes >= nodes by { Scaled(nodes, 1, d - k); } }
    if d < k { assert (k - d) * nodes >= nodes by { Scaled(nodes, 1, k - d); } }
  }

  lemma PositiveRemainder(q: int, nodes: Positive)
    requires q >= 0
    ensures Remainder(q, nodes) == q % nodes
  {
  }

  /** At the second of the first block it is the first node, unless a slot is one nanosecond long. */
  lemma {:induction false} FirstTurn(c: Counter, n: int)
    requires 0 <= n < c.nodes
    ensures TimeToGenerate(c, c.start, n) == Value(n == 0 && (c.duration > 1 || c.nodes == 1))
  {
    if c.duration > 1 {
      FirstSlot(c);
    } else {
      assert (0 - 1) / 1 == -1;
      if c.nodes > 1 { assert 1 / c.nodes == 0; }
    }
  }

  lemma {:induction false} RoundSlot(c: Counter, n: int, k: int, t: int)
    requires t > c.start && 0 <= n < c.nodes && k >= 0 && InRound(c, n, k, t)
    ensures Queue(c, t).Value? && Queue(c, t).v >= 0 && Queue(c, t).v % c.nodes == n
  {
    var q := n + k * c.nodes;
    assert k * c.nodes >= 0 by { Scaled(c.nodes, 0, k); }
    SlotNumber(c, q, t);
    Positions(q, n, k, c.nodes);
  }

  lemma {:induction false} SlotRound(c: Counter, n: int, q: int, t: int)
    requires t > c.start && Queue(c, t) == Value(q) && q % c.nodes == n
    ensures q >= 0 && InRound(c, n, q / c.nodes, t) && q / c.nodes >= 0
  {
    hide Queue;
    SlotNumber(c, q, t);
    assert q == n + (q / c.nodes) * c.nodes;
  }

  /** Which node may generate: the one whose position comes round in the slot of `t`. */
  lemma {:induction false} TurnIff(c: Counter, t: int, n: int)
    requires t > c.start && 0 <= n < c.nodes
    ensures TimeToGenerate(c, t, n) == Value(true) <==> exists k :: k >= 0 && InRound(c, n, k, t)
    ensures TimeToGenerate(c, t, n) == Value(true) || TimeToGenerate(c, t, n) == Value(false)
  {
    hide Queue, InRound, Remainder;
    AfterStart(c, t);
    var q := Queue(c, t).v;
    SlotNumber(c, q, t);
    PositiveRemainder(q, c.nodes);
    if q % c.nodes == n { SlotRound(c, n, q, t); }
    forall k | k >= 0 && InRound(c, n, k, t) ensures q % c.nodes == n { RoundSlot(c, n, k, t); }
  }

  lemma AfterStart(c: Counter, t: int)
    requires t >= c.start
    ensures Queue(c, t).Value?
  {
  }

  /** Consecutive slots belong to consecutive nodes, and the first one follows the last. */
  lemma {:induction false} NextNode(c: Counter, q: int, t: int, t': int, n: int)
    requires q >= 0 && t > c.start && t' > c.start && Within(c, q, t) && Within(c, q + 1, t')
    requires 0 <= n < c.nodes
    ensures TimeToGenerate(c, t, n) == TimeToGenerate(c, t', if n + 1 == c.nodes then 0 else n + 1)
  {
    SlotNumber(c, q, t);
    SlotNumber(c, q + 1, t');
    PositiveRemainder(q, c.nodes);
    PositiveRemainder(q + 1, c.nodes);
    var k, r := q / c.nodes, q % c.nodes;
    assert q == r + k * c.nodes;
    if r + 1 == c.nodes {
      assert q + 1 == 0 + (k + 1) * c.nodes;
      Positions(q + 1, 0, k + 1, c.nodes);
    } else {
      Positions(q + 1, r + 1, k, c.nodes);
    }
  }

  /** Of as many consecutive slots as there are nodes, every node has one, and only one. */
  lemma {:induction false} EveryNodeInTurn(c: Counter, q: int, n: int) returns (own: int)
    requires q >= 0 && 0 <= n < c.nodes
    ensures q <= own < q + c.nodes
    ensures forall s, t :: q <= s < q + c.nodes && t > c.start && Within(c, s, t) ==> TimeToGenerate(c, t, n) == Value(s == own)
  {
    var k, r := q / c.nodes, q % c.nodes;
    assert q == r + k * c.nodes;
    own := if n >= r then n + k * c.nodes else n + (k + 1) * c.nodes;
    assert (k + 1) * c.nodes == k * c.nodes + c.nodes;
    forall s, t | q <= s < q + c.nodes && t > c.start && Within(c, s, t) ensures TimeToGenerate(c, t, n) == Value(s == own) {
      SlotNumber(c, s, t);
      PositiveRemainder(s, c.nodes);
      var x := s - k * c.nodes;
      if x < c.nodes { Positions(s, x, k, c.nodes); } else { Positions(s, x - c.nodes, k + 1, c.nodes); }
    }
  }

  /** In a slot of its own a node that has no block there yet may store one, and
      then a second one only if the first has the time of the first block. */
  lemma {:induction false} SecondBlockRefused(c: Counter, stored: seq<Stamp>, s: Stamp, s': Stamp)
    requires s.time >= c.start && s'.time >= c.start
    requires SameSlot(c, s, s')
    requires Exists(c, stored, s.time, s.node) == Value(false)
    ensures Insert(c, Insert(c, stored, s), s') ==
            if s.time == c.start && c.duration > 1 then stored + [s, s'] else stored + [s]
  {
    SameRange(c, s.time, s'.time);
    hide RangeByTime, Queue;
    var more := stored + [s];
    RangeIsSlot(c, s'.time, s.time);
    assert more[|stored|] == s;
    assert forall i :: 0 <= i < |stored| ==> more[i] == stored[i];
    assert stored + [s] + [s'] == stored + [s, s'];
  }

  lemma SameRange(c: Counter, t: int, t': int)
    requires Queue(c, t) == Queue(c, t')
    ensures RangeByTime(c, t) == RangeByTime(c, t')
  {
  }
}
