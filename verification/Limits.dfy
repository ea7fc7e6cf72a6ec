/**
 Block limits (packages/block/limits.go): six counters that run before a block
 is generated, while it is generated and when a received block is parsed, and
 the relation between the three modes.
 */
module Limits {

  datatype Mode = Preprocess | Generate | Parse

  /** System parameters; `ecosystems` holds the ecosystems with their own limit per user. */
  datatype Params = Params(maxTx: int, maxUserTx: int, maxBlockSize: int, maxTxSize: int,
                           maxBlockFuel: int, maxTxFuel: int, ecosystems: map<int, int>)

  /** A transaction as the limits see it; `smart` is false for the transaction of the first block. */
  datatype Tx = Tx(key: int, ecosystem: int, size: nat, smart: bool)

  /** The outcome of executing a transaction. */
  datatype Run = Run(runs: bool, fuel: nat)

  datatype Verdict = Pass | Reject | Skip | Stop

  datatype EcoCount = EcoCount(limit: int, users: map<int, int>)

  datatype Counters = Counters(size: int, users: map<int, int>, count: int, ecosystems: map<int, EcoCount>, fuel: int)

  const Zero := Counters(0, map[], 0, map[], 0)

  function EcoLimit(p: Params, e: int): int {
    if e in p.ecosystems then p.ecosystems[e] else p.maxUserTx
  }

  // ----- the limiters: new counters and the verdict -----

  function CheckSize(m: Mode, p: Params, c: Counters, t: Tx): (Counters, Verdict) {
    if t.size > p.maxTxSize then (c, Reject)
    else
      var c' := c.(size := c.size + t.size);
      if c'.size <= p.maxBlockSize then (c', Pass)
      else (c', if m == Preprocess then Stop else Reject)
  }

  /** The first transaction of a user is never refused. */
  function CheckUser(m: Mode, p: Params, c: Counters, t: Tx): (Counters, Verdict) {
    if t.key in c.users && c.users[t.key] + 1 > p.maxUserTx then
      (c, if m == Preprocess then Skip else Reject)
    else
      (c.(users := c.users[t.key := (if t.key in c.users then c.users[t.key] else 0) + 1]), Pass)
  }

  function CheckCount(m: Mode, p: Params, c: Counters, t: Tx): (Counters, Verdict) {
    var c' := c.(count := c.count + 1);
    if c'.count <= p.maxTx then (c', Pass)
    else (c', if m == Preprocess then Stop else Reject)
  }

  function CheckEcosystem(m: Mode, p: Params, c: Counters, t: Tx): (Counters, Verdict) {
    if t.ecosystem !in c.ecosystems then
      (c.(ecosystems := c.ecosystems[t.ecosystem := EcoCount(EcoLimit(p, t.ecosystem), map[t.key := 1])]), Pass)
    else
      var e := c.ecosystems[t.ecosystem];
      if t.key !in e.users then
        (c.(ecosystems := c.ecosystems[t.ecosystem := e.(users := e.users[t.key := 1])]), Pass)
      else if e.users[t.key] + 1 > e.limit then
        (c, if m == Preprocess then Skip else Reject)
      else
        (c.(ecosystems := c.ecosystems[t.ecosystem := e.(users := e.users[t.key := e.users[t.key] + 1])]), Pass)
  }

  function CheckFuel(m: Mode, p: Params, c: Counters, used: nat): (Counters, Verdict) {
    if used > p.maxTxFuel then (c, Reject)
    else
      var c' := c.(fuel := c.fuel + used);
      if c'.fuel <= p.maxBlockFuel then (c', Pass)
      else (c', if m == Generate then Stop else Reject)
  }

  /** The limiters of size, user, count and ecosystem in the order in which they run. */
  function CheckShape(m: Mode, p: Params, c: Counters, t: Tx): (Counters, Verdict) {
    var (c1, v1) := CheckSize(m, p, c, t);
    if v1 != Pass then (c1, v1) else
    var (c2, v2) := CheckUser(m, p, c1, t);
    if v2 != Pass then (c2, v2) else
    var (c3, v3) := CheckCount(m, p, c2, t);
    if v3 != Pass then (c3, v3) else
    CheckEcosystem(m, p, c3, t)
  }

  /** CheckLimit: the limiters of the mode, up to the first that objects. `used` is
      the fuel that the transaction took, `late` says that the time for generating
      a block is over. */
  function Check(m: Mode, p: Params, c: Counters, t: Tx, used: nat, late: bool): (Counters, Verdict) {
    match m
    case Preprocess => CheckShape(m, p, c, t)
    case Generate => if late then (c, Stop) else CheckFuel(m, p, c, used)
    case Parse =>
      var (c1, v1) := CheckShape(m, p, c, t);
      if v1 != Pass then (c1, v1) else CheckFuel(m, p, c1, used)
  }

  /** The limits of one block: the counters live in the object. */
  class Limiter {
    const mode: Mode
    const params: Params
    var size: int
    var users: map<int, int>
    var count: int
    var ecosystems: map<int, EcoCount>
    var fuel: int

    function Counted(): Counters
      reads this
    {
      Counters(size, users, count, ecosystems, fuel)
    }

    constructor (m: Mode, p: Params)
      ensures mode == m && params == p && Counted() == Zero
    {
      mode, params := m, p;
      size, users, count, ecosystems, fuel := 0, map[], 0, map[], 0;
    }

    method Size(t: Tx) returns (v: Verdict)
      modifies this
      ensures (Counted(), v) == CheckSize(mode, params, old(Counted()), t)
    {
      if t.size > params.maxTxSize { return Reject; }
      size := size + t.size;
      if size > params.maxBlockSize { return if mode == Preprocess then Stop else Reject; }
      return Pass;
    }

    method User(t: Tx) returns (v: Verdict)
      modifies this
      ensures (Counted(), v) == CheckUser(mode, params, old(Counted()), t)
    {
      var n := 0;
      if t.key in users {
        n := users[t.key];
        if n + 1 > params.maxUserTx { return if mode == Preprocess then Skip else Reject; }
      }
      users := users[t.key := n + 1];
      return Pass;
    }

    method Number(t: Tx) returns (v: Verdict)
      modifies this
      ensures (Counted(), v) == CheckCount(mode, params, old(Counted()), t)
    {
      count := count + 1;
      if count > params.maxTx { return if mode == Preprocess then Stop else Reject; }
      return Pass;
    }

    method Ecosystem(t: Tx) returns (v: Verdict)
      modifies this
      ensures (Counted(), v) == CheckEcosystem(mode, params, old(Counted()), t)
    {
      if t.ecosystem in ecosystems {
        var e := ecosystems[t.ecosystem];
        if t.key in e.users {
          if e.users[t.key] + 1 > e.limit { return if mode == Preprocess then Skip else Reject; }
          ecosystems := ecosystems[t.ecosystem := e.(users := e.users[t.key := e.users[t.key] + 1])];
        } else {
          ecosystems := ecosystems[t.ecosystem := e.(users := e.users[t.key := 1])];
        }
      } else {
        ecosystems := ecosystems[t.ecosystem := EcoCount(EcoLimit(params, t.ecosystem), map[t.key := 1])];
      }
      return Pass;
    }

    method Fuel(used: nat) returns (v: Verdict)
      modifies this
      ensures (Counted(), v) == CheckFuel(mode, params, old(Counted()), used)
    {
      if used > params.maxTxFuel { return Reject; }
      fuel := fuel + used;
      if fuel > params.maxBlockFuel { return if mode == Generate then Stop else Reject; }
      return Pass;
    }

    method CheckLimit(t: Tx, used: nat, late: bool) returns (v: Verdict)
      modifies this
      ensures (Counted(), v) == Check(mode, params, old(Counted()), t, used, late)
    {
      if mode != Generate {
        v := Size(t);
        if v != Pass { return; }
        v := User(t);
        if v != Pass { return; }
        v := Number(t);
        if v != Pass { return; }
        v := Ecosystem(t);
        if v != Pass { return; }
      } else if late {
        return Stop;
      }
      if mode != Preprocess {
        v := Fuel(used);
      }
    }
  }

  // ----- admission before generation -----

  /** What the queue offers: something that cannot be read, or a transaction. */
  datatype Candidate = Unreadable | Candidate(tx: Tx)

  /** Preprocess counters after the candidates. A refusal, even a stop, only
      leaves the current candidate out: the loop goes on with the next one. */
  function Counted(p: Params, cs: seq<Candidate>): Counters {
    if cs == [] then Zero
    else
      var c := Counted(p, cs[..|cs| - 1]);
      var x := cs[|cs| - 1];
      if x.Unreadable? || !x.tx.smart then c else Check(Preprocess, p, c, x.tx, 0, false).0
  }

  predicate Admits(p: Params, c: Counters, x: Candidate) {
    x.Candidate? && (x.tx.smart ==> Check(Preprocess, p, c, x.tx, 0, false).1 == Pass)
  }

  function Admitted(p: Params, cs: seq<Candidate>): seq<Tx> {
    if cs == [] then []
    else
      var front := cs[..|cs| - 1];
      var x := cs[|cs| - 1];
      Admitted(p, front) + (if Admits(p, Counted(p, front), x) then [x.tx] else [])
  }

  /** processTransactions; `done` is the number of candidates reached when the time is up. */
  method ProcessTransactions(p: Params, cs: seq<Candidate>, done: nat) returns (txs: seq<Tx>)
    requires done <= |cs|
    ensures txs == Admitted(p, cs[..done])
  {
    var limits := new Limiter(Preprocess, p);
    txs := [];
    for i := 0 to done
      invariant limits.mode == Preprocess && limits.params == p
      invariant limits.Counted() == Counted(p, cs[..i])
      invariant txs == Admitted(p, cs[..i])
    {
      assert cs[..i + 1][..i] == cs[..i] && cs[..i + 1][i] == cs[i];
      if cs[i].Candidate? {
        var v := Pass;
        if cs[i].tx.smart {
          v := limits.CheckLimit(cs[i].tx, 0, false);
        }
        if v == Pass { txs := txs + [cs[i].tx]; }
      }
    }
  }

  // ----- the verdicts of a block -----

  /** What becomes of a transaction when a block is played: the counters
      afterwards and whether it is kept. A transaction that fails to run is never
      shown to the limiters. */
  function PlayStep(m: Mode, p: Params, c: Counters, t: Tx, o: Run, late: bool): (Counters, Verdict) {
    if !o.runs then (c, Reject)
    else if !t.smart then (c, Pass)
    else Check(m, p, c, t, o.fuel, late)
  }

  function PlayCounters(m: Mode, p: Params, txs: seq<Tx>, os: seq<Run>, late: nat -> bool): Counters
    requires |os| >= |txs|
  {
    if txs == [] then Zero
    else
      var n := |txs| - 1;
      PlayStep(m, p, PlayCounters(m, p, txs[..n], os, late), txs[n], os[n], late(n)).0
  }

  function VerdictOf(m: Mode, p: Params, txs: seq<Tx>, os: seq<Run>, i: nat, late: nat -> bool): Verdict
    requires i < |txs| <= |os|
  {
    PlayStep(m, p, PlayCounters(m, p, txs[..i], os, late), txs[i], os[i], late(i)).1
  }

  // ----- the relation between the modes -----

  ghost predicate UsersBelow(a: map<int, int>, b: map<int, int>) {
    && (forall k :: k in a ==> k in b && 1 <= a[k] <= b[k])
    && (forall k :: k in b ==> 1 <= b[k])
  }

  ghost predicate EcoBelow(p: Params, a: map<int, EcoCount>, b: map<int, EcoCount>) {
    && (forall e :: e in a ==> e in b && a[e].limit == b[e].limit && UsersBelow(a[e].users, b[e].users))
    && (forall e :: e in b ==> b[e].limit == EcoLimit(p, e) && UsersBelow(map[], b[e].users))
  }

  /** The counters `a` are at most the counters `b`, so whatever `b` lets through, `a` does. */
  ghost predicate Below(p: Params, a: Counters, b: Counters) {
    a.size <= b.size && a.count <= b.count && UsersBelow(a.users, b.users) && EcoBelow(p, a.ecosystems, b.ecosystems)
  }

  function Bumped(m: map<int, int>, k: int): map<int, int> {
    m[k := (if k in m then m[k] else 0) + 1]
  }

  lemma BelowBumped(a: map<int, int>, b: map<int, int>, k: int)
    requires UsersBelow(a, b)
    ensures UsersBelow(Bumped(a, k), Bumped(b, k)) && UsersBelow(a, Bumped(b, k))
  {
  }

  lemma {:induction false} BelowUser(p: Params, a: Counters, b: Counters, t: Tx)
    requires Below(p, a, b)
    ensures CheckUser(Preprocess, p, b, t).1 == Pass ==>
            CheckUser(Parse, p, a, t).1 == Pass && Below(p, CheckUser(Parse, p, a, t).0, CheckUser(Preprocess, p, b, t).0)
    ensures Below(p, a, CheckUser(Preprocess, p, b, t).0)
  {
    hide EcoBelow;
    BelowBumped(a.users, b.users, t.key);
  }

  function EcoOf(p: Params, m: map<int, EcoCount>, e: int): EcoCount {
    if e in m then m[e] else EcoCount(EcoLimit(p, e), map[])
  }

  lemma EcosystemStep(m: Mode, p: Params, c: Counters, t: Tx)
    ensures var x := EcoOf(p, c.ecosystems, t.ecosystem);
            if t.key in x.users && x.users[t.key] + 1 > x.limit
            then CheckEcosystem(m, p, c, t).0 == c && CheckEcosystem(m, p, c, t).1 != Pass
            else CheckEcosystem(m, p, c, t) ==
                 (c.(ecosystems := c.ecosystems[t.ecosystem := x.(users := Bumped(x.users, t.key))]), Pass)
  {
  }

  lemma EcoUpdated(p: Params, a: map<int, EcoCount>, b: map<int, EcoCount>, e: int, x: EcoCount, y: EcoCount)
    requires EcoBelow(p, a, b)
    requires x.limit == y.limit == EcoLimit(p, e) && UsersBelow(x.users, y.users) && UsersBelow(map[], y.users)
    ensures EcoBelow(p, a[e := x], b[e := y])
    ensures (e in a ==> UsersBelow(a[e].users, y.users)) ==> EcoBelow(p, a, b[e := y])
  {
    hide UsersBelow;
  }

  lemma {:induction false} BelowEcosystem(p: Params, a: Counters, b: Counters, t: Tx)
    requires Below(p, a, b)
    ensures CheckEcosystem(Preprocess, p, b, t).1 == Pass ==>
            CheckEcosystem(Parse, p, a, t).1 == Pass &&
            Below(p, CheckEcosystem(Parse, p, a, t).0, CheckEcosystem(Preprocess, p, b, t).0)
    ensures Below(p, a, CheckEcosystem(Preprocess, p, b, t).0)
  {
    hide CheckEcosystem;
    EcosystemStep(Preprocess, p, b, t);
    EcosystemStep(Parse, p, a, t);
    var e, k := t.ecosystem, t.key;
    var x, y := EcoOf(p, a.ecosystems, e), EcoOf(p, b.ecosystems, e);
    BelowBumped(x.users, y.users, k);
    BelowBumped(map[], y.users, k);
    EcoUpdated(p, a.ecosystems, b.ecosystems, e, x.(users := Bumped(x.users, k)), y.(users := Bumped(y.users, k)));
  }

  lemma {:induction false} BelowSizeCount(p: Params, a: Counters, b: Counters, t: Tx)
    requires Below(p, a, b)
    ensures CheckSize(Preprocess, p, b, t).1 == Pass ==>
            CheckSize(Parse, p, a, t).1 == Pass && Below(p, CheckSize(Parse, p, a, t).0, CheckSize(Preprocess, p, b, t).0)
    ensures Below(p, a, CheckSize(Preprocess, p, b, t).0)
    ensures CheckCount(Preprocess, p, b, t).1 == Pass ==>
            CheckCount(Parse, p, a, t).1 == Pass && Below(p, CheckCount(Parse, p, a, t).0, CheckCount(Preprocess, p, b, t).0)
    ensures Below(p, a, CheckCount(Preprocess, p, b, t).0)
  {
    hide EcoBelow, UsersBelow;
  }

  /** One transaction: what preprocessing lets through passes the same limiters
      in a block whose counters are lower, and the counters stay lower. */
  lemma {:induction false} BelowShape(p: Params, a: Counters, b: Counters, t: Tx)
    requires Below(p, a, b)
    ensures CheckShape(Preprocess, p, b, t).1 == Pass ==>
            CheckShape(Parse, p, a, t).1 == Pass && Below(p, CheckShape(Parse, p, a, t).0, CheckShape(Preprocess, p, b, t).0)
    ensures Below(p, a, CheckShape(Preprocess, p, b, t).0)
  {
    hide Below, CheckSize, CheckUser, CheckCount, CheckEcosystem;
    BelowSizeCount(p, a, b, t);
    var b1, a1 := CheckSize(Preprocess, p, b, t).0, CheckSize(Parse, p, a, t).0;
    if CheckSize(Preprocess, p, b, t).1 == Pass {
      BelowUser(p, a1, b1, t);
      BelowUser(p, a, b1, t);
      var b2, a2 := CheckUser(Preprocess, p, b1, t).0, CheckUser(Parse, p, a1, t).0;
      if CheckUser(Preprocess, p, b1, t).1 == Pass {
        BelowSizeCount(p, a2, b2, t);
        BelowSizeCount(p, a, b2, t);
        var b3, a3 := CheckCount(Preprocess, p, b2, t).0, CheckCount(Parse, p, a2, t).0;
        if CheckCount(Preprocess, p, b2, t).1 == Pass {
          BelowEcosystem(p, a3, b3, t);
          BelowEcosystem(p, a, b3, t);
        }
      }
    }
  }

  lemma FuelIsSeparate(m: Mode, p: Params, c: Counters, t: Tx, used: nat, d: Counters)
    ensures Below(p, c, d) ==> Below(p, CheckFuel(m, p, c, used).0, d)
    ensures CheckShape(m, p, c, t).0.fuel == c.fuel
  {
    hide UsersBelow, EcoBelow;
  }

  /** Over any queue and whatever the runs do, the counters of a parsed block of
      admitted transactions stay below the counters of preprocessing. */
  lemma {:induction false} ParsedBelowCounted(p: Params, cs: seq<Candidate>, os: seq<Run>, late: nat -> bool)
    requires |os| >= |Admitted(p, cs)|
    ensures Below(p, PlayCounters(Parse, p, Admitted(p, cs), os, late), Counted(p, cs))
    decreases |cs|
  {
    if cs == [] {
      assert Below(p, Zero, Zero);
    } else {
      var front, x := cs[..|cs| - 1], cs[|cs| - 1];
      ParsedBelowCounted(p, front, os, late);
      ParsedStep(p, PlayCounters(Parse, p, Admitted(p, front), os, late), Counted(p, front), x);
      if Admits(p, Counted(p, front), x) {
        var txs := Admitted(p, front) + [x.tx];
        assert txs[..|txs| - 1] == Admitted(p, front);
      } else {
        assert Admitted(p, cs) == Admitted(p, front);
      }
    }
  }

  lemma {:induction false} ParsedStep(p: Params, a: Counters, b: Counters, x: Candidate)
    requires Below(p, a, b)
    ensures var b' := if x.Unreadable? || !x.tx.smart then b else Check(Preprocess, p, b, x.tx, 0, false).0;
            Below(p, a, b') &&
            (Admits(p, b, x) ==> forall o, l :: Below(p, PlayStep(Parse, p, a, x.tx, o, l).0, b'))
  {
    hide Below, CheckShape, CheckFuel;
    if x.Candidate? && x.tx.smart {
      BelowShape(p, a, b, x.tx);
      forall used: nat ensures Below(p, CheckShape(Parse, p, a, x.tx).0, CheckShape(Preprocess, p, b, x.tx).0) ==>
        Below(p, CheckFuel(Parse, p, CheckShape(Parse, p, a, x.tx).0, used).0, CheckShape(Preprocess, p, b, x.tx).0) {
        FuelIsSeparate(Parse, p, CheckShape(Parse, p, a, x.tx).0, x.tx, used, CheckShape(Preprocess, p, b, x.tx).0);
      }
    }
  }

  /** An admitted transaction that runs is judged by its fuel alone. */
  lemma {:induction false} AdmittedJudgedByFuel(p: Params, cs: seq<Candidate>, os: seq<Run>, i: nat, late: nat -> bool)
    requires i < |Admitted(p, cs)| && |os| >= i
    ensures var txs := Admitted(p, cs);
            var c := PlayCounters(Parse, p, txs[..i], os, late);
            txs[i].smart ==> CheckShape(Parse, p, c, txs[i]).1 == Pass
    decreases |cs|
  {
    hide CheckShape, Below, PlayStep;
    var front, x := cs[..|cs| - 1], cs[|cs| - 1];
    if i < |Admitted(p, front)| {
      assert Admitted(p, cs)[..i] == Admitted(p, front)[..i];
      AdmittedJudgedByFuel(p, front, os, i, late);
    } else {
      assert Admitted(p, cs)[..i] == Admitted(p, front);
      ParsedBelowCounted(p, front, os, late);
      if x.tx.smart {
        BelowShape(p, PlayCounters(Parse, p, Admitted(p, front), os, late), Counted(p, front), x.tx);
      }
    }
  }

  /** Nothing before position `k` stops the generation. */
  ghost predicate NoStop(p: Params, txs: seq<Tx>, os: seq<Run>, k: nat, late: nat -> bool)
    requires k <= |txs| <= |os|
  {
    forall i :: 0 <= i < k ==> VerdictOf(Generate, p, txs, os, i, late) != Stop
  }

  /** One transaction that passes the other limiters gets from its fuel the same
      verdict in generation and in parsing, unless generation stops. */
  lemma {:induction false} SameFuelStep(p: Params, g: Counters, a: Counters, t: Tx, o: Run, late: bool, late': bool)
    requires g.fuel == a.fuel
    requires t.smart ==> CheckShape(Parse, p, a, t).1 == Pass
    requires PlayStep(Generate, p, g, t, o, late).1 != Stop
    ensures PlayStep(Generate, p, g, t, o, late).1 == PlayStep(Parse, p, a, t, o, late').1
    ensures PlayStep(Generate, p, g, t, o, late).0.fuel == PlayStep(Parse, p, a, t, o, late').0.fuel
  {
    hide CheckShape;
    FuelIsSeparate(Parse, p, a, t, o.fuel, a);
  }

  lemma {:induction false} SameFuel(p: Params, cs: seq<Candidate>, os: seq<Run>, k: nat, late: nat -> bool, late': nat -> bool)
    requires k <= |Admitted(p, cs)| <= |os| && NoStop(p, Admitted(p, cs), os, k, late)
    ensures PlayCounters(Generate, p, Admitted(p, cs)[..k], os, late).fuel ==
            PlayCounters(Parse, p, Admitted(p, cs)[..k], os, late').fuel
    decreases k
  {
    hide CheckShape, PlayStep;
    if k > 0 {
      var txs := Admitted(p, cs);
      SameFuel(p, cs, os, k - 1, late, late');
      AdmittedJudgedByFuel(p, cs, os, k - 1, late');
      assert txs[..k][..k - 1] == txs[..k - 1] && txs[..k][k - 1] == txs[k - 1];
      assert VerdictOf(Generate, p, txs, os, k - 1, late) != Stop;
      SameFuelStep(p, PlayCounters(Generate, p, txs[..k - 1], os, late), PlayCounters(Parse, p, txs[..k - 1], os, late'),
                   txs[k - 1], os[k - 1], late(k - 1), late'(k - 1));
    }
  }

  /** The main result. Take any queue, what preprocessing admits of it, any
      outcome of the runs, and any prefix that generation keeps (nothing in it
      asked to stop). Parsing that prefix keeps exactly the transactions that
      generation kept. */
  lemma {:induction false} ModesAgree(p: Params, cs: seq<Candidate>, os: seq<Run>, k: nat, i: nat, late: nat -> bool, late': nat -> bool)
    requires k <= |Admitted(p, cs)| <= |os| && i < k
    requires NoStop(p, Admitted(p, cs), os, k, late)
    ensures VerdictOf(Parse, p, Admitted(p, cs)[..k], os, i, late') == VerdictOf(Generate, p, Admitted(p, cs), os, i, late)
  {
    hide CheckShape, PlayStep;
    var txs := Admitted(p, cs);
    assert txs[..k][..i] == txs[..i] && txs[..k][i] == txs[i];
    assert NoStop(p, txs, os, i, late);
    SameFuel(p, cs, os, i, late, late');
    AdmittedJudgedByFuel(p, cs, os, i, late');
    assert VerdictOf(Generate, p, txs, os, i, late) != Stop;
    SameFuelStep(p, PlayCounters(Generate, p, txs[..i], os, late), PlayCounters(Parse, p, txs[..i], os, late'),
                 txs[i], os[i], late(i), late'(i));
  }

  // ----- lists of any origin -----

  /** A transaction that generation keeps passes the limiters that only parsing has. */
  ghost predicate Conforms(p: Params, txs: seq<Tx>, os: seq<Run>, i: nat, late: nat -> bool, late': nat -> bool)
    requires i < |txs| <= |os|
  {
    os[i].runs && txs[i].smart && VerdictOf(Generate, p, txs, os, i, late) == Pass ==>
      CheckShape(Parse, p, PlayCounters(Parse, p, txs[..i], os, late'), txs[i]).1 == Pass
  }

  ghost predicate AllConform(p: Params, txs: seq<Tx>, os: seq<Run>, k: nat, late: nat -> bool, late': nat -> bool)
    requires k <= |txs| <= |os|
  {
    forall i :: 0 <= i < k ==> Conforms(p, txs, os, i, late, late')
  }

  ghost predicate SameVerdicts(p: Params, txs: seq<Tx>, os: seq<Run>, k: nat, late: nat -> bool, late': nat -> bool)
    requires k <= |txs| <= |os|
  {
    forall i :: 0 <= i < k ==> VerdictOf(Parse, p, txs, os, i, late') == VerdictOf(Generate, p, txs, os, i, late)
  }

  /** One transaction: with equal fuel so far and no stop, the verdicts are equal
      exactly when a kept transaction passes the other limiters, and then the fuel
      stays equal. */
  lemma {:induction false} VerdictStep(p: Params, g: Counters, a: Counters, t: Tx, o: Run, late: bool, late': bool)
    requires g.fuel == a.fuel && PlayStep(Generate, p, g, t, o, late).1 != Stop
    ensures PlayStep(Generate, p, g, t, o, late).1 == PlayStep(Parse, p, a, t, o, late').1 <==>
            (o.runs && t.smart && PlayStep(Generate, p, g, t, o, late).1 == Pass ==> CheckShape(Parse, p, a, t).1 == Pass)
    ensures PlayStep(Generate, p, g, t, o, late).1 == PlayStep(Parse, p, a, t, o, late').1 ==>
            PlayStep(Generate, p, g, t, o, late).0.fuel == PlayStep(Parse, p, a, t, o, late').0.fuel
  {
    ShapeVerdict(p, a, t);
    FuelIsSeparate(Parse, p, a, t, o.fuel, a);
    hide CheckShape;
  }

  lemma ShapeVerdict(p: Params, c: Counters, t: Tx)
    ensures CheckShape(Parse, p, c, t).1 == Pass || CheckShape(Parse, p, c, t).1 == Reject
  {
  }

  lemma {:induction false} SameFuelAnyList(p: Params, txs: seq<Tx>, os: seq<Run>, k: nat, late: nat -> bool, late': nat -> bool)
    requires k <= |txs| <= |os| && NoStop(p, txs, os, k, late) && SameVerdicts(p, txs, os, k, late, late')
    ensures PlayCounters(Generate, p, txs[..k], os, late).fuel == PlayCounters(Parse, p, txs[..k], os, late').fuel
    decreases k
  {
    hide CheckShape, PlayStep;
    if k > 0 {
      SameFuelAnyList(p, txs, os, k - 1, late, late');
      assert txs[..k][..k - 1] == txs[..k - 1] && txs[..k][k - 1] == txs[k - 1];
      assert VerdictOf(Generate, p, txs, os, k - 1, late) != Stop;
      assert VerdictOf(Parse, p, txs, os, k - 1, late') == VerdictOf(Generate, p, txs, os, k - 1, late);
      VerdictStep(p, PlayCounters(Generate, p, txs[..k - 1], os, late), PlayCounters(Parse, p, txs[..k - 1], os, late'),
                  txs[k - 1], os[k - 1], late(k - 1), late'(k - 1));
    }
  }

  /** For every list, admitted or not: generation and parsing give the same verdicts
      up to a position if and only if every transaction that generation keeps there
      passes the size, user, count and ecosystem limiters of parsing. */
  lemma {:induction false} VerdictsAgreeIff(p: Params, txs: seq<Tx>, os: seq<Run>, k: nat, late: nat -> bool, late': nat -> bool)
    requires k <= |txs| <= |os| && NoStop(p, txs, os, k, late)
    ensures SameVerdicts(p, txs, os, k, late, late') <==> AllConform(p, txs, os, k, late, late')
    decreases k
  {
    hide CheckShape, PlayStep;
    if k > 0 {
      VerdictsAgreeIff(p, txs, os, k - 1, late, late');
      if SameVerdicts(p, txs, os, k - 1, late, late') {
        SameFuelAnyList(p, txs, os, k - 1, late, late');
        assert VerdictOf(Generate, p, txs, os, k - 1, late) != Stop;
        VerdictStep(p, PlayCounters(Generate, p, txs[..k - 1], os, late), PlayCounters(Parse, p, txs[..k - 1], os, late'),
                    txs[k - 1], os[k - 1], late(k - 1), late'(k - 1));
        assert Conforms(p, txs, os, k - 1, late, late') <==>
               VerdictOf(Parse, p, txs, os, k - 1, late') == VerdictOf(Generate, p, txs, os, k - 1, late);
      }
    }
  }

  /** How many transactions of a user the list holds. */
  function OfUser(txs: seq<Tx>, key: int): nat {
    if txs == [] then 0 else OfUser(txs[..|txs| - 1], key) + if txs[|txs| - 1].key == key then 1 else 0
  }

  /** The count of Block.Check: no user has more transactions in the block than allowed. */
  predicate UsersFit(p: Params, txs: seq<Tx>) {
    forall i :: 0 <= i < |txs| ==> OfUser(txs, txs[i].key) <= p.maxUserTx
  }

  /** A list can pass the check of the block and still be judged differently: the
      limit per user of an ecosystem is known to parsing alone. */
  lemma {:induction false} EcosystemListsDiffer(p: Params, t: Tx, u: Tx, o: Run)
    requires t.smart && u.smart && t.key == u.key && t.ecosystem == u.ecosystem && EcoLimit(p, t.ecosystem) == 1
    requires t.size <= p.maxTxSize && u.size <= p.maxTxSize && t.size + u.size <= p.maxBlockSize
    requires o.runs && o.fuel <= p.maxTxFuel && 2 * o.fuel <= p.maxBlockFuel && p.maxTx >= 2 && p.maxUserTx >= 2
    ensures UsersFit(p, [t, u]) && NoStop(p, [t, u], [o, o], 2, _ => false)
    ensures !SameVerdicts(p, [t, u], [o, o], 2, _ => false, _ => false)
  {
    var late: nat -> bool := _ => false;
    var txs, os := [t, u], [o, o];
    assert txs[..1] == [t] && txs[..1][..0] == [] && txs[..0] == [];
    assert OfUser([t], t.key) == 1 && OfUser(txs, t.key) == 2;
    assert PlayCounters(Parse, p, [], os, late) == Zero && PlayCounters(Generate, p, [], os, late) == Zero;
    assert PlayCounters(Generate, p, [t], os, late) == PlayStep(Generate, p, Zero, t, o, false).0;
    assert PlayCounters(Parse, p, [t], os, late) == PlayStep(Parse, p, Zero, t, o, false).0;
    assert VerdictOf(Generate, p, txs, os, 0, late) == Pass && VerdictOf(Generate, p, txs, os, 1, late) == Pass;
    assert VerdictOf(Parse, p, txs, os, 1, late) == Reject;
  }

  /** What preprocessing admits passes the count of Block.Check. */
  lemma {:induction false} AdmittedUsersFit(p: Params, cs: seq<Candidate>)
    requires p.maxUserTx >= 1
    requires forall i :: 0 <= i < |cs| ==> cs[i].Candidate? ==> cs[i].tx.smart
    ensures UsersFit(p, Admitted(p, cs))
  {
    var txs := Admitted(p, cs);
    forall i | 0 <= i < |txs| ensures OfUser(txs, txs[i].key) <= p.maxUserTx { AdmittedCounted(p, cs, txs[i].key); }
  }

  lemma {:induction false} AdmittedCounted(p: Params, cs: seq<Candidate>, key: int)
    requires p.maxUserTx >= 1
    requires forall i :: 0 <= i < |cs| ==> cs[i].Candidate? ==> cs[i].tx.smart
    ensures var c := Counted(p, cs);
            OfUser(Admitted(p, cs), key) <= (if key in c.users then c.users[key] else 0) <= p.maxUserTx
    decreases |cs|
  {
    if cs != [] {
      var front, x := cs[..|cs| - 1], cs[|cs| - 1];
      assert forall i :: 0 <= i < |front| ==> front[i] == cs[i];
      AdmittedCounted(p, front, key);
      if x.Candidate? {
        UserCounter(p, Counted(p, front), x.tx, key);
        if Admits(p, Counted(p, front), x) {
          var txs := Admitted(p, front) + [x.tx];
          assert txs[..|txs| - 1] == Admitted(p, front);
        } else {
          assert Admitted(p, cs) == Admitted(p, front);
        }
      } else {
        assert Admitted(p, cs) == Admitted(p, front);
      }
    }
  }

  function UserCount(c: Counters, key: int): int {
    if key in c.users then c.users[key] else 0
  }

  lemma UserCounter(p: Params, c: Counters, t: Tx, key: int)
    requires p.maxUserTx >= 1 && UserCount(c, key) <= p.maxUserTx
    ensures var (c', v) := CheckShape(Preprocess, p, c, t);
            UserCount(c, key) <= UserCount(c', key) <= p.maxUserTx &&
            (v == Pass && t.key == key ==> UserCount(c', key) == UserCount(c, key) + 1)
  {
  }

  // ----- after a stop -----

  /** The block is full by size or by count. */
  predicate Full(p: Params, c: Counters) {
    c.size > p.maxBlockSize || c.count > p.maxTx
  }

  lemma FullStays(p: Params, c: Counters, t: Tx)
    ensures CheckShape(Preprocess, p, c, t).1 == Stop ==> Full(p, CheckShape(Preprocess, p, c, t).0)
    ensures Full(p, c) ==> Full(p, CheckShape(Preprocess, p, c, t).0) && CheckShape(Preprocess, p, c, t).1 != Pass
  {
  }

  lemma {:induction false} FullFrom(p: Params, cs: seq<Candidate>, i: nat)
    requires i < |cs| && cs[i].Candidate? && cs[i].tx.smart && CheckShape(Preprocess, p, Counted(p, cs[..i]), cs[i].tx).1 == Stop
    ensures Full(p, Counted(p, cs))
    decreases |cs|
  {
    hide CheckShape;
    var front, x := cs[..|cs| - 1], cs[|cs| - 1];
    if i < |front| {
      assert front[..i] == cs[..i] && front[i] == cs[i];
      FullFrom(p, front, i);
    } else {
      assert front == cs[..i];
    }
    if x.Candidate? { FullStays(p, Counted(p, front), x.tx); }
  }

  /** The `break` that only leaves the `select` does no harm: after the first stop
      the loop goes on, but no contract transaction is admitted any more. */
  lemma {:induction false} NothingAfterStop(p: Params, cs: seq<Candidate>, i: nat)
    requires i < |cs| && cs[i].Candidate? && cs[i].tx.smart && CheckShape(Preprocess, p, Counted(p, cs[..i]), cs[i].tx).1 == Stop
    requires forall k :: 0 <= k < |cs| ==> cs[k].Candidate? ==> cs[k].tx.smart
    ensures Admitted(p, cs) == Admitted(p, cs[..i])
    decreases |cs|
  {
    hide CheckShape;
    var front, x := cs[..|cs| - 1], cs[|cs| - 1];
    if i < |front| {
      assert front[..i] == cs[..i] && front[i] == cs[i];
      assert forall k :: 0 <= k < |front| ==> front[k] == cs[k];
      NothingAfterStop(p, front, i);
      FullFrom(p, front, i);
      if x.Candidate? { FullStays(p, Counted(p, front), x.tx); }
      assert !Admits(p, Counted(p, front), x);
    } else {
      assert front == cs[..i];
    }
  }
}
