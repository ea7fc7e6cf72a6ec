/**
 What the limits of a block mean: sums and counts over the transactions of the
 list that come to each limiter, and for every verdict its exact condition.
 */
module LimitTotals {
  import opened Limits

  /** A list of transactions, what their runs did, the mode and the clock. */
  datatype Case = Case(m: Mode, p: Params, txs: seq<Tx>, os: seq<Run>, late: nat -> bool) {
    ghost predicate Valid() {
      |txs| <= |os|
    }

    /** Transaction `i` comes to the limiters at all. */
    predicate Shown(i: nat)
      requires i < |txs| <= |os|
    {
      os[i].runs && txs[i].smart
    }

    // ----- size -----

    /** The bytes of the transactions before `i` that are not too large themselves. */
    function Bytes(i: nat): int
      requires i <= |txs| <= |os|
    {
      if i == 0 then 0
      else Bytes(i - 1) + if Shown(i - 1) && txs[i - 1].size <= p.maxTxSize then txs[i - 1].size else 0
    }

    predicate SizeFits(i: nat)
      requires i < |txs| <= |os|
    {
      txs[i].size <= p.maxTxSize && Bytes(i) + txs[i].size <= p.maxBlockSize
    }

    // ----- transactions of a user -----

    /** The transactions of the user before `i` that fitted in size and in number. */
    function OfKey(i: nat, key: int): int
      requires i <= |txs| <= |os|
      decreases i, 0
    {
      if i == 0 then 0
      else OfKey(i - 1, key) + if Shown(i - 1) && txs[i - 1].key == key && SizeFits(i - 1) && UserFits(i - 1) then 1 else 0
    }

    /** The first transaction of a user fits whatever the limit is. */
    predicate UserFits(i: nat)
      requires i < |txs| <= |os|
      decreases i, 1
    {
      OfKey(i, txs[i].key) == 0 || OfKey(i, txs[i].key) + 1 <= p.maxUserTx
    }

    // ----- transactions of the block -----

    /** The transactions before `i` that fitted so far. */
    function Number(i: nat): int
      requires i <= |txs| <= |os|
    {
      if i == 0 then 0 else Number(i - 1) + if Shown(i - 1) && SizeFits(i - 1) && UserFits(i - 1) then 1 else 0
    }

    predicate NumberFits(i: nat)
      requires i < |txs| <= |os|
    {
      Number(i) + 1 <= p.maxTx
    }

    // ----- transactions of a user in an ecosystem -----

    function InEcosystem(i: nat, e: int, key: int): int
      requires i <= |txs| <= |os|
      decreases i, 0
    {
      if i == 0 then 0
      else
        InEcosystem(i - 1, e, key) +
        if Shown(i - 1) && txs[i - 1].ecosystem == e && txs[i - 1].key == key &&
           SizeFits(i - 1) && UserFits(i - 1) && NumberFits(i - 1) && EcosystemFits(i - 1) then 1 else 0
    }

    predicate EcosystemFits(i: nat)
      requires i < |txs| <= |os|
      decreases i, 1
    {
      var n := InEcosystem(i, txs[i].ecosystem, txs[i].key);
      n == 0 || n + 1 <= if txs[i].ecosystem in p.ecosystems then p.ecosystems[txs[i].ecosystem] else p.maxUserTx
    }

    // ----- fuel -----

    predicate ShapeFits(i: nat)
      requires i < |txs| <= |os|
    {
      SizeFits(i) && UserFits(i) && NumberFits(i) && EcosystemFits(i)
    }

    /** Transaction `i` comes to the fuel limiter. */
    predicate Fuelled(i: nat)
      requires i < |txs| <= |os|
    {
      Shown(i) && match m case Preprocess => false case Generate => !late(i) case Parse => ShapeFits(i)
    }

    /** The fuel of the transactions before `i` that came to the limiter and did not take too much themselves. */
    function Burnt(i: nat): int
      requires i <= |txs| <= |os|
    {
      if i == 0 then 0 else Burnt(i - 1) + if Fuelled(i - 1) && os[i - 1].fuel <= p.maxTxFuel then os[i - 1].fuel else 0
    }

    predicate FuelFits(i: nat)
      requires i < |txs| <= |os|
    {
      os[i].fuel <= p.maxTxFuel && Burnt(i) + os[i].fuel <= p.maxBlockFuel
    }

    // ----- what the program does with them -----

    /** The counters of the limiters before transaction `i`. */
    function Reached(i: nat): Counters
      requires i <= |txs| <= |os|
    {
      PlayCounters(m, p, txs[..i], os, late)
    }

    function Verdict(i: nat): Verdict
      requires i < |txs| <= |os|
    {
      VerdictOf(m, p, txs, os, i, late)
    }
  }

  function UserOf(users: map<int, int>, key: int): int {
    if key in users then users[key] else 0
  }

  function EcoUser(k: Counters, e: int, key: int): int {
    if e in k.ecosystems then UserOf(k.ecosystems[e].users, key) else 0
  }

  // ----- the counters are the sums -----

  ghost predicate UserTotals(c: Case, i: nat, k: Counters)
    requires c.Valid() && i <= |c.txs|
  {
    forall key :: UserOf(k.users, key) == c.OfKey(i, key) && (key in k.users <==> c.OfKey(i, key) > 0)
  }

  ghost predicate EcoTotals(c: Case, i: nat, k: Counters)
    requires c.Valid() && i <= |c.txs|
  {
    && (forall e :: e in k.ecosystems ==> k.ecosystems[e].limit == EcoLimit(c.p, e))
    && (forall e, key :: EcoTotal(c, i, k, e, key))
  }

  predicate EcoTotal(c: Case, i: nat, k: Counters, e: int, key: int)
    requires i <= |c.txs| <= |c.os|
  {
    var n := c.InEcosystem(i, e, key);
    EcoUser(k, e, key) == n >= 0 && (e in k.ecosystems && key in k.ecosystems[e].users ==> n > 0)
  }

  ghost predicate ShapeTotals(c: Case, i: nat, k: Counters)
    requires c.Valid() && i <= |c.txs|
  {
    k.size == c.Bytes(i) && UserTotals(c, i, k) && k.count == c.Number(i) && EcoTotals(c, i, k)
  }

  ghost predicate Totals(c: Case, i: nat, k: Counters)
    requires c.Valid() && i <= |c.txs|
  {
    k.fuel == c.Burnt(i) && (!c.m.Generate? ==> ShapeTotals(c, i, k))
  }

  /** What a limiter of the shape says: preprocessing skips or stops, parsing rejects. */
  function Refusal(m: Mode, v: Verdict): Verdict {
    if m.Preprocess? then v else Reject
  }

  lemma {:induction false} SizeStep(c: Case, i: nat, k: Counters)
    requires c.Valid() && i < |c.txs| && c.Shown(i) && k.size == c.Bytes(i)
    ensures var (k', v) := CheckSize(c.m, c.p, k, c.txs[i]);
            && k' == k.(size := c.Bytes(i + 1))
            && v == if c.txs[i].size > c.p.maxTxSize then Reject else if c.SizeFits(i) then Pass else Refusal(c.m, Stop)
  {
  }

  lemma {:induction false} UserStep(c: Case, i: nat, k: Counters)
    requires c.Valid() && i < |c.txs| && c.Shown(i) && c.SizeFits(i) && UserTotals(c, i, k)
    ensures var (k', v) := CheckUser(c.m, c.p, k, c.txs[i]);
            && k' == k.(users := k'.users) && UserTotals(c, i + 1, k')
            && v == if c.UserFits(i) then Pass else Refusal(c.m, Skip)
  {
    var t := c.txs[i];
    var k' := CheckUser(c.m, c.p, k, t).0;
    assert UserOf(k.users, t.key) == c.OfKey(i, t.key);
    forall key ensures UserOf(k'.users, key) == c.OfKey(i + 1, key) && (key in k'.users <==> c.OfKey(i + 1, key) > 0) {
      assert UserOf(k.users, key) == c.OfKey(i, key);
    }
  }

  lemma {:induction false} UserStays(c: Case, i: nat, k: Counters)
    requires c.Valid() && i < |c.txs| && UserTotals(c, i, k) && !(c.Shown(i) && c.SizeFits(i))
    ensures UserTotals(c, i + 1, k)
  {
    forall key ensures UserOf(k.users, key) == c.OfKey(i + 1, key) && (key in k.users <==> c.OfKey(i + 1, key) > 0) {
      assert UserOf(k.users, key) == c.OfKey(i, key);
    }
  }

  lemma {:induction false} NumberStep(c: Case, i: nat, k: Counters)
    requires c.Valid() && i < |c.txs| && c.Shown(i) && c.SizeFits(i) && c.UserFits(i) && k.count == c.Number(i)
    ensures var (k', v) := CheckCount(c.m, c.p, k, c.txs[i]);
            && k' == k.(count := c.Number(i + 1))
            && v == if c.NumberFits(i) then Pass else Refusal(c.m, Stop)
  {
  }

  lemma {:induction false} EcosystemStep(c: Case, i: nat, k: Counters)
    requires c.Valid() && i < |c.txs| && c.Shown(i) && c.SizeFits(i) && c.UserFits(i) && c.NumberFits(i) && EcoTotals(c, i, k)
    ensures var (k', v) := CheckEcosystem(c.m, c.p, k, c.txs[i]);
            && k' == k.(ecosystems := k'.ecosystems) && EcoTotals(c, i + 1, k')
            && v == if c.EcosystemFits(i) then Pass else Refusal(c.m, Skip)
  {
    var t := c.txs[i];
    var k' := CheckEcosystem(c.m, c.p, k, t).0;
    assert EcoTotal(c, i, k, t.ecosystem, t.key);
    var j := i + 1;
    forall e, key ensures EcoTotal(c, j, k', e, key) { assert EcoTotal(c, i, k, e, key); }
  }

  lemma {:induction false} EcosystemStays(c: Case, i: nat, k: Counters)
    requires c.Valid() && i < |c.txs| && EcoTotals(c, i, k)
    requires !(c.Shown(i) && c.SizeFits(i) && c.UserFits(i) && c.NumberFits(i))
    ensures EcoTotals(c, i + 1, k)
  {
    var j := i + 1;
    forall e, key ensures EcoTotal(c, j, k, e, key) { assert EcoTotal(c, i, k, e, key); }
  }

  /** The verdict of the limiters of size, user, number and ecosystem. */
  function ShapeVerdict(c: Case, i: nat): Verdict
    requires i < |c.txs| <= |c.os|
  {
    if c.txs[i].size > c.p.maxTxSize then Reject
    else if !c.SizeFits(i) then Refusal(c.m, Stop)
    else if !c.UserFits(i) then Refusal(c.m, Skip)
    else if !c.NumberFits(i) then Refusal(c.m, Stop)
    else if !c.EcosystemFits(i) then Refusal(c.m, Skip)
    else Pass
  }

  lemma {:induction false} ShapeStep(c: Case, i: nat, k: Counters)
    requires c.Valid() && i < |c.txs| && c.Shown(i) && ShapeTotals(c, i, k)
    ensures var (k', v) := CheckShape(c.m, c.p, k, c.txs[i]);
            ShapeTotals(c, i + 1, k') && k'.fuel == k.fuel && v == ShapeVerdict(c, i)
  {
    hide CheckSize, CheckUser, CheckCount, CheckEcosystem, UserTotals, EcoTotals;
    var t := c.txs[i];
    SizeStep(c, i, k);
    var k1 := CheckSize(c.m, c.p, k, t).0;
    SameUsers(c, i, k, k1);
    SameEcosystems(c, i, k, k1);
    if c.SizeFits(i) {
      UserStep(c, i, k1);
      var k2 := CheckUser(c.m, c.p, k1, t).0;
      SameEcosystems(c, i, k1, k2);
      if c.UserFits(i) {
        NumberStep(c, i, k2);
        var k3 := CheckCount(c.m, c.p, k2, t).0;
        SameUsers(c, i + 1, k2, k3);
        SameEcosystems(c, i, k2, k3);
        if c.NumberFits(i) {
          EcosystemStep(c, i, k3);
          SameUsers(c, i + 1, k3, CheckEcosystem(c.m, c.p, k3, t).0);
        } else {
          EcosystemStays(c, i, k3);
        }
      } else {
        EcosystemStays(c, i, k2);
      }
    } else {
      UserStays(c, i, k1);
      EcosystemStays(c, i, k1);
    }
  }

  lemma SameUsers(c: Case, i: nat, k: Counters, k': Counters)
    requires c.Valid() && i <= |c.txs| && UserTotals(c, i, k) && k'.users == k.users
    ensures UserTotals(c, i, k')
  {
    forall key ensures UserOf(k'.users, key) == c.OfKey(i, key) && (key in k'.users <==> c.OfKey(i, key) > 0) {
      assert UserOf(k.users, key) == c.OfKey(i, key);
    }
  }

  lemma SameEcosystems(c: Case, i: nat, k: Counters, k': Counters)
    requires c.Valid() && i <= |c.txs| && EcoTotals(c, i, k) && k'.ecosystems == k.ecosystems
    ensures EcoTotals(c, i, k')
  {
    forall e, key ensures EcoTotal(c, i, k', e, key) { assert EcoTotal(c, i, k, e, key); }
  }

  lemma {:induction false} ShapeStays(c: Case, i: nat, k: Counters)
    requires c.Valid() && i < |c.txs| && ShapeTotals(c, i, k) && !c.Shown(i)
    ensures ShapeTotals(c, i + 1, k)
  {
    hide UserTotals, EcoTotals;
    UserStays(c, i, k);
    EcosystemStays(c, i, k);
  }

  lemma {:induction false} FuelStep(c: Case, i: nat, k: Counters)
    requires c.Valid() && i < |c.txs| && c.Fuelled(i) && k.fuel == c.Burnt(i)
    ensures var (k', v) := CheckFuel(c.m, c.p, k, c.os[i].fuel);
            && k' == k.(fuel := c.Burnt(i + 1))
            && v == if c.os[i].fuel > c.p.maxTxFuel then Reject else if c.FuelFits(i) then Pass else if c.m.Generate? then Stop else Reject
  {
  }

  /** The verdict on transaction `i`, from the list and the parameters alone. */
  function Judgement(c: Case, i: nat): Verdict
    requires i < |c.txs| <= |c.os|
  {
    if !c.os[i].runs then Reject
    else if !c.txs[i].smart then Pass
    else
      match c.m
      case Preprocess => ShapeVerdict(c, i)
      case Generate =>
        if c.late(i) then Stop else if c.os[i].fuel > c.p.maxTxFuel then Reject else if c.FuelFits(i) then Pass else Stop
      case Parse => if c.ShapeFits(i) && c.FuelFits(i) then Pass else Reject
  }

  lemma {:induction false} PlayedStep(c: Case, i: nat, k: Counters)
    requires c.Valid() && i < |c.txs| && Totals(c, i, k)
    ensures var (k', v) := PlayStep(c.m, c.p, k, c.txs[i], c.os[i], c.late(i));
            Totals(c, i + 1, k') && v == Judgement(c, i)
  {
    hide CheckShape, CheckFuel, ShapeTotals;
    if !c.Shown(i) {
      if !c.m.Generate? { ShapeStays(c, i, k); }
    } else {
      if !c.m.Generate? { ShapeStep(c, i, k); }
      var k1 := if c.m.Generate? then k else CheckShape(c.m, c.p, k, c.txs[i]).0;
      if c.Fuelled(i) {
        FuelStep(c, i, k1);
        if c.m.Parse? { SameShape(c, i + 1, k1, CheckFuel(c.m, c.p, k1, c.os[i].fuel).0); }
      }
    }
  }

  lemma {:induction false} SameShape(c: Case, i: nat, k: Counters, k': Counters)
    requires c.Valid() && i <= |c.txs| && ShapeTotals(c, i, k) && k' == k.(fuel := k'.fuel)
    ensures ShapeTotals(c, i, k')
  {
    hide UserTotals, EcoTotals;
    SameUsers(c, i, k, k');
    SameEcosystems(c, i, k, k');
  }

  /** Before every transaction the counters are the sums and counts of the list. */
  lemma {:induction false} CountersAreTotals(c: Case, i: nat)
    requires c.Valid() && i <= |c.txs|
    ensures Totals(c, i, c.Reached(i))
    decreases i
  {
    hide PlayStep, Totals;
    if i == 0 {
      NothingYet(c);
    } else {
      CountersAreTotals(c, i - 1);
      PlayedStep(c, i - 1, c.Reached(i - 1));
      ReachedStep(c, i - 1);
    }
  }

  lemma ReachedNone(c: Case)
    requires c.Valid()
    ensures c.Reached(0) == Zero
  {
    assert c.txs[..0] == [];
  }

  lemma ReachedStep(c: Case, i: nat)
    requires c.Valid() && i < |c.txs|
    ensures c.Reached(i + 1) == PlayStep(c.m, c.p, c.Reached(i), c.txs[i], c.os[i], c.late(i)).0
    ensures c.Verdict(i) == PlayStep(c.m, c.p, c.Reached(i), c.txs[i], c.os[i], c.late(i)).1
  {
    hide PlayStep;
    assert c.txs[..i + 1][..i] == c.txs[..i];
  }

  lemma NothingYet(c: Case)
    requires c.Valid()
    ensures Totals(c, 0, Zero)
  {
  }

  /** The main result: every verdict in every mode, from sums and counts over the list
      and the limits of the parameters. */
  lemma {:induction false} VerdictIs(c: Case, i: nat)
    requires c.Valid() && i < |c.txs|
    ensures c.Verdict(i) == Judgement(c, i)
  {
    hide PlayStep, Totals;
    CountersAreTotals(c, i);
    PlayedStep(c, i, c.Reached(i));
  }

  /** A block stays within its limits: what a parsed block keeps is no larger, no more
      and burns no more than the parameters allow. */
  lemma {:induction false} KeptWithinLimits(c: Case, i: nat)
    requires c.Valid() && i < |c.txs| && c.os[i].runs && c.txs[i].smart && c.Verdict(i) == Pass
    ensures !c.m.Preprocess? ==> c.Burnt(i + 1) <= c.p.maxBlockFuel && c.os[i].fuel <= c.p.maxTxFuel
    ensures !c.m.Generate? ==> c.Bytes(i + 1) <= c.p.maxBlockSize && c.Number(i + 1) <= c.p.maxTx
  {
    VerdictIs(c, i);
  }

  // ----- admission -----

  function Offered(txs: seq<Tx>): seq<Candidate> {
    seq(|txs|, i requires 0 <= i < |txs| => Candidate(txs[i]))
  }

  /** The counters of the admission loop are those of a block that is preprocessed. */
  lemma {:induction false} CountedIsReached(c: Case, i: nat)
    requires c.Valid() && c.m.Preprocess? && i <= |c.txs| && forall j :: 0 <= j < |c.os| ==> c.os[j].runs
    ensures Counted(c.p, Offered(c.txs)[..i]) == c.Reached(i)
    decreases i
  {
    hide CheckShape;
    if i > 0 {
      CountedIsReached(c, i - 1);
      var cs := Offered(c.txs)[..i];
      assert cs[..i - 1] == Offered(c.txs)[..i - 1] && cs[i - 1] == Candidate(c.txs[i - 1]);
      assert c.txs[..i][..i - 1] == c.txs[..i - 1];
    }
  }

  /** A transaction is admitted if and only if it fits the sums and counts before it. */
  lemma {:induction false} AdmitsIff(c: Case, i: nat)
    requires c.Valid() && c.m.Preprocess? && i < |c.txs| && forall j :: 0 <= j < |c.os| ==> c.os[j].runs
    ensures Admits(c.p, Counted(c.p, Offered(c.txs)[..i]), Offered(c.txs)[i]) <==> !c.txs[i].smart || c.ShapeFits(i)
  {
    hide CheckShape;
    CountedIsReached(c, i);
    VerdictIs(c, i);
  }

  // ----- the count of Block.Check -----

  function PositionsOf(txs: seq<Tx>, key: int): set<nat> {
    set i: nat | i < |txs| && txs[i].key == key
  }

  lemma {:induction false} OfUserIs(txs: seq<Tx>, key: int)
    ensures OfUser(txs, key) == |PositionsOf(txs, key)|
    decreases |txs|
  {
    if txs != [] {
      var front, n := txs[..|txs| - 1], |txs| - 1;
      OfUserIs(front, key);
      var here: set<nat> := if txs[n].key == key then {n} else {};
      assert PositionsOf(txs, key) == PositionsOf(front, key) + here;
    } else {
      assert PositionsOf(txs, key) == {};
    }
  }

  /** The count fits if and only if no user stands at more places of the list than allowed. */
  lemma {:induction false} UsersFitIff(p: Params, txs: seq<Tx>)
    ensures UsersFit(p, txs) <==> forall key :: PositionsOf(txs, key) == {} || |PositionsOf(txs, key)| <= p.maxUserTx
  {
    hide OfUser;
    forall key ensures OfUser(txs, key) == |PositionsOf(txs, key)| { OfUserIs(txs, key); }
    if UsersFit(p, txs) {
      forall key | PositionsOf(txs, key) != {} ensures |PositionsOf(txs, key)| <= p.maxUserTx {
        var i :| i in PositionsOf(txs, key);
        assert OfUser(txs, txs[i].key) <= p.maxUserTx;
      }
    } else {
      var i :| 0 <= i < |txs| && OfUser(txs, txs[i].key) > p.maxUserTx;
      assert i in PositionsOf(txs, txs[i].key);
    }
  }
}
