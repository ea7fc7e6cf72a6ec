/**
 What playing a block means, in terms of the runs of its transactions and of the
 limits: a run that ends with an error or meets a write that is not possible leaves
 nothing, a run that ends well and fits the limits leaves exactly its writes.
 */
module PlayOutcomes {
  import opened Wrappers
  import opened Tables
  import opened Chain
  import L = Limits
  import T = LimitTotals

  // ----- writes -----

  /** A new row stands where it was put; a changed row has the new cells, and every
      other cell and every other row is as before. */
  lemma {:induction false} WritesAreRead(db: Rows, op: Op)
    requires Allowed(db, op)
    ensures var r, a := Apply(db, op), Locate(op.table, op.id);
            && r.Keys == db.Keys + {a} && (forall b :: b in db && b != a ==> r[b] == db[b])
            && (op.Insert? ==> r[a] == op.row)
            && (op.Update? ==> a in db && r[a].Keys == db[a].Keys &&
                               forall c :: c in r[a] ==> r[a][c] == if c in op.change then op.change[c] else db[a][c])
  {
  }

  /** A write is refused: a new row in the place of another one, and a change of a row
      that is missing, of no column or of a column that the row does not have. */
  lemma {:induction false} WriteRefusedIff(db: Rows, op: Op)
    ensures var a := Locate(op.table, op.id);
            !Allowed(db, op) <==>
            match op
            case Insert(_, _, _) => a in db
            case Update(_, _, change) => a !in db || |change| == 0 || exists c :: c in change && c !in db[a]
  {
  }

  /** The writes before number `j` take effect, and number `j` is not possible then. */
  predicate BlockedAt(rows: Rows, ops: seq<Op>, j: nat) {
    j < |ops| && AllAllowed(rows, ops[..j]) && !Allowed(ApplyAll(rows, ops[..j]), ops[j])
  }

  lemma {:induction false} OneMore(rows: Rows, ops: seq<Op>, j: nat)
    requires j < |ops| && AllAllowed(rows, ops[..j])
    ensures AllAllowed(rows, ops[..j + 1]) <==> Allowed(ApplyAll(rows, ops[..j]), ops[j])
    ensures AllAllowed(rows, ops[..j + 1]) ==> ApplyAll(rows, ops[..j + 1]) == Apply(ApplyAll(rows, ops[..j]), ops[j])
    decreases j
  {
    hide Allowed, Apply;
    if j == 0 {
      assert ops[..1][1..] == [] && ops[..1][0] == ops[0];
    } else {
      var rest := ops[1..];
      assert ops[..j][1..] == rest[..j - 1] && ops[..j + 1][1..] == rest[..j];
      OneMore(Apply(rows, ops[0]), rest, j - 1);
    }
  }

  lemma {:induction false} PrefixAllowed(rows: Rows, ops: seq<Op>, j: nat)
    requires AllAllowed(rows, ops) && j <= |ops|
    ensures AllAllowed(rows, ops[..j])
    decreases j
  {
    hide Allowed, Apply;
    if j > 0 {
      PrefixAllowed(Apply(rows, ops[0]), ops[1..], j - 1);
      assert ops[..j][1..] == ops[1..][..j - 1];
    }
  }

  lemma {:induction false} AllowedUpTo(rows: Rows, ops: seq<Op>, j: nat)
    requires j <= |ops| && forall k :: 0 <= k < j ==> !BlockedAt(rows, ops, k)
    ensures AllAllowed(rows, ops[..j])
    decreases j
  {
    if j > 0 {
      AllowedUpTo(rows, ops, j - 1);
      OneMore(rows, ops, j - 1);
      assert !BlockedAt(rows, ops, j - 1);
    }
  }

  /** All writes are possible if and only if none of them meets a state in which it is not. */
  lemma {:induction false} AllAllowedIff(rows: Rows, ops: seq<Op>)
    ensures AllAllowed(rows, ops) <==> forall j :: 0 <= j < |ops| ==> !BlockedAt(rows, ops, j)
  {
    hide AllAllowed;
    if AllAllowed(rows, ops) {
      forall j | 0 <= j < |ops| ensures !BlockedAt(rows, ops, j) {
        PrefixAllowed(rows, ops, j);
        PrefixAllowed(rows, ops, j + 1);
        OneMore(rows, ops, j);
      }
    } else {
      assert ops[..|ops|] == ops;
      if forall j :: 0 <= j < |ops| ==> !BlockedAt(rows, ops, j) { AllowedUpTo(rows, ops, |ops|); }
    }
  }

  // ----- one transaction -----

  /** The run ends without an error and no write of it is impossible. */
  ghost predicate EndsWell(t: Tx, h: Header, rows: Rows) {
    var r := t.run(h, rows);
    r.ok && forall j :: 0 <= j < |r.ops| ==> !BlockedAt(rows, r.ops, j)
  }

  lemma {:induction false} SucceedsIff(t: Tx, h: Header, rows: Rows)
    ensures Succeeds(t, h, rows) <==> EndsWell(t, h, rows)
  {
    AllAllowedIff(rows, t.run(h, rows).ops);
  }

  /** A contract that ends with an error leaves nothing and does not come to the limits. */
  lemma {:induction false} FailedRunLeavesNothing(m: L.Mode, p: L.Params, h: Header, t: Tx, db: Db, c: L.Counters, late: bool)
    requires !t.run(h, db.rows).ok
    ensures PlayOne(m, p, h, t, db, c, late) == (db, c, L.Reject)
  {
  }

  /** So does one with a write that is not possible where it comes. */
  lemma {:induction false} BlockedRunLeavesNothing(m: L.Mode, p: L.Params, h: Header, t: Tx, db: Db, c: L.Counters, late: bool, j: nat)
    requires BlockedAt(db.rows, t.run(h, db.rows).ops, j)
    ensures PlayOne(m, p, h, t, db, c, late) == (db, c, L.Reject)
  {
    AllAllowedIff(db.rows, t.run(h, db.rows).ops);
  }

  /** The tables with the writes of a run, their undo records and the log entry. */
  function WithWrites(db: Db, ops: seq<Op>, h: Header, hash: TxHash): Db
    requires AllAllowed(db.rows, ops)
  {
    Db(ApplyAll(db.rows, ops), db.undo + Records(db.rows, ops, h.id, hash), db.logged + {hash})
  }

  /** A run that ends well comes to the limits with its fuel; it is kept with exactly its
      writes if they let it pass, and leaves nothing otherwise. */
  lemma {:induction false} GoodRunIsJudged(m: L.Mode, p: L.Params, h: Header, t: Tx, db: Db, c: L.Counters, late: bool)
    requires EndsWell(t, h, db.rows)
    ensures var r := t.run(h, db.rows);
            var (c', v) := L.Check(m, p, c, L.Tx(t.key, t.ecosystem, t.size, true), r.fuel, late);
            AllAllowed(db.rows, r.ops) &&
            PlayOne(m, p, h, t, db, c, late) == (if v == L.Pass then WithWrites(db, r.ops, h, t.hash) else db, c', v)
  {
    hide L.Check;
    SucceedsIff(t, h, db.rows);
  }

  // ----- a block -----

  /** The tables and counters before transaction `i`. */
  ghost function Before(m: L.Mode, p: L.Params, h: Header, txs: seq<Tx>, i: nat, db: Db, late: nat -> bool): (Db, L.Counters)
    requires i <= |txs|
  {
    if i == 0 then (db, L.Zero)
    else
      var (d, c) := Before(m, p, h, txs, i - 1, db, late);
      var (d', c', v) := PlayOne(m, p, h, txs[i - 1], d, c, late(i - 1));
      (d', c')
  }

  /** What the runs do, each on the tables `ss[i]`. */
  ghost function Runs(h: Header, txs: seq<Tx>, ss: seq<Db>): (os: seq<L.Run>)
    requires |ss| > |txs|
    ensures |os| == |txs|
  {
    seq(|txs|, i requires 0 <= i < |txs| => L.Run(EndsWell(txs[i], h, ss[i].rows), txs[i].run(h, ss[i].rows).fuel))
  }

  ghost function StatesOf(m: L.Mode, p: L.Params, h: Header, txs: seq<Tx>, db: Db, late: nat -> bool): (ss: seq<Db>)
    ensures |ss| == |txs| + 1
  {
    seq(|txs| + 1, i requires 0 <= i <= |txs| => Before(m, p, h, txs, i, db, late).0)
  }

  ghost function CaseOf(m: L.Mode, p: L.Params, h: Header, txs: seq<Tx>, ss: seq<Db>, late: nat -> bool): (c: T.Case)
    requires |ss| > |txs|
    ensures c.Valid() && |c.txs| == |txs| && c.m == m && c.p == p && c.late == late
    ensures forall i :: 0 <= i < |txs| ==> c.txs[i] == L.Tx(txs[i].key, txs[i].ecosystem, txs[i].size, true)
    ensures forall i :: 0 <= i < |txs| ==> c.os[i] == L.Run(EndsWell(txs[i], h, ss[i].rows), txs[i].run(h, ss[i].rows).fuel)
  {
    T.Case(m, p, Views(txs), Runs(h, txs, ss), late)
  }

  lemma {:induction false} StepOf(m: L.Mode, p: L.Params, h: Header, t: Tx, db: Db, c: L.Counters, late: bool)
    ensures var (d', c', v) := PlayOne(m, p, h, t, db, c, late);
            (c', v) == L.PlayStep(m, p, c, View(t), L.Run(EndsWell(t, h, db.rows), t.run(h, db.rows).fuel), late)
  {
    hide L.Check;
    SucceedsIff(t, h, db.rows);
  }

  lemma StateAt(m: L.Mode, p: L.Params, h: Header, txs: seq<Tx>, i: nat, db: Db, late: nat -> bool)
    requires i <= |txs|
    ensures StatesOf(m, p, h, txs, db, late)[i] == Before(m, p, h, txs, i, db, late).0
  {
    hide Before;
  }

  lemma {:induction false} CountersBefore(m: L.Mode, p: L.Params, h: Header, txs: seq<Tx>, i: nat, db: Db, late: nat -> bool)
    requires i <= |txs|
    ensures Before(m, p, h, txs, i, db, late).1 == CaseOf(m, p, h, txs, StatesOf(m, p, h, txs, db, late), late).Reached(i)
    decreases i
  {
    hide PlayOne, L.PlayStep, EndsWell, CaseOf, StatesOf, T.Case.Reached, T.Case.Valid;
    var c := CaseOf(m, p, h, txs, StatesOf(m, p, h, txs, db, late), late);
    if i == 0 {
      T.ReachedNone(c);
    } else {
      StateAt(m, p, h, txs, i - 1, db, late);
      CountersBefore(m, p, h, txs, i - 1, db, late);
      var (d, k) := Before(m, p, h, txs, i - 1, db, late);
      StepOf(m, p, h, txs[i - 1], d, k, late(i - 1));
      T.ReachedStep(c, i - 1);
    }
  }

  /** The tables after transaction `i`: its writes on the tables before it, or those tables. */
  ghost predicate StepIs(h: Header, t: Tx, before: Db, after: Db, v: L.Verdict) {
    var r := t.run(h, before.rows);
    if v == L.Pass then EndsWell(t, h, before.rows) && AllAllowed(before.rows, r.ops) && after == WithWrites(before, r.ops, h, t.hash)
    else after == before
  }

  lemma {:induction false} StepHolds(m: L.Mode, p: L.Params, h: Header, txs: seq<Tx>, i: nat, db: Db, late: nat -> bool)
    requires i < |txs|
    ensures var ss := StatesOf(m, p, h, txs, db, late);
            var v := T.Judgement(CaseOf(m, p, h, txs, ss, late), i);
            && StepIs(h, txs[i], ss[i], ss[i + 1], v)
            && var (d, c) := Before(m, p, h, txs, i, db, late);
               PlayOne(m, p, h, txs[i], d, c, late(i)).2 == v
  {
    hide L.Check, T.Judgement;
    var ss := StatesOf(m, p, h, txs, db, late);
    var (d, c) := Before(m, p, h, txs, i, db, late);
    CountersBefore(m, p, h, txs, i, db, late);
    T.VerdictIs(CaseOf(m, p, h, txs, ss, late), i);
    StepOf(m, p, h, txs[i], d, c, late(i));
    SucceedsIff(txs[i], h, d.rows);
  }

  lemma {:induction false} PlayBefore(m: L.Mode, p: L.Params, h: Header, txs: seq<Tx>, i: nat, db: Db, late: nat -> bool)
    requires i <= |txs|
    requires var c := CaseOf(m, p, h, txs, StatesOf(m, p, h, txs, db, late), late); forall j :: 0 <= j < i ==> T.Judgement(c, j) != L.Stop
    ensures var (d, c) := Before(m, p, h, txs, i, db, late);
            PlayFrom(m, p, h, txs, 0, db, L.Zero, late) == PlayFrom(m, p, h, txs, i, d, c, late)
    decreases i
  {
    hide PlayOne, T.Judgement, CaseOf, StepIs, StatesOf;
    if i > 0 {
      var c := CaseOf(m, p, h, txs, StatesOf(m, p, h, txs, db, late), late);
      PlayBefore(m, p, h, txs, i - 1, db, late);
      StepHolds(m, p, h, txs, i - 1, db, late);
      assert T.Judgement(c, i - 1) != L.Stop;
    }
  }

  /** The main result: Play goes through the states `ss`. Before the stop, a transaction
      takes the tables to those with its writes if its run ends well and its sums and
      counts fit the limits, and leaves them otherwise; the loop ends at the first
      transaction that the limits stop, or at the end. */
  lemma {:induction false} PlayMeans(m: L.Mode, p: L.Params, h: Header, txs: seq<Tx>, db: Db, late: nat -> bool) returns (ss: seq<Db>)
    ensures |ss| == |txs| + 1 && ss[0] == db
    ensures var c, (db', k) := CaseOf(m, p, h, txs, ss, late), PlayFrom(m, p, h, txs, 0, db, L.Zero, late);
            && db' == ss[k]
            && (forall i :: 0 <= i < k ==> T.Judgement(c, i) != L.Stop)
            && (k < |txs| ==> T.Judgement(c, k) == L.Stop)
    ensures forall i :: 0 <= i < |txs| ==> StepIs(h, txs[i], ss[i], ss[i + 1], T.Judgement(CaseOf(m, p, h, txs, ss, late), i))
  {
    hide PlayOne, T.Judgement, CaseOf, StepIs, Before;
    ss := StatesOf(m, p, h, txs, db, late);
    StartsWith(m, p, h, txs, db, late);
    var c := CaseOf(m, p, h, txs, ss, late);
    forall i | 0 <= i < |txs| ensures StepIs(h, txs[i], ss[i], ss[i + 1], T.Judgement(c, i)) { StepHolds(m, p, h, txs, i, db, late); }
    var k := 0;
    while k < |txs| && T.Judgement(c, k) != L.Stop
      invariant k <= |txs| && forall i :: 0 <= i < k ==> T.Judgement(c, i) != L.Stop
    {
      k := k + 1;
    }
    PlayBefore(m, p, h, txs, k, db, late);
    if k < |txs| { StepHolds(m, p, h, txs, k, db, late); }
  }

  lemma StartsWith(m: L.Mode, p: L.Params, h: Header, txs: seq<Tx>, db: Db, late: nat -> bool)
    ensures StatesOf(m, p, h, txs, db, late)[0] == db
  {
  }
}
