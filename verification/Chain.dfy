/**
 The chain of blocks as a state machine over the database: playing a block under
 savepoints, appending it, rolling blocks back and replacing a suffix of the
 chain by the blocks of another node.
 */
module Chain {
  import opened Wrappers
  import opened Tables
  import L = Limits

  datatype Header = Header(id: nat, time: int, ecosystem: int, key: int, node: int)

  /** What a contract does when it runs: the writes it attempts and whether it ends without an error. */
  datatype TxRun = TxRun(ops: seq<Op>, ok: bool, fuel: nat)

  /** A contract transaction; its run depends on the block and on the rows it finds. */
  datatype Tx = Tx(hash: TxHash, key: int, ecosystem: int, size: nat, run: (Header, Rows) -> TxRun)

  datatype Block = Block(header: Header, txs: seq<Tx>)

  type Digest = int

  /** The tables that a played transaction changes: contract rows, the undo log
      and the log of transactions. */
  datatype Db = Db(rows: Rows, undo: seq<Undo>, logged: set<TxHash>)

  // ----- playing a block -----

  predicate Succeeds(t: Tx, h: Header, rows: Rows) {
    t.run(h, rows).ok && AllAllowed(rows, t.run(h, rows).ops)
  }

  function Kept(db: Db, t: Tx, h: Header): Db
    requires Succeeds(t, h, db.rows)
  {
    var ops := t.run(h, db.rows).ops;
    Db(ApplyAll(db.rows, ops), db.undo + Records(db.rows, ops, h.id, t.hash), db.logged + {t.hash})
  }

  function View(t: Tx): L.Tx {
    L.Tx(t.key, t.ecosystem, t.size, true)
  }

  function Views(txs: seq<Tx>): (vs: seq<L.Tx>)
    ensures |vs| == |txs| && forall i :: 0 <= i < |txs| ==> vs[i] == View(txs[i])
  {
    seq(|txs|, i requires 0 <= i < |txs| => View(txs[i]))
  }

  /** One transaction: the tables and the counters afterwards, and the verdict. */
  function PlayOne(m: L.Mode, p: L.Params, h: Header, t: Tx, db: Db, c: L.Counters, late: bool): (Db, L.Counters, L.Verdict) {
    if !Succeeds(t, h, db.rows) then (db, c, L.Reject)
    else
      var (c', v) := L.Check(m, p, c, View(t), t.run(h, db.rows).fuel, late);
      (if v == L.Pass then Kept(db, t, h) else db, c', v)
  }

  /** The loop of Play from transaction `i`: the tables, and how many transactions
      the block keeps. The loop ends early when a limiter asks to stop. */
  function PlayFrom(m: L.Mode, p: L.Params, h: Header, txs: seq<Tx>, i: nat, db: Db, c: L.Counters, late: nat -> bool): (r: (Db, nat))
    requires i <= |txs|
    ensures i <= r.1 <= |txs|
    decreases |txs| - i
  {
    if i == |txs| then (db, i)
    else
      var (db', c', v) := PlayOne(m, p, h, txs[i], db, c, late(i));
      if v == L.Stop then (db, i) else PlayFrom(m, p, h, txs, i + 1, db', c', late)
  }

  function Never(): nat -> bool {
    _ => false
  }

  /** The tables after a whole block. */
  function PlayBlock(m: L.Mode, p: L.Params, db: Db, b: Block): Db {
    PlayFrom(m, p, b.header, b.txs, 0, db, L.Zero, Never()).0
  }

  /** Nothing stops a block that is parsed. */
  lemma {:induction false} ParsingNeverStops(p: L.Params, h: Header, txs: seq<Tx>, i: nat, db: Db, c: L.Counters, late: nat -> bool)
    requires i <= |txs|
    ensures PlayFrom(L.Parse, p, h, txs, i, db, c, late).1 == |txs|
    ensures PlayFrom(L.Parse, p, h, txs, i, db, c, late) == PlayFrom(L.Parse, p, h, txs, i, db, c, Never())
    decreases |txs| - i
  {
    hide L.CheckShape, Succeeds, Kept;
    if i < |txs| {
      ShapeNeverStops(p, c, View(txs[i]));
      var (db', c', v) := PlayOne(L.Parse, p, h, txs[i], db, c, late(i));
      ParsingNeverStops(p, h, txs, i + 1, db', c', late);
    }
  }

  lemma ShapeNeverStops(p: L.Params, c: L.Counters, t: L.Tx)
    ensures L.CheckShape(L.Parse, p, c, t).1 != L.Stop
  {
  }

  /** The block that generation cuts at its stop count, played again from the
      start, keeps all its transactions and gives the same tables. */
  lemma {:induction false} CutBlockReplays(p: L.Params, h: Header, txs: seq<Tx>, i: nat, db: Db, c: L.Counters, late: nat -> bool)
    requires i <= |txs|
    ensures var (db', k) := PlayFrom(L.Generate, p, h, txs, i, db, c, late);
            PlayFrom(L.Generate, p, h, txs[..k], i, db, c, Never()) == (db', k)
    decreases |txs| - i
  {
    if i < |txs| {
      var (db1, c1, v) := PlayOne(L.Generate, p, h, txs[i], db, c, late(i));
      if v != L.Stop {
        var k := PlayFrom(L.Generate, p, h, txs, i, db, c, late).1;
        CutBlockReplays(p, h, txs, i + 1, db1, c1, late);
        assert txs[..k][i] == txs[i];
      }
    }
  }

  /** The transactions that pass both their run and the limiters, in order. */
  function PassedFrom(m: L.Mode, p: L.Params, h: Header, txs: seq<Tx>, i: nat, db: Db, c: L.Counters, late: nat -> bool): seq<Tx>
    requires i <= |txs|
    decreases |txs| - i
  {
    if i == |txs| then []
    else
      var (db', c', v) := PlayOne(m, p, h, txs[i], db, c, late(i));
      if v == L.Stop then []
      else (if v == L.Pass then [txs[i]] else []) + PassedFrom(m, p, h, txs, i + 1, db', c', late)
  }

  /** The transactions one after the other, with nothing around them. */
  function Fold(db: Db, h: Header, txs: seq<Tx>): Option<Db>
    decreases |txs|
  {
    if txs == [] then Some(db)
    else if !Succeeds(txs[0], h, db.rows) then None
    else Fold(Kept(db, txs[0], h), h, txs[1..])
  }

  /** Savepoints, failed runs and refused transactions leave no trace: the tables
      are the plain fold of the transactions that passed. */
  lemma {:induction false} PlayIsFold(m: L.Mode, p: L.Params, h: Header, txs: seq<Tx>, i: nat, db: Db, c: L.Counters, late: nat -> bool)
    requires i <= |txs|
    ensures Fold(db, h, PassedFrom(m, p, h, txs, i, db, c, late)) == Some(PlayFrom(m, p, h, txs, i, db, c, late).0)
    decreases |txs| - i
  {
    hide L.Check, Succeeds, Kept;
    if i < |txs| {
      var (db', c', v) := PlayOne(m, p, h, txs[i], db, c, late(i));
      if v != L.Stop {
        PlayIsFold(m, p, h, txs, i + 1, db', c', late);
        var rest := PassedFrom(m, p, h, txs, i + 1, db', c', late);
        if v == L.Pass { assert ([txs[i]] + rest)[1..] == rest; } else { assert [] + rest == rest; }
      }
    }
  }

  // ----- rolling a block back -----

  function RollbackTx(db: Db, hash: TxHash): Db {
    Db(UndoAll(db.rows, OfTx(db.undo, hash)), NotOfTx(db.undo, hash), db.logged - {hash})
  }

  /** The transactions of a block, the last one first. */
  function RollbackTxs(db: Db, txs: seq<Tx>): Db
    decreases |txs|
  {
    if txs == [] then db else RollbackTxs(RollbackTx(db, txs[|txs| - 1].hash), txs[..|txs| - 1])
  }

  /** Every undo record belongs to a logged transaction. */
  predicate UndoLogged(db: Db) {
    forall k :: 0 <= k < |db.undo| ==> db.undo[k].hash in db.logged
  }

  /** The transactions are new and different from each other, as Check demands. */
  predicate NewHashes(db: Db, txs: seq<Tx>) {
    && (forall i :: 0 <= i < |txs| ==> txs[i].hash !in db.logged)
    && (forall i, j :: 0 <= i < j < |txs| ==> txs[i].hash != txs[j].hash)
  }

  /** A transaction that the loop keeps is already in the log of transactions, which makes Play fail. */
  predicate Clashes(m: L.Mode, p: L.Params, h: Header, txs: seq<Tx>, i: nat, db: Db, c: L.Counters, late: nat -> bool)
    requires i <= |txs|
    decreases |txs| - i
  {
    i < |txs| &&
    var (db', c', v) := PlayOne(m, p, h, txs[i], db, c, late(i));
    v != L.Stop && ((v == L.Pass && txs[i].hash in db.logged) || Clashes(m, p, h, txs, i + 1, db', c', late))
  }

  /** The hashes from `i` on are new. */
  predicate NewFrom(logged: set<TxHash>, txs: seq<Tx>, i: nat) {
    && (forall j :: i <= j < |txs| ==> txs[j].hash !in logged)
    && (forall j, k :: i <= j < k < |txs| ==> txs[j].hash != txs[k].hash)
  }

  /** The log refuses a block if and only if a transaction that it would keep is in the log
      already or comes twice. */
  lemma {:induction false} ClashesIff(m: L.Mode, p: L.Params, h: Header, txs: seq<Tx>, i: nat, db: Db, c: L.Counters, late: nat -> bool)
    requires i <= |txs|
    ensures Clashes(m, p, h, txs, i, db, c, late) <==> !NewHashes(db, PassedFrom(m, p, h, txs, i, db, c, late))
    decreases |txs| - i
  {
    hide L.Check, Succeeds, NewHashes;
    if i == |txs| {
      NewFirst(db, db, []);
    } else {
      var (db', c', v) := PlayOne(m, p, h, txs[i], db, c, late(i));
      var rest := PassedFrom(m, p, h, txs, i + 1, db', c', late);
      if v == L.Stop {
        NewFirst(db, db, []);
      } else {
        ClashesIff(m, p, h, txs, i + 1, db', c', late);
        if v == L.Pass { NewFirst(db, db', [txs[i]] + rest); } else { assert [] + rest == rest; }
      }
    }
  }

  lemma NewFirst(db: Db, db': Db, txs: seq<Tx>)
    requires txs != [] ==> db'.logged == db.logged + {txs[0].hash}
    ensures txs == [] ==> NewHashes(db, txs)
    ensures txs != [] ==> (NewHashes(db, txs) <==> txs[0].hash !in db.logged && NewHashes(db', txs[1..]))
  {
    if txs != [] && txs[0].hash !in db.logged && NewHashes(db', txs[1..]) {
      assert forall k :: 0 < k < |txs| ==> txs[k] == txs[1..][k - 1];
    }
    if txs != [] && NewHashes(db, txs) {
      assert forall k :: 0 <= k < |txs[1..]| ==> txs[1..][k] == txs[k + 1];
    }
  }

  /** What has passed the check of the hashes cannot clash. */
  lemma {:induction false} NewNeverClash(m: L.Mode, p: L.Params, h: Header, txs: seq<Tx>, i: nat, db: Db, c: L.Counters, late: nat -> bool)
    requires i <= |txs| && NewFrom(db.logged, txs, i)
    ensures !Clashes(m, p, h, txs, i, db, c, late)
    decreases |txs| - i
  {
    hide L.Check, ApplyAll, Records;
    if i < |txs| {
      var (db', c', v) := PlayOne(m, p, h, txs[i], db, c, late(i));
      NewNeverClash(m, p, h, txs, i + 1, db', c', late);
    }
  }

  /** The cells that the kept transactions from `i` on write. */
  function TouchedFrom(m: L.Mode, p: L.Params, h: Header, txs: seq<Tx>, i: nat, db: Db, c: L.Counters): set<(Address, string)>
    requires i <= |txs|
    decreases |txs| - i
  {
    if i == |txs| then {}
    else
      var (db', c', v) := PlayOne(m, p, h, txs[i], db, c, false);
      if v == L.Stop then {}
      else (if v == L.Pass then Touched(txs[i].run(h, db.rows).ops) else {}) + TouchedFrom(m, p, h, txs, i + 1, db', c')
  }

  function TouchedBlock(m: L.Mode, p: L.Params, db: Db, b: Block): set<(Address, string)> {
    TouchedFrom(m, p, b.header, b.txs, 0, db, L.Zero)
  }

  /** The tables `db` as a rollback returns them when the cells `cells` were written since. */
  function WornDb(db: Db, cells: set<(Address, string)>): Db {
    db.(rows := Worn(db.rows, cells))
  }

  lemma {:induction false} RollbackFirst(db: Db, txs: seq<Tx>)
    requires txs != []
    ensures RollbackTxs(db, txs) == RollbackTx(RollbackTxs(db, txs[1..]), txs[0].hash)
    decreases |txs|
  {
    hide RollbackTx;
    if |txs| > 1 {
      var front := txs[..|txs| - 1];
      RollbackFirst(RollbackTx(db, txs[|txs| - 1].hash), front);
      assert txs[1..][..|txs| - 2] == front[1..];
    } else {
      assert txs[1..] == [] && txs[..0] == [];
    }
  }

  lemma {:induction false} RollbackKept(db: Db, t: Tx, h: Header, worn: set<(Address, string)>)
    requires Succeeds(t, h, db.rows) && UndoLogged(db) && t.hash !in db.logged
    ensures RollbackTx(WornDb(Kept(db, t, h), worn), t.hash) == WornDb(db, Touched(t.run(h, db.rows).ops) + worn)
  {
    hide Worn, UndoAll, ApplyAll, Touched, OfTx, NotOfTx;
    var ops := t.run(h, db.rows).ops;
    var rs := Records(db.rows, ops, h.id, t.hash);
    OfTxConcat(db.undo, rs, t.hash);
    OfTxNone(db.undo, t.hash);
    OfTxAll(rs, t.hash);
    assert [] + rs == rs && db.undo + [] == db.undo;
    UndoExact(db.rows, ops, worn, h.id, t.hash);
    assert db.logged + {t.hash} - {t.hash} == db.logged;
  }

  lemma {:induction false} RollbackAbsent(db: Db, hash: TxHash)
    requires UndoLogged(db) && hash !in db.logged
    ensures RollbackTx(db, hash) == db
  {
    OfTxNone(db.undo, hash);
    assert db.logged - {hash} == db.logged;
  }

  lemma KeptLogged(db: Db, t: Tx, h: Header)
    requires Succeeds(t, h, db.rows) && UndoLogged(db)
    ensures UndoLogged(Kept(db, t, h))
  {
    hide ApplyAll;
  }

  /** Rolling back the transactions of a block, failed ones included, undoes what
      playing them did: the undo log and the transaction log are exactly as
      before, and so are the rows but for the wear of the cells written. */
  lemma {:induction false} RollbackPlayed(m: L.Mode, p: L.Params, h: Header, txs: seq<Tx>, i: nat, db: Db, c: L.Counters, worn: set<(Address, string)>)
    requires i <= |txs| && UndoLogged(db)
    requires NewHashes(db, txs[i..])
    requires PlayFrom(m, p, h, txs, i, db, c, Never()).1 == |txs|
    ensures var db' := PlayFrom(m, p, h, txs, i, db, c, Never()).0;
            RollbackTxs(WornDb(db', worn), txs[i..]) == WornDb(db, TouchedFrom(m, p, h, txs, i, db, c) + worn)
    ensures UndoLogged(PlayFrom(m, p, h, txs, i, db, c, Never()).0)
    decreases |txs| - i
  {
    hide Worn, RollbackTx, Kept, L.Check, Succeeds;
    if i == |txs| {
      assert txs[i..] == [] && {} + worn == worn;
    } else {
      var t := txs[i];
      var (db1, c1, v) := PlayOne(m, p, h, t, db, c, false);
      if v == L.Pass { KeptLogged(db, t, h); }
      NewHashesNext(db, db1, txs, i, h, v == L.Pass);
      var later := TouchedFrom(m, p, h, txs, i + 1, db1, c1);
      RollbackPlayed(m, p, h, txs, i + 1, db1, c1, worn);
      var last := PlayFrom(m, p, h, txs, i, db, c, Never()).0;
      RollbackFirst(WornDb(last, worn), txs[i..]);
      assert txs[i..][1..] == txs[i + 1..] && txs[i..][0] == t;
      if v == L.Pass {
        RollbackKept(db, t, h, later + worn);
        assert Touched(t.run(h, db.rows).ops) + (later + worn) == Touched(t.run(h, db.rows).ops) + later + worn;
      } else {
        assert {} + later + worn == later + worn;
        RollbackAbsent(WornDb(db, later + worn), t.hash);
      }
    }
  }

  lemma NewHashesNext(db: Db, db1: Db, txs: seq<Tx>, i: nat, h: Header, kept: bool)
    requires i < |txs| && NewHashes(db, txs[i..])
    requires if kept then Succeeds(txs[i], h, db.rows) && db1 == Kept(db, txs[i], h) else db1 == db
    ensures NewHashes(db1, txs[i + 1..]) && txs[i].hash !in db.logged
  {
    hide ApplyAll, AllAllowed;
    var s := txs[i..];
    assert txs[i + 1..] == s[1..];
    assert s[0] == txs[i];
  }

  /** A block rolled back right after it was played. */
  lemma {:induction false} RollbackBlockExact(m: L.Mode, p: L.Params, db: Db, b: Block, worn: set<(Address, string)>)
    requires UndoLogged(db) && NewHashes(db, b.txs)
    requires PlayFrom(m, p, b.header, b.txs, 0, db, L.Zero, Never()).1 == |b.txs|
    ensures RollbackTxs(WornDb(PlayBlock(m, p, db, b), worn), b.txs) == WornDb(db, TouchedBlock(m, p, db, b) + worn)
    ensures UndoLogged(PlayBlock(m, p, db, b))
  {
    hide PlayFrom, TouchedFrom, Worn, RollbackTxs;
    assert b.txs[0..] == b.txs;
    RollbackPlayed(m, p, b.header, b.txs, 0, db, L.Zero, worn);
  }

  // ----- when a rolled back block leaves what it found -----

  function Hashes(txs: seq<Tx>): set<TxHash> {
    set i | 0 <= i < |txs| :: txs[i].hash
  }

  predicate Distinct(txs: seq<Tx>) {
    forall i, j :: 0 <= i < j < |txs| ==> txs[i].hash != txs[j].hash
  }

  /** The records of transactions other than the given ones. */
  function Others(log: seq<Undo>, hashes: set<TxHash>): seq<Undo> {
    if log == [] then []
    else Others(log[..|log| - 1], hashes) + if log[|log| - 1].hash in hashes then [] else [log[|log| - 1]]
  }

  lemma {:induction false} OthersConcat(x: seq<Undo>, y: seq<Undo>, hashes: set<TxHash>)
    ensures Others(x + y, hashes) == Others(x, hashes) + Others(y, hashes)
    decreases |y|
  {
    if y == [] {
      assert x + y == x;
    } else {
      assert (x + y)[..|x + y| - 1] == x + y[..|y| - 1];
      OthersConcat(x, y[..|y| - 1], hashes);
    }
  }

  lemma {:induction false} OthersNone(log: seq<Undo>, hashes: set<TxHash>)
    requires forall k :: 0 <= k < |log| ==> log[k].hash in hashes
    ensures Others(log, hashes) == []
    decreases |log|
  {
    if log != [] { OthersNone(log[..|log| - 1], hashes); }
  }

  predicate NoneOf(log: seq<Undo>, hashes: set<TxHash>) {
    forall k :: 0 <= k < |log| ==> log[k].hash !in hashes
  }

  lemma {:induction false} OthersSame(log: seq<Undo>, hashes: set<TxHash>)
    ensures |Others(log, hashes)| <= |log| && (Others(log, hashes) == log <==> NoneOf(log, hashes))
    decreases |log|
  {
    if log != [] {
      var front, u := log[..|log| - 1], log[|log| - 1];
      OthersSame(front, hashes);
      NoneOfLast(log, hashes);
      assert log == front + [u];
      hide NoneOf;
      if u.hash !in hashes { assert (Others(front, hashes) + [u])[..|Others(front, hashes)|] == Others(front, hashes); }
    }
  }

  lemma NoneOfLast(log: seq<Undo>, hashes: set<TxHash>)
    requires log != []
    ensures NoneOf(log, hashes) <==> NoneOf(log[..|log| - 1], hashes) && log[|log| - 1].hash !in hashes
  {
    if NoneOf(log[..|log| - 1], hashes) {
      assert forall k :: 0 <= k < |log| - 1 ==> log[k] == log[..|log| - 1][k];
    }
  }

  lemma {:induction false} NotOfTxOthers(log: seq<Undo>, hash: TxHash, hashes: set<TxHash>)
    ensures Others(NotOfTx(log, hash), hashes) == Others(log, hashes + {hash})
    decreases |log|
  {
    if log != [] {
      var u := log[|log| - 1];
      NotOfTxOthers(log[..|log| - 1], hash, hashes);
      OthersConcat(NotOfTx(log[..|log| - 1], hash), if u.hash != hash then [u] else [], hashes);
      if u.hash != hash { assert [u][..0] == []; }
    }
  }

  /** Rolling back a list of transactions removes their records and log entries, whoever wrote them. */
  lemma {:induction false} RollbackRemoves(db: Db, txs: seq<Tx>)
    ensures RollbackTxs(db, txs).logged == db.logged - Hashes(txs)
    ensures RollbackTxs(db, txs).undo == Others(db.undo, Hashes(txs))
    decreases |txs|
  {
    hide UndoAll, OfTx;
    if txs == [] {
      OthersSame(db.undo, Hashes(txs));
    } else {
      var front, h := txs[..|txs| - 1], txs[|txs| - 1].hash;
      RollbackRemoves(RollbackTx(db, h), front);
      NotOfTxOthers(db.undo, h, Hashes(front));
      assert Hashes(txs) == Hashes(front) + {h} by {
        assert forall i :: 0 <= i < |front| ==> front[i] == txs[i];
      }
    }
  }

  /** What playing adds to the two logs belongs to the transactions of the block. */
  lemma {:induction false} PlayAdds(m: L.Mode, p: L.Params, h: Header, txs: seq<Tx>, i: nat, db: Db, c: L.Counters, late: nat -> bool)
    returns (more: seq<Undo>)
    requires i <= |txs|
    ensures var db' := PlayFrom(m, p, h, txs, i, db, c, late).0;
            db'.undo == db.undo + more && (forall k :: 0 <= k < |more| ==> more[k].hash in Hashes(txs)) &&
            db.logged <= db'.logged <= db.logged + Hashes(txs)
    decreases |txs| - i
  {
    hide L.Check, ApplyAll;
    more := [];
    if i < |txs| {
      var t := txs[i];
      assert t.hash in Hashes(txs);
      var (db1, c1, v) := PlayOne(m, p, h, t, db, c, late(i));
      if v != L.Stop {
        more := PlayAdds(m, p, h, txs, i + 1, db1, c1, late);
        if v == L.Pass {
          var rs := Records(db.rows, t.run(h, db.rows).ops, h.id, t.hash);
          assert db.undo + rs + more == db.undo + (rs + more);
          more := rs + more;
        }
      }
    }
  }

  /** A played block that is rolled back leaves the log of transactions as it was if
      and only if none of its transactions was logged before, and the undo log if
      and only if it held no record of theirs. */
  lemma {:induction false} RollbackLogsIff(m: L.Mode, p: L.Params, db: Db, b: Block)
    ensures var r := RollbackTxs(PlayBlock(m, p, db, b), b.txs);
            && (r.logged == db.logged <==> db.logged !! Hashes(b.txs))
            && (r.undo == db.undo <==> NoneOf(db.undo, Hashes(b.txs)))
  {
    hide PlayFrom, RollbackTxs, Hashes, Others, NoneOf;
    RollbackRemoves(PlayBlock(m, p, db, b), b.txs);
    var more := PlayAdds(m, p, b.header, b.txs, 0, db, L.Zero, Never());
    OthersConcat(db.undo, more, Hashes(b.txs));
    OthersNone(more, Hashes(b.txs));
    OthersSame(db.undo, Hashes(b.txs));
    assert Others(db.undo, Hashes(b.txs)) + [] == Others(db.undo, Hashes(b.txs));
  }

  /** The whole state comes back, up to the wear of the cells written, if and only
      if none of the transactions was logged before. */
  lemma {:induction false} RollbackBlockIff(m: L.Mode, p: L.Params, db: Db, b: Block)
    requires UndoLogged(db) && Distinct(b.txs)
    requires PlayFrom(m, p, b.header, b.txs, 0, db, L.Zero, Never()).1 == |b.txs|
    ensures RollbackTxs(PlayBlock(m, p, db, b), b.txs) == WornDb(db, TouchedBlock(m, p, db, b)) <==> db.logged !! Hashes(b.txs)
  {
    hide PlayFrom, TouchedFrom, Worn, RollbackTxs, NoneOf;
    RollbackLogsIff(m, p, db, b);
    if db.logged !! Hashes(b.txs) {
      assert forall i :: 0 <= i < |b.txs| ==> b.txs[i].hash in Hashes(b.txs);
      RollbackBlockExact(m, p, db, b, {});
      WornNone(PlayBlock(m, p, db, b).rows);
      assert TouchedBlock(m, p, db, b) + {} == TouchedBlock(m, p, db, b);
    }
  }

  // ----- playing on worn rows -----

  /** The run of the transaction does not look at the given cells. */
  ghost predicate Blind(t: Tx, cells: set<(Address, string)>) {
    forall h: Header, rows: Rows, worn: set<(Address, string)> ::
      worn <= cells ==> t.run(h, Worn(rows, worn)) == t.run(h, rows)
  }

  ghost predicate AllBlind(txs: seq<Tx>, cells: set<(Address, string)>) {
    forall i :: 0 <= i < |txs| ==> Blind(txs[i], cells)
  }

  /** The state `w` differs from `db` in the wear of `cells` and in its undo log at most. */
  ghost predicate WornState(db: Db, w: Db, cells: set<(Address, string)>) {
    Inside(db.rows, cells) && w.rows == Worn(db.rows, cells) && w.logged == db.logged && |w.undo| == |db.undo|
  }

  lemma {:induction false} WornPlayOne(m: L.Mode, p: L.Params, h: Header, t: Tx, db: Db, w: Db, c: L.Counters, late: bool,
                                       cells: set<(Address, string)>, all: set<(Address, string)>)
    requires WornState(db, w, cells) && cells <= all && Blind(t, all)
    ensures var (db1, c1, v) := PlayOne(m, p, h, t, db, c, late);
            var (w1, c2, v') := PlayOne(m, p, h, t, w, c, late);
            var touched := if v == L.Pass then Touched(t.run(h, db.rows).ops) else {};
            && c1 == c2 && v == v' && WornState(db1, w1, cells - touched) && Inherited(db.rows, db1.rows, cells - touched)
            && (w1.undo == db1.undo <==> w.undo == db.undo && QuietCells(db.rows, cells * touched))
  {
    hide Worn, ApplyAll, AllAllowed, L.Check, QuietCells, Inherited, Inside;
    var ops := t.run(h, db.rows).ops;
    assert t.run(h, Worn(db.rows, cells)) == t.run(h, db.rows);
    WornAllowed(db.rows, ops, cells);
    NoWrites(db.rows, [], cells);
    NothingTouched(cells);
    var v := PlayOne(m, p, h, t, db, c, late).2;
    if v == L.Pass {
      WornWrites(db.rows, ops, cells, h.id, t.hash);
      InheritedInside(db.rows, ApplyAll(db.rows, ops), cells - Touched(ops));
      SameEnds(w.undo, Records(w.rows, ops, h.id, t.hash), db.undo, Records(db.rows, ops, h.id, t.hash));
    }
  }

  lemma NothingTouched(cells: set<(Address, string)>)
    ensures cells - Touched([]) == cells == cells - {} && cells * Touched([]) == cells * {}
  {
  }

  lemma SameEnds(x: seq<Undo>, xs: seq<Undo>, y: seq<Undo>, ys: seq<Undo>)
    requires |x| == |y|
    ensures x + xs == y + ys <==> x == y && xs == ys
  {
    if x + xs == y + ys {
      assert x == (x + xs)[..|x|] && y == (y + ys)[..|y|];
      assert xs == (x + xs)[|x|..] && ys == (y + ys)[|y|..];
    }
  }

  /** Blind transactions do the same on worn rows: same verdicts, same log of
      transactions, the cells they write unworn, and the same undo log exactly when
      the worn cells they write are quiet. */
  lemma {:induction false} WornPlayFrom(m: L.Mode, p: L.Params, h: Header, txs: seq<Tx>, i: nat, db: Db, w: Db, c: L.Counters,
                                        cells: set<(Address, string)>, all: set<(Address, string)>)
    requires i <= |txs| && WornState(db, w, cells) && cells <= all && AllBlind(txs, all)
    ensures var (db1, k) := PlayFrom(m, p, h, txs, i, db, c, Never());
            var (w1, k') := PlayFrom(m, p, h, txs, i, w, c, Never());
            var touched := TouchedFrom(m, p, h, txs, i, db, c);
            && k == k' && WornState(db1, w1, cells - touched) && Inherited(db.rows, db1.rows, cells - touched)
            && (w1.undo == db1.undo <==> w.undo == db.undo && QuietCells(db.rows, cells * touched))
    decreases |txs| - i
  {
    hide PlayOne, QuietCells, Inherited, Inside, Worn, Touched;
    if i == |txs| {
      NoWrites(db.rows, [], cells);
      NothingTouched(cells);
    } else {
      WornPlayOne(m, p, h, txs[i], db, w, c, false, cells, all);
      var (db1, c1, v) := PlayOne(m, p, h, txs[i], db, c, false);
      var w1 := PlayOne(m, p, h, txs[i], w, c, false).0;
      if v == L.Stop {
        NoWrites(db.rows, [], cells);
        NothingTouched(cells);
      } else {
        var t := if v == L.Pass then Touched(txs[i].run(h, db.rows).ops) else {};
        var u := TouchedFrom(m, p, h, txs, i + 1, db1, c1);
        WornPlayFrom(m, p, h, txs, i + 1, db1, w1, c1, cells - t, all);
        assert cells - t - u == cells - (t + u);
        InheritedChain(db.rows, db1.rows, PlayFrom(m, p, h, txs, i + 1, db1, c1, Never()).0.rows, cells - t, cells - t - u);
        SplitQuiet(db.rows, db1.rows, cells, t, u);
      }
    }
  }

  // ----- a generated block on another node -----

  /** The transactions are the first ones that preprocessing admitted of a queue. */
  predicate FromQueue(p: L.Params, cs: seq<L.Candidate>, txs: seq<Tx>) {
    |txs| <= |L.Admitted(p, cs)| && forall i :: 0 <= i < |txs| ==> L.Admitted(p, cs)[i] == View(txs[i])
  }

  /** Generation and parsing go through the same tables, transaction by transaction. */
  lemma {:induction false} SameTables(p: L.Params, cs: seq<L.Candidate>, h: Header, txs: seq<Tx>, i: nat, db: Db,
                                      g: L.Counters, a: L.Counters, os: seq<L.Run>)
    requires FromQueue(p, cs, txs) && i <= |txs| && |os| == i
    requires a == L.PlayCounters(L.Parse, p, L.Admitted(p, cs)[..i], os, Never()) && g.fuel == a.fuel
    requires PlayFrom(L.Generate, p, h, txs, i, db, g, Never()).1 == |txs|
    ensures PlayFrom(L.Parse, p, h, txs, i, db, a, Never()) == PlayFrom(L.Generate, p, h, txs, i, db, g, Never())
    decreases |txs| - i
  {
    hide L.Check, L.CheckShape, Kept, Succeeds;
    if i < |txs| {
      var t, adm := txs[i], L.Admitted(p, cs);
      var o := L.Run(Succeeds(t, h, db.rows), t.run(h, db.rows).fuel);
      L.AdmittedJudgedByFuel(p, cs, os, i, Never());
      L.SameFuelStep(p, g, a, View(t), o, false, false);
      var (db', g', v) := PlayOne(L.Generate, p, h, t, db, g, false);
      var a' := L.PlayStep(L.Parse, p, a, View(t), o, false).0;
      var os' := os + [o];
      assert adm[..i + 1][..i] == adm[..i] && adm[..i + 1][i] == View(t);
      CountersPrefix(p, adm[..i], os, [o]);
      SameTables(p, cs, h, txs, i + 1, db', g', a', os');
    }
  }

  lemma {:induction false} CountersPrefix(p: L.Params, txs: seq<L.Tx>, os: seq<L.Run>, more: seq<L.Run>)
    requires |txs| <= |os|
    ensures L.PlayCounters(L.Parse, p, txs, os + more, Never()) == L.PlayCounters(L.Parse, p, txs, os, Never())
    decreases |txs|
  {
    hide L.PlayStep;
    if txs != [] { CountersPrefix(p, txs[..|txs| - 1], os, more); }
  }

  /** A block generated from admitted transactions, cut where a limiter stopped
      it, gives every node that parses it the tables of the node that generated it. */
  lemma {:induction false} GeneratedBlockParses(p: L.Params, cs: seq<L.Candidate>, h: Header, txs: seq<Tx>, db: Db, late: nat -> bool)
    requires FromQueue(p, cs, txs)
    ensures var (db', k) := PlayFrom(L.Generate, p, h, txs, 0, db, L.Zero, late);
            PlayBlock(L.Parse, p, db, Block(h, txs[..k])) == db'
  {
    hide PlayFrom, L.PlayCounters;
    var k := PlayFrom(L.Generate, p, h, txs, 0, db, L.Zero, late).1;
    CutBlockReplays(p, h, txs, 0, db, L.Zero, late);
    NoCounters(p, L.Admitted(p, cs)[..0]);
    SameTables(p, cs, h, txs[..k], 0, db, L.Zero, L.Zero, []);
  }

  lemma NoCounters(p: L.Params, txs: seq<L.Tx>)
    requires txs == []
    ensures L.PlayCounters(L.Parse, p, txs, [], Never()) == L.Zero
  {
  }
}
