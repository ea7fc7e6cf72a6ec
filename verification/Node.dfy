/**
 The node's database as an object: the operations of packages/block,
 packages/rollback and packages/daemons change its fields step by step, with
 savepoints and loops, and each one is proved to do what the ledger says.
 */
module Node {
  import opened Wrappers
  import opened Tables
  import opened Chain
  import opened Ledger
  import L = Limits

  class Database {
    const cfg: Config
    var rows: Rows
    var undo: seq<Undo>
    var logged: set<TxHash>
    var chain: map<nat, Stored>
    var info: Info

    function Tables(): Db
      reads this
    {
      Db(rows, undo, logged)
    }

    function State(): Store
      reads this
    {
      Store(Tables(), chain, info)
    }

    constructor (c: Config, st: Store)
      ensures cfg == c && State() == st
    {
      cfg, rows, undo, logged, chain, info := c, st.db.rows, st.db.undo, st.db.logged, st.chain, st.info;
    }

    // ----- writing with an undo record -----

    method Write(op: Op, block: nat, hash: TxHash) returns (ok: bool)
      modifies this`rows, this`undo
      ensures ok == Allowed(old(rows), op)
      ensures ok ==> rows == Apply(old(rows), op) && undo == old(undo) + [Record(old(rows), op, block, hash)]
      ensures !ok ==> rows == old(rows) && undo == old(undo)
    {
      var a := Locate(op.table, op.id);
      match op {
        case Insert(t, id, row) =>
          if a in rows { return false; }
          undo := undo + [Undo(block, hash, t, id, None)];
          rows := rows[a := row];
        case Update(t, id, change) =>
          if a !in rows || change == map[] || !(change.Keys <= rows[a].Keys) { return false; }
          var data := map c | c in change :: Logged(ByteColumn(t.name, c), rows[a][c]);
          undo := undo + [Undo(block, hash, t, id, Some(data))];
          rows := rows[a := rows[a] + change];
      }
      return true;
    }

    /** A contract runs: its writes take effect one by one until one of them, or
        the contract itself, fails. What a failed run wrote stays. */
    method Execute(t: Tx, h: Header) returns (ok: bool, fuel: nat)
      modifies this`rows, this`undo
      ensures ok == Succeeds(t, h, old(rows)) && fuel == t.run(h, old(rows)).fuel
      ensures ok ==> var ops := t.run(h, old(rows)).ops;
                     rows == ApplyAll(old(rows), ops) && undo == old(undo) + Records(old(rows), ops, h.id, t.hash)
    {
      var r := t.run(h, rows);
      ok, fuel := true, r.fuel;
      var j := 0;
      while j < |r.ops|
        invariant j <= |r.ops|
        invariant AllAllowed(rows, r.ops[j..]) == AllAllowed(old(rows), r.ops)
        invariant AllAllowed(old(rows), r.ops) ==>
                  ApplyAll(rows, r.ops[j..]) == ApplyAll(old(rows), r.ops) &&
                  undo + Records(rows, r.ops[j..], h.id, t.hash) == old(undo) + Records(old(rows), r.ops, h.id, t.hash)
      {
        hide Allowed, Apply, Record;
        assert r.ops[j..][0] == r.ops[j] && r.ops[j..][1..] == r.ops[j + 1..];
        ghost var was, log := rows, undo;
        ok := Write(r.ops[j], h.id, t.hash);
        if !ok { return; }
        if AllAllowed(old(rows), r.ops) {
          var u, later := Record(was, r.ops[j], h.id, t.hash), Records(rows, r.ops[j + 1..], h.id, t.hash);
          assert log + ([u] + later) == undo + later;
        }
        j := j + 1;
      }
      assert r.ops[j..] == [];
      ok := r.ok;
    }

    /** One transaction under a savepoint: it is kept, or everything it wrote is rolled back. */
    method PlayTx(t: Tx, h: Header, limits: L.Limiter, late: bool) returns (v: L.Verdict, clash: bool)
      requires limits.params == cfg.params
      modifies this`rows, this`undo, this`logged, limits
      ensures var (db, c, w) := PlayOne(limits.mode, cfg.params, h, t, old(Tables()), old(limits.Counted()), late);
              v == w && limits.Counted() == c && clash == (w == L.Pass && t.hash in old(logged)) && (!clash ==> Tables() == db) && (w == L.Stop ==> db == old(Tables()))
    {
      hide L.Check, ApplyAll, Records;
      var savedRows, savedUndo := rows, undo;
      var done, fuel := Execute(t, h);
      v, clash := L.Reject, false;
      if done { v := limits.CheckLimit(View(t), fuel, late); }
      if v == L.Pass {
        clash := t.hash in logged;
        logged := logged + {t.hash};
      } else {
        rows, undo := savedRows, savedUndo;
      }
    }

    /** Play: every transaction runs under a savepoint; one that fails or is
        refused is rolled back to it. `k` is the number of transactions that the block
        keeps; the log of transactions takes no hash twice. */
    method Play(h: Header, txs: seq<Tx>, gen: bool, late: nat -> bool) returns (ok: bool, k: nat)
      modifies this`rows, this`undo, this`logged
      ensures ok == !Clashes(if gen then L.Generate else L.Parse, cfg.params, h, txs, 0, old(Tables()), L.Zero, late)
      ensures ok ==>
                (Tables(), k) == PlayFrom(if gen then L.Generate else L.Parse, cfg.params, h, txs, 0, old(Tables()), L.Zero, late)
    {
      hide PlayOne;
      var mode := if gen then L.Generate else L.Parse;
      var limits := new L.Limiter(mode, cfg.params);
      k := 0;
      while k < |txs|
        invariant k <= |txs| && limits.mode == mode && limits.params == cfg.params
        invariant PlayFrom(mode, cfg.params, h, txs, k, Tables(), limits.Counted(), late) ==
                  PlayFrom(mode, cfg.params, h, txs, 0, old(Tables()), L.Zero, late)
        invariant Clashes(mode, cfg.params, h, txs, k, Tables(), limits.Counted(), late) ==
                  Clashes(mode, cfg.params, h, txs, 0, old(Tables()), L.Zero, late)
      {
        var v, clash := PlayTx(txs[k], h, limits, late(k));
        if clash { return false, k; }
        if v == L.Stop { return true, k; }
        k := k + 1;
      }
      ok := true;
    }

    // ----- appending a block -----

    /** PlaySafe with the checks before it: the whole block or nothing. */
    method AppendBlock(b: Block, gen: bool, late: nat -> bool, valid: bool) returns (ok: bool)
      modifies this
      ensures ok == Append(cfg, old(State()), b, gen, late, valid).Some?
      ensures State() == if ok then Append(cfg, old(State()), b, gen, late, valid).value else old(State())
    {
      hide PlayFrom, Checked, SlotFree, NewFrom, Clashes;
      if !valid || b.header.id == 0 || b.header.id - 1 !in chain { return false; }
      if !SlotFree(cfg, chain, b) || !Checked(cfg, Tables(), b) { return false; }
      var savedRows, savedUndo, savedLog := rows, undo, logged;
      NewNeverClash(if gen then L.Generate else L.Parse, cfg.params, b.header, b.txs, 0, Tables(), L.Zero, late) by { CheckedNew(cfg, Tables(), b); }
      var _, k := Play(b.header, b.txs, gen, late);
      if k == 0 && b.txs != [] {
        rows, undo, logged := savedRows, savedUndo, savedLog;
        return false;
      }
      var b' := b.(txs := b.txs[..k]);
      var hash := cfg.digest(b', chain[b.header.id - 1].hash);
      info := Info(b.header, hash);
      chain := chain[b.header.id := Stored(b', hash, if gen then L.Generate else L.Parse)];
      return true;
    }

    // ----- rolling back -----

    /** rollbackTransaction: the records of the transaction from the last one back. */
    method RollbackTransaction(hash: TxHash)
      modifies this`rows, this`undo, this`logged
      ensures Tables() == RollbackTx(old(Tables()), hash)
    {
      hide UndoOne;
      var records, rest := [], [];
      for j := 0 to |undo|
        invariant Tables() == old(Tables())
        invariant records == OfTx(undo[..j], hash) && rest == NotOfTx(undo[..j], hash)
      {
        assert undo[..j + 1][..j] == undo[..j] && undo[..j + 1][j] == undo[j];
        if undo[j].hash == hash { records := records + [undo[j]]; } else { rest := rest + [undo[j]]; }
      }
      assert undo[..|undo|] == undo;
      assert records[..|records|] == records;
      for j := |records| downto 0
        invariant logged == old(logged)
        invariant UndoAll(rows, records[..j]) == UndoAll(old(rows), records)
      {
        assert records[..j + 1][..j] == records[..j];
        rows := UndoOne(rows, records[j]);
      }
      assert records[..0] == [] && UndoAll(rows, []) == rows;
      undo, logged := rest, logged - {hash};
    }

    /** rollbackBlock: the transactions of a block from the last one back. */
    method RollbackTransactions(txs: seq<Tx>)
      modifies this`rows, this`undo, this`logged
      ensures Tables() == RollbackTxs(old(Tables()), txs)
    {
      hide RollbackTx;
      assert txs[..|txs|] == txs;
      for j := |txs| downto 0
        invariant RollbackTxs(Tables(), txs[..j]) == RollbackTxs(old(Tables()), txs)
      {
        assert txs[..j + 1][..j] == txs[..j];
        RollbackTransaction(txs[j].hash);
      }
      assert txs[..0] == [];
    }

    /** ToBlockID: blocks above `k` are rolled back and deleted in batches of a
        thousand, the highest first; then the record of the last block is set. */
    method ToBlockID(k: nat) returns (ok: bool)
      requires Contiguous(State()) && k >= 1
      modifies this
      ensures ok == (k <= Tip(old(State())))
      ensures State() == if ok then ToBlock(old(State()), k) else old(State())
    {
      hide RollbackTxs;
      var n := info.header.id;
      ghost var n0, chain0, db0 := n, chain, Tables();
      while n > k
        invariant n <= n0 && info == old(info) && (n0 > k ==> n >= k) && (n0 <= k ==> n == n0)
        invariant forall i :: i in chain <==> i in chain0 && i <= n
        invariant forall i :: i in chain ==> chain[i] == chain0[i]
        invariant n0 > k ==> RollDown(Tables(), chain0, n, k) == RollDown(db0, chain0, n0, k)
        invariant n0 <= k ==> Tables() == db0
      {
        var batch := if n - k < 1000 then n - k else 1000;
        var low := n - batch;
        while n > low
          invariant k <= low <= n <= n0 && info == old(info)
          invariant forall i :: i in chain <==> i in chain0 && i <= n
          invariant forall i :: i in chain ==> chain[i] == chain0[i]
          invariant RollDown(Tables(), chain0, n, k) == RollDown(db0, chain0, n0, k)
        {
          RollbackTransactions(chain[n].block.txs);
          chain := chain - {n};
          n := n - 1;
        }
      }
      if k !in chain {
        assert chain == chain0;
        return false;
      }
      info := Info(chain[k].block.header, chain[k].hash);
      assert chain == Below(chain0, k);
      return true;
    }

    // ----- switching to another chain -----

    /** getBlocks: blocks from `from` down, until one is signed over our own
        predecessor, the supply ends or the limit is passed. */
    method CollectBlocks(received: seq<Block>, signed: seq<bool>, from: nat, limit: nat)
      returns (ok: bool, blocks: seq<Block>)
      requires |signed| == |received|
      ensures ok ==> |blocks| <= |received| && |blocks| <= limit + 1
      ensures ok ==> forall j :: 0 <= j < |blocks| ==> blocks[j] == received[j] && blocks[j].header.id == from - j >= 2
      ensures ok && from >= 2 ==> Collected(Reversed(blocks), from)
      ensures ok ==> forall j :: 0 <= j < |blocks| - 1 ==> !signed[j]
      ensures ok && |blocks| < |received| ==>
              from - |blocks| < 2 || |blocks| == limit + 1 || (blocks != [] && signed[|blocks| - 1])
      ensures !ok ==> exists j :: 0 <= j < |received| && WrongNumber(received, signed, from, limit, j)
    {
      hide Reversed, Collected, WrongNumber;
      blocks := [];
      var id: int, j, done := from, 0, false;
      while j < |received| && !done
        invariant j == |blocks| <= |received| && j <= limit + 1 && id == from - j
        invariant forall i :: 0 <= i < j ==> blocks[i] == received[i]
        invariant DownFrom(blocks, from)
        invariant forall i :: 0 <= i < j - 1 ==> !signed[i]
        invariant !done && j > 0 ==> !signed[j - 1]
        invariant done ==> from - j < 2 || j == limit + 1 || (j > 0 && signed[j - 1])
        decreases |received| - j, !done
      {
        if id < 2 || j > limit {
          done := true;
        } else {
          if received[j].header.id != id {
            WrongFound(received, signed, blocks, from, limit);
            return false, [];
          }
          blocks := blocks + [received[j]];
          done := signed[j];
          id := id - 1;
          j := j + 1;
        }
      }
      CollectedDown(blocks, from);
      return true, blocks;
    }

    /** GetBlocks and processBlocks for the blocks collected from block `from` down,
        the highest first. The old blocks are rolled back in any case. */
    method SwitchFork(from: nat, blocks: seq<Block>, valid: bool) returns (ok: bool)
      requires Contiguous(State()) && Collected(Reversed(blocks), from) && from <= Tip(State())
      modifies this
      ensures Forked(State(), ok) == Switch(cfg, old(State()), from, Reversed(blocks), valid)
    {
      hide RollDown, PlayNew, StoreNew, Reversed;
      ghost var bs := Reversed(blocks);
      ReversedFacts(blocks);
      var start := from;
      if blocks != [] {
        start := blocks[|blocks| - 1].header.id;
        assert bs[0] == blocks[|blocks| - 1] && bs[|bs| - 1] == blocks[0];
      }
      assert start == Start(bs, from);
      RollOldBlocks(info.header.id, start - 1);
      if blocks == [] { return true; }
      if !valid { return false; }
      ok := PlayNewBlocks(blocks);
      if ok { StoreNewBlocks(blocks, start, from); }
    }

    method RollOldBlocks(n: nat, k: nat)
      requires forall i :: k < i <= n ==> i in chain
      modifies this`rows, this`undo, this`logged
      ensures Tables() == RollDown(old(Tables()), chain, n, k)
    {
      hide RollbackTxs;
      var i := n;
      while i > k
        invariant n > k ==> k <= i <= n
        invariant n <= k ==> i == n
        invariant RollDown(Tables(), chain, i, k) == RollDown(old(Tables()), chain, n, k)
      {
        RollbackTransactions(chain[i].block.txs);
        i := i - 1;
      }
    }

    /** The checks and the play of the new blocks in one database transaction. */
    method PlayNewBlocks(blocks: seq<Block>) returns (ok: bool)
      modifies this`rows, this`undo, this`logged
      ensures ok == (SlotsFree(cfg, chain, Reversed(blocks)) && PlayNew(cfg, old(Tables()), old(Tables()), Reversed(blocks)).Some?)
      ensures Tables() == if ok then PlayNew(cfg, old(Tables()), old(Tables()), Reversed(blocks)).value else old(Tables())
    {
      hide PlayFrom, Clashes, Checked, PlayNew, Reversed, SlotFree;
      ghost var bs := Reversed(blocks);
      ReversedFacts(blocks);
      var committed := Tables();
      var i := |blocks|;
      assert bs[0..] == bs;
      while i > 0
        invariant 0 <= i <= |blocks|
        invariant PlayNew(cfg, committed, Tables(), bs[|blocks| - i..]) == PlayNew(cfg, committed, committed, bs)
        invariant SlotsFree(cfg, chain, bs[..|blocks| - i])
      {
        i := i - 1;
        var b := blocks[i];
        ghost var rest := bs[|blocks| - i - 1..];
        assert rest[0] == b && rest[1..] == bs[|blocks| - i..];
        PlayNewStep(cfg, committed, Tables(), rest);
        assert bs[..|blocks| - i] == bs[..|blocks| - i - 1] + [b] && bs[|blocks| - i - 1] == b;
        ok := SlotFree(cfg, chain, b) && Checked(cfg, committed, b);
        if ok {
          var played, _ := Play(b.header, b.txs, false, Never());
          ok := played;
        }
        if !ok {
          rows, undo, logged := committed.rows, committed.undo, committed.logged;
          return false;
        }
      }
      assert bs[|blocks|..] == [] && bs[..|blocks|] == bs;
      PlayNewStep(cfg, committed, Tables(), []);
      return true;
    }

    method StoreNewBlocks(blocks: seq<Block>, low: nat, top: nat)
      requires blocks != [] && low >= 1 && low - 1 in chain && top in chain
      modifies this`chain, this`info
      ensures chain == StoreNew(cfg, old(chain), old(chain)[low - 1].hash, Reversed(blocks))
      ensures top in chain && info == Info(blocks[0].header, chain[top].hash)
    {
      ghost var bs := Reversed(blocks);
      ReversedFacts(blocks);
      var hash := chain[low - 1].hash;
      ghost var goal := StoreNew(cfg, chain, hash, bs);
      StoredIsStored(cfg, chain, hash, bs);
      var i := |blocks|;
      assert bs[0..] == bs;
      while i > 0
        invariant 0 <= i <= |blocks|
        invariant StoreNew(cfg, chain, hash, bs[|blocks| - i..]) == goal
      {
        i := i - 1;
        var b := blocks[i];
        ghost var rest := bs[|blocks| - i - 1..];
        assert rest[0] == b && rest[1..] == bs[|blocks| - i..];
        hash := cfg.digest(b, hash);
        chain := chain[b.header.id := Stored(b, hash, L.Parse)];
      }
      assert bs[|blocks|..] == [];
      info := Info(blocks[0].header, chain[top].hash);
    }
  }

  function Reversed(bs: seq<Block>): seq<Block> {
    if bs == [] then [] else Reversed(bs[1..]) + [bs[0]]
  }

  lemma {:induction false} ReversedFacts(bs: seq<Block>)
    ensures |Reversed(bs)| == |bs|
    ensures forall j :: 0 <= j < |bs| ==> Reversed(bs)[j] == bs[|bs| - 1 - j]
  {
    if bs != [] {
      ReversedFacts(bs[1..]);
    }
  }

  /** Block `j` is still asked for and does not have the number that it should have. */
  predicate WrongNumber(received: seq<Block>, signed: seq<bool>, from: nat, limit: nat, j: nat)
    requires |signed| == |received|
  {
    && j < |received| && j <= limit && from - j >= 2 && received[j].header.id != from - j
    && forall i :: 0 <= i < j ==> !signed[i] && received[i].header.id == from - i
  }

  lemma WrongFound(received: seq<Block>, signed: seq<bool>, blocks: seq<Block>, from: nat, limit: nat)
    requires |signed| == |received| && |blocks| < |received| && |blocks| <= limit && from - |blocks| >= 2
    requires DownFrom(blocks, from) && forall i :: 0 <= i < |blocks| ==> blocks[i] == received[i] && !signed[i]
    requires received[|blocks|].header.id != from - |blocks|
    ensures WrongNumber(received, signed, from, limit, |blocks|)
  {
    forall i | 0 <= i < |blocks| ensures received[i].header.id == from - i { assert blocks[i] == received[i]; }
  }

  predicate DownFrom(bs: seq<Block>, from: nat) {
    forall j :: 0 <= j < |bs| ==> bs[j].header.id == from - j >= 2
  }

  lemma CollectedDown(bs: seq<Block>, from: nat)
    requires DownFrom(bs, from)
    ensures from >= 2 ==> Collected(Reversed(bs), from)
  {
    ReversedFacts(bs);
    if bs != [] { assert bs[|bs| - 1].header.id >= 2; }
  }
}
