/** When a node accepts a block, and what it stores. */
module Acceptance {
  import opened Wrappers
  import opened Tables
  import opened Chain
  import opened Ledger
  import L = Limits
  import T = LimitTotals
  import O = PlayOutcomes
  import S = Slots

  /** Stored times are not before the first block. */
  predicate Timed(cfg: Config, chain: map<nat, Stored>) {
    forall i :: i in chain ==> chain[i].block.header.time >= cfg.slots.start
  }

  /** No stored block of the same node lies in the slot of the block, one with the
      time of the first block aside. */
  predicate OwnSlot(cfg: Config, chain: map<nat, Stored>, h: Header) {
    h.time >= cfg.slots.start &&
    forall i :: i in chain && chain[i].block.header.node == h.node &&
                S.Queue(cfg.slots, chain[i].block.header.time) == S.Queue(cfg.slots, h.time) ==>
      chain[i].block.header.time == cfg.slots.start && cfg.slots.duration > 1
  }

  lemma {:induction false} SlotFreeIff(cfg: Config, chain: map<nat, Stored>, b: Block)
    requires Timed(cfg, chain)
    ensures SlotFree(cfg, chain, b) <==> OwnSlot(cfg, chain, b.header)
  {
    hide S.Queue, S.RangeByTime;
    if b.header.time >= cfg.slots.start {
      forall i | i in chain
        ensures S.Met(cfg.slots, StampOf(chain[i].block), StampOf(b)) <==>
                chain[i].block.header.node == b.header.node &&
                S.Queue(cfg.slots, chain[i].block.header.time) == S.Queue(cfg.slots, b.header.time) &&
                (chain[i].block.header.time > cfg.slots.start || cfg.slots.duration == 1)
      {
        S.RangeIsSlot(cfg.slots, b.header.time, chain[i].block.header.time);
      }
    }
  }

  /** The hashes of the block are new and all different, and no user has too many transactions. */
  ghost predicate Admissible(cfg: Config, logged: set<TxHash>, txs: seq<Tx>) {
    && (forall i :: 0 <= i < |txs| ==> txs[i].hash !in logged)
    && (forall i, j :: 0 <= i < j < |txs| ==> txs[i].hash != txs[j].hash)
    && (forall key: int :: |Own(txs, key)| <= cfg.params.maxUserTx || Own(txs, key) == {})
  }

  function Own(txs: seq<Tx>, key: int): set<nat> {
    set i: nat | i < |txs| && txs[i].key == key
  }

  lemma {:induction false} CheckedIff(cfg: Config, db: Db, b: Block)
    ensures Checked(cfg, db, b) <==> Admissible(cfg, db.logged, b.txs)
  {
    T.UsersFitIff(cfg.params, Views(b.txs));
    forall key: int ensures T.PositionsOf(Views(b.txs), key) == Own(b.txs, key) { }
  }

  /** The main result: a block is accepted if and only if the checks of clock and
      signature hold, its predecessor is stored, its node has not used the slot, its
      transactions are new and not too many of one user, and not already its first
      transaction stops the generation. */
  lemma {:induction false} AcceptedIff(cfg: Config, st: Store, b: Block, gen: bool, late: nat -> bool, valid: bool)
    requires Timed(cfg, st.chain)
    ensures Append(cfg, st, b, gen, late, valid).Some? <==>
            && valid && b.header.id > 0 && b.header.id - 1 in st.chain
            && OwnSlot(cfg, st.chain, b.header) && Admissible(cfg, st.db.logged, b.txs)
            && (b.txs == [] || !StopsAtFirst(cfg, st.db, b, gen, late))
  {
    hide S.Queue, S.RangeByTime, SlotFree, OwnSlot, Checked, Admissible, L.Check, Succeeds, O.EndsWell;
    SlotFreeIff(cfg, st.chain, b);
    CheckedIff(cfg, st.db, b);
    if b.txs != [] { FirstStops(cfg, st.db, b, gen, late); }
  }

  /** The first transaction runs to its end, and time or fuel is up. */
  ghost predicate StopsAtFirst(cfg: Config, db: Db, b: Block, gen: bool, late: nat -> bool)
    requires b.txs != []
  {
    var t, r := b.txs[0], b.txs[0].run(b.header, db.rows);
    gen && O.EndsWell(t, b.header, db.rows) && (late(0) || (r.fuel <= cfg.params.maxTxFuel && r.fuel > cfg.params.maxBlockFuel))
  }

  lemma {:induction false} FirstStops(cfg: Config, db: Db, b: Block, gen: bool, late: nat -> bool)
    requires b.txs != []
    ensures PlayFrom(if gen then L.Generate else L.Parse, cfg.params, b.header, b.txs, 0, db, L.Zero, late).1 == 0 <==>
            StopsAtFirst(cfg, db, b, gen, late)
  {
    hide L.CheckShape;
    var m := if gen then L.Generate else L.Parse;
    O.SucceedsIff(b.txs[0], b.header, db.rows);
    ShapeNeverStops(cfg.params, L.Zero, View(b.txs[0]));
    assert PlayFrom(m, cfg.params, b.header, b.txs, 0, db, L.Zero, late).1 == 0 <==>
           PlayOne(m, cfg.params, b.header, b.txs[0], db, L.Zero, late(0)).2 == L.Stop;
  }

  /** What is stored is the block, cut where the limits stopped it, with its hash over
      the stored hash of the predecessor; every other block stays. */
  lemma {:induction false} AcceptedIsStored(cfg: Config, st: Store, b: Block, gen: bool, late: nat -> bool, valid: bool)
    requires Append(cfg, st, b, gen, late, valid).Some?
    ensures var st', id := Append(cfg, st, b, gen, late, valid).value, b.header.id;
            && id > 0 && id - 1 in st.chain && st'.chain.Keys == st.chain.Keys + {id}
            && (forall i :: i in st.chain && i != id ==> st'.chain[i] == st.chain[i])
            && var s := st'.chain[id];
               && s.block.header == b.header && |s.block.txs| <= |b.txs| && s.block.txs == b.txs[..|s.block.txs|]
               && (!gen ==> s.block.txs == b.txs)
               && s.hash == cfg.digest(s.block, st.chain[id - 1].hash)
               && st'.info == Info(b.header, s.hash)
  {
    hide SlotFree, Checked, PlayOne;
    if !gen {
      ParsingNeverStops(cfg.params, b.header, b.txs, 0, st.db, L.Zero, late);
      assert b.txs[..|b.txs|] == b.txs;
    }
  }

  // ----- a switch -----

  /** The tables after the first `j` of the new blocks. */
  function Through(cfg: Config, db: Db, bs: seq<Block>, j: nat): Db
    requires j <= |bs|
  {
    if j == 0 then db else PlayBlock(L.Parse, cfg.params, Through(cfg, db, bs, j - 1), bs[j - 1])
  }

  /** The transactions that a new block keeps. */
  function Keeps(cfg: Config, db: Db, b: Block): seq<Tx> {
    PassedFrom(L.Parse, cfg.params, b.header, b.txs, 0, db, L.Zero, Never())
  }

  /** The checks of a new block: its own transactions against the tables to which the fork
      has rolled back, and those it keeps against the blocks in front of it. */
  ghost predicate Fits(cfg: Config, committed: Db, db: Db, b: Block) {
    Admissible(cfg, committed.logged, b.txs) && NewHashes(db, Keeps(cfg, db, b))
  }

  lemma {:induction false} ThroughFirst(cfg: Config, db: Db, bs: seq<Block>, j: nat)
    requires 0 < j <= |bs|
    ensures Through(cfg, db, bs, j) == Through(cfg, PlayBlock(L.Parse, cfg.params, db, bs[0]), bs[1..], j - 1)
    decreases j
  {
    hide PlayBlock;
    if j > 1 { ThroughFirst(cfg, db, bs, j - 1); }
  }

  lemma {:induction false} PlayNewIff(cfg: Config, committed: Db, db: Db, bs: seq<Block>)
    ensures PlayNew(cfg, committed, db, bs).Some? <==>
            forall j :: 0 <= j < |bs| ==> Fits(cfg, committed, Through(cfg, db, bs, j), bs[j])
    decreases |bs|
  {
    hide PlayBlock, Checked, Clashes, Fits, Through, PlayNew, Keeps;
    PlayNewStep(cfg, committed, db, bs);
    if bs != [] {
      var b, db1, rest := bs[0], PlayBlock(L.Parse, cfg.params, db, bs[0]), bs[1..];
      ThroughNone(cfg, db, bs);
      FitsIff(cfg, committed, db, b);
      PlayNewIff(cfg, committed, db1, rest);
      forall j | 0 <= j < |rest| ensures Through(cfg, db1, rest, j) == Through(cfg, db, bs, j + 1) && rest[j] == bs[j + 1] {
        ThroughFirst(cfg, db, bs, j + 1);
      }
      if forall j :: 0 <= j < |bs| ==> Fits(cfg, committed, Through(cfg, db, bs, j), bs[j]) {
        forall j | 0 <= j < |rest| ensures Fits(cfg, committed, Through(cfg, db1, rest, j), rest[j]) {
          var k := j + 1;
          assert Fits(cfg, committed, Through(cfg, db, bs, k), bs[k]);
        }
      }
      if Fits(cfg, committed, db, b) && forall j :: 0 <= j < |rest| ==> Fits(cfg, committed, Through(cfg, db1, rest, j), rest[j]) {
        forall j | 0 <= j < |bs| ensures Fits(cfg, committed, Through(cfg, db, bs, j), bs[j]) {
          if j > 0 {
            var k := j - 1;
            assert Fits(cfg, committed, Through(cfg, db1, rest, k), rest[k]);
          }
        }
      }
    }
  }

  lemma ThroughNone(cfg: Config, db: Db, bs: seq<Block>)
    ensures Through(cfg, db, bs, 0) == db
  {
  }

  lemma {:induction false} FitsIff(cfg: Config, committed: Db, db: Db, b: Block)
    ensures Fits(cfg, committed, db, b) <==>
            Checked(cfg, committed, b) && !Clashes(L.Parse, cfg.params, b.header, b.txs, 0, db, L.Zero, Never())
  {
    hide Checked, Clashes, Admissible, NewHashes;
    CheckedIff(cfg, committed, b);
    ClashesIff(L.Parse, cfg.params, b.header, b.txs, 0, db, L.Zero, Never());
  }

  /** A switch succeeds if and only if clock and signatures are right, the node of every
      new block has not used its slot, and no new block brings a transaction that the
      tables behind the fork know, or keeps one that a new block in front of it has kept. */
  lemma {:induction false} SwitchedIff(cfg: Config, st: Store, from: nat, bs: seq<Block>, valid: bool)
    requires Contiguous(st) && Collected(bs, from) && from <= Tip(st) && bs != [] && Timed(cfg, st.chain)
    ensures var db := RollDown(st.db, st.chain, Tip(st), Start(bs, from) - 1);
            Switch(cfg, st, from, bs, valid).ok <==>
            && valid && (forall j :: 0 <= j < |bs| ==> OwnSlot(cfg, st.chain, bs[j].header))
            && (forall j :: 0 <= j < |bs| ==> Fits(cfg, db, Through(cfg, db, bs, j), bs[j]))
  {
    hide SlotFree, OwnSlot, Fits, Through, PlayNew, RollDown, Timed, StoreNew;
    var db := RollDown(st.db, st.chain, Tip(st), Start(bs, from) - 1);
    PlayNewIff(cfg, db, db, bs);
    forall j | 0 <= j < |bs| ensures SlotFree(cfg, st.chain, bs[j]) <==> OwnSlot(cfg, st.chain, bs[j].header) {
      SlotFreeIff(cfg, st.chain, bs[j]);
    }
  }
}
