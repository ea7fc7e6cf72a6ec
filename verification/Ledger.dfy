/**
 The stored chain: block rows, the record of the last block and the tables that
 belong to them, under appends, rollbacks and fork switches in any order.
 */
module Ledger {
  import opened Wrappers
  import opened Tables
  import opened Chain
  import L = Limits
  import S = Slots

  /** `digest` is the double hash of the fields of a block with the hash of its predecessor. */
  datatype Config = Config(params: L.Params, digest: (Block, Digest) -> Digest, slots: S.Counter)

  /** A row of block_chain, and the mode in which its block was played here. */
  datatype Stored = Stored(block: Block, hash: Digest, mode: L.Mode)

  datatype Info = Info(header: Header, hash: Digest)

  datatype Store = Store(db: Db, chain: map<nat, Stored>, info: Info)

  function Tip(st: Store): nat {
    st.info.header.id
  }

  // ----- the operations -----

  /** The checks of transactions: none is repeated or logged, no user has too many. */
  predicate Checked(cfg: Config, db: Db, b: Block) {
    NewHashes(db, b.txs) && L.UsersFit(cfg.params, Views(b.txs))
  }

  function StampOf(b: Block): S.Stamp {
    S.Stamp(b.header.time, b.header.node)
  }

  function Stamps(bs: seq<Block>): seq<S.Stamp> {
    seq(|bs|, j requires 0 <= j < |bs| => StampOf(bs[j]))
  }

  /** The time of the block is not before the first block, and the query of its slot
      meets no stored block. */
  predicate SlotFree(cfg: Config, chain: map<nat, Stored>, b: Block) {
    b.header.time >= cfg.slots.start && forall i :: i in chain ==> !S.Met(cfg.slots, StampOf(chain[i].block), StampOf(b))
  }

  predicate SlotsFree(cfg: Config, chain: map<nat, Stored>, bs: seq<Block>) {
    forall j :: 0 <= j < |bs| ==> SlotFree(cfg, chain, bs[j])
  }

  /** Check, Play, UpdBlockInfo and InsertIntoBlockchain for one block. `valid`
      stands for the checks of the clock and of the signature. A generated block is
      cut where a limiter stopped it. */
  function Append(cfg: Config, st: Store, b: Block, gen: bool, late: nat -> bool, valid: bool): Option<Store> {
    var mode := if gen then L.Generate else L.Parse;
    if !valid || b.header.id == 0 || b.header.id - 1 !in st.chain || !SlotFree(cfg, st.chain, b) || !Checked(cfg, st.db, b) then None
    else
      var (db, k) := PlayFrom(mode, cfg.params, b.header, b.txs, 0, st.db, L.Zero, late);
      if k == 0 && b.txs != [] then None
      else
        var b' := b.(txs := b.txs[..k]);
        var hash := cfg.digest(b', st.chain[b.header.id - 1].hash);
        Some(Store(db, st.chain[b.header.id := Stored(b', hash, mode)], Info(b.header, hash)))
  }

  lemma CheckedNew(cfg: Config, db: Db, b: Block)
    requires Checked(cfg, db, b)
    ensures NewFrom(db.logged, b.txs, 0)
  {
  }

  /** The blocks above `k`, from `n` down, are rolled back. */
  function RollDown(db: Db, chain: map<nat, Stored>, n: nat, k: nat): Db
    requires forall i :: k < i <= n ==> i in chain
    decreases n
  {
    if n <= k then db else RollDown(RollbackTxs(db, chain[n].block.txs), chain, n - 1, k)
  }

  function Below(chain: map<nat, Stored>, k: nat): map<nat, Stored> {
    map i | i in chain && i <= k :: chain[i]
  }

  /** ToBlockID. */
  function ToBlock(st: Store, k: nat): Store
    requires Contiguous(st) && 1 <= k <= Tip(st)
  {
    Store(RollDown(st.db, st.chain, Tip(st), k), Below(st.chain, k), Info(st.chain[k].block.header, st.chain[k].hash))
  }

  /** The first loop of processBlocks: the new blocks, the lowest first, are
      checked against the committed log of transactions and played. */
  function PlayNew(cfg: Config, committed: Db, db: Db, bs: seq<Block>): Option<Db>
    decreases |bs|
  {
    if bs == [] then Some(db)
    else if !Checked(cfg, committed, bs[0]) then None
    else if Clashes(L.Parse, cfg.params, bs[0].header, bs[0].txs, 0, db, L.Zero, Never()) then None
    else PlayNew(cfg, committed, PlayBlock(L.Parse, cfg.params, db, bs[0]), bs[1..])
  }

  lemma PlayNewStep(cfg: Config, committed: Db, db: Db, bs: seq<Block>)
    ensures PlayNew(cfg, committed, db, bs) ==
            if bs == [] then Some(db)
            else if !Checked(cfg, committed, bs[0]) || Clashes(L.Parse, cfg.params, bs[0].header, bs[0].txs, 0, db, L.Zero, Never()) then None
            else PlayNew(cfg, committed, PlayBlock(L.Parse, cfg.params, db, bs[0]), bs[1..])
  {
    hide Checked, Clashes, PlayBlock;
  }

  /** The second loop: the rows are replaced, each hash built on the one below. */
  function StoreNew(cfg: Config, chain: map<nat, Stored>, prev: Digest, bs: seq<Block>): map<nat, Stored>
    decreases |bs|
  {
    if bs == [] then chain
    else
      var hash := cfg.digest(bs[0], prev);
      StoreNew(cfg, chain[bs[0].header.id := Stored(bs[0], hash, L.Parse)], hash, bs[1..])
  }

  lemma {:induction false} StoredIsStored(cfg: Config, chain: map<nat, Stored>, prev: Digest, bs: seq<Block>)
    ensures chain.Keys <= StoreNew(cfg, chain, prev, bs).Keys
    decreases |bs|
  {
    if bs != [] {
      var hash := cfg.digest(bs[0], prev);
      StoredIsStored(cfg, chain[bs[0].header.id := Stored(bs[0], hash, L.Parse)], hash, bs[1..]);
    }
  }

  /** The new blocks are numbered without a gap from `low` up to the tip. */
  predicate Numbered(bs: seq<Block>, low: nat) {
    forall j :: 0 <= j < |bs| ==> bs[j].header.id == low + j
  }

  /** What getBlocks delivers: blocks numbered without a gap that end with block `from`. */
  predicate Collected(bs: seq<Block>, from: nat) {
    2 <= from && |bs| < from && Numbered(bs, from + 1 - |bs|)
  }

  /** The first block that is rolled back; without new blocks it is `from` itself. */
  function Start(bs: seq<Block>, from: nat): (n: nat)
    requires Collected(bs, from)
    ensures 2 <= n <= from
  {
    if bs == [] then from else from + 1 - |bs|
  }

  datatype Forked = Forked(st: Store, ok: bool)

  /** GetBlocks and processBlocks with the blocks `bs`, the lowest first. The old
      blocks are rolled back before the new ones are looked at, and stay rolled back
      when the new ones fail; their rows are replaced only in the end, so the slots
      of the new blocks are compared with those of the old ones. */
  function Switch(cfg: Config, st: Store, from: nat, bs: seq<Block>, valid: bool): Forked
    requires Contiguous(st) && Collected(bs, from) && from <= Tip(st)
  {
    var low := Start(bs, from);
    var db := RollDown(st.db, st.chain, Tip(st), low - 1);
    if bs == [] then Forked(st.(db := db), true)
    else if !valid || !SlotsFree(cfg, st.chain, bs) then Forked(st.(db := db), false)
    else
      match PlayNew(cfg, db, db, bs)
      case None => Forked(st.(db := db), false)
      case Some(db') =>
        StoredIsStored(cfg, st.chain, st.chain[low - 1].hash, bs);
        var chain := StoreNew(cfg, st.chain, st.chain[low - 1].hash, bs);
        Forked(Store(db', chain, Info(bs[|bs| - 1].header, chain[from].hash)), true)
  }

  /** The new blocks have taken the place of the old ones. */
  predicate Switched(cfg: Config, st: Store, from: nat, bs: seq<Block>, valid: bool)
    requires Contiguous(st) && Collected(bs, from) && from <= Tip(st)
  {
    bs != [] && Switch(cfg, st, from, bs, valid).ok
  }

  // ----- what every operation keeps -----

  predicate Contiguous(st: Store) {
    && Tip(st) >= 1
    && (forall i :: i in st.chain ==> 1 <= i <= Tip(st))
    && (forall i :: 1 <= i <= Tip(st) ==> i in st.chain)
  }

  /** Block numbers match their place and every hash is built on the hash below it. */
  predicate HashesUpTo(cfg: Config, chain: map<nat, Stored>, n: nat) {
    && (forall i :: 1 <= i <= n ==> i in chain && chain[i].block.header.id == i)
    && (forall i :: 1 < i <= n ==> LinkedAt(cfg, chain, i))
  }

  predicate LinkedAt(cfg: Config, chain: map<nat, Stored>, i: nat) {
    i > 0 && i in chain && i - 1 in chain && chain[i].hash == cfg.digest(chain[i].block, chain[i - 1].hash)
  }

  /** Blocks 2 to `n` are stored. */
  predicate Has(chain: map<nat, Stored>, n: nat) {
    forall i :: 1 < i <= n ==> i in chain
  }

  predicate Linked(cfg: Config, st: Store) {
    Contiguous(st) && HashesUpTo(cfg, st.chain, Tip(st)) &&
    st.info == Info(st.chain[Tip(st)].block.header, st.chain[Tip(st)].hash)
  }

  /** The tables that the stored blocks 2 to `n` make of the tables of the first block. */
  function Replay(cfg: Config, base: Db, chain: map<nat, Stored>, n: nat): Db
    requires Has(chain, n)
  {
    if n <= 1 then base
    else PlayBlock(chain[n].mode, cfg.params, Replay(cfg, base, chain, n - 1), chain[n].block)
  }

  predicate PlaysFully(cfg: Config, db: Db, s: Stored) {
    NewHashes(db, s.block.txs) &&
    PlayFrom(s.mode, cfg.params, s.block.header, s.block.txs, 0, db, L.Zero, Never()).1 == |s.block.txs|
  }

  /** Every stored block brings new transactions and none of them stops it. */
  predicate WellPlayed(cfg: Config, base: Db, chain: map<nat, Stored>, n: nat)
    requires Has(chain, n)
  {
    if n <= 1 then UndoLogged(base)
    else WellPlayed(cfg, base, chain, n - 1) && PlaysFully(cfg, Replay(cfg, base, chain, n - 1), chain[n])
  }

  /** The tables are the replay of the stored blocks. */
  predicate Consistent(cfg: Config, base: Db, st: Store) {
    Linked(cfg, st) && WellPlayed(cfg, base, st.chain, Tip(st)) && st.db == Replay(cfg, base, st.chain, Tip(st))
  }

  lemma {:induction false} ReplaySame(cfg: Config, base: Db, a: map<nat, Stored>, b: map<nat, Stored>, n: nat)
    requires forall i :: 1 < i <= n ==> i in a && i in b && a[i] == b[i]
    ensures Replay(cfg, base, a, n) == Replay(cfg, base, b, n)
    decreases n
  {
    hide PlayBlock;
    if n > 1 { ReplaySame(cfg, base, a, b, n - 1); }
  }

  lemma {:induction false} WellPlayedSame(cfg: Config, base: Db, a: map<nat, Stored>, b: map<nat, Stored>, n: nat)
    requires forall i :: 1 < i <= n ==> i in a && i in b && a[i] == b[i]
    requires WellPlayed(cfg, base, a, n)
    ensures WellPlayed(cfg, base, b, n)
    decreases n
  {
    hide PlaysFully, Replay;
    if n > 1 {
      WellPlayedSame(cfg, base, a, b, n - 1);
      ReplaySame(cfg, base, a, b, n - 1);
    }
  }

  lemma {:induction false} ReplayLogged(cfg: Config, base: Db, chain: map<nat, Stored>, n: nat)
    requires Has(chain, n)
    requires WellPlayed(cfg, base, chain, n)
    ensures UndoLogged(Replay(cfg, base, chain, n))
    decreases n
  {
    hide PlayBlock, PlayFrom, NewHashes, UndoLogged;
    if n > 1 {
      ReplayLogged(cfg, base, chain, n - 1);
      RollbackBlockExact(chain[n].mode, cfg.params, Replay(cfg, base, chain, n - 1), chain[n].block, {});
    }
  }

  /** One more block on top of a well played chain. */
  lemma {:induction false} ExtendReplay(cfg: Config, base: Db, chain: map<nat, Stored>, n: nat, s: Stored)
    requires n >= 1 && Has(chain, n)
    requires WellPlayed(cfg, base, chain, n)
    requires PlaysFully(cfg, Replay(cfg, base, chain, n), s)
    ensures var chain' := chain[n + 1 := s];
            && WellPlayed(cfg, base, chain', n + 1)
            && Replay(cfg, base, chain', n + 1) == PlayBlock(s.mode, cfg.params, Replay(cfg, base, chain, n), s.block)
  {
    hide PlaysFully, PlayBlock;
    var chain' := chain[n + 1 := s];
    ReplaySame(cfg, base, chain, chain', n);
    WellPlayedSame(cfg, base, chain, chain', n);
  }

  // ----- append -----

  /** A block numbered tip + 1 that is accepted keeps the links. */
  lemma {:induction false} AppendLinks(cfg: Config, st: Store, b: Block, gen: bool, late: nat -> bool, valid: bool)
    requires Linked(cfg, st) && b.header.id == Tip(st) + 1
    requires Append(cfg, st, b, gen, late, valid).Some?
    ensures Linked(cfg, Append(cfg, st, b, gen, late, valid).value)
    ensures Tip(Append(cfg, st, b, gen, late, valid).value) == Tip(st) + 1
  {
    hide PlayFrom, Checked, SlotFree;
    var st' := Append(cfg, st, b, gen, late, valid).value;
    forall i | 1 < i <= Tip(st') ensures LinkedAt(cfg, st'.chain, i) {
      if i <= Tip(st) { assert LinkedAt(cfg, st.chain, i); }
    }
  }

  lemma {:induction false} AppendPlaysFully(cfg: Config, st: Store, b: Block, gen: bool, late: nat -> bool, valid: bool)
    requires Append(cfg, st, b, gen, late, valid).Some?
    ensures var st' := Append(cfg, st, b, gen, late, valid).value;
            var s := st'.chain[b.header.id];
            PlaysFully(cfg, st.db, s) && st'.db == PlayBlock(s.mode, cfg.params, st.db, s.block)
  {
    hide NewHashes, SlotFree, L.UsersFit, Views;
    var k := PlayFrom(if gen then L.Generate else L.Parse, cfg.params, b.header, b.txs, 0, st.db, L.Zero, late).1;
    NewHashesPrefix(st.db, b.txs, k);
    if gen {
      hide PlayFrom;
      CutBlockReplays(cfg.params, b.header, b.txs, 0, st.db, L.Zero, late);
    } else {
      hide PlayFrom;
      ParsingNeverStops(cfg.params, b.header, b.txs, 0, st.db, L.Zero, late);
      ParsingNeverStops(cfg.params, b.header, b.txs, 0, st.db, L.Zero, Never());
      assert b.txs[..k] == b.txs;
    }
  }

  lemma NewHashesPrefix(db: Db, txs: seq<Tx>, k: nat)
    requires k <= |txs| && NewHashes(db, txs)
    ensures NewHashes(db, txs[..k])
  {
  }

  /** An accepted block keeps the tables equal to the replay of the stored
      blocks, also when generation cut it. */
  lemma {:induction false} AppendConsistent(cfg: Config, base: Db, st: Store, b: Block, gen: bool, late: nat -> bool, valid: bool)
    requires Consistent(cfg, base, st) && b.header.id == Tip(st) + 1
    requires Append(cfg, st, b, gen, late, valid).Some?
    ensures Consistent(cfg, base, Append(cfg, st, b, gen, late, valid).value)
  {
    hide Append, PlaysFully, PlayBlock, HashesUpTo, WellPlayed, Replay;
    AppendLinks(cfg, st, b, gen, late, valid);
    AppendChain(cfg, st, b, gen, late, valid);
    AppendPlaysFully(cfg, st, b, gen, late, valid);
    ExtendReplay(cfg, base, st.chain, Tip(st), Append(cfg, st, b, gen, late, valid).value.chain[b.header.id]);
  }

  lemma AppendChain(cfg: Config, st: Store, b: Block, gen: bool, late: nat -> bool, valid: bool)
    requires Append(cfg, st, b, gen, late, valid).Some?
    ensures var chain := Append(cfg, st, b, gen, late, valid).value.chain;
            b.header.id in chain && chain == st.chain[b.header.id := chain[b.header.id]]
  {
    hide PlayFrom, Checked, SlotFree;
  }

  // ----- rollback -----

  /** The cells that the kept transactions of the blocks above `k` wrote. */
  function TouchedSince(cfg: Config, base: Db, chain: map<nat, Stored>, n: nat, k: nat): set<(Address, string)>
    requires Has(chain, n)
    decreases n
  {
    if n <= k || n <= 1 then {}
    else TouchedSince(cfg, base, chain, n - 1, k) +
         TouchedBlock(chain[n].mode, cfg.params, Replay(cfg, base, chain, n - 1), chain[n].block)
  }

  lemma {:induction false} RollDownExact(cfg: Config, base: Db, chain: map<nat, Stored>, n: nat, k: nat, worn: set<(Address, string)>)
    requires Has(chain, n) && 1 <= k <= n && WellPlayed(cfg, base, chain, n)
    ensures RollDown(WornDb(Replay(cfg, base, chain, n), worn), chain, n, k) ==
            WornDb(Replay(cfg, base, chain, k), TouchedSince(cfg, base, chain, n, k) + worn)
    decreases n
  {
    hide WornDb, PlayBlock, TouchedBlock, RollbackTxs, NewHashes, UndoLogged;
    if n == k {
      assert {} + worn == worn;
    } else {
      var db, b := Replay(cfg, base, chain, n - 1), chain[n].block;
      ReplayLogged(cfg, base, chain, n - 1);
      RollbackBlockExact(chain[n].mode, cfg.params, db, b, worn);
      var t := TouchedBlock(chain[n].mode, cfg.params, db, b);
      RollDownExact(cfg, base, chain, n - 1, k, t + worn);
      assert TouchedSince(cfg, base, chain, n - 1, k) + (t + worn) == TouchedSince(cfg, base, chain, n, k) + worn;
    }
  }

  /** Rolling back to a stored block keeps the links; the undo log and the log of
      transactions are exactly as they stood after that block, and the rows are
      too, but for the wear of the cells written since. */
  lemma {:induction false} ToBlockExact(cfg: Config, base: Db, st: Store, k: nat)
    requires Consistent(cfg, base, st) && 1 <= k <= Tip(st)
    ensures var st' := ToBlock(st, k);
            && Linked(cfg, st') && Tip(st') == k
            && st'.db == WornDb(Replay(cfg, base, st.chain, k), TouchedSince(cfg, base, st.chain, Tip(st), k))
  {
    ToBlockLinks(cfg, st, k);
    hide RollDown, Replay, TouchedSince, Linked, WellPlayed, Below;
    RollDownExact(cfg, base, st.chain, Tip(st), k, {});
    WornNone(Replay(cfg, base, st.chain, Tip(st)).rows);
    assert TouchedSince(cfg, base, st.chain, Tip(st), k) + {} == TouchedSince(cfg, base, st.chain, Tip(st), k);
  }

  lemma {:induction false} ToBlockLinks(cfg: Config, st: Store, k: nat)
    requires Linked(cfg, st) && 1 <= k <= Tip(st)
    ensures Linked(cfg, ToBlock(st, k)) && Tip(ToBlock(st, k)) == k
  {
    hide RollDown;
    var st' := ToBlock(st, k);
    forall i | 1 < i <= k ensures LinkedAt(cfg, st'.chain, i) {
      assert LinkedAt(cfg, st.chain, i);
    }
  }

  lemma {:induction false} WellPlayedBelow(cfg: Config, base: Db, chain: map<nat, Stored>, n: nat, k: nat)
    requires Has(chain, n) && k <= n && WellPlayed(cfg, base, chain, n)
    ensures WellPlayed(cfg, base, chain, k)
    decreases n
  {
    hide PlaysFully, Replay;
    if k < n && n > 1 { WellPlayedBelow(cfg, base, chain, n - 1, k); }
  }

  /** A rollback leaves the tables equal to the replay of the remaining blocks if
      and only if no cell written since loses its value in the undo log. */
  lemma {:induction false} ToBlockConsistentIff(cfg: Config, base: Db, st: Store, k: nat)
    requires Consistent(cfg, base, st) && 1 <= k <= Tip(st)
    ensures Consistent(cfg, base, ToBlock(st, k)) <==>
            AllSurvive(Replay(cfg, base, st.chain, k).rows, TouchedSince(cfg, base, st.chain, Tip(st), k))
  {
    ToBlockExact(cfg, base, st, k);
    var st' := ToBlock(st, k);
    var db := Replay(cfg, base, st.chain, k);
    ReplaySame(cfg, base, st.chain, st'.chain, k);
    WellPlayedBelow(cfg, base, st.chain, Tip(st), k);
    WellPlayedSame(cfg, base, st.chain, st'.chain, k);
    WornIff(db.rows, TouchedSince(cfg, base, st.chain, Tip(st), k));
  }

  // ----- fork switch -----

  lemma {:induction false} StoreNewFacts(cfg: Config, chain: map<nat, Stored>, prev: Digest, bs: seq<Block>, low: nat)
    requires Numbered(bs, low)
    ensures var r := StoreNew(cfg, chain, prev, bs);
            && (forall i :: i in r <==> i in chain || low <= i < low + |bs|)
            && (forall i :: i in chain && !(low <= i < low + |bs|) ==> r[i] == chain[i])
            && (forall i :: low <= i < low + |bs| ==> r[i].block == bs[i - low])
            && (bs != [] ==> r[low].hash == cfg.digest(bs[0], prev))
            && (forall i :: low < i < low + |bs| ==> LinkedAt(cfg, r, i))
    decreases |bs|
  {
    if bs != [] {
      var hash := cfg.digest(bs[0], prev);
      var chain1 := chain[low := Stored(bs[0], hash, L.Parse)];
      var rest := bs[1..];
      NumberedRest(bs, low);
      StoreNewFacts(cfg, chain1, hash, rest, low + 1);
      var r := StoreNew(cfg, chain, prev, bs);
      assert r == StoreNew(cfg, chain1, hash, rest);
      assert r[low] == chain1[low];
      if rest != [] {
        assert r[low + 1].block == rest[0] && r[low + 1].hash == cfg.digest(rest[0], hash);
        assert LinkedAt(cfg, r, low + 1);
      }
    }
  }

  lemma NumberedRest(bs: seq<Block>, low: nat)
    requires bs != [] && Numbered(bs, low)
    ensures bs[0].header.id == low && Numbered(bs[1..], low + 1)
  {
    forall j | 0 <= j < |bs[1..]| ensures bs[1..][j].header.id == low + 1 + j { assert bs[1..][j] == bs[j + 1]; }
  }

  /** A switch keeps the links, whether it succeeds or not, if and only if it does
      not put new blocks below the tip: stored blocks above them would stay. */
  lemma {:induction false} SwitchLinksIff(cfg: Config, st: Store, from: nat, bs: seq<Block>, valid: bool)
    requires Linked(cfg, st) && Collected(bs, from) && from <= Tip(st)
    ensures Linked(cfg, Switch(cfg, st, from, bs, valid).st) <==> (Switched(cfg, st, from, bs, valid) ==> from == Tip(st))
    ensures Switched(cfg, st, from, bs, valid) ==> Tip(Switch(cfg, st, from, bs, valid).st) == from
    ensures forall i :: 1 <= i < Start(bs, from) ==>
              i in Switch(cfg, st, from, bs, valid).st.chain && Switch(cfg, st, from, bs, valid).st.chain[i] == st.chain[i]
  {
    hide RollDown, PlayNew, StoreNew, SlotsFree;
    var st' := Switch(cfg, st, from, bs, valid).st;
    var low := Start(bs, from);
    if Switched(cfg, st, from, bs, valid) {
      StoreNewFacts(cfg, st.chain, st.chain[low - 1].hash, bs, low);
      assert bs[|bs| - 1].header.id == from;
      if from == Tip(st) {
        forall i | 1 < i <= Tip(st) ensures LinkedAt(cfg, st'.chain, i) {
          if i < low { assert LinkedAt(cfg, st.chain, i); }
        }
      } else {
        assert Tip(st) in st'.chain;
      }
    }
  }

  // ----- the tables after a switch -----

  /** The blocks played one after the other, with nothing around them. */
  function PlayAll(cfg: Config, db: Db, bs: seq<Block>): Db
    decreases |bs|
  {
    if bs == [] then db else PlayAll(cfg, PlayBlock(L.Parse, cfg.params, db, bs[0]), bs[1..])
  }

  /** The cells that the blocks write. */
  function TouchedAll(cfg: Config, db: Db, bs: seq<Block>): set<(Address, string)>
    decreases |bs|
  {
    if bs == [] then {}
    else TouchedBlock(L.Parse, cfg.params, db, bs[0]) + TouchedAll(cfg, PlayBlock(L.Parse, cfg.params, db, bs[0]), bs[1..])
  }

  lemma {:induction false} NewIsPlayed(cfg: Config, committed: Db, db: Db, bs: seq<Block>)
    requires PlayNew(cfg, committed, db, bs).Some?
    ensures PlayNew(cfg, committed, db, bs).value == PlayAll(cfg, db, bs)
    ensures forall j :: 0 <= j < |bs| ==> NewHashes(committed, bs[j].txs)
    decreases |bs|
  {
    hide PlayBlock, Clashes, NewHashes, L.UsersFit, Views;
    if bs != [] {
      NewIsPlayed(cfg, committed, PlayBlock(L.Parse, cfg.params, db, bs[0]), bs[1..]);
      forall j | 0 < j < |bs| ensures NewHashes(committed, bs[j].txs) { assert bs[j] == bs[1..][j - 1]; }
    }
  }

  /** The replay of the chain with the new blocks. */
  lemma {:induction false} ReplayNew(cfg: Config, base: Db, chain: map<nat, Stored>, n: nat, prev: Digest, bs: seq<Block>)
    requires n >= 1 && Has(chain, n) && Numbered(bs, n + 1)
    ensures var r := StoreNew(cfg, chain, prev, bs);
            Has(r, n + |bs|) && Replay(cfg, base, r, n + |bs|) == PlayAll(cfg, Replay(cfg, base, chain, n), bs)
    decreases |bs|
  {
    hide PlayBlock;
    if bs != [] {
      var hash := cfg.digest(bs[0], prev);
      NumberedRest(bs, n + 1);
      var chain1 := chain[n + 1 := Stored(bs[0], hash, L.Parse)];
      ReplaySame(cfg, base, chain, chain1, n);
      ReplayNew(cfg, base, chain1, n + 1, hash, bs[1..]);
    }
  }

  lemma SwitchParts(cfg: Config, base: Db, st: Store, from: nat, bs: seq<Block>, valid: bool)
    requires Consistent(cfg, base, st) && Collected(bs, from) && from == Tip(st) && Switched(cfg, st, from, bs, valid)
    ensures var n := from - |bs|;
            && 1 <= n < Tip(st) && n in st.chain && Has(st.chain, n) && Has(st.chain, Tip(st)) && Numbered(bs, n + 1)
            && (forall i :: n < i <= Tip(st) ==> i in st.chain)
            && var db, st' := RollDown(st.db, st.chain, Tip(st), n), Switch(cfg, st, from, bs, valid).st;
               PlayNew(cfg, db, db, bs) == Some(st'.db) && st'.chain == StoreNew(cfg, st.chain, st.chain[n].hash, bs)
  {
    hide RollDown, PlayNew, StoreNew, Replay, WellPlayed, HashesUpTo;
  }

  /** The tables after a switch are the new blocks played on the worn tables of the
      fork; the replay is the new blocks played on the tables themselves. */
  lemma {:induction false} SwitchTables(cfg: Config, base: Db, st: Store, from: nat, bs: seq<Block>, valid: bool)
    requires Consistent(cfg, base, st) && Collected(bs, from) && from == Tip(st) && Switched(cfg, st, from, bs, valid)
    ensures var n := from - |bs|;
            && 1 <= n <= from && Has(st.chain, n) && Has(st.chain, Tip(st))
            && var st' := Switch(cfg, st, from, bs, valid).st;
               && Has(st'.chain, from) && Linked(cfg, st') && Tip(st') == from
               && st'.db == PlayAll(cfg, WornDb(Replay(cfg, base, st.chain, n), TouchedSince(cfg, base, st.chain, Tip(st), n)), bs)
               && Replay(cfg, base, st'.chain, from) == PlayAll(cfg, Replay(cfg, base, st.chain, n), bs)
  {
    hide Replay, WellPlayed, RollDown, TouchedSince, StoreNew, PlayNew, Switch, PlayAll, WornDb;
    SwitchParts(cfg, base, st, from, bs, valid);
    SwitchLinksIff(cfg, st, from, bs, valid);
    var n := from - |bs|;
    ToBlockExact(cfg, base, st, n);
    var db := RollDown(st.db, st.chain, Tip(st), n);
    NewIsPlayed(cfg, db, db, bs);
    ReplayNew(cfg, base, st.chain, n, st.chain[n].hash, bs);
  }

  /** The touched cells that lose their value in a rollback. */
  function Lost(rows: Rows, touched: set<(Address, string)>): set<(Address, string)> {
    set x | x in touched && x.0 in rows && x.1 in rows[x.0] && !Survives(ByteColumn(x.0.table.name, x.1), rows[x.0][x.1])
  }

  lemma {:induction false} WornLost(rows: Rows, touched: set<(Address, string)>)
    ensures Worn(rows, touched) == Worn(rows, Lost(rows, touched)) && Inside(rows, Lost(rows, touched))
  {
    var lost := Lost(rows, touched);
    forall a | a in rows ensures WornRow(a, rows[a], touched) == WornRow(a, rows[a], lost) {
      forall c | c in rows[a] ensures CellAfter(a, c, rows[a][c], touched) == CellAfter(a, c, rows[a][c], lost) {
        ReturnedIff(ByteColumn(a.table.name, c), rows[a][c]);
      }
    }
  }

  lemma {:induction false} WornPlayAll(cfg: Config, db: Db, w: Db, bs: seq<Block>, cells: set<(Address, string)>, all: set<(Address, string)>)
    requires WornState(db, w, cells) && cells <= all && forall j :: 0 <= j < |bs| ==> AllBlind(bs[j].txs, all)
    ensures var db1, w1, touched := PlayAll(cfg, db, bs), PlayAll(cfg, w, bs), TouchedAll(cfg, db, bs);
            && WornState(db1, w1, cells - touched) && Inherited(db.rows, db1.rows, cells - touched)
            && (w1.undo == db1.undo <==> w.undo == db.undo && QuietCells(db.rows, cells * touched))
    decreases |bs|
  {
    hide PlayFrom, TouchedFrom, WornState, Inherited, QuietCells, AllBlind;
    if bs == [] {
      NothingPlayed(db, w, cells);
    } else {
      var b := bs[0];
      var t := TouchedBlock(L.Parse, cfg.params, db, b);
      WornPlayFrom(L.Parse, cfg.params, b.header, b.txs, 0, db, w, L.Zero, cells, all);
      var db1, w1 := PlayBlock(L.Parse, cfg.params, db, b), PlayBlock(L.Parse, cfg.params, w, b);
      var u := TouchedAll(cfg, db1, bs[1..]);
      forall j | 0 <= j < |bs[1..]| ensures AllBlind(bs[1..][j].txs, all) { assert bs[1..][j] == bs[j + 1]; }
      WornPlayAll(cfg, db1, w1, bs[1..], cells - t, all);
      assert cells - t - u == cells - (t + u);
      InheritedChain(db.rows, db1.rows, PlayAll(cfg, db1, bs[1..]).rows, cells - t, cells - t - u);
      WornInside(db, w, cells);
      SplitQuiet(db.rows, db1.rows, cells, t, u);
    }
  }

  lemma NothingPlayed(db: Db, w: Db, cells: set<(Address, string)>)
    requires WornState(db, w, cells)
    ensures cells - {} == cells && Inherited(db.rows, db.rows, cells) && QuietCells(db.rows, cells * {})
  {
  }

  lemma WornInside(db: Db, w: Db, cells: set<(Address, string)>)
    requires WornState(db, w, cells)
    ensures Inside(db.rows, cells)
  {
  }

  /** Playing blind blocks on worn tables gives the tables of a clean play if and only
      if every lost cell is overwritten and none of them is a byte column. */
  lemma {:induction false} BlindBlocksIff(cfg: Config, db: Db, touched: set<(Address, string)>, bs: seq<Block>)
    requires forall j :: 0 <= j < |bs| ==> AllBlind(bs[j].txs, Lost(db.rows, touched))
    ensures PlayAll(cfg, WornDb(db, touched), bs) == PlayAll(cfg, db, bs) <==>
            forall a, c :: (a, c) in Lost(db.rows, touched) ==> (a, c) in TouchedAll(cfg, db, bs) && !ByteColumn(a.table.name, c)
  {
    hide PlayAll, TouchedAll, AllBlind, Worn, QuietCells, Quiet;
    var lost, w := Lost(db.rows, touched), WornDb(db, touched);
    WornLost(db.rows, touched);
    WornPlayAll(cfg, db, w, bs, lost, lost);
    var db1, w1, t := PlayAll(cfg, db, bs), PlayAll(cfg, w, bs), TouchedAll(cfg, db, bs);
    LeftCells(db.rows, db1.rows, lost - t);
    LostQuiet(db.rows, touched, lost * t);
    assert lost - t == {} <==> lost <= t;
    assert lost <= t ==> lost * t == lost;
  }

  /** Lost cells that are not overwritten keep the rows apart. */
  lemma {:induction false} LeftCells(rows: Rows, rows1: Rows, cells: set<(Address, string)>)
    requires Inherited(rows, rows1, cells)
    requires forall a, c :: (a, c) in cells ==> a in rows && c in rows[a] && !Survives(ByteColumn(a.table.name, c), rows[a][c])
    ensures Worn(rows1, cells) == rows1 <==> cells == {}
  {
    hide Worn, Survives;
    WornIff(rows1, cells);
    if cells != {} {
      var x :| x in cells;
      assert (x.0, x.1) in cells && rows1[x.0][x.1] == rows[x.0][x.1];
    }
  }

  lemma {:induction false} LostQuiet(rows: Rows, touched: set<(Address, string)>, cells: set<(Address, string)>)
    requires cells <= Lost(rows, touched)
    ensures QuietCells(rows, cells) <==> forall a, c :: (a, c) in cells ==> !ByteColumn(a.table.name, c)
  {
    hide Quiet, Survives;
    forall a, c | (a, c) in cells
      ensures a in rows && c in rows[a] && (Quiet(ByteColumn(a.table.name, c), rows[a][c]) <==> !ByteColumn(a.table.name, c))
    {
      assert (a, c) in Lost(rows, touched);
      QuietIff(ByteColumn(a.table.name, c), rows[a][c]);
    }
  }

  /** After a switch to blocks that do not look at lost cells, the tables are the
      replay of the new chain if and only if every lost cell is overwritten by the
      new blocks and none of them is a byte column. */
  lemma {:induction false} SwitchReplaysIff(cfg: Config, base: Db, st: Store, from: nat, bs: seq<Block>, valid: bool)
    requires Consistent(cfg, base, st) && Collected(bs, from) && from == Tip(st) && Switched(cfg, st, from, bs, valid)
    requires Has(st.chain, from - |bs|) && Has(st.chain, Tip(st))
    requires var lost := Lost(Replay(cfg, base, st.chain, from - |bs|).rows, TouchedSince(cfg, base, st.chain, Tip(st), from - |bs|));
             forall j :: 0 <= j < |bs| ==> AllBlind(bs[j].txs, lost)
    ensures var db := Replay(cfg, base, st.chain, from - |bs|);
            var lost := Lost(db.rows, TouchedSince(cfg, base, st.chain, Tip(st), from - |bs|));
            var st' := Switch(cfg, st, from, bs, valid).st;
            Has(st'.chain, from) &&
            (st'.db == Replay(cfg, base, st'.chain, from) <==>
             forall a, c :: (a, c) in lost ==> (a, c) in TouchedAll(cfg, db, bs) && !ByteColumn(a.table.name, c))
  {
    hide Replay, TouchedSince, Switch, PlayAll, TouchedAll, AllBlind, Lost, Consistent, Switched, Linked;
    SwitchTables(cfg, base, st, from, bs, valid);
    BlindBlocksIff(cfg, Replay(cfg, base, st.chain, from - |bs|), TouchedSince(cfg, base, st.chain, Tip(st), from - |bs|), bs);
  }

  /** At a fork where no cell is lost, every switch leaves the replay of the new chain. */
  lemma {:induction false} SwitchReplays(cfg: Config, base: Db, st: Store, from: nat, bs: seq<Block>, valid: bool)
    requires Consistent(cfg, base, st) && Collected(bs, from) && from == Tip(st) && Switched(cfg, st, from, bs, valid)
    requires Has(st.chain, from - |bs|) && Has(st.chain, Tip(st))
    requires AllSurvive(Replay(cfg, base, st.chain, from - |bs|).rows, TouchedSince(cfg, base, st.chain, Tip(st), from - |bs|))
    ensures var st' := Switch(cfg, st, from, bs, valid).st;
            Has(st'.chain, from) && st'.db == Replay(cfg, base, st'.chain, from)
  {
    hide Replay, TouchedSince, Switch, PlayAll, AllSurvive, Consistent, Switched, Linked;
    SwitchTables(cfg, base, st, from, bs, valid);
    WornIff(Replay(cfg, base, st.chain, from - |bs|).rows, TouchedSince(cfg, base, st.chain, Tip(st), from - |bs|));
  }

  /** Blocks of one node without transactions that fill the places behind `n`. */
  function Fillers(n: nat, k: nat, time: int, node: int): (bs: seq<Block>)
    ensures |bs| == k && Numbered(bs, n + 1)
  {
    seq(k, j requires 0 <= j < k => Block(Header(n + 1 + j, time, 0, 0, node), []))
  }

  /** A node position above those of all stored blocks. */
  lemma {:induction false} NewNode(chain: map<nat, Stored>, n: nat) returns (node: int)
    ensures forall i :: i in chain && i <= n ==> chain[i].block.header.node < node
  {
    if n > 0 { node := NewNode(chain, n - 1); } else { node := 0; }
    if n in chain && chain[n].block.header.node >= node { node := chain[n].block.header.node + 1; }
  }

  /** The slots of a node without stored blocks are free, so that it can fill the chain. */
  lemma {:induction false} FillersSwitch(cfg: Config, st: Store, n: nat, time: int, node: int)
    requires Contiguous(st) && 1 <= n < Tip(st) && time >= cfg.slots.start
    requires forall i :: i in st.chain ==> st.chain[i].block.header.node != node
    ensures var bs := Fillers(n, Tip(st) - n, time, node); Collected(bs, Tip(st)) && Switched(cfg, st, Tip(st), bs, true)
  {
    hide RollDown, StoreNew, PlayNew;
    var bs, w := Fillers(n, Tip(st) - n, time, node), RollDown(st.db, st.chain, Tip(st), n);
    FillersChangeNothing(cfg, w, w, bs);
    assert SlotsFree(cfg, st.chain, bs);
  }

  lemma {:induction false} FillersChangeNothing(cfg: Config, committed: Db, db: Db, bs: seq<Block>)
    requires forall j :: 0 <= j < |bs| ==> bs[j].txs == []
    ensures PlayNew(cfg, committed, db, bs) == Some(db) && PlayAll(cfg, db, bs) == db
    decreases |bs|
  {
    if bs != [] {
      forall j | 0 <= j < |bs[1..]| ensures bs[1..][j].txs == [] { assert bs[1..][j] == bs[j + 1]; }
      assert Views([]) == [];
      FillersChangeNothing(cfg, committed, db, bs[1..]);
    }
  }

  /** The exact condition on the state before the switch: whatever blocks replace
      those behind `n`, the tables become the replay of the new chain, if and only if
      no cell written behind `n` is lost. */
  lemma {:induction false} EverySwitchReplaysIff(cfg: Config, base: Db, st: Store, n: nat)
    requires Consistent(cfg, base, st) && 1 <= n < Tip(st) && Has(st.chain, n) && Has(st.chain, Tip(st))
    ensures (forall bs: seq<Block>, valid: bool ::
               |bs| == Tip(st) - n && Collected(bs, Tip(st)) && Switched(cfg, st, Tip(st), bs, valid) ==>
                 Has(Switch(cfg, st, Tip(st), bs, valid).st.chain, Tip(st)) &&
                 Switch(cfg, st, Tip(st), bs, valid).st.db == Replay(cfg, base, Switch(cfg, st, Tip(st), bs, valid).st.chain, Tip(st)))
            <==> AllSurvive(Replay(cfg, base, st.chain, n).rows, TouchedSince(cfg, base, st.chain, Tip(st), n))
  {
    hide Replay, TouchedSince, AllSurvive;
    if AllSurvive(Replay(cfg, base, st.chain, n).rows, TouchedSince(cfg, base, st.chain, Tip(st), n)) {
      hide Switch, Switched, Consistent;
      forall bs: seq<Block>, valid: bool | |bs| == Tip(st) - n && Collected(bs, Tip(st)) && Switched(cfg, st, Tip(st), bs, valid)
        ensures Has(Switch(cfg, st, Tip(st), bs, valid).st.chain, Tip(st))
        ensures Switch(cfg, st, Tip(st), bs, valid).st.db == Replay(cfg, base, Switch(cfg, st, Tip(st), bs, valid).st.chain, Tip(st))
      {
        SwitchReplays(cfg, base, st, Tip(st), bs, valid);
      }
    } else {
      hide Switch, Switched, Consistent, Linked;
      var node := NewNode(st.chain, Tip(st));
      ConsistentContiguous(cfg, base, st);
      FillersSwitch(cfg, st, n, cfg.slots.start, node);
      var bs := Fillers(n, Tip(st) - n, cfg.slots.start, node);
      LostFork(cfg, base, st, bs, n);
    }
  }

  lemma ConsistentContiguous(cfg: Config, base: Db, st: Store)
    requires Consistent(cfg, base, st)
    ensures Contiguous(st)
  {
  }

  lemma {:induction false} LostFork(cfg: Config, base: Db, st: Store, bs: seq<Block>, n: nat)
    requires Consistent(cfg, base, st) && 1 <= n < Tip(st) && Has(st.chain, n) && Has(st.chain, Tip(st))
    requires |bs| == Tip(st) - n && Collected(bs, Tip(st)) && Switched(cfg, st, Tip(st), bs, true)
    requires forall j :: 0 <= j < |bs| ==> bs[j].txs == []
    requires !AllSurvive(Replay(cfg, base, st.chain, n).rows, TouchedSince(cfg, base, st.chain, Tip(st), n))
    ensures var st' := Switch(cfg, st, Tip(st), bs, true).st;
            Has(st'.chain, Tip(st)) && st'.db != Replay(cfg, base, st'.chain, Tip(st))
  {
    hide Replay, TouchedSince, Switch, AllSurvive, Consistent, Switched, Linked, PlayAll;
    SwitchTables(cfg, base, st, Tip(st), bs, true);
    var db, t := Replay(cfg, base, st.chain, n), TouchedSince(cfg, base, st.chain, Tip(st), n);
    FillersChangeNothing(cfg, db, db, bs);
    FillersChangeNothing(cfg, db, WornDb(db, t), bs);
    WornIff(db.rows, t);
  }

  // ----- repeated transactions -----

  /** The hashes of the transactions that the block keeps. */
  function KeptBy(cfg: Config, db: Db, b: Block): set<TxHash> {
    Hashes(PassedFrom(L.Parse, cfg.params, b.header, b.txs, 0, db, L.Zero, Never()))
  }

  lemma {:induction false} PlayLogs(m: L.Mode, p: L.Params, h: Header, txs: seq<Tx>, i: nat, db: Db, c: L.Counters, late: nat -> bool)
    requires i <= |txs|
    ensures PlayFrom(m, p, h, txs, i, db, c, late).0.logged == db.logged + Hashes(PassedFrom(m, p, h, txs, i, db, c, late))
    decreases |txs| - i
  {
    hide L.Check, ApplyAll;
    if i < |txs| {
      var (db', c', v) := PlayOne(m, p, h, txs[i], db, c, late(i));
      if v != L.Stop {
        PlayLogs(m, p, h, txs, i + 1, db', c', late);
        var rest := PassedFrom(m, p, h, txs, i + 1, db', c', late);
        HashesFirst(txs[i], rest);
        assert [] + rest == rest;
      }
    }
  }

  lemma HashesFirst(t: Tx, rest: seq<Tx>)
    ensures Hashes([t] + rest) == {t.hash} + Hashes(rest)
  {
    var all := [t] + rest;
    forall i | 0 <= i < |rest| ensures rest[i].hash in Hashes(all) { assert all[i + 1] == rest[i]; }
    assert all[0] == t;
  }

  /** No transaction that a new block keeps stands in a later new block. */
  predicate NeverAgain(cfg: Config, db: Db, bs: seq<Block>)
    decreases |bs|
  {
    bs == [] ||
    ((forall j :: 1 <= j < |bs| ==> Hashes(bs[j].txs) !! KeptBy(cfg, db, bs[0])) &&
     NeverAgain(cfg, PlayBlock(L.Parse, cfg.params, db, bs[0]), bs[1..]))
  }

  lemma {:induction false} LoggedGrows(cfg: Config, base: Db, chain: map<nat, Stored>, a: nat, b: nat)
    requires a <= b && Has(chain, b)
    ensures Replay(cfg, base, chain, a).logged <= Replay(cfg, base, chain, b).logged
    decreases b
  {
    hide PlayFrom;
    if a < b && b > 1 {
      LoggedGrows(cfg, base, chain, a, b - 1);
      var s := chain[b];
      var _ := PlayAdds(s.mode, cfg.params, s.block.header, s.block.txs, 0, Replay(cfg, base, chain, b - 1), L.Zero, Never());
    }
  }

  lemma {:induction false} WellPlayedAt(cfg: Config, base: Db, chain: map<nat, Stored>, n: nat, k: nat)
    requires Has(chain, n) && WellPlayed(cfg, base, chain, n) && 1 < k <= n
    ensures NewHashes(Replay(cfg, base, chain, k - 1), chain[k].block.txs)
    decreases n
  {
    hide Replay, NewHashes, PlayFrom;
    if k < n { WellPlayedAt(cfg, base, chain, n - 1, k); }
  }

  /** A block that repeats a kept transaction spoils the chain. */
  lemma {:induction false} RepeatSpoils(cfg: Config, base: Db, chain: map<nat, Stored>, n: nat, k: nat, top: nat, hash: TxHash)
    requires Has(chain, top) && n < k <= top && 1 < k && hash in Replay(cfg, base, chain, n).logged && hash in Hashes(chain[k].block.txs)
    ensures !WellPlayed(cfg, base, chain, top)
  {
    hide Replay, WellPlayed;
    LoggedGrows(cfg, base, chain, n, k - 1);
    if WellPlayed(cfg, base, chain, top) { WellPlayedAt(cfg, base, chain, top, k); }
  }

  /** The chain with the new blocks is well played if and only if no kept
      transaction comes again. `seen` are the transactions kept since the fork. */
  lemma {:induction false} WellPlayedNewIff(cfg: Config, base: Db, chain: map<nat, Stored>, n: nat, prev: Digest,
                                            committed: Db, seen: set<TxHash>, bs: seq<Block>)
    requires n >= 1 && Has(chain, n) && WellPlayed(cfg, base, chain, n) && Numbered(bs, n + 1)
    requires Replay(cfg, base, chain, n).logged == committed.logged + seen
    requires forall j :: 0 <= j < |bs| ==> Hashes(bs[j].txs) !! seen && NewHashes(committed, bs[j].txs)
    ensures var r := StoreNew(cfg, chain, prev, bs);
            Has(r, n + |bs|) && (WellPlayed(cfg, base, r, n + |bs|) <==> NeverAgain(cfg, Replay(cfg, base, chain, n), bs))
    decreases |bs|
  {
    hide Replay, WellPlayed, PlayBlock, PlayFrom, KeptBy, Hashes, NewHashes;
    ReplayNew(cfg, base, chain, n, prev, bs);
    if bs != [] {
      var db, b, rest := Replay(cfg, base, chain, n), bs[0], bs[1..];
      var hash := cfg.digest(b, prev);
      var s := Stored(b, hash, L.Parse);
      var chain1, r := chain[n + 1 := s], StoreNew(cfg, chain, prev, bs);
      NumberedRest(bs, n + 1);
      StillNew(committed, seen, db, b.txs);
      ParsingNeverStops(cfg.params, b.header, b.txs, 0, db, L.Zero, Never());
      ExtendReplay(cfg, base, chain, n, s);
      KeptLogs(cfg, db, b);
      var kept := KeptBy(cfg, db, b);
      if forall j :: 1 <= j < |bs| ==> Hashes(bs[j].txs) !! kept {
        forall j | 0 <= j < |rest| ensures Hashes(rest[j].txs) !! seen + kept && NewHashes(committed, rest[j].txs) {
          assert rest[j] == bs[j + 1];
        }
        assert committed.logged + seen + kept == committed.logged + (seen + kept);
        WellPlayedNewIff(cfg, base, chain1, n + 1, hash, committed, seen + kept, rest);
      } else {
        var j :| 1 <= j < |bs| && !(Hashes(bs[j].txs) !! kept);
        var h :| h in Hashes(bs[j].txs) && h in kept;
        StoreNewFacts(cfg, chain, prev, bs, n + 1);
        SameReplay(cfg, base, chain1, r, n + 1, prev, bs);
        RepeatSpoils(cfg, base, r, n + 1, n + 1 + j, n + |bs|, h);
      }
    }
  }

  lemma {:induction false} SameReplay(cfg: Config, base: Db, chain1: map<nat, Stored>, r: map<nat, Stored>, n: nat, prev: Digest, bs: seq<Block>)
    requires n >= 2 && bs != [] && Numbered(bs, n) && Has(chain1, n) && chain1[n] == Stored(bs[0], cfg.digest(bs[0], prev), L.Parse)
    requires r == StoreNew(cfg, chain1, cfg.digest(bs[0], prev), bs[1..])
    ensures Has(r, n) && Replay(cfg, base, r, n) == Replay(cfg, base, chain1, n)
  {
    NumberedRest(bs, n);
    StoreNewFacts(cfg, chain1, cfg.digest(bs[0], prev), bs[1..], n + 1);
    ReplaySame(cfg, base, r, chain1, n);
  }

  lemma KeptLogs(cfg: Config, db: Db, b: Block)
    ensures PlayBlock(L.Parse, cfg.params, db, b).logged == db.logged + KeptBy(cfg, db, b)
  {
    hide PlayFrom, PassedFrom;
    PlayLogs(L.Parse, cfg.params, b.header, b.txs, 0, db, L.Zero, Never());
  }

  lemma StillNew(committed: Db, seen: set<TxHash>, db: Db, txs: seq<Tx>)
    requires db.logged <= committed.logged + seen && Hashes(txs) !! seen && NewHashes(committed, txs)
    ensures NewHashes(db, txs)
  {
    forall i | 0 <= i < |txs| ensures txs[i].hash !in db.logged {
      assert txs[i].hash in Hashes(txs);
    }
  }

  /** A successful switch leaves a consistent store if and only if its tables are
      the replay of the new chain and no kept transaction comes again. */
  lemma {:induction false} SwitchConsistentIff(cfg: Config, base: Db, st: Store, from: nat, bs: seq<Block>, valid: bool)
    requires Consistent(cfg, base, st) && Collected(bs, from) && from == Tip(st) && Switched(cfg, st, from, bs, valid)
    requires Has(st.chain, from - |bs|)
    ensures var st' := Switch(cfg, st, from, bs, valid).st;
            Has(st'.chain, from) &&
            (Consistent(cfg, base, st') <==>
             st'.db == Replay(cfg, base, st'.chain, from) && NeverAgain(cfg, Replay(cfg, base, st.chain, from - |bs|), bs))
  {
    hide Replay, WellPlayed, RollDown, TouchedSince, StoreNew, PlayNew, Switch, PlayAll, NeverAgain, Switched, LinkedAt, NewHashes, Hashes;
    SwitchTables(cfg, base, st, from, bs, valid);
    SwitchParts(cfg, base, st, from, bs, valid);
    var n := from - |bs|;
    var w := RollDown(st.db, st.chain, Tip(st), n);
    NewIsPlayed(cfg, w, w, bs);
    ToBlockExact(cfg, base, st, n);
    WellPlayedBelow(cfg, base, st.chain, Tip(st), n);
    WellPlayedNewIff(cfg, base, st.chain, n, st.chain[n].hash, w, {}, bs);
  }

  /** The case that needs no look at the new transactions: nothing lost, nothing repeated. */
  lemma {:induction false} SwitchConsistent(cfg: Config, base: Db, st: Store, from: nat, bs: seq<Block>, valid: bool)
    requires Consistent(cfg, base, st) && Collected(bs, from) && from == Tip(st) && Switched(cfg, st, from, bs, valid)
    requires Has(st.chain, from - |bs|) && Has(st.chain, Tip(st))
    requires NeverAgain(cfg, Replay(cfg, base, st.chain, from - |bs|), bs)
    requires AllSurvive(Replay(cfg, base, st.chain, from - |bs|).rows, TouchedSince(cfg, base, st.chain, Tip(st), from - |bs|))
    ensures Consistent(cfg, base, Switch(cfg, st, from, bs, valid).st)
  {
    hide Replay, TouchedSince, Switch, AllSurvive, Consistent, Switched, NeverAgain;
    SwitchReplays(cfg, base, st, from, bs, valid);
    SwitchConsistentIff(cfg, base, st, from, bs, valid);
  }

  // ----- a failed switch -----

  lemma {:induction false} NothingKept(m: L.Mode, p: L.Params, h: Header, txs: seq<Tx>, i: nat, db: Db, c: L.Counters)
    requires i <= |txs| && PassedFrom(m, p, h, txs, i, db, c, Never()) == []
    ensures PlayFrom(m, p, h, txs, i, db, c, Never()).0 == db && TouchedFrom(m, p, h, txs, i, db, c) == {}
    decreases |txs| - i
  {
    hide L.Check, Succeeds, Kept;
    if i < |txs| {
      var (db', c', v) := PlayOne(m, p, h, txs[i], db, c, false);
      if v != L.Stop { NothingKept(m, p, h, txs, i + 1, db', c'); }
    }
  }

  function KeptInBlock(cfg: Config, db: Db, s: Stored): seq<Tx> {
    PassedFrom(s.mode, cfg.params, s.block.header, s.block.txs, 0, db, L.Zero, Never())
  }

  /** The blocks behind `k` up to `n` kept no transaction. */
  predicate NothingSince(cfg: Config, base: Db, chain: map<nat, Stored>, n: nat, k: nat)
    requires Has(chain, n)
    decreases n
  {
    n <= k || n <= 1 || (KeptInBlock(cfg, Replay(cfg, base, chain, n - 1), chain[n]) == [] && NothingSince(cfg, base, chain, n - 1, k))
  }

  lemma {:induction false} NothingSinceSame(cfg: Config, base: Db, chain: map<nat, Stored>, n: nat, k: nat)
    requires Has(chain, n) && 1 <= k <= n && NothingSince(cfg, base, chain, n, k)
    ensures Replay(cfg, base, chain, n) == Replay(cfg, base, chain, k) && TouchedSince(cfg, base, chain, n, k) == {}
    decreases n
  {
    hide PassedFrom, PlayFrom, TouchedFrom;
    if k < n {
      var s := chain[n];
      NothingKept(s.mode, cfg.params, s.block.header, s.block.txs, 0, Replay(cfg, base, chain, n - 1), L.Zero);
      NothingSinceSame(cfg, base, chain, n - 1, k);
    }
  }

  lemma {:induction false} SomethingLogged(cfg: Config, base: Db, chain: map<nat, Stored>, n: nat, k: nat)
    requires Has(chain, n) && 1 <= k <= n && WellPlayed(cfg, base, chain, n) && !NothingSince(cfg, base, chain, n, k)
    ensures Replay(cfg, base, chain, n).logged != Replay(cfg, base, chain, k).logged
    decreases n
  {
    hide PassedFrom, PlayFrom;
    var db, s := Replay(cfg, base, chain, n - 1), chain[n];
    LoggedGrows(cfg, base, chain, k, n - 1);
    PlayLogs(s.mode, cfg.params, s.block.header, s.block.txs, 0, db, L.Zero, Never());
    var kept := KeptInBlock(cfg, db, s);
    if kept != [] {
      PassedAreNew(s.mode, cfg.params, s.block.header, s.block.txs, 0, db, L.Zero);
      assert kept[0].hash in Hashes(kept);
    } else {
      SomethingLogged(cfg, base, chain, n - 1, k);
    }
  }

  lemma {:induction false} PassedAreNew(m: L.Mode, p: L.Params, h: Header, txs: seq<Tx>, i: nat, db: Db, c: L.Counters)
    requires i <= |txs|
    ensures forall k :: 0 <= k < |PassedFrom(m, p, h, txs, i, db, c, Never())| ==>
              PassedFrom(m, p, h, txs, i, db, c, Never())[k].hash in Hashes(txs)
    ensures NewHashes(db, txs) ==> db.logged !! Hashes(txs)
    decreases |txs| - i
  {
    hide L.Check, Succeeds, Kept;
    if i < |txs| {
      assert txs[i].hash in Hashes(txs);
      var (db', c', v) := PlayOne(m, p, h, txs[i], db, c, false);
      if v != L.Stop { PassedAreNew(m, p, h, txs, i + 1, db', c'); }
    }
  }

  /** A switch that fails, or that has no new blocks, leaves the old blocks stored but
      rolled back: the store is consistent after it if and only if those blocks had
      kept no transaction. */
  lemma {:induction false} FailedSwitchIff(cfg: Config, base: Db, st: Store, from: nat, bs: seq<Block>, valid: bool)
    requires Consistent(cfg, base, st) && Collected(bs, from) && from <= Tip(st) && !Switched(cfg, st, from, bs, valid)
    requires Has(st.chain, Tip(st))
    ensures Consistent(cfg, base, Switch(cfg, st, from, bs, valid).st) <==>
            NothingSince(cfg, base, st.chain, Tip(st), Start(bs, from) - 1)
  {
    hide Replay, WellPlayed, NothingSince, TouchedSince, StoreNew, PlayNew, LinkedAt;
    var k := Start(bs, from) - 1;
    var st' := Switch(cfg, st, from, bs, valid).st;
    assert st' == st.(db := RollDown(st.db, st.chain, Tip(st), k));
    hide RollDown, Switch;
    ToBlockExact(cfg, base, st, k);
    if NothingSince(cfg, base, st.chain, Tip(st), k) {
      NothingSinceSame(cfg, base, st.chain, Tip(st), k);
      WornNone(Replay(cfg, base, st.chain, k).rows);
    } else {
      SomethingLogged(cfg, base, st.chain, Tip(st), k);
    }
  }

  // ----- a transaction that two new blocks share -----

  /** The transaction does one thing: it inserts the row of `op`. */
  ghost predicate Inserts(t: Tx, op: Op, fuel: nat) {
    op.Insert? && forall h: Header, rows: Rows :: t.run(h, rows) == TxRun([op], true, fuel)
  }

  lemma {:induction false} FirstInsert(cfg: Config, db: Db, b: Block, t: Tx, op: Op, fuel: nat)
    requires b.txs == [t] && Inserts(t, op, fuel) && Locate(op.table, op.id) !in db.rows
    requires L.Check(L.Parse, cfg.params, L.Zero, View(t), fuel, false).1 == L.Pass
    ensures var r := PlayBlock(L.Parse, cfg.params, db, b);
            && r == Db(db.rows[Locate(op.table, op.id) := op.row], db.undo + [Undo(b.header.id, t.hash, op.table, op.id, None)], db.logged + {t.hash})
            && (t.hash !in db.logged ==> !Clashes(L.Parse, cfg.params, b.header, b.txs, 0, db, L.Zero, Never()))
  {
    hide L.Check;
    var run := t.run(b.header, db.rows);
    assert run.ops == [op] && [op][1..] == [];
    var db1 := Apply(db.rows, op);
    assert AllAllowed(db1, []) && ApplyAll(db1, []) == db1 && Records(db1, [], b.header.id, t.hash) == [];
    assert Succeeds(t, b.header, db.rows);
    var (r, c, v) := PlayOne(L.Parse, cfg.params, b.header, t, db, L.Zero, false);
    assert PlayFrom(L.Parse, cfg.params, b.header, b.txs, 1, r, c, Never()) == (r, 1);
    assert !Clashes(L.Parse, cfg.params, b.header, b.txs, 1, r, c, Never());
  }

  lemma {:induction false} SecondInsert(cfg: Config, db: Db, b: Block, t: Tx, op: Op, fuel: nat)
    requires b.txs == [t] && Inserts(t, op, fuel) && Locate(op.table, op.id) in db.rows
    ensures PlayBlock(L.Parse, cfg.params, db, b) == db && !Clashes(L.Parse, cfg.params, b.header, b.txs, 0, db, L.Zero, Never())
  {
    hide L.Check;
    assert t.run(b.header, db.rows).ops == [op];
    assert !Succeeds(t, b.header, db.rows);
    assert PlayFrom(L.Parse, cfg.params, b.header, b.txs, 1, db, L.Zero, Never()) == (db, 1);
    assert !Clashes(L.Parse, cfg.params, b.header, b.txs, 1, db, L.Zero, Never());
  }

  lemma {:induction false} OneFits(cfg: Config, db: Db, b: Block, t: Tx)
    requires b.txs == [t] && t.hash !in db.logged && cfg.params.maxUserTx >= 1
    ensures Checked(cfg, db, b)
  {
    var vs := Views(b.txs);
    assert vs == [View(t)] && vs[..0] == [];
    assert L.OfUser(vs, View(t).key) == 1;
  }

  /** The new blocks are accepted although both hold the transaction. */
  lemma {:induction false} RepeatAccepted(cfg: Config, db: Db, b1: Block, b2: Block, t: Tx, op: Op, fuel: nat)
    requires b1.txs == [t] && b2.txs == [t] && Inserts(t, op, fuel) && Locate(op.table, op.id) !in db.rows
    requires t.hash !in db.logged && cfg.params.maxUserTx >= 1
    requires L.Check(L.Parse, cfg.params, L.Zero, View(t), fuel, false).1 == L.Pass
    ensures PlayNew(cfg, db, db, [b1, b2]) == Some(PlayBlock(L.Parse, cfg.params, db, b1))
  {
    hide L.Check, PlayBlock, Clashes, Checked;
    FirstInsert(cfg, db, b1, t, op, fuel);
    var r := PlayBlock(L.Parse, cfg.params, db, b1);
    SecondInsert(cfg, r, b2, t, op, fuel);
    OneFits(cfg, db, b1, t);
    OneFits(cfg, db, b2, t);
    assert [b1, b2][1..] == [b2] && [b2][1..] == [];
    PlayNewStep(cfg, db, db, [b1, b2]);
    PlayNewStep(cfg, db, r, [b2]);
    PlayNewStep(cfg, db, r, []);
  }

  /** Rolling back the second block takes the row of the first one. */
  lemma {:induction false} RepeatRolledBack(cfg: Config, db: Db, b1: Block, t: Tx, op: Op, fuel: nat)
    requires b1.txs == [t] && Inserts(t, op, fuel) && Locate(op.table, op.id) !in db.rows
    requires UndoLogged(db) && t.hash !in db.logged
    requires L.Check(L.Parse, cfg.params, L.Zero, View(t), fuel, false).1 == L.Pass
    ensures Locate(op.table, op.id) in PlayBlock(L.Parse, cfg.params, db, b1).rows
    ensures Locate(op.table, op.id) !in RollbackTxs(PlayBlock(L.Parse, cfg.params, db, b1), [t]).rows
  {
    hide L.Check, PlayBlock, UndoAll, OfTx, NotOfTx;
    FirstInsert(cfg, db, b1, t, op, fuel);
    var u := Undo(b1.header.id, t.hash, op.table, op.id, None);
    OfTxConcat(db.undo, [u], t.hash);
    OfTxNone(db.undo, t.hash);
    OfTxAll([u], t.hash);
    assert [] + [u] == [u];
    RollbackSingle(PlayBlock(L.Parse, cfg.params, db, b1), t);
    UndoSingle(PlayBlock(L.Parse, cfg.params, db, b1).rows, u);
  }

  lemma RollbackSingle(db: Db, t: Tx)
    ensures RollbackTxs(db, [t]) == RollbackTx(db, t.hash)
  {
    hide RollbackTx;
    assert [t][..0] == [];
    assert RollbackTxs(RollbackTx(db, t.hash), []) == RollbackTx(db, t.hash);
  }

  /** A switch whose two blocks share a transaction that inserts a row is accepted
      and leaves the right tables; but rolling back the second of them then takes
      the row away although the block that inserted it is still stored. */
  lemma {:induction false} RepeatedHashLosesRow(cfg: Config, base: Db, st: Store, b1: Block, b2: Block, t: Tx, op: Op, fuel: nat)
    requires Consistent(cfg, base, st) && Tip(st) >= 3 && Has(st.chain, Tip(st) - 2) && Has(st.chain, Tip(st))
    requires b1.header.id == Tip(st) - 1 && b2.header.id == Tip(st) && b1.txs == [t] && b2.txs == [t]
    requires var db := Replay(cfg, base, st.chain, Tip(st) - 2);
             && AllSurvive(db.rows, TouchedSince(cfg, base, st.chain, Tip(st), Tip(st) - 2))
             && Locate(op.table, op.id) !in db.rows && t.hash !in db.logged
    requires Inserts(t, op, fuel) && cfg.params.maxUserTx >= 1 && SlotsFree(cfg, st.chain, [b1, b2])
    requires L.Check(L.Parse, cfg.params, L.Zero, View(t), fuel, false).1 == L.Pass
    ensures Collected([b1, b2], Tip(st)) && Switched(cfg, st, Tip(st), [b1, b2], true)
    ensures var st1 := Switch(cfg, st, Tip(st), [b1, b2], true).st;
            && Linked(cfg, st1) && Tip(st1) == Tip(st) && Has(st1.chain, Tip(st)) && st1.db == Replay(cfg, base, st1.chain, Tip(st))
            && var st2 := ToBlock(st1, Tip(st) - 1);
               && Linked(cfg, st2) && st2.chain[Tip(st2)].block == b1 && Has(st2.chain, Tip(st2))
               && Locate(op.table, op.id) in Replay(cfg, base, st2.chain, Tip(st2)).rows
               && Locate(op.table, op.id) !in st2.db.rows
  {
    hide Switch, Replay, WellPlayed, TouchedSince, L.Check, HashesUpTo, Switched, Inserts, AllSurvive, PlayBlock, RollbackTxs, UndoLogged, ToBlock, Collected;
    var bs, n, top := [b1, b2], Tip(st) - 2, Tip(st);
    var db := Replay(cfg, base, st.chain, n);
    RepeatSwitch(cfg, base, st, b1, b2, t, op, fuel);
    var st1 := Switch(cfg, st, top, bs, true).st;
    SwitchReplays(cfg, base, st, top, bs, true);
    SwitchLinksIff(cfg, st, top, bs, true);
    ToBlockLinks(cfg, st1, top - 1);
    WellPlayedBelow(cfg, base, st.chain, top, n);
    ReplayLogged(cfg, base, st.chain, n);
    RepeatRolledBack(cfg, db, b1, t, op, fuel);
    RepeatReplay(cfg, base, st, b1, b2, st1);
  }

  lemma {:induction false} RepeatSwitch(cfg: Config, base: Db, st: Store, b1: Block, b2: Block, t: Tx, op: Op, fuel: nat)
    requires Consistent(cfg, base, st) && Tip(st) >= 3 && Has(st.chain, Tip(st) - 2) && Has(st.chain, Tip(st))
    requires b1.header.id == Tip(st) - 1 && b2.header.id == Tip(st) && b1.txs == [t] && b2.txs == [t]
    requires var db := Replay(cfg, base, st.chain, Tip(st) - 2);
             && AllSurvive(db.rows, TouchedSince(cfg, base, st.chain, Tip(st), Tip(st) - 2))
             && Locate(op.table, op.id) !in db.rows && t.hash !in db.logged
    requires Inserts(t, op, fuel) && cfg.params.maxUserTx >= 1 && SlotsFree(cfg, st.chain, [b1, b2])
    requires L.Check(L.Parse, cfg.params, L.Zero, View(t), fuel, false).1 == L.Pass
    ensures Collected([b1, b2], Tip(st)) && Switched(cfg, st, Tip(st), [b1, b2], true)
    ensures Switch(cfg, st, Tip(st), [b1, b2], true).st.db == PlayBlock(L.Parse, cfg.params, Replay(cfg, base, st.chain, Tip(st) - 2), b1)
  {
    hide PlayBlock, L.Check, Clashes, Checked, Replay, TouchedSince, WellPlayed, LinkedAt, StoreNew, PlayNew, AllSurvive;
    var n, bs := Tip(st) - 2, [b1, b2];
    assert Numbered(bs, n + 1) && Collected(bs, Tip(st));
    var db := Replay(cfg, base, st.chain, n);
    ToBlockExact(cfg, base, st, n);
    WornIff(db.rows, TouchedSince(cfg, base, st.chain, Tip(st), n));
    RepeatAccepted(cfg, db, b1, b2, t, op, fuel);
  }

  lemma {:induction false} RepeatReplay(cfg: Config, base: Db, st: Store, b1: Block, b2: Block, st1: Store)
    requires Consistent(cfg, base, st) && Tip(st) >= 3 && Has(st.chain, Tip(st) - 2)
    requires Collected([b1, b2], Tip(st)) && Switched(cfg, st, Tip(st), [b1, b2], true)
    requires st1 == Switch(cfg, st, Tip(st), [b1, b2], true).st && Linked(cfg, st1) && Tip(st1) == Tip(st)
    requires st1.db == PlayBlock(L.Parse, cfg.params, Replay(cfg, base, st.chain, Tip(st) - 2), b1)
    ensures var n, st2 := Tip(st) - 2, ToBlock(st1, Tip(st) - 1);
            && st2.db == RollbackTxs(st1.db, b2.txs) && n + 1 in st2.chain && st2.chain[n + 1].block == b1 && Has(st2.chain, n + 1)
            && Replay(cfg, base, st2.chain, n + 1) == st1.db
  {
    hide PlayBlock, PlayNew, RollbackTxs, SlotsFree, HashesUpTo, WellPlayed, LinkedAt;
    var n, bs := Tip(st) - 2, [b1, b2];
    var st2 := ToBlock(st1, Tip(st) - 1);
    StoreNewFacts(cfg, st.chain, st.chain[n].hash, bs, n + 1);
    assert st1.chain[n + 1].block == bs[0] && st1.chain[n + 2].block == bs[1];
    assert RollDown(RollbackTxs(st1.db, b2.txs), st1.chain, n + 1, n + 1) == RollbackTxs(st1.db, b2.txs);
    var s := Stored(b1, cfg.digest(b1, st.chain[n].hash), L.Parse);
    assert bs[1..] == [b2] && [b2][1..] == [];
    assert st1.chain[n + 1] == s by { StoreNewFacts(cfg, st.chain[n + 1 := s], s.hash, [b2], n + 2); }
    ReplaySame(cfg, base, st2.chain, st.chain, n);
    assert st2.chain[n + 1] == s;
  }

  // ----- slots -----

  /** Of two stored blocks of a node in one slot the lower one has the time of the first block. */
  predicate StoredApart(cfg: Config, chain: map<nat, Stored>) {
    && (forall i :: i in chain ==> chain[i].block.header.time >= cfg.slots.start)
    && (forall i, j :: i in chain && j in chain && i < j ==> S.Apart(cfg.slots, StampOf(chain[i].block), StampOf(chain[j].block)))
  }

  /** An appended block never comes into a slot that its node has used, unless at
      the time of the first block. */
  lemma {:induction false} AppendOnePerSlot(cfg: Config, st: Store, b: Block, gen: bool, late: nat -> bool, valid: bool)
    requires Contiguous(st) && b.header.id == Tip(st) + 1 && StoredApart(cfg, st.chain)
    requires Append(cfg, st, b, gen, late, valid).Some?
    ensures StoredApart(cfg, Append(cfg, st, b, gen, late, valid).value.chain)
  {
    hide PlayFrom, Checked, S.Met, S.Apart;
    forall i | i in st.chain ensures S.Apart(cfg.slots, StampOf(st.chain[i].block), StampOf(b)) { FreeSlot(cfg, st.chain, b, i); }
  }

  lemma {:induction false} FreeSlot(cfg: Config, chain: map<nat, Stored>, b: Block, i: nat)
    requires SlotFree(cfg, chain, b) && i in chain && chain[i].block.header.time >= cfg.slots.start
    ensures S.Apart(cfg.slots, StampOf(chain[i].block), StampOf(b))
  {
    hide S.Met, S.Apart;
    S.FreeApart(cfg.slots, StampOf(chain[i].block), StampOf(b));
  }

  /** The blocks `bs` have taken the places from `low` up to the end. */
  ghost predicate Replaced(chain: map<nat, Stored>, r: map<nat, Stored>, bs: seq<Block>, low: nat) {
    && (forall i :: i in r ==> i < low + |bs|)
    && (forall i :: i in r && i < low ==> i in chain && r[i] == chain[i])
    && (forall j :: 0 <= j < |bs| ==> low + j in r && r[low + j].block == bs[j])
  }

  lemma {:induction false} StoreNewReplaces(cfg: Config, chain: map<nat, Stored>, prev: Digest, bs: seq<Block>, low: nat)
    requires Numbered(bs, low) && forall i :: i in chain ==> i < low + |bs|
    ensures Replaced(chain, StoreNew(cfg, chain, prev, bs), bs, low)
  {
    hide StoreNew, LinkedAt;
    StoreNewFacts(cfg, chain, prev, bs, low);
  }

  lemma {:induction false} NewApartIff(cfg: Config, chain: map<nat, Stored>, r: map<nat, Stored>, bs: seq<Block>, low: nat)
    requires StoredApart(cfg, chain) && SlotsFree(cfg, chain, bs) && Replaced(chain, r, bs, low)
    ensures StoredApart(cfg, r) <==> S.OnePerSlot(cfg.slots, Stamps(bs))
  {
    hide S.Apart, S.Met;
    var c, stamps := cfg.slots, Stamps(bs);
    forall i | i in r && i >= low ensures r[i].block == bs[i - low] { assert r[low + (i - low)].block == bs[i - low]; }
    if S.OnePerSlot(c, stamps) {
      forall i, j | i in r && j in r && i < j ensures S.Apart(c, StampOf(r[i].block), StampOf(r[j].block)) {
        if i < low <= j { FreeSlot(cfg, chain, bs[j - low], i); }
        if low <= i { assert S.Apart(c, stamps[i - low], stamps[j - low]); }
      }
    } else {
      var j, k :| 0 <= j < k < |stamps| && !S.Apart(c, stamps[j], stamps[k]);
      assert low + j in r && low + k in r;
    }
  }

  /** The program compares the slots of new blocks with the stored blocks only: a
      switch leaves no node with two blocks in a slot if and only if the new blocks
      do not share one among themselves. */
  lemma {:induction false} SwitchOnePerSlotIff(cfg: Config, st: Store, bs: seq<Block>, valid: bool)
    requires Contiguous(st) && StoredApart(cfg, st.chain) && Collected(bs, Tip(st)) && Switched(cfg, st, Tip(st), bs, valid)
    ensures StoredApart(cfg, Switch(cfg, st, Tip(st), bs, valid).st.chain) <==> S.OnePerSlot(cfg.slots, Stamps(bs))
  {
    hide RollDown, StoreNew, PlayNew, StoredApart, S.OnePerSlot, SlotsFree, Replaced, Numbered;
    var low := Start(bs, Tip(st));
    StoreNewReplaces(cfg, st.chain, st.chain[low - 1].hash, bs, low);
    NewApartIff(cfg, st.chain, Switch(cfg, st, Tip(st), bs, valid).st.chain, bs, low);
  }

  /** The stored blocks that a switch would replace count as well: a new block in a slot
      that its node has used, there or below, makes the switch fail. */
  lemma {:induction false} OldSlotRefused(cfg: Config, st: Store, bs: seq<Block>, valid: bool, j: nat, i: nat)
    requires Contiguous(st) && Collected(bs, Tip(st)) && j < |bs| && i in st.chain && st.chain[i].block.header.time > cfg.slots.start
    requires S.SameSlot(cfg.slots, StampOf(st.chain[i].block), StampOf(bs[j]))
    ensures !Switched(cfg, st, Tip(st), bs, valid)
  {
    hide RollDown, StoreNew, PlayNew, SlotFree, S.SameSlot;
    if Switched(cfg, st, Tip(st), bs, valid) { FreeSlot(cfg, st.chain, bs[j], i); }
  }

  /** It does happen: from every chain of three or more blocks a switch puts two blocks
      of one node into one slot. */
  lemma {:induction false} SwitchTwoInASlot(cfg: Config, st: Store) returns (bs: seq<Block>)
    requires Contiguous(st) && Tip(st) >= 3 && StoredApart(cfg, st.chain)
    ensures Collected(bs, Tip(st)) && Switched(cfg, st, Tip(st), bs, true)
    ensures !StoredApart(cfg, Switch(cfg, st, Tip(st), bs, true).st.chain)
  {
    hide Switch, Switched, StoredApart;
    var node := NewNode(st.chain, Tip(st));
    bs := Fillers(1, Tip(st) - 1, cfg.slots.start + 1, node);
    FillersSwitch(cfg, st, 1, cfg.slots.start + 1, node);
    SwitchOnePerSlotIff(cfg, st, bs, true);
    assert !S.Apart(cfg.slots, Stamps(bs)[0], Stamps(bs)[1]);
  }

  // ----- runs -----

  datatype Action =
    | DoAppend(b: Block, gen: bool, late: nat -> bool, valid: bool)
    | DoRollback(k: nat)
    | DoSwitch(bs: seq<Block>, valid: bool)

  /** The action is one that the node performs: an accepted block numbered tip + 1, a
      rollback to a stored block, or a switch at the tip, whatever becomes of it. */
  predicate Enabled(cfg: Config, st: Store, a: Action)
    requires Linked(cfg, st)
  {
    match a
    case DoAppend(b, gen, late, valid) => b.header.id == Tip(st) + 1 && Append(cfg, st, b, gen, late, valid).Some?
    case DoRollback(k) => 1 <= k <= Tip(st)
    case DoSwitch(bs, _) => Collected(bs, Tip(st))
  }

  function Perform(cfg: Config, st: Store, a: Action): Store
    requires Linked(cfg, st) && Enabled(cfg, st, a)
  {
    match a
    case DoAppend(b, gen, late, valid) => Append(cfg, st, b, gen, late, valid).value
    case DoRollback(k) => ToBlock(st, k)
    case DoSwitch(bs, valid) => Switch(cfg, st, Tip(st), bs, valid).st
  }

  lemma {:induction false} StepLinks(cfg: Config, st: Store, a: Action)
    requires Linked(cfg, st) && Enabled(cfg, st, a)
    ensures Linked(cfg, Perform(cfg, st, a))
  {
    hide Append, Switch, ToBlock, LinkedAt, HashesUpTo;
    match a
    case DoAppend(b, gen, late, valid) => AppendLinks(cfg, st, b, gen, late, valid);
    case DoRollback(k) => ToBlockLinks(cfg, st, k);
    case DoSwitch(bs, valid) => SwitchLinksIff(cfg, st, Tip(st), bs, valid);
  }

  /** Every action of the run is enabled in the state that the ones before it leave. */
  ghost predicate AllEnabled(cfg: Config, st: Store, run: seq<Action>)
    requires Linked(cfg, st)
    decreases |run|
  {
    run == [] || (Enabled(cfg, st, run[0]) && (StepLinks(cfg, st, run[0]); AllEnabled(cfg, Perform(cfg, st, run[0]), run[1..])))
  }

  ghost function PerformAll(cfg: Config, st: Store, run: seq<Action>): Store
    requires Linked(cfg, st) && AllEnabled(cfg, st, run)
    decreases |run|
  {
    if run == [] then st
    else
      StepLinks(cfg, st, run[0]);
      PerformAll(cfg, Perform(cfg, st, run[0]), run[1..])
  }

  /** In every state that a run reaches, also after failed switches, the stored
      numbers are contiguous, every hash is built on the hash of the block below,
      and the record of the last block names it. */
  lemma {:induction false} RunLinks(cfg: Config, st: Store, run: seq<Action>)
    requires Linked(cfg, st) && AllEnabled(cfg, st, run)
    ensures Linked(cfg, PerformAll(cfg, st, run))
    decreases |run|
  {
    hide Linked, Enabled, Perform;
    if run != [] {
      StepLinks(cfg, st, run[0]);
      RunLinks(cfg, Perform(cfg, st, run[0]), run[1..]);
    }
  }

  /** The action loses nothing: no cell that a rollback gives back wrong, no
      transaction kept twice, no failed switch over blocks that kept something. */
  ghost predicate Smooth(cfg: Config, base: Db, st: Store, a: Action)
    requires Consistent(cfg, base, st) && Enabled(cfg, st, a)
  {
    match a
    case DoAppend(_, _, _, _) => true
    case DoRollback(k) => AllSurvive(Replay(cfg, base, st.chain, k).rows, TouchedSince(cfg, base, st.chain, Tip(st), k))
    case DoSwitch(bs, valid) =>
      if Switched(cfg, st, Tip(st), bs, valid) then
        var k := Tip(st) - |bs|;
        NeverAgain(cfg, Replay(cfg, base, st.chain, k), bs) &&
        AllSurvive(Replay(cfg, base, st.chain, k).rows, TouchedSince(cfg, base, st.chain, Tip(st), k))
      else NothingSince(cfg, base, st.chain, Tip(st), Start(bs, Tip(st)) - 1)
  }

  /** A smooth action keeps the store consistent, and for every action other than a
      successful switch only a smooth one does. */
  lemma {:induction false} StepConsistent(cfg: Config, base: Db, st: Store, a: Action)
    requires Consistent(cfg, base, st) && Enabled(cfg, st, a)
    ensures Smooth(cfg, base, st, a) ==> Consistent(cfg, base, Perform(cfg, st, a))
    ensures !(a.DoSwitch? && Switched(cfg, st, Tip(st), a.bs, a.valid)) && Consistent(cfg, base, Perform(cfg, st, a)) ==> Smooth(cfg, base, st, a)
  {
    hide Append, Switch, Switched, ToBlock, LinkedAt, HashesUpTo, Replay, TouchedSince, WellPlayed, AllSurvive, NothingSince, NeverAgain;
    match a
    case DoAppend(b, gen, late, valid) => AppendConsistent(cfg, base, st, b, gen, late, valid);
    case DoRollback(k) => ToBlockConsistentIff(cfg, base, st, k);
    case DoSwitch(bs, valid) =>
      if !Switched(cfg, st, Tip(st), bs, valid) {
        FailedSwitchIff(cfg, base, st, Tip(st), bs, valid);
      } else if Smooth(cfg, base, st, a) {
        SwitchConsistent(cfg, base, st, Tip(st), bs, valid);
      }
  }

  ghost predicate AllSmooth(cfg: Config, base: Db, st: Store, run: seq<Action>)
    requires Consistent(cfg, base, st) && AllEnabled(cfg, st, run)
    decreases |run|
  {
    run == [] ||
    (Smooth(cfg, base, st, run[0]) &&
     (StepConsistent(cfg, base, st, run[0]); AllSmooth(cfg, base, Perform(cfg, st, run[0]), run[1..])))
  }

  /** After any smooth run of appends, rollbacks and switches, the contract
      tables, the undo log and the log of transactions are the replay of the
      blocks that are stored. */
  lemma {:induction false} RunConsistent(cfg: Config, base: Db, st: Store, run: seq<Action>)
    requires Consistent(cfg, base, st) && AllEnabled(cfg, st, run) && AllSmooth(cfg, base, st, run)
    ensures Consistent(cfg, base, PerformAll(cfg, st, run))
    decreases |run|
  {
    hide Enabled, Perform, Smooth, WellPlayed, Replay, Contiguous, HashesUpTo;
    if run != [] {
      StepLinks(cfg, st, run[0]);
      StepConsistent(cfg, base, st, run[0]);
      RunConsistent(cfg, base, Perform(cfg, st, run[0]), run[1..]);
    }
  }

  /** In every state that a run reaches whose switches each keep their new blocks apart, no node has two
      blocks in one slot, unless the lower one has the time of the first block. */
  lemma {:induction false} RunOnePerSlot(cfg: Config, st: Store, run: seq<Action>)
    requires Linked(cfg, st) && AllEnabled(cfg, st, run) && StoredApart(cfg, st.chain)
    requires forall i :: 0 <= i < |run| && run[i].DoSwitch? ==> S.OnePerSlot(cfg.slots, Stamps(run[i].bs))
    ensures StoredApart(cfg, PerformAll(cfg, st, run).chain)
    decreases |run|
  {
    hide StoredApart, HashesUpTo, Append, RollDown, S.OnePerSlot;
    if run != [] {
      StepLinks(cfg, st, run[0]);
      var a := run[0];
      match a {
        case DoAppend(b, gen, late, valid) => AppendOnePerSlot(cfg, st, b, gen, late, valid);
        case DoRollback(k) => FewerBlocks(cfg, st.chain, k);
        case DoSwitch(bs, valid) => if Switched(cfg, st, Tip(st), bs, valid) { SwitchOnePerSlotIff(cfg, st, bs, valid); }
      }
      forall i | 0 <= i < |run[1..]| && run[1..][i].DoSwitch? ensures S.OnePerSlot(cfg.slots, Stamps(run[1..][i].bs)) { assert run[1..][i] == run[i + 1]; }
      RunOnePerSlot(cfg, Perform(cfg, st, run[0]), run[1..]);
    }
  }

  lemma FewerBlocks(cfg: Config, chain: map<nat, Stored>, k: nat)
    requires StoredApart(cfg, chain)
    ensures StoredApart(cfg, Below(chain, k))
  {
  }
}
