/**
 Contract tables and their undo log: the writing side (packages/smart/selective.go)
 and the rollback of a transaction (packages/rollback/transaction.go), with the
 exact state that a rollback leaves behind.
 */
module Tables {
  import opened Wrappers
  import opened Hexadecimal

  datatype Cell = Null | Text(s: string)

  type Row = map<string, Cell>

  /** A table name of the form <ecosystem>_<name>. */
  datatype TableName = TableName(prefix: int, name: string)

  /** Where a row really is. The rows of all ecosystems of `keys` and `members`
      share one table and are told apart by their ecosystem column. */
  datatype Address = Address(table: TableName, ecosystem: int, id: string)

  type Rows = map<Address, Row>

  predicate Shared(name: string) {
    name == "keys" || name == "members"
  }

  function Locate(t: TableName, id: string): Address {
    if Shared(t.name) then Address(TableName(1, t.name), t.prefix, id) else Address(t, 0, id)
  }

  /** Different rows of different tables never share a place. */
  lemma {:induction false} LocateIsInjective(t: TableName, id: string, t': TableName, id': string)
    ensures Locate(t, id) == Locate(t', id') <==> t == t' && id == id'
    ensures (exists e: int :: e != t.prefix && Locate(TableName(e, t.name), id).table == Locate(t, id).table) <==>
            t.name == "keys" || t.name == "members"
  {
    var other := TableName(t.prefix + 1, t.name);
    assert other.prefix != t.prefix;
    assert Locate(other, id).table == Locate(t, id).table <==> Shared(t.name);
  }

  predicate ByteColumn(name: string, col: string) {
    (name == "history" && col == "txhash") || (name == "keys" && col == "pub") || (name == "binaries" && col == "data")
  }

  type TxHash = nat

  /** A record of rollback_tx. An inserted row has no data. */
  datatype Undo = Undo(block: nat, hash: TxHash, table: TableName, id: string, data: Option<map<string, string>>)

  /** What a contract writes: a new row, or new values for columns of a row. */
  datatype Op = Insert(table: TableName, id: string, row: Row)
              | Update(table: TableName, id: string, change: Row)

  // ----- the text forms of a cell -----

  /** The hexadecimal text of the bytes of a column. */
  function HexText(s: string): string {
    Hex(seq(|s|, k requires 0 <= k < |s| => s[k] as nat))
  }

  lemma HexFacts(s: string)
    ensures |HexText(s)| == 2 * |s|
    ensures s != "" ==> HexText(s)[0] != 'N'
  {
  }

  /** The cell as the query for the old row returns it, hexadecimal for a byte column. */
  function Logged(bytes: bool, c: Cell): string {
    var v := if c.Null? then "NULL" else c.s;
    if bytes && v != "" then HexText(v) else v
  }

  /** What rollback writes for a logged text: a byte column receives the decoded
      hexadecimal form of the text, which is the text itself. */
  function Restored(v: string): Cell {
    if v == "NULL" then Null else Text(v)
  }

  /** A cell after it was logged and rolled back. */
  function Returned(bytes: bool, c: Cell): Cell {
    Restored(Logged(bytes, c))
  }

  /** A cell survives exactly when it is an empty byte column, or another column
      that does not hold the text NULL. */
  predicate Survives(bytes: bool, c: Cell) {
    if bytes then c == Text("") else c != Text("NULL")
  }

  lemma {:induction false} ReturnedIff(bytes: bool, c: Cell)
    ensures Returned(bytes, c) == c <==> Survives(bytes, c)
  {
    var v := if c.Null? then "NULL" else c.s;
    HexFacts(v);
    if bytes && v != "" {
      assert HexText(v) != "NULL";
    }
  }

  // ----- writing -----

  /** The write is possible: a new row is new, an update names columns of a row that exists. */
  predicate Allowed(db: Rows, op: Op) {
    var a := Locate(op.table, op.id);
    match op
    case Insert(_, _, _) => a !in db
    case Update(_, _, change) => a in db && change != map[] && change.Keys <= db[a].Keys
  }

  function Apply(db: Rows, op: Op): Rows
    requires Allowed(db, op)
  {
    var a := Locate(op.table, op.id);
    match op
    case Insert(_, _, row) => db[a := row]
    case Update(_, _, change) => db[a := db[a] + change]
  }

  function Record(db: Rows, op: Op, block: nat, hash: TxHash): Undo
    requires Allowed(db, op)
  {
    var a := Locate(op.table, op.id);
    Undo(block, hash, op.table, op.id,
         match op
         case Insert(_, _, _) => None
         case Update(_, _, change) =>
           Some(map c | c in change :: Logged(ByteColumn(op.table.name, c), db[a][c])))
  }

  predicate AllAllowed(db: Rows, ops: seq<Op>)
    decreases |ops|
  {
    ops == [] || (Allowed(db, ops[0]) && AllAllowed(Apply(db, ops[0]), ops[1..]))
  }

  function ApplyAll(db: Rows, ops: seq<Op>): Rows
    requires AllAllowed(db, ops)
    decreases |ops|
  {
    if ops == [] then db else ApplyAll(Apply(db, ops[0]), ops[1..])
  }

  function Records(db: Rows, ops: seq<Op>, block: nat, hash: TxHash): (r: seq<Undo>)
    requires AllAllowed(db, ops)
    ensures |r| == |ops| && forall k :: 0 <= k < |r| ==> r[k].hash == hash && r[k].block == block
    decreases |ops|
  {
    if ops == [] then [] else [Record(db, ops[0], block, hash)] + Records(Apply(db, ops[0]), ops[1..], block, hash)
  }

  // ----- rollback -----

  /** A table name in the log is turned back into the place of the row. */
  function UndoOne(db: Rows, u: Undo): Rows {
    var a := Locate(u.table, u.id);
    match u.data
    case None => db - {a}
    case Some(data) =>
      if a in db then db[a := db[a] + map c | c in data :: Restored(data[c])] else db
  }

  /** The records are undone from the last one back. */
  function UndoAll(db: Rows, log: seq<Undo>): Rows {
    if log == [] then db else UndoAll(UndoOne(db, log[|log| - 1]), log[..|log| - 1])
  }

  function OfTx(log: seq<Undo>, hash: TxHash): seq<Undo> {
    if log == [] then []
    else OfTx(log[..|log| - 1], hash) + (if log[|log| - 1].hash == hash then [log[|log| - 1]] else [])
  }

  function NotOfTx(log: seq<Undo>, hash: TxHash): seq<Undo> {
    if log == [] then []
    else NotOfTx(log[..|log| - 1], hash) + (if log[|log| - 1].hash != hash then [log[|log| - 1]] else [])
  }

  // ----- the state after a rollback -----

  /** The cells that updates wrote. */
  function Touched(ops: seq<Op>): set<(Address, string)> {
    if ops == [] then {}
    else (match ops[0]
          case Insert(_, _, _) => {}
          case Update(t, id, change) => set c | c in change :: (Locate(t, id), c)) + Touched(ops[1..])
  }

  function CellAfter(a: Address, c: string, x: Cell, touched: set<(Address, string)>): Cell {
    if (a, c) in touched then Returned(ByteColumn(a.table.name, c), x) else x
  }

  function WornRow(a: Address, row: Row, touched: set<(Address, string)>): Row {
    map c | c in row :: CellAfter(a, c, row[c], touched)
  }

  /** The rows of `db` with every touched cell replaced by what its log entry returns. */
  function Worn(db: Rows, touched: set<(Address, string)>): Rows {
    map a | a in db :: WornRow(a, db[a], touched)
  }

  lemma WornNone(db: Rows)
    ensures Worn(db, {}) == db
  {
    forall a | a in db ensures WornRow(a, db[a], {}) == db[a] {
    }
  }

  function ChangedCells(a: Address, change: Row): set<(Address, string)> {
    set c | c in change :: (a, c)
  }

  lemma UndoneRow(a: Address, row: Row, change: Row, touched: set<(Address, string)>)
    requires change.Keys <= row.Keys
    ensures WornRow(a, row + change, touched) + (map c | c in change :: Returned(ByteColumn(a.table.name, c), row[c])) ==
            WornRow(a, row, ChangedCells(a, change) + touched)
  {
    hide Returned;
    var x := WornRow(a, row + change, touched) + (map c | c in change :: Returned(ByteColumn(a.table.name, c), row[c]));
    var y := WornRow(a, row, ChangedCells(a, change) + touched);
    assert x.Keys == y.Keys;
    forall c | c in y ensures x[c] == y[c] {
      if c in change { assert (a, c) in ChangedCells(a, change); }
    }
  }

  lemma OtherRow(a: Address, b: Address, row: Row, change: Row, touched: set<(Address, string)>)
    requires a != b
    ensures WornRow(b, row, ChangedCells(a, change) + touched) == WornRow(b, row, touched)
  {
    hide Returned;
  }

  lemma {:induction false} UndoAllConcat(db: Rows, x: seq<Undo>, y: seq<Undo>)
    ensures UndoAll(db, x + y) == UndoAll(UndoAll(db, y), x)
    decreases |y|
  {
    hide UndoOne;
    if y == [] {
      assert x + y == x;
    } else {
      assert (x + y)[..|x + y| - 1] == x + y[..|y| - 1];
      UndoAllConcat(UndoOne(db, y[|y| - 1]), x, y[..|y| - 1]);
    }
  }

  lemma {:induction false} UndoOfInsert(db: Rows, op: Op, touched: set<(Address, string)>, block: nat, hash: TxHash)
    requires Allowed(db, op) && op.Insert?
    ensures UndoOne(Worn(Apply(db, op), touched), Record(db, op, block, hash)) == Worn(db, touched)
  {
  }

  lemma {:induction false} UndoOfUpdate(db: Rows, op: Op, touched: set<(Address, string)>, block: nat, hash: TxHash)
    requires Allowed(db, op) && op.Update?
    ensures UndoOne(Worn(Apply(db, op), touched), Record(db, op, block, hash)) == Worn(db, Touched([op]) + touched)
  {
    hide Returned, WornRow;
    var a := Locate(op.table, op.id);
    assert a.table.name == op.table.name;
    var cells := ChangedCells(a, op.change);
    TouchedUpdate(op);
    UndoneRow(a, db[a], op.change, touched);
    var data := Record(db, op, block, hash).data.value;
    assert (map c | c in data :: Restored(data[c])) ==
           (map c | c in op.change :: Returned(ByteColumn(a.table.name, c), db[a][c])) by { SameTexts(op, db[a], data); }
    forall b | b in db && b != a ensures WornRow(b, db[b], cells + touched) == WornRow(b, db[b], touched) {
      OtherRow(a, b, db[b], op.change, touched);
    }
  }

  lemma SameTexts(op: Op, row: Row, data: map<string, string>)
    requires op.Update? && op.change.Keys <= row.Keys
    requires data == map c | c in op.change :: Logged(ByteColumn(op.table.name, c), row[c])
    ensures (map c | c in data :: Restored(data[c])) ==
            (map c | c in op.change :: Returned(ByteColumn(op.table.name, c), row[c]))
  {
  }

  lemma TouchedUpdate(op: Op)
    requires op.Update?
    ensures Touched([op]) == ChangedCells(Locate(op.table, op.id), op.change)
  {
    assert [op][1..] == [];
  }

  /** Writing a list of changes and undoing its log, even on rows that are worn
      by earlier rollbacks, leaves the old rows with every touched cell worn. */
  lemma {:induction false} UndoExact(db: Rows, ops: seq<Op>, worn: set<(Address, string)>, block: nat, hash: TxHash)
    requires AllAllowed(db, ops)
    ensures UndoAll(Worn(ApplyAll(db, ops), worn), Records(db, ops, block, hash)) == Worn(db, Touched(ops) + worn)
    decreases |ops|
  {
    hide UndoOne, Worn, Record, Apply, Allowed;
    if ops == [] {
      assert {} + worn == worn;
    } else {
      var db1, rest := Apply(db, ops[0]), ops[1..];
      UndoExact(db1, rest, worn, block, hash);
      var u := Record(db, ops[0], block, hash);
      UndoAllConcat(Worn(ApplyAll(db1, rest), worn), [u], Records(db1, rest, block, hash));
      UndoSingle(Worn(db1, Touched(rest) + worn), u);
      TouchedFirst(ops);
      assert Touched([ops[0]]) + (Touched(rest) + worn) == Touched(ops) + worn;
      if ops[0].Insert? {
        UndoOfInsert(db, ops[0], Touched(rest) + worn, block, hash);
        assert {} + (Touched(rest) + worn) == Touched(rest) + worn;
      } else {
        UndoOfUpdate(db, ops[0], Touched(rest) + worn, block, hash);
      }
    }
  }

  lemma UndoSingle(db: Rows, u: Undo)
    ensures UndoAll(db, [u]) == UndoOne(db, u)
  {
    assert [u][..0] == [];
  }

  lemma TouchedFirst(ops: seq<Op>)
    requires ops != []
    ensures Touched(ops) == Touched([ops[0]]) + Touched(ops[1..])
    ensures ops[0].Insert? ==> Touched([ops[0]]) == {}
  {
    assert [ops[0]][1..] == [];
  }

  /** Every touched cell of a row that exists before the changes survives its log entry. */
  ghost predicate AllSurvive(db: Rows, touched: set<(Address, string)>) {
    forall a, c :: a in db && c in db[a] && (a, c) in touched ==> Survives(ByteColumn(a.table.name, c), db[a][c])
  }

  lemma {:induction false} WornIff(db: Rows, touched: set<(Address, string)>)
    ensures Worn(db, touched) == db <==> AllSurvive(db, touched)
  {
    forall a, c | a in db && c in db[a]
      ensures Worn(db, touched)[a][c] == db[a][c] <==>
              ((a, c) in touched ==> Survives(ByteColumn(a.table.name, c), db[a][c]))
    {
      ReturnedIff(ByteColumn(a.table.name, c), db[a][c]);
    }
    if AllSurvive(db, touched) {
      forall a | a in db ensures Worn(db, touched)[a] == db[a] {
        assert Worn(db, touched)[a].Keys == db[a].Keys;
      }
      assert Worn(db, touched).Keys == db.Keys;
    }
    if Worn(db, touched) == db {
      forall a, c | a in db && c in db[a] && (a, c) in touched
        ensures Survives(ByteColumn(a.table.name, c), db[a][c])
      {
        assert Worn(db, touched)[a] == db[a];
      }
    }
  }

  /** A rollback restores the tables if and only if, of the cells that the
      transaction wrote, every byte column was empty and no other column held the
      text NULL. */
  lemma {:induction false} RollbackRestoresIff(db: Rows, ops: seq<Op>, block: nat, hash: TxHash)
    requires AllAllowed(db, ops)
    ensures UndoAll(ApplyAll(db, ops), Records(db, ops, block, hash)) == db <==> AllSurvive(db, Touched(ops))
  {
    hide UndoAll, ApplyAll, Records, Worn;
    UndoExact(db, ops, {}, block, hash);
    WornNone(ApplyAll(db, ops));
    assert Touched(ops) + {} == Touched(ops);
    WornIff(db, Touched(ops));
  }

  /** The failing family in one example: a public key that is replaced and rolled
      back comes back as its hexadecimal text. */
  lemma PublicKeyComesBackAsHex(id: string, old': string, new': string)
    requires old' != ""
    ensures var t := TableName(1, "keys");
            var db: Rows := map[Locate(t, id) := map["pub" := Text(old')]];
            var op := Update(t, id, map["pub" := Text(new')]);
            && Allowed(db, op)
            && UndoOne(Apply(db, op), Record(db, op, 2, 7))[Locate(t, id)]["pub"] == Text(HexText(old'))
            && Text(HexText(old')) != Text(old')
  {
    HexFacts(old');
    assert HexText(old') != "NULL";
    var t := TableName(1, "keys");
    var db: Rows := map[Locate(t, id) := map["pub" := Text(old')]];
    var op := Update(t, id, map["pub" := Text(new')]);
    assert op.change.Keys == {"pub"} && db[Locate(t, id)].Keys == {"pub"};
    assert "pub" in op.change;
  }

  // ----- writing on worn rows -----

  /** The undo log shows no difference between a cell and what a rollback returns for it. */
  predicate Quiet(bytes: bool, x: Cell) {
    Logged(bytes, Returned(bytes, x)) == Logged(bytes, x)
  }

  /** A cell that loses its value in a rollback is quiet exactly when it is no byte column. */
  lemma {:induction false} QuietIff(bytes: bool, x: Cell)
    requires !Survives(bytes, x)
    ensures Quiet(bytes, x) <==> !bytes
  {
    var v := if x.Null? then "NULL" else x.s;
    HexFacts(v);
    HexFacts(HexText(v));
    if bytes { assert HexText(v) != "NULL"; }
  }

  ghost predicate QuietCells(db: Rows, cells: set<(Address, string)>) {
    forall a, c :: a in db && c in db[a] && (a, c) in cells ==> Quiet(ByteColumn(a.table.name, c), db[a][c])
  }

  ghost predicate Inside(db: Rows, cells: set<(Address, string)>) {
    forall a, c :: (a, c) in cells ==> a in db && c in db[a]
  }

  /** Cells that `db1` has inherited from `db`. */
  ghost predicate Inherited(db: Rows, db1: Rows, cells: set<(Address, string)>) {
    forall a, c :: (a, c) in cells ==> a in db && c in db[a] && a in db1 && c in db1[a] && db1[a][c] == db[a][c]
  }

  lemma {:induction false} WornUpdate(db: Rows, op: Op, cells: set<(Address, string)>)
    requires op.Update? && Allowed(db, op) && Inside(db, cells)
    ensures Allowed(Worn(db, cells), op)
    ensures Apply(Worn(db, cells), op) == Worn(Apply(db, op), cells - ChangedCells(Locate(op.table, op.id), op.change))
    ensures Inherited(db, Apply(db, op), cells - ChangedCells(Locate(op.table, op.id), op.change))
  {
    var a := Locate(op.table, op.id);
    var cells' := cells - ChangedCells(a, op.change);
    var w, v := Apply(Worn(db, cells), op), Worn(Apply(db, op), cells');
    assert w.Keys == v.Keys;
    forall b | b in v ensures w[b] == v[b] {
      if b == a {
        assert w[b].Keys == v[b].Keys;
        forall c | c in v[b] ensures w[b][c] == v[b][c] {
          assert (a, c) in ChangedCells(a, op.change) <==> c in op.change;
        }
      } else {
        assert WornRow(b, db[b], cells) == WornRow(b, db[b], cells') by {
          forall c | c in db[b] ensures (b, c) in cells <==> (b, c) in cells' { }
        }
      }
    }
  }

  lemma {:induction false} WornInsert(db: Rows, op: Op, cells: set<(Address, string)>)
    requires op.Insert? && Allowed(db, op) && Inside(db, cells)
    ensures Allowed(Worn(db, cells), op)
    ensures Apply(Worn(db, cells), op) == Worn(Apply(db, op), cells)
    ensures Inherited(db, Apply(db, op), cells)
  {
    var a := Locate(op.table, op.id);
    assert WornRow(a, op.row, cells) == op.row;
  }

  lemma {:induction false} WornRecord(db: Rows, op: Op, cells: set<(Address, string)>, block: nat, hash: TxHash)
    requires op.Update? && Allowed(db, op) && Allowed(Worn(db, cells), op)
    ensures Record(Worn(db, cells), op, block, hash) == Record(db, op, block, hash) <==>
            QuietCells(db, cells * ChangedCells(Locate(op.table, op.id), op.change))
  {
    var a, t := Locate(op.table, op.id), ChangedCells(Locate(op.table, op.id), op.change);
    var x, y := Record(Worn(db, cells), op, block, hash).data.value, Record(db, op, block, hash).data.value;
    assert x.Keys == op.change.Keys == y.Keys;
    forall c | c in op.change
      ensures x[c] == y[c] <==> ((a, c) in cells ==> Quiet(ByteColumn(a.table.name, c), db[a][c]))
    {
      assert (a, c) in t;
    }
    if QuietCells(db, cells * t) {
      forall c | c in op.change ensures x[c] == y[c] { assert (a, c) in t; }
      assert x == y;
    } else {
      var b, c :| b in db && c in db[b] && (b, c) in cells * t && !Quiet(ByteColumn(b.table.name, c), db[b][c]);
      assert b == a && c in op.change;
    }
  }

  /** A list of writes on worn rows: it is allowed as on the rows themselves, leaves
      the cells it overwrites unworn, and logs the same exactly when the worn cells
      that it overwrites are quiet. */
  lemma {:induction false} WornWrites(db: Rows, ops: seq<Op>, cells: set<(Address, string)>, block: nat, hash: TxHash)
    requires AllAllowed(db, ops) && Inside(db, cells)
    ensures AllAllowed(Worn(db, cells), ops)
    ensures ApplyAll(Worn(db, cells), ops) == Worn(ApplyAll(db, ops), cells - Touched(ops))
    ensures Inherited(db, ApplyAll(db, ops), cells - Touched(ops))
    ensures Records(Worn(db, cells), ops, block, hash) == Records(db, ops, block, hash) <==> QuietCells(db, cells * Touched(ops))
    decreases |ops|
  {
    hide Worn, Apply, Allowed, Record, Inside, Inherited, QuietCells, Touched;
    if ops == [] {
      NoWrites(db, ops, cells);
    } else {
      var op, rest := ops[0], ops[1..];
      var t, u := Touched([op]), Touched(rest);
      TouchedFirst(ops);
      var db1, cells1 := Apply(db, op), cells - t;
      OneWornWrite(db, op, cells, block, hash);
      InheritedInside(db, db1, cells1);
      WornWrites(db1, rest, cells1, block, hash);
      assert cells1 - u == cells - Touched(ops);
      InheritedChain(db, db1, ApplyAll(db1, rest), cells1, cells1 - u);
      SplitQuiet(db, db1, cells, t, u);
      SameList(Record(Worn(db, cells), op, block, hash), Records(Worn(db1, cells1), rest, block, hash),
               Record(db, op, block, hash), Records(db1, rest, block, hash));
    }
  }

  lemma AllowedSame(db: Rows, op: Op, cells: set<(Address, string)>)
    ensures Allowed(Worn(db, cells), op) <==> Allowed(db, op)
  {
    var a := Locate(op.table, op.id);
    if a in db { assert Worn(db, cells)[a].Keys == db[a].Keys; }
  }

  /** Wear never makes a write possible or impossible. */
  lemma {:induction false} WornAllowed(db: Rows, ops: seq<Op>, cells: set<(Address, string)>)
    requires Inside(db, cells)
    ensures AllAllowed(Worn(db, cells), ops) <==> AllAllowed(db, ops)
    decreases |ops|
  {
    hide Worn, Apply, Allowed, Record, Inside, Inherited, QuietCells, Touched;
    if ops != [] {
      AllowedSame(db, ops[0], cells);
      if Allowed(db, ops[0]) {
        OneWornWrite(db, ops[0], cells, 0, 0);
        InheritedInside(db, Apply(db, ops[0]), cells - Touched([ops[0]]));
        WornAllowed(Apply(db, ops[0]), ops[1..], cells - Touched([ops[0]]));
      }
    }
  }

  lemma NoWrites(db: Rows, ops: seq<Op>, cells: set<(Address, string)>)
    requires ops == [] && Inside(db, cells)
    ensures cells - Touched(ops) == cells && Inherited(db, db, cells) && QuietCells(db, cells * Touched(ops))
  {
  }

  lemma InheritedInside(db: Rows, db1: Rows, cells: set<(Address, string)>)
    requires Inherited(db, db1, cells)
    ensures Inside(db1, cells)
  {
  }

  lemma InheritedChain(db: Rows, db1: Rows, db2: Rows, cells: set<(Address, string)>, fewer: set<(Address, string)>)
    requires Inherited(db, db1, cells) && Inherited(db1, db2, fewer) && fewer <= cells
    ensures Inherited(db, db2, fewer)
  {
  }

  lemma SameList(x: Undo, xs: seq<Undo>, y: Undo, ys: seq<Undo>)
    ensures [x] + xs == [y] + ys <==> x == y && xs == ys
  {
    if [x] + xs == [y] + ys {
      assert ([x] + xs)[0] == ([y] + ys)[0] && ([x] + xs)[1..] == ([y] + ys)[1..];
    }
  }

  lemma {:induction false} OneWornWrite(db: Rows, op: Op, cells: set<(Address, string)>, block: nat, hash: TxHash)
    requires Allowed(db, op) && Inside(db, cells)
    ensures Allowed(Worn(db, cells), op)
    ensures Apply(Worn(db, cells), op) == Worn(Apply(db, op), cells - Touched([op]))
    ensures Inherited(db, Apply(db, op), cells - Touched([op]))
    ensures Record(Worn(db, cells), op, block, hash) == Record(db, op, block, hash) <==> QuietCells(db, cells * Touched([op]))
  {
    hide Worn, Apply;
    if op.Insert? {
      TouchedFirst([op]);
      assert [op][1..] == [];
      assert cells - {} == cells && cells * {} == {};
      WornInsert(db, op, cells);
    } else {
      TouchedUpdate(op);
      WornUpdate(db, op, cells);
      WornRecord(db, op, cells, block, hash);
    }
  }

  lemma SplitQuiet(db: Rows, db1: Rows, cells: set<(Address, string)>, t: set<(Address, string)>, u: set<(Address, string)>)
    requires Inherited(db, db1, cells - t) && Inside(db, cells)
    ensures QuietCells(db, cells * (t + u)) <==> QuietCells(db, cells * t) && QuietCells(db1, (cells - t) * u)
  {
    hide Quiet;
    if QuietCells(db, cells * t) && QuietCells(db1, (cells - t) * u) {
      forall a, c | a in db && c in db[a] && (a, c) in cells * (t + u) ensures Quiet(ByteColumn(a.table.name, c), db[a][c]) {
        if (a, c) !in t { assert (a, c) in cells - t && (a, c) in (cells - t) * u; }
      }
    }
    if QuietCells(db, cells * (t + u)) {
      forall a, c | a in db1 && c in db1[a] && (a, c) in (cells - t) * u ensures Quiet(ByteColumn(a.table.name, c), db1[a][c]) {
        assert (a, c) in cells - t && (a, c) in cells * (t + u);
      }
    }
  }

  // ----- the undo log of several transactions -----

  lemma {:induction false} OfTxConcat(x: seq<Undo>, y: seq<Undo>, hash: TxHash)
    ensures OfTx(x + y, hash) == OfTx(x, hash) + OfTx(y, hash)
    ensures NotOfTx(x + y, hash) == NotOfTx(x, hash) + NotOfTx(y, hash)
    decreases |y|
  {
    if y == [] {
      assert x + y == x;
    } else {
      assert (x + y)[..|x + y| - 1] == x + y[..|y| - 1];
      OfTxConcat(x, y[..|y| - 1], hash);
    }
  }

  lemma OfTxOne(u: Undo, hash: TxHash)
    ensures OfTx([u], hash) == (if u.hash == hash then [u] else [])
    ensures NotOfTx([u], hash) == (if u.hash == hash then [] else [u])
  {
    assert [u][..0] == [];
  }

  lemma {:induction false} OfTxAll(x: seq<Undo>, hash: TxHash)
    requires forall k :: 0 <= k < |x| ==> x[k].hash == hash
    ensures OfTx(x, hash) == x && NotOfTx(x, hash) == []
    decreases |x|
  {
    if x != [] {
      hide OfTx, NotOfTx;
      var front, last := x[..|x| - 1], x[|x| - 1];
      assert front + [last] == x;
      OfTxAll(front, hash);
      OfTxOne(last, hash);
      OfTxConcat(front, [last], hash);
    }
  }

  lemma {:induction false} OfTxNone(x: seq<Undo>, hash: TxHash)
    requires forall k :: 0 <= k < |x| ==> x[k].hash != hash
    ensures OfTx(x, hash) == [] && NotOfTx(x, hash) == x
    decreases |x|
  {
    if x != [] {
      hide OfTx, NotOfTx;
      var front, last := x[..|x| - 1], x[|x| - 1];
      assert front + [last] == x;
      OfTxNone(front, hash);
      OfTxOne(last, hash);
      OfTxConcat(front, [last], hash);
    }
  }
}
