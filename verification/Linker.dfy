/**
 Loading compiled contracts into the virtual machine (FlushBlock in
 packages/script/compile.go, FlushContract in packages/smart/funcs.go) and
 taking them out again when their transaction fails (packages/block/block.go).
 */
module Linker {
  import opened Wrappers

  /** Marks the id of a contract that replaces a loaded one. */
  const FLUSH_MARK: nat := 0x100000

  /** A contract of a compiled text. */
  datatype Item = Item(name: string, code: int)

  /** A loaded contract. */
  datatype Contract = Contract(item: Item, id: nat)

  /** The tables of the virtual machine; some slots of `children` are reserved. */
  datatype VM = VM(children: seq<Option<Contract>>, objects: map<string, Contract>)

  // ----- what must hold of the tables -----

  predicate IdsMatch(vm: VM) {
    forall i :: 0 <= i < |vm.children| && vm.children[i].Some? ==> vm.children[i].value.id == i
  }

  /** Every name leads to the contract that is loaded under its id. */
  predicate NamesLead(vm: VM) {
    forall n :: n in vm.objects ==>
      vm.objects[n].id < |vm.children| && vm.children[vm.objects[n].id] == Some(vm.objects[n]) && vm.objects[n].item.name == n
  }

  predicate Valid(vm: VM) {
    IdsMatch(vm) && NamesLead(vm)
  }

  // ----- flushing -----

  /** Of several contracts with one name the last one is the object of that name. */
  predicate IsLast(items: seq<Item>, j: nat)
    requires j < |items|
  {
    forall k :: j < k < |items| ==> items[k].name != items[j].name
  }

  /** The id after the first loop: its place in the text, or the marked id of the
      contract that it replaces. */
  function MarkedId(objects: map<string, Contract>, items: seq<Item>, j: nat): nat
    requires j < |items|
  {
    if IsLast(items, j) && items[j].name in objects then objects[items[j].name].id + FLUSH_MARK else j
  }

  /** The second loop from item `j`. `shift` turns places into ids; None is a panic. */
  function PlaceFrom(vm: VM, before: map<string, Contract>, items: seq<Item>, j: nat, shift: int): Option<VM>
    requires j <= |items|
    decreases |items| - j
  {
    if j == |items| then Some(vm)
    else
      var id := MarkedId(before, items, j);
      if id > FLUSH_MARK then
        var c := Contract(items[j], id - FLUSH_MARK);
        if c.id >= |vm.children| then None
        else PlaceFrom(VM(vm.children[c.id := Some(c)], vm.objects[c.item.name := c]), before, items, j + 1, shift - 1)
      else if id + shift < 0 then None
      else
        var c := Contract(items[j], id + shift);
        var objects := if IsLast(items, j) then vm.objects[c.item.name := c] else vm.objects;
        PlaceFrom(VM(vm.children + [Some(c)], objects), before, items, j + 1, shift)
  }

  function Flush(vm: VM, items: seq<Item>): Option<VM> {
    PlaceFrom(vm, vm.objects, items, 0, |vm.children|)
  }

  /** No contract with id 0 is replaced and the places of the text stay below the mark. */
  predicate Replaceable(vm: VM, items: seq<Item>) {
    && |items| <= FLUSH_MARK
    && forall j :: 0 <= j < |items| && items[j].name in vm.objects ==> vm.objects[items[j].name].id >= 1
  }

  /** The name tables while the second loop runs: names still to come are as before. */
  predicate Pending(vm: VM, before: map<string, Contract>, items: seq<Item>, j: nat)
    requires j <= |items|
  {
    forall k :: j <= k < |items| && IsLast(items, k) ==>
      (items[k].name in before <==> items[k].name in vm.objects) &&
      (items[k].name in before ==> vm.objects[items[k].name] == before[items[k].name])
  }

  /** Item `k` takes the place of a contract that was loaded before. */
  predicate Replaces(before: map<string, Contract>, items: seq<Item>, k: nat)
    requires k < |items|
  {
    IsLast(items, k) && items[k].name in before
  }

  /** The tables after item `j`. */
  predicate After(vm: VM, vm1: VM, before: map<string, Contract>, items: seq<Item>, j: nat)
    requires j < |items|
  {
    var n := items[j].name;
    if Replaces(before, items, j) then
      var id := before[n].id;
      id < |vm.children| && vm1 == VM(vm.children[id := Some(Contract(items[j], id))], vm.objects[n := Contract(items[j], id)])
    else
      var c := Contract(items[j], |vm.children|);
      vm1 == VM(vm.children + [Some(c)], if IsLast(items, j) then vm.objects[n := c] else vm.objects)
  }

  /** One turn of the second loop. */
  lemma {:induction false} Placed(vm: VM, before: map<string, Contract>, items: seq<Item>, j: nat, shift: int)
    returns (vm1: VM, shift1: int)
    requires j < |items| <= FLUSH_MARK && Valid(vm) && Pending(vm, before, items, j)
    requires shift + j == |vm.children|
    requires IsLast(items, j) && items[j].name in before ==> before[items[j].name].id >= 1
    ensures PlaceFrom(vm, before, items, j, shift) == PlaceFrom(vm1, before, items, j + 1, shift1)
    ensures Valid(vm1) && Pending(vm1, before, items, j + 1)
    ensures shift1 + j + 1 == |vm1.children| && |vm1.children| >= |vm.children| && After(vm, vm1, before, items, j)
  {
    hide IdsMatch, NamesLead, IsLast;
    var n := items[j].name;
    if IsLast(items, j) && n in before {
      assert vm.objects[n] == before[n];
      PlacedNames(vm, n);
      var c := Contract(items[j], before[n].id);
      vm1, shift1 := VM(vm.children[c.id := Some(c)], vm.objects[n := c]), shift - 1;
      ReplaceKeeps(vm, c);
      PendingNext(vm, vm1, before, items, j, c);
    } else {
      var c := Contract(items[j], |vm.children|);
      vm1, shift1 := VM(vm.children + [Some(c)], if IsLast(items, j) then vm.objects[n := c] else vm.objects), shift;
      AddKeeps(vm, c);
      PendingNext(vm, vm1, before, items, j, c);
    }
  }

  lemma {:induction false} PlaceKeeps(vm: VM, before: map<string, Contract>, items: seq<Item>, j: nat, shift: int)
    requires j <= |items| <= FLUSH_MARK && Valid(vm) && Pending(vm, before, items, j)
    requires shift + j == |vm.children|
    requires forall k :: j <= k < |items| && items[k].name in before ==> before[items[k].name].id >= 1
    ensures PlaceFrom(vm, before, items, j, shift).Some? && Valid(PlaceFrom(vm, before, items, j, shift).value)
    decreases |items| - j
  {
    hide Valid, Pending;
    if j < |items| {
      hide PlaceFrom;
      var vm1, shift1 := Placed(vm, before, items, j, shift);
      PlaceKeeps(vm1, before, items, j + 1, shift1);
    }
  }

  lemma PlacedNames(vm: VM, n: string)
    requires NamesLead(vm) && n in vm.objects
    ensures vm.objects[n].id < |vm.children|
  {
  }

  lemma ReplaceKeeps(vm: VM, c: Contract)
    requires Valid(vm) && c.item.name in vm.objects && c.id == vm.objects[c.item.name].id
    ensures Valid(VM(vm.children[c.id := Some(c)], vm.objects[c.item.name := c]))
  {
  }

  lemma AddKeeps(vm: VM, c: Contract)
    requires Valid(vm) && c.id == |vm.children|
    ensures Valid(VM(vm.children + [Some(c)], vm.objects)) && Valid(VM(vm.children + [Some(c)], vm.objects[c.item.name := c]))
  {
  }

  lemma PendingNext(vm: VM, vm1: VM, before: map<string, Contract>, items: seq<Item>, j: nat, c: Contract)
    requires j < |items| && Pending(vm, before, items, j)
    requires vm1.objects == vm.objects || (IsLast(items, j) && vm1.objects == vm.objects[items[j].name := c])
    ensures Pending(vm1, before, items, j + 1)
  {
  }

  /** After any flush that replaces no contract of id 0, every contract's id is
      its place in `children` and every name leads to its contract. */
  lemma {:induction false} FlushKeepsIds(vm: VM, items: seq<Item>)
    requires Valid(vm) && Replaceable(vm, items)
    ensures Flush(vm, items).Some? && Valid(Flush(vm, items).value)
  {
    PlaceKeeps(vm, vm.objects, items, 0, |vm.children|);
  }

  ghost predicate AllReplaceable(vm: VM, texts: seq<seq<Item>>)
    requires Valid(vm)
    decreases |texts|
  {
    texts == [] ||
    (Replaceable(vm, texts[0]) && (FlushKeepsIds(vm, texts[0]); AllReplaceable(Flush(vm, texts[0]).value, texts[1..])))
  }

  ghost function FlushAll(vm: VM, texts: seq<seq<Item>>): VM
    requires Valid(vm) && AllReplaceable(vm, texts)
    decreases |texts|
  {
    if texts == [] then vm
    else
      FlushKeepsIds(vm, texts[0]);
      FlushAll(Flush(vm, texts[0]).value, texts[1..])
  }

  lemma {:induction false} FlushesKeepIds(vm: VM, texts: seq<seq<Item>>)
    requires Valid(vm) && AllReplaceable(vm, texts)
    ensures Valid(FlushAll(vm, texts))
    decreases |texts|
  {
    hide Valid, Flush, Replaceable;
    if texts != [] {
      FlushKeepsIds(vm, texts[0]);
      FlushesKeepIds(Flush(vm, texts[0]).value, texts[1..]);
    }
  }

  /** A misnumbered contract behind the original table stays misnumbered. */
  lemma {:induction false} MisnumberedStays(vm: VM, before: map<string, Contract>, items: seq<Item>, j: nat, shift: int, p: nat)
    requires j <= |items| <= FLUSH_MARK && p < |vm.children| && vm.children[p].Some? && vm.children[p].value.id != p
    requires forall n :: n in before ==> before[n].id < p
    ensures var r := PlaceFrom(vm, before, items, j, shift); r.Some? ==> !IdsMatch(r.value)
    decreases |items| - j
  {
    if j < |items| {
      hide IdsMatch;
      var id := MarkedId(before, items, j);
      if id > FLUSH_MARK {
        var c := Contract(items[j], id - FLUSH_MARK);
        if c.id < |vm.children| {
          MisnumberedStays(VM(vm.children[c.id := Some(c)], vm.objects[c.item.name := c]), before, items, j + 1, shift - 1, p);
        }
      } else if id + shift >= 0 {
        var c := Contract(items[j], id + shift);
        var objects := if IsLast(items, j) then vm.objects[c.item.name := c] else vm.objects;
        MisnumberedStays(VM(vm.children + [Some(c)], objects), before, items, j + 1, shift, p);
      }
    }
  }

  /** A contract that replaces the one with id 0 is taken for a new one and
      receives an id outside the table. */
  lemma {:induction false} ZeroBreaks(vm: VM, before: map<string, Contract>, items: seq<Item>, j: nat, shift: int, k: nat)
    requires j <= k < |items| <= FLUSH_MARK && Valid(vm) && Pending(vm, before, items, j)
    requires shift + j == |vm.children|
    requires IsLast(items, k) && items[k].name in before && before[items[k].name].id == 0
    requires forall m :: j <= m < k && IsLast(items, m) && items[m].name in before ==> before[items[m].name].id >= 1
    requires forall n :: n in before ==> before[n].id < |vm.children|
    ensures var r := PlaceFrom(vm, before, items, j, shift); r.Some? ==> !IdsMatch(r.value)
    decreases k - j
  {
    hide Valid, Pending, IsLast;
    if j < k {
      var vm1, shift1 := Placed(vm, before, items, j, shift);
      hide PlaceFrom;
      ZeroBreaks(vm1, before, items, j + 1, shift1, k);
    } else {
      var c := Contract(items[j], FLUSH_MARK + shift);
      var vm1 := VM(vm.children + [Some(c)], vm.objects[c.item.name := c]);
      assert vm1.children[|vm.children|] == Some(c) && c.id != |vm.children|;
      MisnumberedStays(vm1, before, items, j + 1, shift, |vm.children|);
    }
  }

  lemma {:induction false} LastOf(items: seq<Item>, j: nat) returns (k: nat)
    requires j < |items|
    ensures j <= k < |items| && items[k].name == items[j].name && IsLast(items, k)
    decreases |items| - j
  {
    k := j;
    if m :| j < m < |items| && items[m].name == items[j].name {
      k := LastOf(items, m);
    }
  }

  /** The ids survive a flush exactly when the contract with id 0 is not replaced. */
  lemma {:induction false} FlushKeepsIdsIff(vm: VM, items: seq<Item>)
    requires Valid(vm) && |items| <= FLUSH_MARK
    ensures (Flush(vm, items).Some? && Valid(Flush(vm, items).value)) <==> Replaceable(vm, items)
  {
    if Replaceable(vm, items) {
      FlushKeepsIds(vm, items);
    } else {
      var j :| 0 <= j < |items| && items[j].name in vm.objects && vm.objects[items[j].name].id == 0;
      var k := LastOf(items, j);
      forall m | 0 <= m < k && IsLast(items, m) && items[m].name in vm.objects
        ensures vm.objects[items[m].name].id >= 1
      {
        assert items[m].name != items[k].name;
      }
      ZeroBreaks(vm, vm.objects, items, 0, |vm.children|, k);
    }
  }

  // ----- what a flush loads -----

  /** The items from `j` on that replace nothing, in order. */
  function News(before: map<string, Contract>, items: seq<Item>, j: nat): seq<Item>
    requires j <= |items|
    decreases |items| - j
  {
    if j == |items| then [] else (if Replaces(before, items, j) then [] else [items[j]]) + News(before, items, j + 1)
  }

  /** The last item of the name from `j` on, if there is one. */
  predicate Names(items: seq<Item>, j: nat, n: string) {
    exists k :: j <= k < |items| && items[k].name == n && IsLast(items, k)
  }

  /** The names after the items from `j` on: each leads to its last item, under the id
      of the contract that it replaces; other names lead where they led. */
  ghost predicate NamesLoaded(a: VM, r: VM, before: map<string, Contract>, items: seq<Item>, j: nat) {
    && (forall n :: n in r.objects <==> n in a.objects || Names(items, j, n))
    && (forall n :: n in a.objects && !Names(items, j, n) ==> r.objects[n] == a.objects[n])
    && (forall k :: j <= k < |items| && IsLast(items, k) ==> LeadsTo(r, before, items[k]))
  }

  predicate LeadsTo(r: VM, before: map<string, Contract>, x: Item) {
    x.name in r.objects && r.objects[x.name].item == x && (x.name in before ==> r.objects[x.name].id == before[x.name].id)
  }

  predicate Kept(before: map<string, Contract>, items: seq<Item>, j: nat, i: nat) {
    forall k :: j <= k < |items| && Replaces(before, items, k) ==> before[items[k].name].id != i
  }

  /** The table after the items from `j` on: new contracts stand behind the old ones, in
      order, and every other place that is not taken over stays. */
  predicate PlacesLoaded(a: VM, r: VM, before: map<string, Contract>, items: seq<Item>, j: nat)
    requires j <= |items|
  {
    var news, n := News(before, items, j), |a.children|;
    && |r.children| == n + |news|
    && (forall i :: 0 <= i < |news| ==> r.children[n + i] == Some(Contract(news[i], n + i)))
    && (forall i :: 0 <= i < n && Kept(before, items, j, i) ==> r.children[i] == a.children[i])
  }

  lemma {:induction false} PlaceLoads(vm: VM, before: map<string, Contract>, items: seq<Item>, j: nat, shift: int)
    requires j <= |items| <= FLUSH_MARK && Valid(vm) && Pending(vm, before, items, j)
    requires shift + j == |vm.children|
    requires forall k :: j <= k < |items| && items[k].name in before ==> before[items[k].name].id >= 1
    requires forall n :: n in before ==> before[n].id < |vm.children|
    ensures var r := PlaceFrom(vm, before, items, j, shift);
            r.Some? && NamesLoaded(vm, r.value, before, items, j) && PlacesLoaded(vm, r.value, before, items, j)
    decreases |items| - j
  {
    if j < |items| {
      hide Valid, Pending, NamesLoaded, PlacesLoaded;
      var vm1, shift1 := Placed(vm, before, items, j, shift);
      hide PlaceFrom, After;
      PlaceLoads(vm1, before, items, j + 1, shift1);
      var r := PlaceFrom(vm1, before, items, j + 1, shift1).value;
      NamesJoin(vm, vm1, r, before, items, j);
      PlacesJoin(vm, vm1, r, before, items, j);
    }
  }

  lemma NamesNext(items: seq<Item>, j: nat, n: string)
    requires j < |items|
    ensures Names(items, j, n) <==> Names(items, j + 1, n) || (items[j].name == n && IsLast(items, j))
  {
    if Names(items, j, n) && !(items[j].name == n && IsLast(items, j)) {
      var k :| j <= k < |items| && items[k].name == n && IsLast(items, k);
      assert j + 1 <= k;
    }
  }

  lemma {:induction false} NamesJoin(vm: VM, vm1: VM, r: VM, before: map<string, Contract>, items: seq<Item>, j: nat)
    requires j < |items| && After(vm, vm1, before, items, j) && NamesLoaded(vm1, r, before, items, j + 1)
    ensures NamesLoaded(vm, r, before, items, j)
  {
    hide IsLast, Names;
    forall n ensures n in r.objects <==> n in vm.objects || Names(items, j, n) { NamesNext(items, j, n); }
    forall n | n in vm.objects && !Names(items, j, n) ensures r.objects[n] == vm.objects[n] { NamesNext(items, j, n); }
    forall k | j <= k < |items| && IsLast(items, k) ensures LeadsTo(r, before, items[k]) {
      if k == j { LastEnds(items, j); }
    }
  }

  lemma LastEnds(items: seq<Item>, j: nat)
    requires j < |items| && IsLast(items, j)
    ensures !Names(items, j + 1, items[j].name)
  {
  }

  lemma {:induction false} PlacesJoin(vm: VM, vm1: VM, r: VM, before: map<string, Contract>, items: seq<Item>, j: nat)
    requires j < |items| && After(vm, vm1, before, items, j) && PlacesLoaded(vm1, r, before, items, j + 1)
    requires forall n :: n in before ==> before[n].id < |vm.children|
    ensures PlacesLoaded(vm, r, before, items, j)
  {
    hide IsLast;
    var n, news, rest := |vm.children|, News(before, items, j), News(before, items, j + 1);
    if Replaces(before, items, j) {
      assert news == rest;
      forall i | 0 <= i < n && Kept(before, items, j, i) ensures r.children[i] == vm.children[i] {
        assert Kept(before, items, j + 1, i) && before[items[j].name].id != i;
      }
    } else {
      assert news == [items[j]] + rest;
      assert Kept(before, items, j + 1, n);
      forall i | 0 <= i < |news| ensures r.children[n + i] == Some(Contract(news[i], n + i)) {
        if i > 0 { assert news[i] == rest[i - 1]; }
      }
      forall i | 0 <= i < n && Kept(before, items, j, i) ensures r.children[i] == vm.children[i] {
        assert Kept(before, items, j + 1, i);
      }
    }
  }

  /** What any flush loads that replaces no contract of id 0: every name of the text leads
      to its last item, replaced contracts keep their ids, new ones stand behind the old
      ones in the order of the text, and everything else stays. */
  lemma {:induction false} FlushLoads(vm: VM, items: seq<Item>)
    requires Valid(vm) && Replaceable(vm, items)
    ensures var r := Flush(vm, items);
            r.Some? && NamesLoaded(vm, r.value, vm.objects, items, 0) && PlacesLoaded(vm, r.value, vm.objects, items, 0)
    ensures forall k :: 0 <= k < |items| ==> Names(items, 0, items[k].name)
  {
    PlaceLoads(vm, vm.objects, items, 0, |vm.children|);
    forall k | 0 <= k < |items| ensures Names(items, 0, items[k].name) {
      var m := LastOf(items, k);
    }
  }

  // ----- undoing flushes -----

  /** What FlushContract notes for a name of the text: the contract that was
      loaded, or the place where a new one is expected. */
  datatype FlushInfo = FlushInfo(id: nat, prev: Option<Contract>, name: string)

  function Note(vm: VM, x: Item): FlushInfo {
    if x.name in vm.objects then FlushInfo(vm.objects[x.name].id, Some(vm.objects[x.name]), x.name)
    else FlushInfo(|vm.children|, None, x.name)
  }

  function UndoOne(vm: VM, f: FlushInfo): Option<VM> {
    match f.prev
    case None =>
      if f.id + 1 != |vm.children| then Some(vm)
      else Some(VM(vm.children[..|vm.children| - 1], vm.objects - {f.name}))
    case Some(c) =>
      if f.id >= |vm.children| then None
      else Some(VM(vm.children[f.id := Some(c)], vm.objects[f.name := c]))
  }

  /** The walk of Play over the notes, from the last one back. */
  function UndoAll(vm: VM, log: seq<FlushInfo>): Option<VM>
    decreases |log|
  {
    if log == [] then Some(vm)
    else
      match UndoOne(vm, log[|log| - 1])
      case None => None
      case Some(vm1) => UndoAll(vm1, log[..|log| - 1])
  }

  method UndoFlushes(start: VM, log: seq<FlushInfo>) returns (r: Option<VM>)
    ensures r == UndoAll(start, log)
  {
    var vm := start;
    assert log[..|log|] == log;
    for i := |log| downto 0
      invariant UndoAll(vm, log[..i]) == UndoAll(start, log)
    {
      assert log[..i + 1][..i] == log[..i];
      var f := log[i];
      if f.prev.None? {
        if f.id + 1 == |vm.children| {
          vm := VM(vm.children[..|vm.children| - 1], vm.objects - {f.name});
        }
      } else {
        if f.id >= |vm.children| { return None; }
        vm := VM(vm.children[f.id := f.prev], vm.objects[f.name := f.prev.value]);
      }
    }
    return Some(vm);
  }

  /** What a transaction loads with FlushContract, text by text, and the notes it
      leaves. A text with other than one contract is refused before anything is
      noted and ends the transaction; None is a panic. */
  function Transact(vm: VM, texts: seq<seq<Item>>): Option<(VM, seq<FlushInfo>)>
    decreases |texts|
  {
    if texts == [] || |texts[0]| != 1 then Some((vm, []))
    else
      match Flush(vm, texts[0])
      case None => None
      case Some(vm1) =>
        match Transact(vm1, texts[1..])
        case None => None
        case Some((vm2, log)) => Some((vm2, [Note(vm, texts[0][0])] + log))
  }

  /** No text of the transaction replaces the contract with id 0. */
  predicate SparesZero(vm: VM, texts: seq<seq<Item>>)
    decreases |texts|
  {
    texts == [] || |texts[0]| != 1 ||
    (Replaceable(vm, texts[0]) && (Flush(vm, texts[0]).Some? ==> SparesZero(Flush(vm, texts[0]).value, texts[1..])))
  }

  lemma {:induction false} FlushOne(vm: VM, x: Item)
    requires Valid(vm) && Replaceable(vm, [x])
    ensures Flush(vm, [x]) ==
            if x.name in vm.objects
            then Some(VM(vm.children[vm.objects[x.name].id := Some(Contract(x, vm.objects[x.name].id))],
                         vm.objects[x.name := Contract(x, vm.objects[x.name].id)]))
            else Some(VM(vm.children + [Some(Contract(x, |vm.children|))], vm.objects[x.name := Contract(x, |vm.children|)]))
  {
    assert IsLast([x], 0);
    if x.name in vm.objects {
      var c := Contract(x, vm.objects[x.name].id);
      var vm1 := VM(vm.children[c.id := Some(c)], vm.objects[x.name := c]);
      assert [x][0].name in vm.objects;
      assert PlaceFrom(vm1, vm.objects, [x], 1, |vm.children| - 1) == Some(vm1);
    } else {
      var c := Contract(x, |vm.children|);
      var vm1 := VM(vm.children + [Some(c)], vm.objects[x.name := c]);
      assert PlaceFrom(vm1, vm.objects, [x], 1, |vm.children|) == Some(vm1);
    }
  }

  lemma {:induction false} UndoOneFlush(vm: VM, x: Item)
    requires Valid(vm) && Replaceable(vm, [x])
    ensures Flush(vm, [x]).Some? && UndoOne(Flush(vm, [x]).value, Note(vm, x)) == Some(vm)
  {
    hide Flush;
    FlushOne(vm, x);
    if x.name in vm.objects {
      var id := vm.objects[x.name].id;
      assert vm.children[id := Some(Contract(x, id))][id := Some(vm.objects[x.name])] == vm.children;
      assert vm.objects[x.name := Contract(x, id)][x.name := vm.objects[x.name]] == vm.objects;
    } else {
      var c := Contract(x, |vm.children|);
      assert (vm.children + [Some(c)])[..|vm.children|] == vm.children;
      assert vm.objects[x.name := c] - {x.name} == vm.objects;
    }
  }

  lemma {:induction false} UndoAllFirst(vm: VM, f: FlushInfo, log: seq<FlushInfo>, mid: VM)
    requires UndoAll(vm, log) == Some(mid)
    ensures UndoAll(vm, [f] + log) == UndoOne(mid, f)
    decreases |log|
  {
    hide UndoOne;
    if log == [] {
      assert [f] + log == [f] && [f][..0] == [];
    } else {
      assert ([f] + log)[..|log|] == [f] + log[..|log| - 1];
      UndoAllFirst(UndoOne(vm, log[|log| - 1]).value, f, log[..|log| - 1], mid);
    }
  }

  /** The walk back restores both tables when the contract with id 0 was left alone. */
  lemma {:induction false} WalkRestores(vm: VM, texts: seq<seq<Item>>)
    requires Valid(vm) && SparesZero(vm, texts)
    ensures var r := Transact(vm, texts); r.Some? && UndoAll(r.value.0, r.value.1) == Some(vm)
    decreases |texts|
  {
    hide Valid, Flush, Note, UndoOne, Replaceable;
    if texts != [] && |texts[0]| == 1 {
      var x := texts[0][0];
      assert texts[0] == [x];
      FlushKeepsIds(vm, [x]);
      var vm1 := Flush(vm, [x]).value;
      WalkRestores(vm1, texts[1..]);
      UndoOneFlush(vm, x);
      var (vm2, log) := Transact(vm1, texts[1..]).value;
      UndoAllFirst(vm2, Note(vm, x), log, vm1);
    }
  }

  /** How many notes stand for contracts that were new. */
  function NewNotes(log: seq<FlushInfo>): nat {
    if log == [] then 0 else NewNotes(log[..|log| - 1]) + if log[|log| - 1].prev.None? then 1 else 0
  }

  lemma {:induction false} NewNotesFirst(f: FlushInfo, log: seq<FlushInfo>)
    ensures NewNotes([f] + log) == (if f.prev.None? then 1 else 0) + NewNotes(log)
    decreases |log|
  {
    if log == [] {
      assert [f] + log == [f] && [f][..0] == [];
    } else {
      assert ([f] + log)[..|log|] == [f] + log[..|log| - 1];
      NewNotesFirst(f, log[..|log| - 1]);
    }
  }

  /** The walk back takes out at most one contract for each note of a new one. */
  lemma {:induction false} WalkTakesOut(vm: VM, log: seq<FlushInfo>)
    ensures UndoAll(vm, log).Some? ==> |UndoAll(vm, log).value.children| + NewNotes(log) >= |vm.children|
    decreases |log|
  {
    if log != [] && UndoOne(vm, log[|log| - 1]).Some? {
      WalkTakesOut(UndoOne(vm, log[|log| - 1]).value, log[..|log| - 1]);
    }
  }

  /** One flush adds a contract when it notes a new one, and when it replaces the one with id 0. */
  lemma {:induction false} FlushAdds(vm: VM, x: Item)
    requires Flush(vm, [x]).Some?
    ensures |Flush(vm, [x]).value.children| ==
            |vm.children| + if x.name in vm.objects && vm.objects[x.name].id > 0 then 0 else 1
  {
    var id := MarkedId(vm.objects, [x], 0);
    assert IsLast([x], 0) && [x][0] == x;
    if id > FLUSH_MARK {
      var c := Contract(x, id - FLUSH_MARK);
      var vm1 := VM(vm.children[c.id := Some(c)], vm.objects[x.name := c]);
      assert PlaceFrom(vm1, vm.objects, [x], 1, |vm.children| - 1) == Some(vm1);
    } else {
      var c := Contract(x, id + |vm.children|);
      var vm1 := VM(vm.children + [Some(c)], vm.objects[x.name := c]);
      assert PlaceFrom(vm1, vm.objects, [x], 1, |vm.children|) == Some(vm1);
    }
  }

  /** A transaction leaves at least as many more contracts as it notes new ones,
      and more if it replaced the one with id 0. */
  lemma {:induction false} TransactAdds(vm: VM, texts: seq<seq<Item>>)
    requires Transact(vm, texts).Some?
    ensures var (vm', log) := Transact(vm, texts).value;
            |vm'.children| >= |vm.children| + NewNotes(log) + if SparesZero(vm, texts) then 0 else 1
    decreases |texts|
  {
    hide Flush;
    if texts != [] && |texts[0]| == 1 {
      var x := texts[0][0];
      assert texts[0] == [x];
      FlushAdds(vm, x);
      TransactAdds(Flush(vm, [x]).value, texts[1..]);
      NewNotesFirst(Note(vm, x), Transact(Flush(vm, [x]).value, texts[1..]).value.1);
    }
  }

  /** The walk of Play restores both tables after a failed transaction, whatever
      contracts it loaded, if and only if it did not replace the contract with id 0. */
  lemma {:induction false} WalkRestoresIff(vm: VM, texts: seq<seq<Item>>)
    requires Valid(vm)
    ensures var r := Transact(vm, texts);
            r.Some? && UndoAll(r.value.0, r.value.1) == Some(vm) <==> SparesZero(vm, texts)
  {
    hide Valid, UndoAll, Transact, SparesZero;
    if SparesZero(vm, texts) {
      WalkRestores(vm, texts);
    } else if Transact(vm, texts).Some? {
      var (vm', log) := Transact(vm, texts).value;
      TransactAdds(vm, texts);
      WalkTakesOut(vm', log);
    }
  }

  /** The exception on a machine whose first child is a contract: its replacement
      is appended and stays after the walk back. */
  lemma {:induction false} ZeroStays(vm: VM, x: Item)
    requires Valid(vm) && x.name in vm.objects && vm.objects[x.name].id == 0
    ensures Flush(vm, [x]).Some? && UndoOne(Flush(vm, [x]).value, Note(vm, x)).Some?
    ensures |UndoOne(Flush(vm, [x]).value, Note(vm, x)).value.children| == |vm.children| + 1
  {
    var c := Contract(x, FLUSH_MARK + |vm.children|);
    var vm1 := VM(vm.children + [Some(c)], vm.objects[x.name := c]);
    assert IsLast([x], 0) && [x][0].name in vm.objects;
    assert PlaceFrom(vm1, vm.objects, [x], 1, |vm.children|) == Some(vm1);
  }

  // ----- the machine as an object -----

  class Machine {
    var children: seq<Option<Contract>>
    var objects: map<string, Contract>
    var notes: seq<FlushInfo>

    function Tables(): VM
      reads this
    {
      VM(children, objects)
    }

    constructor (vm: VM)
      ensures Tables() == vm && notes == []
    {
      children, objects, notes := vm.children, vm.objects, [];
    }

    /** FlushContract for the text of row `row` of the contracts table: a text with
        other than one contract is refused before anything is noted. */
    method FlushContract(items: seq<Item>, row: nat) returns (ok: bool)
      modifies this
      ensures row != 0 && |items| != 1 ==> !ok && Tables() == old(Tables()) && notes == old(notes)
      ensures row == 0 || |items| == 1 ==> ok == Flush(old(Tables()), items).Some?
      ensures |items| == 1 ==> notes == old(notes) + [Note(old(Tables()), items[0])]
      ensures ok ==> Flush(old(Tables()), items) == Some(Tables())
    {
      if row != 0 && |items| != 1 { return false; }
      for j := 0 to |items|
        invariant Tables() == old(Tables())
        invariant |items| == 1 ==> notes == old(notes) + if j == 0 then [] else [Note(Tables(), items[0])]
      {
        if IsLast(items, j) { notes := notes + [Note(Tables(), items[j])]; }
      }
      ok := FlushBlock(items);
    }

    /** FlushBlock: ids are marked in a first loop, contracts are placed in a second one. */
    method FlushBlock(items: seq<Item>) returns (ok: bool)
      modifies this`children, this`objects
      ensures ok == Flush(old(Tables()), items).Some?
      ensures ok ==> Tables() == Flush(old(Tables()), items).value
    {
      ghost var before := Tables();
      var shift: int := |children|;
      var ids := [];
      for j := 0 to |items|
        invariant Tables() == before && |ids| == j
        invariant forall k :: 0 <= k < j ==> ids[k] == MarkedId(before.objects, items, k)
      {
        var id := j;
        if IsLast(items, j) && items[j].name in objects { id := objects[items[j].name].id + FLUSH_MARK; }
        ids := ids + [id];
      }
      for j := 0 to |items|
        invariant PlaceFrom(Tables(), before.objects, items, j, shift) == Flush(before, items)
      {
        if ids[j] > FLUSH_MARK {
          var c := Contract(items[j], ids[j] - FLUSH_MARK);
          if c.id >= |children| { return false; }
          children, objects := children[c.id := Some(c)], objects[c.item.name := c];
          shift := shift - 1;
        } else {
          if ids[j] + shift < 0 { return false; }
          var c := Contract(items[j], ids[j] + shift);
          if IsLast(items, j) { objects := objects[c.item.name := c]; }
          children := children + [Some(c)];
        }
      }
      return true;
    }
  }
}
