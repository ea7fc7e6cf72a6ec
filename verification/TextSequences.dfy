/**
 Texts that are compiled and loaded one after the other: each one sees the
 functions of the texts before it, and a function that is defined again takes the
 place of its predecessor. The main result of the compiler and the virtual machine.
 */
module TextSequences {
  import opened Wrappers
  import opened Lexemes
  import opened Blocks
  import opened Statements
  import opened Programs
  import opened ProgramMeaning
  import opened Declarations
  import opened CompiledTexts
  import opened Calls
  import opened TextPrograms
  import opened WholePrograms

  // ----- the names of the virtual machine -----

  /** The state for which a text is compiled, and what it declares. */
  datatype Source = Source(state: string, units: seq<Unit>)

  function Exported(o: Object, t: nat): Object {
    if o.ObjFunc? then ObjFunc(o.f.(home := Some(t))) else o
  }

  /** FlushBlock: the objects in the root of text `t`. */
  function Exports(blocks: seq<Block>, t: nat): Env {
    if blocks == [] then map[] else map n | n in Visible(blocks, 0) :: Exported(Visible(blocks, 0)[n], t)
  }

  /** What the virtual machine knows after the texts have been loaded. */
  function NamesAfter(vm: Env, texts: Texts): Env {
    if texts == [] then vm else NamesAfter(vm, texts[..|texts| - 1]) + Exports(texts[|texts| - 1], |texts| - 1)
  }

  const ROOT: seq<Block> := [EmptyBlock(None)]

  /** Every text is covered in the context that the texts before it leave. */
  ghost predicate GoodTexts(cx: Context, xs: seq<Source>)
    decreases |xs|, 0
  {
    xs == [] ||
    (GoodTexts(cx, xs[..|xs| - 1]) && GoodUnits(Behind(cx, xs[..|xs| - 1], xs[|xs| - 1].state), xs[|xs| - 1].units, ROOT))
  }

  /** The context of a text behind the texts `xs`. */
  ghost function Behind(cx: Context, xs: seq<Source>, state: string): Context
    requires GoodTexts(cx, xs)
    decreases |xs|, 2
  {
    cx.(vm := NamesAfter(cx.vm, TextsOf(cx, xs)), state := state)
  }

  ghost function TextsOf(cx: Context, xs: seq<Source>): (r: Texts)
    requires GoodTexts(cx, xs)
    ensures |r| == |xs|
    decreases |xs|, 1
  {
    if xs == [] then []
    else
      var front, x := xs[..|xs| - 1], xs[|xs| - 1];
      TextsOf(cx, front) + [BuildUnits(Behind(cx, front, x.state), x.units, ROOT)]
  }

  ghost function Bodies(cx: Context, us: seq<Unit>): map<nat, Body>
    requires GoodUnits(cx, us, ROOT)
  {
    map b | b in ListingOf(cx, us) :: Body(cx, ListingOf(cx, us)[b].d, ListingOf(cx, us)[b].local)
  }

  ghost function ProgramOf(cx: Context, xs: seq<Source>): (r: Program)
    requires GoodTexts(cx, xs)
    ensures |r.bodies| == |xs| && |r.roots| == |xs|
    decreases |xs|
  {
    if xs == [] then Program([], [])
    else
      var front, x := xs[..|xs| - 1], xs[|xs| - 1];
      var c, p := Behind(cx, front, x.state), ProgramOf(cx, front);
      Program(p.bodies + [Bodies(c, x.units)], p.roots + [UnitsRoot(c, x.units, ROOT, map[])])
  }

  /** The functions that the virtual machine has from the beginning are built in. */
  predicate OnlyBuiltins(cx: Context) {
    forall n :: n in cx.vm ==> !cx.vm[n].ObjVar? && (cx.vm[n].ObjFunc? ==> cx.vm[n].f.external)
  }

  predicate SameSignature(d: FuncDecl, e: FuncDecl) {
    |d.params| == |e.params| && |d.results| == |e.results| && d.variadic == e.variadic
  }

  /** A function that is defined again keeps its numbers of parameters and results. */
  predicate KeepsSignatures(prog: Program) {
    forall s, u, n :: 0 <= s < u < |prog.roots| && n in prog.roots[s] && n in prog.roots[u] ==>
      var k, l := Home(s, prog.roots[s][n]), Home(u, prog.roots[u][n]);
      prog.Has(k) && prog.Has(l) ==> SameSignature(prog.At(k).d, prog.At(l).d)
  }

  // ----- one text of the sequence -----

  /** The context of text `t`. */
  ghost function ContextAt(cx: Context, xs: seq<Source>, t: nat): Context
    requires GoodTexts(cx, xs) && t < |xs|
  {
    Prefixes(cx, xs, t);
    Behind(cx, xs[..t], xs[t].state)
  }

  lemma {:induction false} Prefixes(cx: Context, xs: seq<Source>, t: nat)
    requires GoodTexts(cx, xs) && t <= |xs|
    ensures GoodTexts(cx, xs[..t]) && TextsOf(cx, xs)[..t] == TextsOf(cx, xs[..t])
    ensures ProgramOf(cx, xs).bodies[..t] == ProgramOf(cx, xs[..t]).bodies && ProgramOf(cx, xs).roots[..t] == ProgramOf(cx, xs[..t]).roots
    decreases |xs|
  {
    hide GoodUnits, BuildUnits, Bodies, UnitsRoot, Behind;
    if t == |xs| {
      assert xs[..t] == xs;
    } else {
      var front := xs[..|xs| - 1];
      Prefixes(cx, front, t);
      assert front[..t] == xs[..t];
    }
  }

  /** What stands at place `t` of everything. */
  lemma {:induction false} TextAt(cx: Context, xs: seq<Source>, t: nat)
    requires GoodTexts(cx, xs) && t < |xs|
    ensures var c := ContextAt(cx, xs, t);
            && GoodUnits(c, xs[t].units, ROOT)
            && TextsOf(cx, xs)[t] == BuildUnits(c, xs[t].units, ROOT)
            && ProgramOf(cx, xs).bodies[t] == Bodies(c, xs[t].units)
            && ProgramOf(cx, xs).roots[t] == UnitsRoot(c, xs[t].units, ROOT, map[])
  {
    hide GoodUnits, BuildUnits, Bodies, UnitsRoot, Behind;
    Prefixes(cx, xs, t);
    Prefixes(cx, xs, t + 1);
    assert xs[..t + 1][..t] == xs[..t];
    assert TextsOf(cx, xs)[t] == TextsOf(cx, xs)[..t + 1][t];
    assert ProgramOf(cx, xs).bodies[t] == ProgramOf(cx, xs).bodies[..t + 1][t];
    assert ProgramOf(cx, xs).roots[t] == ProgramOf(cx, xs).roots[..t + 1][t];
  }

  /** The blocks of text `t` hold its functions and name those of its root. */
  lemma {:induction false} TextSound(cx: Context, xs: seq<Source>, t: nat)
    requires GoodTexts(cx, xs) && t < |xs|
    ensures var c, blocks := ContextAt(cx, xs, t), TextsOf(cx, xs)[t];
            && GoodUnits(c, xs[t].units, ROOT)
            && Listed(c, blocks, ListingOf(c, xs[t].units)) && Outside(blocks, [0]) && |blocks| > 0
            && ProgramOf(cx, xs).roots[t] == RootOf(blocks)
            && ProgramOf(cx, xs).bodies[t] == Bodies(c, xs[t].units)
  {
    hide GoodUnits, BuildUnits, UnitsRoot, ContextAt, Listed, Bodies, GoodTexts;
    TextAt(cx, xs, t);
    var c := ContextAt(cx, xs, t);
    TextLoads(c, xs[t].units);
    UnitsObjects(c, xs[t].units, ROOT);
    assert RootOf(ROOT) == map[];
    assert [0][0] == 0;
  }

  // ----- what calls between texts refer to -----

  /** Where a name comes from: the beginning, or the text `s`. */
  lemma {:induction false} NameFrom(vm: Env, texts: Texts, n: string) returns (s: nat)
    requires n in NamesAfter(vm, texts)
    ensures s <= |texts|
    ensures s == |texts| ==> n in vm && NamesAfter(vm, texts)[n] == vm[n]
    ensures s < |texts| ==> texts[s] != [] && n in Visible(texts[s], 0) && NamesAfter(vm, texts)[n] == Exported(Visible(texts[s], 0)[n], s)
    decreases |texts|
  {
    hide Exported, Visible;
    if texts == [] {
      s := 0;
    } else {
      var front, last := texts[..|texts| - 1], texts[|texts| - 1];
      if n in Exports(last, |front|) {
        s := |front|;
      } else {
        s := NameFrom(vm, front, n);
        if s == |front| { s := |texts|; } else { assert texts[s] == front[s]; }
      }
    }
  }

  /** A name of the root leads to a function of the listing or to a contract. */
  lemma {:induction false} RootNames(cx: Context, blocks: seq<Block>, ls: Listing, n: string)
    requires Listed(cx, blocks, ls) && Outside(blocks, [0]) && blocks != [] && n in Visible(blocks, 0)
    ensures var o := Visible(blocks, 0)[n];
            !o.ObjVar? && (o.ObjFunc? ==> OwnFunc(ls, o.f) && o.f.name == n && n in RootOf(blocks) && RootOf(blocks)[n] == o.f.block)
  {
    hide GoodStmts, Holds, OwnNames;
    var e := blocks[0].objects[n];
    assert GoodEntry(blocks, 0, e);
    assert !blocks[[0][0]].info.FuncInfo?;
    if e.FuncEntry? { assert BodyAt(cx, blocks, ls, e.block); }
  }

  lemma {:induction false} RootMembers(cx: Context, blocks: seq<Block>, ls: Listing, n: string)
    requires Listed(cx, blocks, ls) && n in RootOf(blocks)
    ensures RootOf(blocks)[n] in ls
  {
    hide BodyAt;
    assert GoodEntry(blocks, 0, blocks[0].objects[n]);
  }

  /** Every name in a root is that of a function of the program. */
  predicate RootsHeld(prog: Program) {
    forall u, n :: 0 <= u < |prog.roots| && n in prog.roots[u] ==> prog.Has(Home(u, prog.roots[u][n]))
  }

  lemma {:induction false} RootsAreHeld(cx: Context, xs: seq<Source>)
    requires GoodTexts(cx, xs)
    ensures RootsHeld(ProgramOf(cx, xs))
  {
    hide Listed, RootOf, GoodUnits, Behind, TextsOf, ContextAt;
    var prog := ProgramOf(cx, xs);
    forall u, n | 0 <= u < |prog.roots| && n in prog.roots[u] ensures prog.Has(Home(u, prog.roots[u][n])) {
      TextSound(cx, xs, u);
      RootMembers(ContextAt(cx, xs, u), TextsOf(cx, xs)[u], ListingOf(ContextAt(cx, xs, u), xs[u].units), n);
    }
  }

  /** A reference to a function of the program stays one when the function is defined again. */
  lemma {:induction false} StaysKnown(prog: Program, t: nat, s: nat, f: Func)
    requires RootsHeld(prog) && KeepsSignatures(prog) && prog.Has(Home(s, f.block)) && (f.home == Some(s) || (f.home.None? && s == t))
    requires var d := prog.At(Home(s, f.block)).d; f.params == |d.params| && f.results == |d.results| && f.variadic == d.variadic
    ensures KnownFunc(prog, t, f)
  {
    var k := Callee(prog.roots, t, f);
    if k.text != s {
      assert s < k.text < |prog.roots| && f.name in prog.roots[s] && f.name in prog.roots[k.text];
      assert k == Home(k.text, prog.roots[k.text][f.name]) && prog.roots[s][f.name] == f.block;
    }
  }

  lemma {:induction false} MemberAt(cx: Context, xs: seq<Source>, s: nat, f: Func)
    requires GoodTexts(cx, xs) && s < |xs|
    requires GoodUnits(ContextAt(cx, xs, s), xs[s].units, ROOT) && OwnFunc(ListingOf(ContextAt(cx, xs, s), xs[s].units), f)
    ensures var prog := ProgramOf(cx, xs);
            prog.Has(Home(s, f.block)) &&
            var d := prog.At(Home(s, f.block)).d; f.params == |d.params| && f.results == |d.results| && f.variadic == d.variadic
  {
    hide GoodUnits, Behind, ContextAt, ListingOf;
    TextAt(cx, xs, s);
  }

  /** The names of the virtual machine in text `t`. */
  lemma {:induction false} LoadedNames(cx: Context, xs: seq<Source>, t: nat, n: string)
    requires OnlyBuiltins(cx) && GoodTexts(cx, xs) && t < |xs| && KeepsSignatures(ProgramOf(cx, xs)) && n in ContextAt(cx, xs, t).vm
    ensures var o := ContextAt(cx, xs, t).vm[n]; !o.ObjVar? && (o.ObjFunc? ==> KnownFunc(ProgramOf(cx, xs), t, o.f))
  {
    hide GoodUnits, TextsOf, ProgramOf, Visible, KnownFunc, KeepsSignatures, RootsHeld, Listed, RootOf, OwnFunc;
    Prefixes(cx, xs, t);
    var before := TextsOf(cx, xs[..t]);
    var s := NameFrom(cx.vm, before, n);
    if s < |before| {
      assert before[s] == TextsOf(cx, xs)[s];
      TextSound(cx, xs, s);
      var o := Visible(before[s], 0)[n];
      RootNames(ContextAt(cx, xs, s), before[s], ListingOf(ContextAt(cx, xs, s), xs[s].units), n);
      if o.ObjFunc? {
        MemberAt(cx, xs, s, o.f);
        RootsAreHeld(cx, xs);
        OtherHome(ProgramOf(cx, xs), t, s, o.f);
      }
    } else if cx.vm[n].ObjFunc? {
      BuiltinKnown(ProgramOf(cx, xs), t, cx.vm[n].f);
    }
  }

  lemma BuiltinKnown(prog: Program, t: nat, f: Func)
    requires f.external
    ensures KnownFunc(prog, t, f)
  {
  }

  lemma OtherHome(prog: Program, t: nat, s: nat, f: Func)
    requires RootsHeld(prog) && KeepsSignatures(prog) && prog.Has(Home(s, f.block))
    requires var d := prog.At(Home(s, f.block)).d; f.params == |d.params| && f.results == |d.results| && f.variadic == d.variadic
    ensures KnownFunc(prog, t, f.(home := Some(s)))
  {
    hide RootsHeld, KeepsSignatures, KnownFunc;
    StaysKnown(prog, t, s, f.(home := Some(s)));
  }

  /** The names of a function of text `t`. */
  lemma {:induction false} NamesRefer(cx: Context, xs: seq<Source>, t: nat, b: nat)
    requires OnlyBuiltins(cx) && GoodTexts(cx, xs) && t < |xs| && KeepsSignatures(ProgramOf(cx, xs))
    requires GoodUnits(ContextAt(cx, xs, t), xs[t].units, ROOT) && b in ListingOf(ContextAt(cx, xs, t), xs[t].units)
    ensures var c := ContextAt(cx, xs, t); Refers(c.vm + ListingOf(c, xs[t].units)[b].local, Home(t, b), ProgramOf(cx, xs))
  {
    hide GoodUnits, TextsOf, ProgramOf, KnownFunc, KeepsSignatures, RootsHeld, ContextAt, ListingOf, HeadOf, GoodStmts, Holds, Outside, OwnFunc, RootOf, OnlyBuiltins;
    TextSound(cx, xs, t);
    RootsAreHeld(cx, xs);
    var c, prog := ContextAt(cx, xs, t), ProgramOf(cx, xs);
    var ls := ListingOf(c, xs[t].units);
    assert BodyAt(c, TextsOf(cx, xs)[t], ls, b);
    var env := c.vm + ls[b].local;
    forall n | n in env
      ensures (env[n].ObjVar? ==> env[n].v.owner == b) && (env[n].ObjFunc? ==> KnownFunc(prog, t, env[n].f))
    {
      if n !in ls[b].local {
        LoadedNames(cx, xs, t, n);
      } else if env[n].ObjFunc? {
        OwnStays(cx, xs, t, env[n].f);
      }
    }
  }

  lemma {:induction false} OwnStays(cx: Context, xs: seq<Source>, t: nat, f: Func)
    requires GoodTexts(cx, xs) && t < |xs| && KeepsSignatures(ProgramOf(cx, xs)) && RootsHeld(ProgramOf(cx, xs))
    requires GoodUnits(ContextAt(cx, xs, t), xs[t].units, ROOT) && OwnFunc(ListingOf(ContextAt(cx, xs, t), xs[t].units), f)
    ensures KnownFunc(ProgramOf(cx, xs), t, f)
  {
    hide GoodUnits, TextsOf, ProgramOf, KnownFunc, KeepsSignatures, RootsHeld, ContextAt, ListingOf;
    MemberAt(cx, xs, t, f);
    StaysKnown(ProgramOf(cx, xs), t, t, f);
  }

  // ----- the main result -----

  lemma {:induction false} FuncIsLoaded(cx: Context, xs: seq<Source>, k: Home)
    requires OnlyBuiltins(cx) && GoodTexts(cx, xs) && KeepsSignatures(ProgramOf(cx, xs)) && ProgramOf(cx, xs).Has(k)
    ensures FuncLoaded(TextsOf(cx, xs), ProgramOf(cx, xs), k)
  {
    hide GoodUnits, TextsOf, KeepsSignatures, ContextAt, ListingOf, HeadOf, GoodStmts, Holds, Outside, RootOf, OnlyBuiltins, Refers, OwnNames;
    TextSound(cx, xs, k.text);
    var c := ContextAt(cx, xs, k.text);
    assert BodyAt(c, TextsOf(cx, xs)[k.text], ListingOf(c, xs[k.text].units), k.block);
    NamesRefer(cx, xs, k.text, k.block);
  }

  lemma {:induction false} SequenceLoads(cx: Context, xs: seq<Source>)
    requires OnlyBuiltins(cx) && GoodTexts(cx, xs) && KeepsSignatures(ProgramOf(cx, xs))
    ensures AllLoaded(TextsOf(cx, xs), ProgramOf(cx, xs))
  {
    hide GoodUnits, TextsOf, ProgramOf, KeepsSignatures, ContextAt, ListingOf, FuncLoaded, Outside, RootOf, OnlyBuiltins, BodyAt;
    var texts, prog := TextsOf(cx, xs), ProgramOf(cx, xs);
    forall k: Home | prog.Has(k) ensures FuncLoaded(texts, prog, k) { FuncIsLoaded(cx, xs, k); }
    forall k: Home | k.text < |texts| && k.block < |texts[k.text]| && texts[k.text][k.block].info.FuncInfo? ensures prog.Has(k) {
      TextSound(cx, xs, k.text);
    }
    forall t | 0 <= t < |texts| ensures prog.roots[t] == RootOf(texts[t]) { TextSound(cx, xs, t); }
    assert prog.roots == RootsOf(texts);
  }

  /** From texts to behaviour: CompileBlock succeeds on every text of the sequence, and
      on the blocks of all of them every function answers every call, from whatever
      text, as its source means, for every host, every state of the callers and every
      bound on the depth of calls and on the repetitions of loops. */
  lemma {:induction false} ProgramIsFaithful<V(!new), H(!new)>(h: Host<V, H>, cx: Context, xs: seq<Source>, depth: nat, fuel: nat,
      t: nat, f: Func, args: seq<V>, w: World<V, H>)
    requires RegularHost(h) && OnlyBuiltins(cx) && GoodTexts(cx, xs) && KeepsSignatures(ProgramOf(cx, xs))
    requires Proper(ProgramOf(cx, xs)) && KnownFunc(ProgramOf(cx, xs), t, f)
    ensures forall s :: 0 <= s < |xs| ==> CompiledTo(ContextAt(cx, xs, s), xs[s].units, TextsOf(cx, xs)[s])
    ensures MachineCall(h, TextsOf(cx, xs), t, depth, fuel, f, args, w) == SourceCall(h, ProgramOf(cx, xs), t, depth, fuel, f, args, w)
  {
    hide CompiledTo, TextsOf, ProgramOf, GoodUnits, OnlyBuiltins, RegularHost, AllLoaded, Proper, KnownFunc, KeepsSignatures, MachineCall, SourceCall, ContextAt;
    forall s | 0 <= s < |xs| ensures CompiledTo(ContextAt(cx, xs, s), xs[s].units, TextsOf(cx, xs)[s]) { TextIsCompiled(cx, xs, s); }
    SequenceLoads(cx, xs);
    CallMeans(h, TextsOf(cx, xs), ProgramOf(cx, xs), t, depth, fuel, f, args, w);
  }

  /** CompileBlock makes these blocks of the text. */
  ghost predicate CompiledTo(cx: Context, us: seq<Unit>, blocks: seq<Block>) {
    var lex := UnitsText(us);
    Valid(lex, Initial()) && Compile(lex, cx, Initial()) == Good(blocks)
  }

  lemma {:induction false} TextIsCompiled(cx: Context, xs: seq<Source>, s: nat)
    requires GoodTexts(cx, xs) && s < |xs|
    ensures CompiledTo(ContextAt(cx, xs, s), xs[s].units, TextsOf(cx, xs)[s])
  {
    hide Valid, Compile, UnitsText, BuildUnits, GoodUnits, ContextAt, TextsOf;
    TextAt(cx, xs, s);
    TextCompiles(ContextAt(cx, xs, s), xs[s].units);
  }
}
