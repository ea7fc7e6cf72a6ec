/**
 Whole programs: a call runs the block of the function that is called, with its
 parameters and local variables in a frame of their own, down to a limit of
 nested calls. The virtual machine looks variables up in its stack of frames;
 the reference meaning knows one set of variables per call.
 */
module Calls {
  import opened Wrappers
  import opened Lexemes
  import opened Initializers
  import opened ExpressionTrees
  import opened ExpressionCompilation
  import opened IndexAssignments
  import opened StackMachine
  import opened Blocks
  import opened Statements
  import opened Programs
  import opened ProgramMeaning
  import opened Declarations

  // ----- functions that end as they declare -----

  /** Every path through the list ends with `return`. */
  predicate AlwaysReturns(ss: Stmts) {
    ss.Then? && (Definite(ss.s) || AlwaysReturns(ss.rest))
  }

  predicate Definite(s: Stmt) {
    s.Returning? || (s.Alternative? && AlwaysReturns(s.body) && AlwaysReturns(s.other))
  }

  /** No `break` or `continue` stands outside a loop. */
  predicate NoStray(ss: Stmts) {
    ss.Done? || (NoStrayIn(ss.s) && NoStray(ss.rest))
  }

  predicate NoStrayIn(s: Stmt) {
    match s
    case BreakOut => false
    case NextTurn => false
    case Conditional(_, body) => NoStray(body)
    case Alternative(_, body, other) => NoStray(body) && NoStray(other)
    case _ => true
  }

  /** Every `return` has `n` values. */
  predicate Widths(cx: Context, local: Env, ss: Stmts, n: nat)
    requires GoodStmts(cx, local, ss)
    decreases ss
  {
    ss.Done? || (WidthsIn(cx, local, ss.s, n) && Widths(cx, local, ss.rest, n))
  }

  predicate WidthsIn(cx: Context, local: Env, s: Stmt, n: nat)
    requires GoodStmt(cx, local, s)
    decreases s
  {
    match s
    case Returning(a) => Width(a, cx.vm + local) == n
    case Conditional(_, body) => Widths(cx, local, body, n)
    case Alternative(_, body, other) => Widths(cx, local, body, n) && Widths(cx, local, other, n)
    case Loop(_, body) => Widths(cx, local, body, n)
    case _ => true
  }

  /** The body of a function with `n` results. */
  predicate Disciplined(cx: Context, local: Env, ss: Stmts, n: nat)
    requires GoodStmts(cx, local, ss)
  {
    NoStray(ss) && Widths(cx, local, ss, n) && (n == 0 || AlwaysReturns(ss))
  }

  /** How a list may end: with the right number of values, and outside loops without a status. */
  predicate EndsWell<V, W>(r: Result<V, W>, n: nat, stray: bool, always: bool) {
    r.Ends? ==>
      (r.how.Returned? ==> |r.how.values| == n) && (!stray ==> r.how.Returned? || r.how.Normally?) && (always ==> !r.how.Normally?)
  }

  lemma {:induction false} StmtsEndWell<V(!new), W(!new)>(m: Semantics<V, W>, cx: Context, local: Env, ss: Stmts, n: nat, w: W, fuel: nat)
    requires Regular(m) && RunnableAll(cx, local, ss) && GoodStmts(cx, local, ss) && Widths(cx, local, ss, n)
    ensures EndsWell(StmtsMeaning(m, cx, local, ss, w, fuel), n, !NoStray(ss), AlwaysReturns(ss))
    decreases fuel, ss
  {
    hide StmtMeaning, Runnable, WidthsIn, Regular, GoodStmt;
    if ss.Then? {
      StmtEndsWell(m, cx, local, ss.s, n, w, fuel);
      var r := StmtMeaning(m, cx, local, ss.s, w, fuel);
      if r.Ends? && r.how.Normally? { StmtsEndWell(m, cx, local, ss.rest, n, r.w, r.left); }
    }
  }

  lemma {:induction false} StmtEndsWell<V(!new), W(!new)>(m: Semantics<V, W>, cx: Context, local: Env, s: Stmt, n: nat, w: W, fuel: nat)
    requires Regular(m) && Runnable(cx, local, s) && WidthsIn(cx, local, s, n)
    ensures EndsWell(StmtMeaning(m, cx, local, s, w, fuel), n, !NoStrayIn(s), Definite(s))
    decreases fuel, s
  {
    hide Spread, Results, Value, Regular, StmtsMeaning, RunnableAll, Widths, NoStray, AlwaysReturns;
    var env := cx.vm + local;
    match s {
      case Returning(a) => SpreadWidth(m, a, env, w);
      case Conditional(c, body) =>
        var v := Value(m, c, env, w);
        if v.Some? { StmtsEndWell(m, cx, local, body, n, v.value.1, fuel); }
      case Alternative(c, body, other) =>
        var v := Value(m, c, env, w);
        if v.Some? {
          StmtsEndWell(m, cx, local, body, n, v.value.1, fuel);
          StmtsEndWell(m, cx, local, other, n, v.value.1, fuel);
        }
      case Loop(c, body) => LoopEndsWell(m, cx, local, s, n, w, fuel);
      case _ =>
    }
  }

  lemma {:induction false} LoopEndsWell<V(!new), W(!new)>(m: Semantics<V, W>, cx: Context, local: Env, s: Stmt, n: nat, w: W, fuel: nat)
    requires Regular(m) && Runnable(cx, local, s) && WidthsIn(cx, local, s, n) && s.Loop?
    ensures EndsWell(StmtMeaning(m, cx, local, s, w, fuel), n, false, false)
    decreases fuel, s, 0
  {
    hide Value, Regular, StmtsMeaning, RunnableAll, Widths;
    var v := Value(m, s.cond, cx.vm + local, w);
    if v.Some? && m.truth(v.value.0) {
      StmtsEndWell(m, cx, local, s.body, n, v.value.1, fuel);
      var r := StmtsMeaning(m, cx, local, s.body, v.value.1, fuel);
      if r.Ends? && r.left > 0 { LoopEndsWell(m, cx, local, s, n, r.w, r.left - 1); }
    }
  }

  // ----- loaded texts -----

  /** A block of the text with the given number. */
  datatype Home = Home(text: nat, block: nat)

  /** The functions in the root of each text, by their names. */
  type Roots = seq<map<string, nat>>

  /** What FlushBlock keeps: for each name the text whose entry it leads to, and the
      function that stands in the entry of each text. */
  datatype Objects = Objects(current: map<string, nat>, entries: map<string, map<nat, Home>>)

  /** FlushBlock for the functions of text `u`: a function that is defined again goes
      into the entry that the name has led to, and into an entry of its own. */
  function Flushed(o: Objects, u: nat, root: map<string, nat>): Objects {
    Objects(o.current + map n | n in root :: u,
            o.entries + map n | n in root :: EntryAdded(o, u, n, Home(u, root[n])))
  }

  function EntryAdded(o: Objects, u: nat, n: string, k: Home): map<nat, Home> {
    var before := if n in o.entries then o.entries[n] else map[];
    (if n in o.current then before[o.current[n] := k] else before)[u := k]
  }

  function AllFlushed(roots: Roots): Objects {
    if roots == [] then Objects(map[], map[])
    else Flushed(AllFlushed(roots[..|roots| - 1]), |roots| - 1, roots[|roots| - 1])
  }

  /** The first text from `u` on that defines the name. */
  function NextText(roots: Roots, name: string, u: nat): (r: Option<nat>)
    ensures r.Some? ==> u <= r.value < |roots| && name in roots[r.value] && forall v :: u <= v < r.value ==> name !in roots[v]
    ensures r.None? ==> forall v :: u <= v < |roots| ==> name !in roots[v]
    decreases |roots| - u
  {
    if u >= |roots| then None else if name in roots[u] then Some(u) else NextText(roots, name, u + 1)
  }

  /** The function that runs for entry `n` of text `s`: the next definition behind `s`, if there is one. */
  function EntryOf(roots: Roots, s: nat, n: string): Home
    requires s < |roots| && n in roots[s]
  {
    match NextText(roots, n, s + 1)
    case None => Home(s, roots[s][n])
    case Some(u) => Home(u, roots[u][n])
  }

  lemma {:induction false} NextGrows(roots: Roots, root: map<string, nat>, n: string, u: nat)
    requires u <= |roots|
    ensures NextText(roots + [root], n, u) ==
            if NextText(roots, n, u).Some? then NextText(roots, n, u) else if n in root then Some(|roots|) else None
    decreases |roots| - u
  {
    var all := roots + [root];
    if u < |roots| {
      assert all[u] == roots[u];
      NextGrows(roots, root, n, u + 1);
    } else {
      assert NextText(all, n, u + 1) == None;
    }
  }

  /** The name leads to the last text that defines it. */
  predicate CurrentIs(roots: Roots, o: Objects, n: string) {
    n in o.current ==> o.current[n] < |roots| && n in roots[o.current[n]] && NextText(roots, n, o.current[n] + 1) == None
  }

  predicate EntryIs(roots: Roots, o: Objects, s: nat, n: string) {
    s < |roots| && n in roots[s] ==> n in o.current && n in o.entries && s in o.entries[n] && o.entries[n][s] == EntryOf(roots, s, n)
  }

  lemma {:induction false} CurrentFlushed(front: Roots, root: map<string, nat>, o: Objects, n: string)
    requires CurrentIs(front, o, n)
    ensures CurrentIs(front + [root], Flushed(o, |front|, root), n)
  {
    if n in o.current && n !in root { NextGrows(front, root, n, o.current[n] + 1); }
  }

  lemma {:induction false} EntryFlushed(front: Roots, root: map<string, nat>, o: Objects, s: nat, n: string)
    requires CurrentIs(front, o, n) && EntryIs(front, o, s, n)
    ensures EntryIs(front + [root], Flushed(o, |front|, root), s, n)
  {
    var u, roots := |front|, front + [root];
    if s < u && n in front[s] {
      assert roots[s] == front[s];
      NextGrows(front, root, n, s + 1);
      var c := o.current[n];
      assert c > s ==> NextText(front, n, s + 1).Some?;
    }
  }

  /** What a call runs is what the flushes have left in its entry. */
  lemma {:induction false} EntriesFlushed(roots: Roots, s: nat, n: string)
    ensures CurrentIs(roots, AllFlushed(roots), n) && EntryIs(roots, AllFlushed(roots), s, n)
    decreases |roots|
  {
    hide CurrentIs, EntryIs, Flushed;
    if roots == [] {
      NothingFlushed(s, n);
    } else {
      var front, root := roots[..|roots| - 1], roots[|roots| - 1];
      assert front + [root] == roots;
      EntriesFlushed(front, s, n);
      CurrentFlushed(front, root, AllFlushed(front), n);
      EntryFlushed(front, root, AllFlushed(front), s, n);
    }
  }

  lemma NothingFlushed(s: nat, n: string)
    ensures CurrentIs([], AllFlushed([]), n) && EntryIs([], AllFlushed([]), s, n)
  {
  }

  /** A call reaches the last definition of its function if and only if the function is
      defined again at most once: a third definition does not reach the callers of the first. */
  lemma {:induction false} CallsReachLatestIff(roots: Roots, s: nat, n: string)
    requires s < |roots| && n in roots[s]
    ensures var last := EntryOf(roots, s, n);
            (forall u :: last.text < u < |roots| ==> n !in roots[u]) <==>
            (forall u, v :: s < u < v < |roots| ==> n !in roots[u] || n !in roots[v])
  {
    var r := NextText(roots, n, s + 1);
    if r.Some? && (forall u, v :: s < u < v < |roots| ==> n !in roots[u] || n !in roots[v]) {
      assert forall u :: r.value < u < |roots| ==> n !in roots[u];
    }
  }

  /** The block that a call of `f` in text `t` runs. */
  function Callee(roots: Roots, t: nat, f: Func): Home {
    var s := if f.home.Some? then f.home.value else t;
    if s < |roots| && f.name in roots[s] && roots[s][f.name] == f.block then EntryOf(roots, s, f.name) else Home(s, f.block)
  }

  // ----- frames -----

  /** The variables of one call of the function in block `owner`. */
  datatype Vars<+V> = Vars(owner: Home, values: seq<V>)

  /** The frames of the calls that are running, the latest one last, and everything else. */
  datatype World<+V, +H> = World(frames: seq<Vars<V>>, host: H)

  /** What the program cannot see: values, outer variables and built-in functions. */
  datatype Host<!V, !H> = Host(
    constant: Const -> V,
    count: V -> nat,
    truth: V -> bool,
    initial: string -> V,
    takes: (string, V) -> bool,
    convert: (VarRef, V) -> Option<V>,
    outer: (string, H) -> Option<V>,
    setOuter: (string, V, H) -> Option<H>,
    held: (string, H) -> V,
    mapOf: seq<(string, V)> -> V,
    listOf: seq<V> -> V,
    unary: (Unary, V) -> Option<V>,
    binary: (Binary, V, V) -> Option<V>,
    index: (V, V) -> Option<V>,
    builtin: (Func, seq<V>, H) -> Option<(seq<V>, H)>,
    store: (V, V, V, H) -> Option<Stored<V, H>>,
    holdOuter: (string, V, H) -> H)

  /** What storing an element does: the value that stands for the map or the list from
      then on, whether the place has to be set to it because the list has grown, and the
      world, since maps and lists are shared. */
  datatype Stored<+V, +H> = Stored(value: V, grown: bool, host: H)

  ghost predicate RegularHost<V(!new), H(!new)>(h: Host<V, H>) {
    && (forall n: nat :: h.count(h.constant(ArgCount(n))) == n)
    && (forall f: Func, args: seq<V>, x: H :: h.builtin(f, args, x).Some? ==> |h.builtin(f, args, x).value.0| == f.results)
  }

  function Builtin<V, H>(h: Host<V, H>, f: Func, args: seq<V>, w: World<V, H>): Option<(seq<V>, World<V, H>)> {
    var (vs, x) :- h.builtin(f, args, w.host);
    Some((vs, w.(host := x)))
  }

  function SetOuter<V, H>(h: Host<V, H>, n: string, x: V, w: World<V, H>): Option<World<V, H>> {
    var y :- h.setOuter(n, x, w.host);
    Some(w.(host := y))
  }

  /** The values that the variables of a function start with: the arguments, then the initial values of their types. */
  function Starting<V, H>(h: Host<V, H>, types: seq<Option<string>>, args: seq<V>): (vs: seq<V>)
    ensures |vs| == |types|
  {
    seq(|types|, k requires 0 <= k < |types| =>
      if k < |args| then args[k] else h.initial(if types[k].Some? then types[k].value else ""))
  }

  function Types(vs: seq<Typing>): seq<Option<string>> {
    seq(|vs|, k requires 0 <= k < |vs| => Some(vs[k].typ))
  }

  /** The arguments have the types of the parameters. */
  predicate Takes<V, H>(h: Host<V, H>, types: seq<Option<string>>, args: seq<V>) {
    |args| == |types| && forall k :: 0 <= k < |args| ==> types[k].Some? && h.takes(types[k].value, args[k])
  }

  // ----- the virtual machine -----

  /** The latest frame of the block. */
  function Find<V>(frames: seq<Vars<V>>, owner: Home): (r: Option<nat>)
    ensures r.Some? ==> r.value < |frames|
  {
    if frames == [] then None
    else if frames[|frames| - 1].owner == owner then Some(|frames| - 1)
    else Find(frames[..|frames| - 1], owner)
  }

  function Read<V, H>(t: nat, v: VarRef, w: World<V, H>): Option<V> {
    var i :- Find(w.frames, Home(t, v.owner));
    if v.slot < |w.frames[i].values| then Some(w.frames[i].values[v.slot]) else None
  }

  /** An assignment to a variable whose block is not running does nothing. */
  function Write<V, H>(h: Host<V, H>, t: nat, place: Target, x: V, w: World<V, H>): Option<World<V, H>> {
    match place
    case ToExtend(n) => SetOuter(h, n, x, w)
    case ToVar(v) =>
      match Find(w.frames, Home(t, v.owner))
      case None => Some(w)
      case Some(i) =>
        var y :- h.convert(v, x);
        var f := w.frames[i];
        if v.slot < |f.values| then Some(w.(frames := w.frames[i := f.(values := f.values[v.slot := y])])) else None
  }

  /** cmdSetIndex: a list that has grown is put into its place as it is, without conversion. */
  function Store<V, H>(h: Host<V, H>, t: nat, place: Target, x: V, k: V, v: V, w: World<V, H>): Option<(V, World<V, H>)> {
    var r :- h.store(x, k, v, w.host);
    var w1 := w.(host := r.host);
    if !r.grown then Some((r.value, w1))
    else
      match place
      case ToExtend(n) => Some((r.value, w1.(host := h.holdOuter(n, r.value, r.host))))
      case ToVar(c) =>
        var i :- Find(w.frames, Home(t, c.owner));
        var f := w.frames[i];
        if c.slot < |f.values| then Some((r.value, w1.(frames := w.frames[i := f.(values := f.values[c.slot := r.value])]))) else None
  }

  type Texts = seq<seq<Block>>

  function RootOf(blocks: seq<Block>): map<string, nat> {
    if blocks == [] then map[]
    else map n | n in blocks[0].objects && blocks[0].objects[n].FuncEntry? :: blocks[0].objects[n].block
  }

  function RootsOf(texts: Texts): (r: Roots)
    ensures |r| == |texts|
  {
    seq(|texts|, t requires 0 <= t < |texts| => RootOf(texts[t]))
  }

  /** The virtual machine, with the blocks of all loaded texts, while it runs code of
      text `t` with `depth` nested calls left; `fuel` bounds the repetitions of loops in
      each call. */
  function MachineSem<V, H>(h: Host<V, H>, texts: Texts, t: nat, depth: nat, fuel: nat): Semantics<V, World<V, H>>
    decreases depth, 1
  {
    Semantics(h.constant, h.count, h.truth, (v, w) => Read(t, v, w), (n: string, w: World<V, H>) => h.outer(n, w.host),
              (n: string, w: World<V, H>) => h.held(n, w.host), h.mapOf, h.listOf, h.unary, h.binary, h.index,
              (f, args, w) => MachineCall(h, texts, t, depth, fuel, f, args, w),
              (place, x, w) => Write(h, t, place, x, w),
              (place, x, k, v, w) => Store(h, t, place, x, k, v, w))
  }

  /** The block is that of a function as the call expects it. */
  predicate Callable(texts: Texts, k: Home, f: Func) {
    && k.text < |texts| && k.block < |texts[k.text]|
    && var info := texts[k.text][k.block].info;
       info.FuncInfo? && f.params == |info.params| && f.results == |info.results| && f.variadic == info.variadic
  }

  /** What callFunc leaves on the stack as parameters: the arguments, with those from the
      last parameter of a variadic function on in a list. */
  function Gathered<V, H>(h: Host<V, H>, f: Func, args: seq<V>): Option<seq<V>> {
    if !f.variadic then Some(args)
    else if f.params == 0 || |args| + 1 < f.params then None
    else Some(args[..f.params - 1] + [h.listOf(args[f.params - 1..])])
  }

  /** callFunc: a built-in function, or the block of a function in a new frame; no
      call at all when no depth is left. */
  function MachineCall<V, H>(h: Host<V, H>, texts: Texts, t: nat, depth: nat, fuel: nat, f: Func, args: seq<V>, w: World<V, H>): Option<(seq<V>, World<V, H>)>
    decreases depth, 0
  {
    if depth == 0 then None
    else if f.external then Builtin(h, f, args, w)
    else
      var k := Callee(RootsOf(texts), t, f);
      var given :- Gathered(h, f, args);
      if !Callable(texts, k, f) || !Takes(h, texts[k.text][k.block].info.params, given) then None
      else
        var blocks := texts[k.text];
        var w1 := w.(frames := w.frames + [Vars(k, Starting(h, blocks[k.block].vars, given))]);
        match CallBlock(MachineSem(h, texts, k.text, depth - 1, fuel), blocks, k.block, f.results, [], given, w1, fuel)
        case Exit(_, vs, w2, _) => if w2.frames == [] then None else Some((vs, w2.(frames := w2.frames[..|w2.frames| - 1])))
        case _ => None
  }

  // ----- the reference meaning -----

  /** A function of the program and the names that its body sees. */
  datatype Body = Body(cx: Context, d: FuncDecl, local: Env)

  /** The functions of each text by their blocks, and the names in its root. */
  datatype Program = Program(bodies: seq<map<nat, Body>>, roots: Roots) {
    predicate Has(k: Home) {
      k.text < |bodies| && k.block in bodies[k.text]
    }

    function At(k: Home): Body
      requires Has(k)
    {
      bodies[k.text][k.block]
    }
  }

  function ReadOwn<V, H>(v: VarRef, w: World<V, H>): Option<V> {
    if w.frames == [] then None
    else
      var own := w.frames[|w.frames| - 1].values;
      if v.slot < |own| then Some(own[v.slot]) else None
  }

  function WriteOwn<V, H>(h: Host<V, H>, t: Target, x: V, w: World<V, H>): Option<World<V, H>> {
    match t
    case ToExtend(n) => SetOuter(h, n, x, w)
    case ToVar(v) =>
      if w.frames == [] then None
      else
        var y :- h.convert(v, x);
        var f := w.frames[|w.frames| - 1];
        if v.slot < |f.values| then Some(w.(frames := w.frames[|w.frames| - 1 := f.(values := f.values[v.slot := y])])) else None
  }

  function StoreOwn<V, H>(h: Host<V, H>, place: Target, x: V, k: V, v: V, w: World<V, H>): Option<(V, World<V, H>)> {
    var r :- h.store(x, k, v, w.host);
    var w1 := w.(host := r.host);
    if !r.grown then Some((r.value, w1))
    else
      match place
      case ToExtend(n) => Some((r.value, w1.(host := h.holdOuter(n, r.value, r.host))))
      case ToVar(c) =>
        if w.frames == [] then None
        else
          var f := w.frames[|w.frames| - 1];
          if c.slot < |f.values|
          then Some((r.value, w1.(frames := w.frames[|w.frames| - 1 := f.(values := f.values[c.slot := r.value])]))) else None
  }

  function SourceSem<V, H>(h: Host<V, H>, prog: Program, t: nat, depth: nat, fuel: nat): Semantics<V, World<V, H>>
    decreases depth, 1
  {
    Semantics(h.constant, h.count, h.truth, (v, w) => ReadOwn(v, w), (n: string, w: World<V, H>) => h.outer(n, w.host),
              (n: string, w: World<V, H>) => h.held(n, w.host), h.mapOf, h.listOf, h.unary, h.binary, h.index,
              (f, args, w) => SourceCall(h, prog, t, depth, fuel, f, args, w),
              (place, x, w) => WriteOwn(h, place, x, w),
              (place, x, k, v, w) => StoreOwn(h, place, x, k, v, w))
  }

  /** The values of the parameters, one after the other; `...` takes all arguments that are left. */
  function Bound<V, H>(h: Host<V, H>, params: seq<Typing>, variadic: bool, args: seq<V>): Option<seq<V>>
    decreases |params|
  {
    if params == [] then if args == [] then Some([]) else None
    else if variadic && |params| == 1 then Some([h.listOf(args)])
    else if args == [] then None
    else
      var rest :- Bound(h, params[1..], variadic, args[1..]);
      Some([args[0]] + rest)
  }

  lemma {:induction false} GatheredIsBound<V, H>(h: Host<V, H>, d: FuncDecl, f: Func, args: seq<V>)
    requires f.params == |d.params| && f.variadic == d.variadic && d.TailFits()
    ensures Bound(h, d.params, d.variadic, args) ==
            match Gathered(h, f, args) case None => None case Some(vs) => if |vs| == |d.params| then Some(vs) else None
  {
    if d.variadic { BoundTail(h, d.params, args); } else { BoundPlain(h, d.params, args); }
  }

  lemma {:induction false} BoundAt<V, H>(h: Host<V, H>, params: seq<Typing>, variadic: bool, args: seq<V>, i: nat)
    requires i < |params| && (variadic ==> i < |params| - 1)
    ensures var r := Bound(h, params, variadic, args);
            r.Some? ==> |r.value| == |params| && i < |args| && r.value[i] == args[i]
    decreases |params|
  {
    if args != [] {
      if i > 0 { BoundAt(h, params[1..], variadic, args[1..], i - 1); } else { BoundCount(h, params[1..], variadic, args[1..]); }
    }
  }

  lemma {:induction false} BoundCount<V, H>(h: Host<V, H>, params: seq<Typing>, variadic: bool, args: seq<V>)
    ensures var r := Bound(h, params, variadic, args); r.Some? ==> |r.value| == |params|
    decreases |params|
  {
    if params != [] && args != [] { BoundCount(h, params[1..], variadic, args[1..]); }
  }

  /** A call fails when an argument is missing or does not have the type of its parameter. */
  lemma {:induction false} WrongArgumentFails<V(!new), H(!new)>(h: Host<V, H>, prog: Program, t: nat, depth: nat, fuel: nat, f: Func, args: seq<V>, w: World<V, H>, i: nat)
    requires !f.external && prog.Has(Callee(prog.roots, t, f))
    requires var d := prog.At(Callee(prog.roots, t, f)).d;
             && i < |d.params| && (d.variadic ==> i < |d.params| - 1)
             && (i >= |args| || !h.takes(d.params[i].typ, args[i]))
    ensures SourceCall(h, prog, t, depth, fuel, f, args, w) == None
  {
    hide Callee;
    var d := prog.At(Callee(prog.roots, t, f)).d;
    BoundAt(h, d.params, d.variadic, args, i);
  }

  lemma {:induction false} BoundPlain<V, H>(h: Host<V, H>, params: seq<Typing>, args: seq<V>)
    ensures Bound(h, params, false, args) == if |args| == |params| then Some(args) else None
    decreases |params|
  {
    if params != [] && args != [] {
      BoundPlain(h, params[1..], args[1..]);
      assert [args[0]] + args[1..] == args;
    }
  }

  lemma {:induction false} BoundTail<V, H>(h: Host<V, H>, params: seq<Typing>, args: seq<V>)
    requires params != []
    ensures var n := |params| - 1;
            Bound(h, params, true, args) == if |args| < n then None else Some(args[..n] + [h.listOf(args[n..])])
    decreases |params|
  {
    var n := |params| - 1;
    if n == 0 {
      assert args[..0] + [h.listOf(args[0..])] == [h.listOf(args)] by { assert args[0..] == args; }
    } else if args != [] {
      BoundTail(h, params[1..], args[1..]);
      if |args| >= n {
        assert [args[0]] + args[1..][..n - 1] == args[..n] && args[1..][n - 1..] == args[n..];
        assert [args[0]] + (args[1..][..n - 1] + [h.listOf(args[n..])]) == args[..n] + [h.listOf(args[n..])];
      }
    }
  }

  /** A call means the statements of the function on fresh variables; the variables of the caller stay as they are. */
  function SourceCall<V, H>(h: Host<V, H>, prog: Program, t: nat, depth: nat, fuel: nat, f: Func, args: seq<V>, w: World<V, H>): Option<(seq<V>, World<V, H>)>
    decreases depth, 0
  {
    if depth == 0 then None
    else if f.external then Builtin(h, f, args, w)
    else
      var k := Callee(prog.roots, t, f);
      if !prog.Has(k) then None
      else
        var p := prog.At(k);
        var given :- Bound(h, p.d.params, p.d.variadic, args);
        if !Takes(h, Types(p.d.params), given) || !RunnableAll(p.cx, p.local, p.d.body) then None
        else
          var own := given + Initials(h, p.d.locals);
          match StmtsMeaning(SourceSem(h, prog, k.text, depth - 1, fuel), p.cx, p.local, p.d.body, w.(frames := w.frames + [Vars(k, own)]), fuel)
          case Ends(how, w2, _) => Some((if how.Returned? then how.values else [], World(w.frames, w2.host)))
          case _ => None
  }

  /** A call of a built-in function, on the machine and in the source: its values and its effect, no frame touched. */
  lemma {:induction false} BuiltinCalls<V(!new), H(!new)>(h: Host<V, H>, texts: Texts, prog: Program, t: nat, depth: nat, fuel: nat, f: Func, args: seq<V>, w: World<V, H>)
    requires f.external && depth > 0
    ensures var r := SourceCall(h, prog, t, depth, fuel, f, args, w);
            && r == MachineCall(h, texts, t, depth, fuel, f, args, w)
            && (r.None? <==> h.builtin(f, args, w.host).None?)
            && (r.Some? ==> r.value.0 == h.builtin(f, args, w.host).value.0 &&
                            r.value.1.host == h.builtin(f, args, w.host).value.1 && r.value.1.frames == w.frames)
  {
  }

  /** An assignment to an outer variable sets it and leaves all frames alone. */
  lemma {:induction false} OuterIsSet<V(!new), H(!new)>(h: Host<V, H>, t: nat, n: string, x: V, w: World<V, H>)
    ensures var r := WriteOwn(h, ToExtend(n), x, w);
            && r == Write(h, t, ToExtend(n), x, w)
            && (r.None? <==> h.setOuter(n, x, w.host).None?)
            && (r.Some? ==> Some(r.value.host) == h.setOuter(n, x, w.host) && r.value.frames == w.frames)
  {
  }

  function Initials<V, H>(h: Host<V, H>, vs: seq<Typing>): seq<V> {
    seq(|vs|, k requires 0 <= k < |vs| => h.initial(vs[k].typ))
  }

  // ----- semantics that agree while one function runs -----

  /** The function in block `k` runs on top of the frames `below`. */
  predicate Running<V(==), H>(w: World<V, H>, k: Home, below: seq<Vars<V>>) {
    |w.frames| == |below| + 1 && w.frames[..|below|] == below && w.frames[|below|].owner == k
  }

  /** A reference in text `t` to a built-in function or to a function of the program. */
  predicate KnownFunc(prog: Program, t: nat, f: Func) {
    f.external ||
    (var k := Callee(prog.roots, t, f);
     prog.Has(k) && f.params == |prog.At(k).d.params| && f.results == |prog.At(k).d.results| && f.variadic == prog.At(k).d.variadic)
  }

  /** What the names of a function refer to: its own variables and known functions. */
  predicate Refers(env: Env, k: Home, prog: Program) {
    forall n :: n in env ==> (env[n].ObjVar? ==> env[n].v.owner == k.block) && (env[n].ObjFunc? ==> KnownFunc(prog, k.text, env[n].f))
  }

  /** The results are equal, and the function still runs. */
  ghost predicate SameResult<V(!new), T(!new), H(!new)>(r: Option<(T, World<V, H>)>, r': Option<(T, World<V, H>)>, k: Home, below: seq<Vars<V>>) {
    r == r' && (r.Some? ==> Running(r.value.1, k, below))
  }

  ghost predicate SameHost<V(!new), H(!new)>(m: Semantics<V, World<V, H>>, m': Semantics<V, World<V, H>>) {
    && m.constant == m'.constant && m.truth == m'.truth && m.unary == m'.unary && m.binary == m'.binary && m.index == m'.index
    && m.mapOf == m'.mapOf && m.listOf == m'.listOf
    && (forall n: string, w: World<V, H> :: m.outer(n, w) == m'.outer(n, w))
    && (forall n: string, w: World<V, H> :: m.held(n, w) == m'.held(n, w))
  }

  ghost predicate SameVars<V(!new), H(!new)>(m: Semantics<V, World<V, H>>, m': Semantics<V, World<V, H>>, k: Home, below: seq<Vars<V>>) {
    && (forall v: VarRef, w: World<V, H> :: Running(w, k, below) && v.owner == k.block ==> m.variable(v, w) == m'.variable(v, w))
    && (forall t: Target, x: V, w: World<V, H> :: Running(w, k, below) && (t.ToVar? ==> t.v.owner == k.block) ==>
          m.assign(t, x, w) == m'.assign(t, x, w) && (m.assign(t, x, w).Some? ==> Running(m.assign(t, x, w).value, k, below)))
    && (forall t: Target, x: V, y: V, z: V, w: World<V, H> :: Running(w, k, below) && (t.ToVar? ==> t.v.owner == k.block) ==>
          SameResult(m.store(t, x, y, z, w), m'.store(t, x, y, z, w), k, below))
  }

  ghost predicate SameCalls<V(!new), H(!new)>(m: Semantics<V, World<V, H>>, m': Semantics<V, World<V, H>>, prog: Program, k: Home, below: seq<Vars<V>>) {
    forall f: Func, args: seq<V>, w: World<V, H> :: Running(w, k, below) && KnownFunc(prog, k.text, f) ==>
      m.call(f, args, w) == m'.call(f, args, w) && (m.call(f, args, w).Some? ==> Running(m.call(f, args, w).value.1, k, below))
  }

  ghost predicate Agree<V(!new), H(!new)>(m: Semantics<V, World<V, H>>, m': Semantics<V, World<V, H>>, prog: Program, k: Home, below: seq<Vars<V>>) {
    SameHost(m, m') && SameVars(m, m', k, below) && SameCalls(m, m', prog, k, below)
  }

  lemma {:induction false} ValueSame<V(!new), H(!new)>(m: Semantics<V, World<V, H>>, m': Semantics<V, World<V, H>>, prog: Program, k: Home, below: seq<Vars<V>>,
      e: Expr, env: Env, w: World<V, H>)
    requires Agree(m, m', prog, k, below) && Refers(env, k, prog) && Canonical(e, env) && Running(w, k, below)
    ensures SameResult(Value(m, e, env, w), Value(m', e, env, w), k, below)
    decreases e
  {
    hide Running, SameCalls, SameVars, SameHost;
    match e
    case Atom(_) => HostSame(m, m');
    case Name(n) => VariableSame(m, m', env[n].v, k, below, w);
    case Outer(n) => OuterSame(m, m', n, w);
    case Literal(v) => LiteralSame(m, m', prog, k, below, v, env, w);
    case Paren(x) => ValueSame(m, m', prog, k, below, x, env, w);
    case Element(n, x) =>
      HostSame(m, m');
      VariableSame(m, m', env[n].v, k, below, w);
      ValueSame(m, m', prog, k, below, x, env, w);
    case Apply(_, _) => ResultsSame(m, m', prog, k, below, e, env, w);
    case Prefix(_, x) =>
      HostSame(m, m');
      ValueSame(m, m', prog, k, below, x, env, w);
    case Infix(_, _, l, r) =>
      HostSame(m, m');
      ValueSame(m, m', prog, k, below, l, env, w);
      if Value(m, l, env, w).Some? { ValueSame(m, m', prog, k, below, r, env, Value(m, l, env, w).value.1); }
  }

  lemma HostSame<V(!new), H(!new)>(m: Semantics<V, World<V, H>>, m': Semantics<V, World<V, H>>)
    requires SameHost(m, m')
    ensures m.constant == m'.constant && m.truth == m'.truth && m.unary == m'.unary && m.binary == m'.binary && m.index == m'.index
    ensures m.mapOf == m'.mapOf && m.listOf == m'.listOf
  {
  }

  lemma OuterSame<V(!new), H(!new)>(m: Semantics<V, World<V, H>>, m': Semantics<V, World<V, H>>, n: string, w: World<V, H>)
    requires SameHost(m, m')
    ensures m.outer(n, w) == m'.outer(n, w) && m.held(n, w) == m'.held(n, w)
  {
  }

  /** The variables in the initializer belong to block `k`. */
  predicate OwnItem(x: Item, k: nat)
    decreases x
  {
    match x
    case ItemVar(o) => o.ObjVar? ==> o.v.owner == k
    case ItemMap(es) => OwnEntries(es, k)
    case ItemArray(xs) => OwnItems(xs, k)
    case _ => true
  }

  predicate OwnEntries(es: Entries, k: nat)
    decreases es
  {
    es == [] || (assert es[0].1 < es[0]; OwnItem(es[0].1, k) && OwnEntries(es[1..], k))
  }

  predicate OwnItems(xs: seq<Item>, k: nat)
    decreases xs
  {
    xs == [] || (OwnItem(xs[0], k) && OwnItems(xs[1..], k))
  }

  lemma {:induction false} SetOwn(es: Entries, key: string, x: Item, k: nat)
    requires OwnEntries(es, k) && OwnItem(x, k)
    ensures OwnEntries(SetEntry(es, key, x), k)
    decreases es
  {
    hide OwnItem;
    if es != [] && es[0].0 != key {
      SetOwn(es[1..], key, x, k);
      assert ([es[0]] + SetEntry(es[1..], key, x))[1..] == SetEntry(es[1..], key, x);
    } else if es == [] {
      assert [(key, x)][1..] == [];
    } else {
      assert ([(key, x)] + es[1..])[1..] == es[1..];
    }
  }

  lemma {:induction false} AddOwn(xs: seq<Item>, x: Item, k: nat)
    requires OwnItems(xs, k) && OwnItem(x, k)
    ensures OwnItems(xs + [x], k)
    decreases xs
  {
    hide OwnItem;
    if xs == [] {
      assert [] + [x] == [x] && [x][1..] == [];
    } else {
      AddOwn(xs[1..], x, k);
      assert (xs + [x])[1..] == xs[1..] + [x];
    }
  }

  lemma {:induction false} MeaningOwn(v: Init, env: Env, k: Home, prog: Program)
    requires Refers(env, k, prog)
    ensures Meaning(v, env).Good? ==> OwnItem(Meaning(v, env).value, k.block)
    decreases v
  {
    hide Refers;
    match v
    case InitVar(n) => NameOwn(n, env, k, prog);
    case InitMap(fs) => FieldsOwn([], fs, env, k, prog);
    case InitArray(es) => ElemsOwn([], es, env, k, prog);
    case _ =>
  }

  lemma NameOwn(n: string, env: Env, k: Home, prog: Program)
    requires Refers(env, k, prog)
    ensures n in env ==> OwnItem(ItemVar(env[n]), k.block)
  {
  }

  lemma {:induction false} FieldsOwn(acc: Entries, fs: Fields, env: Env, k: Home, prog: Program)
    requires Refers(env, k, prog) && OwnEntries(acc, k.block)
    ensures FieldsMeaning(acc, fs, env).Good? ==> OwnEntries(FieldsMeaning(acc, fs, env).value, k.block)
    decreases fs
  {
    hide Refers, OwnItem, OwnEntries, Meaning;
    if fs.Field? && Meaning(fs.value, env).Good? {
      MeaningOwn(fs.value, env, k, prog);
      var x := Meaning(fs.value, env).value;
      SetOwn(acc, KeyName(fs.key), x, k.block);
      FieldsOwn(SetEntry(acc, KeyName(fs.key), x), fs.rest, env, k, prog);
    }
  }

  lemma {:induction false} ElemsOwn(acc: seq<Item>, es: Elems, env: Env, k: Home, prog: Program)
    requires Refers(env, k, prog) && OwnItems(acc, k.block)
    ensures ElemsMeaning(acc, es, env).Good? ==> OwnItems(ElemsMeaning(acc, es, env).value, k.block)
    decreases es
  {
    hide Refers, OwnItem, OwnItems, Meaning;
    if es.Elem? && Meaning(es.value, env).Good? {
      MeaningOwn(es.value, env, k, prog);
      var x := Meaning(es.value, env).value;
      AddOwn(acc, x, k.block);
      ElemsOwn(acc + [x], es.rest, env, k, prog);
    }
  }

  lemma {:induction false} ItemSame<V(!new), H(!new)>(m: Semantics<V, World<V, H>>, m': Semantics<V, World<V, H>>, k: Home, below: seq<Vars<V>>, x: Item, w: World<V, H>)
    requires SameHost(m, m') && SameVars(m, m', k, below) && Running(w, k, below) && OwnItem(x, k.block)
    ensures ItemValue(m, x, w) == ItemValue(m', x, w)
    decreases x
  {
    hide Running, SameVars, SameHost;
    HostSame(m, m');
    match x
    case ItemVar(o) => if o.ObjVar? { VariableSame(m, m', o.v, k, below, w); }
    case ItemExtend(n) => OuterSame(m, m', n, w);
    case ItemMap(es) => EntriesSame(m, m', k, below, es, w);
    case ItemArray(xs) => ItemsSame(m, m', k, below, xs, w);
    case _ =>
  }

  lemma {:induction false} EntriesSame<V(!new), H(!new)>(m: Semantics<V, World<V, H>>, m': Semantics<V, World<V, H>>, k: Home, below: seq<Vars<V>>, es: Entries, w: World<V, H>)
    requires SameHost(m, m') && SameVars(m, m', k, below) && Running(w, k, below) && OwnEntries(es, k.block)
    ensures EntryValues(m, es, w) == EntryValues(m', es, w)
    decreases es
  {
    hide Running, SameVars, SameHost, ItemValue, OwnItem;
    if es != [] {
      assert es[0].1 < es[0];
      ItemSame(m, m', k, below, es[0].1, w);
      EntriesSame(m, m', k, below, es[1..], w);
    }
  }

  lemma {:induction false} ItemsSame<V(!new), H(!new)>(m: Semantics<V, World<V, H>>, m': Semantics<V, World<V, H>>, k: Home, below: seq<Vars<V>>, xs: seq<Item>, w: World<V, H>)
    requires SameHost(m, m') && SameVars(m, m', k, below) && Running(w, k, below) && OwnItems(xs, k.block)
    ensures ItemValues(m, xs, w) == ItemValues(m', xs, w)
    decreases xs
  {
    hide Running, SameVars, SameHost, ItemValue, OwnItem;
    if xs != [] {
      ItemSame(m, m', k, below, xs[0], w);
      ItemsSame(m, m', k, below, xs[1..], w);
    }
  }

  lemma {:induction false} LiteralSame<V(!new), H(!new)>(m: Semantics<V, World<V, H>>, m': Semantics<V, World<V, H>>, prog: Program, k: Home, below: seq<Vars<V>>,
      v: Init, env: Env, w: World<V, H>)
    requires Agree(m, m', prog, k, below) && Refers(env, k, prog) && Running(w, k, below) && Meaning(v, env).Good?
    ensures ItemValue(m, Meaning(v, env).value, w) == ItemValue(m', Meaning(v, env).value, w)
  {
    hide Running, SameVars, SameHost, SameCalls, Refers, ItemValue, OwnItem;
    MeaningOwn(v, env, k, prog);
    ItemSame(m, m', k, below, Meaning(v, env).value, w);
  }

  lemma VariableSame<V(!new), H(!new)>(m: Semantics<V, World<V, H>>, m': Semantics<V, World<V, H>>, v: VarRef, k: Home, below: seq<Vars<V>>, w: World<V, H>)
    requires SameVars(m, m', k, below) && Running(w, k, below) && v.owner == k.block
    ensures m.variable(v, w) == m'.variable(v, w)
  {
  }

  lemma CallSame<V(!new), H(!new)>(m: Semantics<V, World<V, H>>, m': Semantics<V, World<V, H>>, prog: Program, k: Home, below: seq<Vars<V>>,
      f: Func, args: seq<V>, w: World<V, H>)
    requires SameCalls(m, m', prog, k, below) && Running(w, k, below) && KnownFunc(prog, k.text, f)
    ensures SameResult(m.call(f, args, w), m'.call(f, args, w), k, below)
  {
  }

  lemma {:induction false} ValuesSame<V(!new), H(!new)>(m: Semantics<V, World<V, H>>, m': Semantics<V, World<V, H>>, prog: Program, k: Home, below: seq<Vars<V>>,
      a: Args, env: Env, w: World<V, H>)
    requires Agree(m, m', prog, k, below) && Refers(env, k, prog) && CanonicalArgs(a, env) && Running(w, k, below)
    ensures SameResult(Values(m, a, env, w), Values(m', a, env, w), k, below)
    decreases a
  {
    hide Running, Agree, Refers, Value;
    if a.Arg? {
      ValueSame(m, m', prog, k, below, a.e, env, w);
      if Value(m, a.e, env, w).Some? { ValuesSame(m, m', prog, k, below, a.rest, env, Value(m, a.e, env, w).value.1); }
    }
  }

  lemma {:induction false} ResultsSame<V(!new), H(!new)>(m: Semantics<V, World<V, H>>, m': Semantics<V, World<V, H>>, prog: Program, k: Home, below: seq<Vars<V>>,
      e: Expr, env: Env, w: World<V, H>)
    requires Agree(m, m', prog, k, below) && Refers(env, k, prog) && Canonical(e, env) && Running(w, k, below) && e.Apply?
    ensures SameResult(Results(m, e, env, w), Results(m', e, env, w), k, below)
    decreases e, 0
  {
    hide Running, SameHost, SameVars, SameCalls, Values;
    ValuesSame(m, m', prog, k, below, e.args, env, w);
    match Values(m, e.args, env, w)
    case None =>
    case Some((vs, w1)) => CallSame(m, m', prog, k, below, env[e.name].f, vs, w1);
  }

  lemma {:induction false} SpreadSame<V(!new), H(!new)>(m: Semantics<V, World<V, H>>, m': Semantics<V, World<V, H>>, prog: Program, k: Home, below: seq<Vars<V>>,
      a: Args, env: Env, w: World<V, H>)
    requires Agree(m, m', prog, k, below) && Refers(env, k, prog) && CanonicalArgs(a, env) && Running(w, k, below)
    ensures SameResult(Spread(m, a, env, w), Spread(m', a, env, w), k, below)
    decreases a
  {
    hide Running, Agree, Refers, Results, Canonical;
    if a.Arg? {
      AnySame(m, m', prog, k, below, a.e, env, w);
      if Results(m, a.e, env, w).Some? { SpreadSame(m, m', prog, k, below, a.rest, env, Results(m, a.e, env, w).value.1); }
    }
  }

  lemma {:induction false} AnySame<V(!new), H(!new)>(m: Semantics<V, World<V, H>>, m': Semantics<V, World<V, H>>, prog: Program, k: Home, below: seq<Vars<V>>,
      e: Expr, env: Env, w: World<V, H>)
    requires Agree(m, m', prog, k, below) && Refers(env, k, prog) && Canonical(e, env) && Running(w, k, below)
    ensures SameResult(Results(m, e, env, w), Results(m', e, env, w), k, below)
  {
    hide Running, Agree, Refers, Value, Values;
    if e.Apply? { ResultsSame(m, m', prog, k, below, e, env, w); } else { ValueSame(m, m', prog, k, below, e, env, w); }
  }

  predicate OwnTargets(ts: seq<Target>, k: nat) {
    forall i :: 0 <= i < |ts| && ts[i].ToVar? ==> ts[i].v.owner == k
  }

  lemma {:induction false} PlacesOwn(cx: Context, local: Env, xs: seq<Place>, k: Home, prog: Program)
    requires Refers(cx.vm + local, k, prog)
    ensures OwnTargets(PlaceTargets(local, xs), k.block)
  {
    if xs != [] {
      PlaceOwn(cx, local, xs[0], k, prog);
      PlacesOwn(cx, local, xs[1..], k, prog);
    }
  }

  lemma PlaceOwn(cx: Context, local: Env, x: Place, k: Home, prog: Program)
    requires Refers(cx.vm + local, k, prog)
    ensures PlaceTarget(local, x).ToVar? ==> PlaceTarget(local, x).v.owner == k.block
  {
    if x.VarPlace? && x.name in local { assert (cx.vm + local)[x.name] == local[x.name]; }
  }

  ghost predicate SameWorld<V(!new), H(!new)>(r: Option<World<V, H>>, r': Option<World<V, H>>, k: Home, below: seq<Vars<V>>) {
    r == r' && (r.Some? ==> Running(r.value, k, below))
  }

  lemma AssignSame<V(!new), H(!new)>(m: Semantics<V, World<V, H>>, m': Semantics<V, World<V, H>>, k: Home, below: seq<Vars<V>>, t: Target, x: V, w: World<V, H>)
    requires SameVars(m, m', k, below) && Running(w, k, below) && (t.ToVar? ==> t.v.owner == k.block)
    ensures SameWorld(m.assign(t, x, w), m'.assign(t, x, w), k, below)
  {
  }

  lemma {:induction false} AssignAllSame<V(!new), H(!new)>(m: Semantics<V, World<V, H>>, m': Semantics<V, World<V, H>>, k: Home, below: seq<Vars<V>>,
      ts: seq<Target>, vs: seq<V>, w: World<V, H>)
    requires SameVars(m, m', k, below) && Running(w, k, below) && |ts| == |vs| && OwnTargets(ts, k.block)
    ensures SameWorld(AssignAll(m, ts, vs, w), AssignAll(m', ts, vs, w), k, below)
    decreases |ts|
  {
    hide Running, SameVars;
    if ts != [] {
      AssignSame(m, m', k, below, ts[0], vs[0], w);
      if m.assign(ts[0], vs[0], w).Some? { AssignAllSame(m, m', k, below, ts[1..], vs[1..], m.assign(ts[0], vs[0], w).value); }
    }
  }

  ghost predicate SameEnding<V(!new), H(!new)>(r: Result<V, World<V, H>>, r': Result<V, World<V, H>>, k: Home, below: seq<Vars<V>>) {
    r == r' && (r.Ends? ==> Running(r.w, k, below))
  }

  lemma StoreSame<V(!new), H(!new)>(m: Semantics<V, World<V, H>>, m': Semantics<V, World<V, H>>, k: Home, below: seq<Vars<V>>,
      t: Target, x: V, y: V, z: V, w: World<V, H>)
    requires SameVars(m, m', k, below) && Running(w, k, below) && (t.ToVar? ==> t.v.owner == k.block)
    ensures SameResult(m.store(t, x, y, z, w), m'.store(t, x, y, z, w), k, below)
  {
  }

  lemma {:induction false} BaseSame<V(!new), H(!new)>(m: Semantics<V, World<V, H>>, m': Semantics<V, World<V, H>>, prog: Program, k: Home, below: seq<Vars<V>>,
      x: Place, env: Env, w: World<V, H>)
    requires Agree(m, m', prog, k, below) && Refers(env, k, prog) && KnownPlace(x, env) && Running(w, k, below)
    ensures BaseValue(m, x, env, w) == BaseValue(m', x, env, w)
    ensures ElementOf(x, env).ToVar? ==> ElementOf(x, env).v.owner == k.block
  {
    hide Running, SameCalls, SameVars, SameHost;
    match x
    case VarPlace(n) => VariableSame(m, m', env[n].v, k, below, w);
    case OuterPlace(n) => OuterSame(m, m', n, w);
  }

  lemma {:induction false} SetSame<V(!new), H(!new)>(m: Semantics<V, World<V, H>>, m': Semantics<V, World<V, H>>, prog: Program, k: Home, below: seq<Vars<V>>,
      cx: Context, local: Env, s: Stmt, w: World<V, H>)
    requires Agree(m, m', prog, k, below) && Refers(cx.vm + local, k, prog) && Runnable(cx, local, s) && Running(w, k, below) && s.ElementSet?
    ensures SameResult(SetMeaning(m, s.base, s.index, s.value, cx.vm + local, w), SetMeaning(m', s.base, s.index, s.value, cx.vm + local, w), k, below)
  {
    hide Running, SameCalls, SameVars, SameHost, Refers, Value, BaseValue, ElementOf, KnownPlace;
    var env := cx.vm + local;
    BaseSame(m, m', prog, k, below, s.base, env, w);
    ValueSame(m, m', prog, k, below, s.index, env, w);
    var i := Value(m, s.index, env, w);
    if i.Some? && BaseValue(m, s.base, env, w).Some? {
      ValueSame(m, m', prog, k, below, s.value, env, i.value.1);
      var v := Value(m, s.value, env, i.value.1);
      if v.Some? {
        StoreSame(m, m', k, below, ElementOf(s.base, env), BaseValue(m, s.base, env, w).value, i.value.0, v.value.0, v.value.1);
      }
    }
  }

  /** Semantics that agree while a function runs give its statements the same meaning. */
  lemma {:induction false} StmtsSame<V(!new), H(!new)>(m: Semantics<V, World<V, H>>, m': Semantics<V, World<V, H>>, prog: Program, k: Home, below: seq<Vars<V>>,
      cx: Context, local: Env, ss: Stmts, w: World<V, H>, fuel: nat)
    requires Agree(m, m', prog, k, below) && Refers(cx.vm + local, k, prog) && RunnableAll(cx, local, ss) && Running(w, k, below)
    ensures SameEnding(StmtsMeaning(m, cx, local, ss, w, fuel), StmtsMeaning(m', cx, local, ss, w, fuel), k, below)
    decreases fuel, ss
  {
    hide StmtMeaning, Runnable, Agree, Refers, Running;
    if ss.Then? {
      StmtSame(m, m', prog, k, below, cx, local, ss.s, w, fuel);
      var r := StmtMeaning(m, cx, local, ss.s, w, fuel);
      if r.Ends? && r.how.Normally? { StmtsSame(m, m', prog, k, below, cx, local, ss.rest, r.w, r.left); }
    }
  }

  lemma {:induction false} StmtSame<V(!new), H(!new)>(m: Semantics<V, World<V, H>>, m': Semantics<V, World<V, H>>, prog: Program, k: Home, below: seq<Vars<V>>,
      cx: Context, local: Env, s: Stmt, w: World<V, H>, fuel: nat)
    requires Agree(m, m', prog, k, below) && Refers(cx.vm + local, k, prog) && Runnable(cx, local, s) && Running(w, k, below)
    ensures SameEnding(StmtMeaning(m, cx, local, s, w, fuel), StmtMeaning(m', cx, local, s, w, fuel), k, below)
    decreases fuel, s
  {
    hide Spread, Results, Value, StmtsMeaning, RunnableAll, Running, Refers, SameCalls, SameVars, AssignAll, StmtTargets, OwnTargets, SetMeaning;
    var env := cx.vm + local;
    HostSame(m, m');
    match s {
      case Assignment(_, _, a) => AssignmentSame(m, m', prog, k, below, cx, local, s, w, fuel);
      case CallOnly(n, args) => AnySame(m, m', prog, k, below, Apply(n, args), env, w);
      case Returning(a) => SpreadSame(m, m', prog, k, below, a, env, w);
      case ElementSet(_, _, _) => SetSame(m, m', prog, k, below, cx, local, s, w);
      case Conditional(c, body) =>
        ValueSame(m, m', prog, k, below, c, env, w);
        var v := Value(m, c, env, w);
        if v.Some? { StmtsSame(m, m', prog, k, below, cx, local, body, v.value.1, fuel); }
      case Alternative(c, body, other) =>
        ValueSame(m, m', prog, k, below, c, env, w);
        var v := Value(m, c, env, w);
        if v.Some? {
          StmtsSame(m, m', prog, k, below, cx, local, body, v.value.1, fuel);
          StmtsSame(m, m', prog, k, below, cx, local, other, v.value.1, fuel);
        }
      case Loop(c, body) => LoopSame(m, m', prog, k, below, cx, local, s, w, fuel);
      case _ =>
    }
  }

  lemma {:induction false} AssignmentSame<V(!new), H(!new)>(m: Semantics<V, World<V, H>>, m': Semantics<V, World<V, H>>, prog: Program, k: Home, below: seq<Vars<V>>,
      cx: Context, local: Env, s: Stmt, w: World<V, H>, fuel: nat)
    requires Agree(m, m', prog, k, below) && Refers(cx.vm + local, k, prog) && Runnable(cx, local, s) && Running(w, k, below) && s.Assignment?
    ensures SameEnding(StmtMeaning(m, cx, local, s, w, fuel), StmtMeaning(m', cx, local, s, w, fuel), k, below)
  {
    hide Spread, Running, Refers, SameCalls, SameVars, SameHost, AssignAll;
    SpreadSame(m, m', prog, k, below, s.values, cx.vm + local, w);
    PlaceOwn(cx, local, s.first, k, prog);
    PlacesOwn(cx, local, s.more, k, prog);
    var r := Spread(m, s.values, cx.vm + local, w);
    if r.Some? && |r.value.0| == 1 + |s.more| { AssignAllSame(m, m', k, below, StmtTargets(local, s), r.value.0, r.value.1); }
  }

  lemma {:induction false} LoopSame<V(!new), H(!new)>(m: Semantics<V, World<V, H>>, m': Semantics<V, World<V, H>>, prog: Program, k: Home, below: seq<Vars<V>>,
      cx: Context, local: Env, s: Stmt, w: World<V, H>, fuel: nat)
    requires Agree(m, m', prog, k, below) && Refers(cx.vm + local, k, prog) && Runnable(cx, local, s) && Running(w, k, below) && s.Loop?
    ensures SameEnding(StmtMeaning(m, cx, local, s, w, fuel), StmtMeaning(m', cx, local, s, w, fuel), k, below)
    decreases fuel, s, 0
  {
    hide Value, StmtsMeaning, RunnableAll, Running, Refers, SameCalls, SameVars;
    HostSame(m, m');
    ValueSame(m, m', prog, k, below, s.cond, cx.vm + local, w);
    var v := Value(m, s.cond, cx.vm + local, w);
    if v.Some? && m.truth(v.value.0) {
      StmtsSame(m, m', prog, k, below, cx, local, s.body, v.value.1, fuel);
      var r := StmtsMeaning(m, cx, local, s.body, v.value.1, fuel);
      if r.Ends? && r.left > 0 { LoopSame(m, m', prog, k, below, cx, local, s, r.w, r.left - 1); }
    }
  }
}
