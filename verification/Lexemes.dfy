/**
 The lexemes that reach the compiler, the bytecode it emits and the objects
 that names resolve to. Everything here is a value: lexemes and commands are
 never changed once they exist.
 */
module Lexemes {
  import opened Wrappers

  datatype Error =
    | ErrNoPair | ErrUnknownIdent(name: string) | ErrUnknownVar(name: string)
    | ErrUnknownFunc(name: string) | ErrWrongParams(name: string)
    | ErrUnexpComma | ErrUnexpColon | ErrUnexpKey | ErrUnexpValue
    | ErrUnclosedMap | ErrUnclosedArray
    | ErrContractCall(name: string)
    | ErrState(code: nat) | ErrNoEval | ErrTail | ErrElse | ErrDataPlace
    | ErrDataName | ErrDataType | ErrDataTag | ErrSysVar(name: string) | ErrNamedTail

  /** A compilation step yields a value, reports an error, or makes the Go
      runtime panic (a failed type assertion or an index out of range). */
  datatype Outcome<+T> = Good(value: T) | Bad(error: Error) | Panic

  /** The operators that the lexer can produce. */
  datatype Operator =
    | OpNot | OpMul | OpAdd | OpMinus | OpDiv | OpLess | OpGreat | OpNotEq
    | OpAnd | OpLessEq | OpEq | OpGrEq | OpOr

  datatype Keyword =
    | KwContract | KwFunc | KwReturn | KwIf | KwElse | KwWhile | KwVar | KwTx
    | KwSettings | KwBreak | KwContinue | KwWarning | KwInfo | KwError | KwTail

  /** Literal values; `true`, `false` and `nil` reach the compiler as numbers. An
      argument count is pushed in front of a call of a variadic function; it is
      no literal of the language. */
  datatype Const = Num(n: int) | Text(s: string) | Bool(b: bool) | Nil | ArgCount(k: nat)

  datatype Lexeme =
    | LPar | RPar | Comma | Dot | Colon | Equals | LCurly | RCurly | LBrack | RBrack | Hash
    | Oper(op: Operator)
    | Number(c: Const)
    | Ident(name: string)
    | NewLine
    | Str(s: string)
    | Key(k: Keyword)
    | TypeName(t: string)
    | Extend(name: string)

  /** The text of a keyword, as used for the key of a map initializer. */
  function KeywordText(k: Keyword): string {
    match k
    case KwContract => "contract" case KwFunc => "func" case KwReturn => "return"
    case KwIf => "if" case KwElse => "else" case KwWhile => "while" case KwVar => "var"
    case KwTx => "data" case KwSettings => "settings" case KwBreak => "break"
    case KwContinue => "continue" case KwWarning => "warning" case KwInfo => "info"
    case KwError => "error" case KwTail => "..."
  }

  /** A function that can be called: `block` holds its code, `params` is the number
      of arguments that a caller writes and `results` the number of values that it
      returns, `external` says that it is a built-in Go function, which has no block.
      `home` is the loaded text that the virtual machine has the function from, or
      None for a function of the text that is compiled. */
  datatype Func = Func(name: string, block: nat, params: nat, results: nat, variadic: bool, external: bool, home: Option<nat>)

  /** A variable is named by the block that declares it and its slot there. */
  datatype VarRef = VarRef(owner: nat, slot: nat)

  datatype Object = ObjVar(v: VarRef) | ObjFunc(f: Func) | ObjContract(name: string)

  type Env = map<string, Object>

  datatype Unary = Not | Sign

  datatype Binary = Add | Sub | Mul | Div | And | Or | Equal | NotEq | Less | NotLess | Great | NotGreat

  /** The values of a map or an array initializer. A map keeps its keys in order
      of first insertion. */
  datatype Item =
    | ItemConst(c: Const)
    | ItemVar(o: Object)
    | ItemExtend(name: string)
    | ItemMap(entries: seq<(string, Item)>)
    | ItemArray(items: seq<Item>)

  datatype Target = ToVar(v: VarRef) | ToExtend(name: string)

  datatype Code =
    | Push(c: Const) | Var(v: VarRef) | ExtendVar(name: string) | CallExtend(name: string)
    | Call(f: Func) | CallVari(f: Func)
    | Index(t: Target) | SetIndex(t: Target)
    | Un(u: Unary) | Bin(b: Binary)
    | Sys
    | UnwrapArr | MapInit(entries: seq<(string, Item)>) | ArrayInit(items: seq<Item>)
    | Return | Assign | AssignVar(targets: seq<Target>)
    | Label | Continue | Break | ErrorCmd(k: Keyword)
    | If(block: nat) | Else(block: nat) | While(block: nat)

  /** The segment `seg` stands in `lex` at position `p`. */
  predicate At(lex: seq<Lexeme>, p: nat, seg: seq<Lexeme>) {
    p + |seg| <= |lex| && lex[p..p + |seg|] == seg
  }

  lemma AtConcat(lex: seq<Lexeme>, p: nat, a: seq<Lexeme>, b: seq<Lexeme>)
    requires At(lex, p, a + b)
    ensures At(lex, p, a) && At(lex, p + |a|, b) && p + |a| + |b| <= |lex|
  {
    assert lex[p..p + |a|] == (a + b)[..|a|];
    assert lex[p + |a|..p + |a| + |b|] == (a + b)[|a|..];
  }

  lemma AtIndex(lex: seq<Lexeme>, p: nat, seg: seq<Lexeme>, k: nat)
    requires At(lex, p, seg) && k < |seg|
    ensures p + k < |lex| && lex[p + k] == seg[k]
  {
    assert lex[p..p + |seg|][k] == lex[p + k];
  }
}
