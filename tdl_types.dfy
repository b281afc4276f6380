/**
 * The data the statement compiler and the interpreter of lib/Eval.py work on:
 * run-time values, the tokens of the expression engine, the tagged statement
 * tree that `compile` builds, the symbols of the procedure/variable table, and
 * the engine and utility routines the evaluator calls but does not define.
 */
module TdlTypes {
  import opened Basics

  // ---------------------------------------------------------------------------
  // Values
  // ---------------------------------------------------------------------------

  /** The run-time values the interpreter inspects (a subset of Python's). */
  datatype Val = NoneV | IntV(i: int) | StrV(s: string) | ListV(items: seq<Val>)

  /** Python truth: None, 0, "" and [] are false. */
  predicate Truthy(v: Val) {
    match v
    case NoneV => false
    case IntV(i) => i != 0
    case StrV(s) => s != []
    case ListV(xs) => xs != []
  }

  /** `for x in v`: a list yields its items, a string its one-character strings. */
  function Items(v: Val): (r: Result<seq<Val>>)
    ensures v.ListV? ==> r == Ok(v.items)
    ensures v.StrV? ==> r.Ok? && |r.value| == |v.s| && forall i :: 0 <= i < |v.s| ==> r.value[i] == StrV([v.s[i]])
    ensures (v.NoneV? || v.IntV?) <==> r == Err(TypeError)
  {
    match v
    case ListV(xs) => Ok(xs)
    case StrV(s) => Ok(seq(|s|, i requires 0 <= i < |s| => StrV([s[i]])))
    case _ => Err(TypeError)
  }

  // ---------------------------------------------------------------------------
  // Tokens of the expression engine
  // ---------------------------------------------------------------------------

  /** The opcode tags the compiler and interpreter compare tokens with. */
  datatype Opcode = Variable | Array | Function | Symbol | StringOp | ListOp | Command

  /** One entry of a compiled expression stack: an opcode, a name or string, a number. */
  datatype Token = Op(op: Opcode) | Word(w: string) | Num(n: int)

  /** The name a token stands for when it is used as a variable or procedure name. */
  function NameOf(t: Token): (r: Option<string>)
    ensures r.Some? <==> t.Word?
  {
    if t.Word? then Some(t.w) else None
  }

  /** The name a value stands for when an assignment target evaluates to it. */
  function ValName(v: Val): (r: Option<string>)
    ensures r.Some? <==> v.StrV?
  {
    if v.StrV? then Some(v.s) else None
  }

  // ---------------------------------------------------------------------------
  // Failures
  // ---------------------------------------------------------------------------

  /**
   * The exceptions the evaluator raises or lets through: its own syntax and
   * evaluation errors, Python's IndexError (pop from an empty list),
   * TypeError and AttributeError, a missing name, and whatever the expression
   * engine raises.
   */
  datatype Error =
    | SyntaxError(msg: string)
    | EvalError(msg: string)
    | IndexError
    | TypeError
    | AttributeError
    | ValueError
    | NameError
    | EngineError(code: int)

  /**
   * An outcome: a value, a raised exception, or `Diverged` for a computation
   * that does not finish within the step budget it was given (an endless loop).
   * `Diverged` is not an exception: no `try` and no procedure call catches it.
   */
  datatype Result<T> = Ok(value: T) | Err(error: Error) | Diverged

  /** Passes a failure on, whatever the type of the value that was expected. */
  function Fail<A, B>(r: Result<A>): (f: Result<B>)
    requires !r.Ok?
    ensures !f.Ok? && f.Err? == r.Err? && (r.Err? ==> f.error == r.error)
  {
    if r.Err? then Err(r.error) else Diverged
  }

  // ---------------------------------------------------------------------------
  // The statement tree built by compile
  // ---------------------------------------------------------------------------

  /** A guarded body: the condition of an if/elif/else or try/except part and its statements. */
  datatype Branch = Branch(cond: seq<Token>, body: seq<Stmt>)

  /**
   * The compiled form of one statement. `Nothing` is the `None` that compile
   * returns for an empty or unusable line; it can end up inside the body of a
   * one-line `if x: y` or `for ...: y`, where executing it fails.
   */
  datatype Stmt =
    | If(branches: seq<Branch>)
    | Try(parts: seq<Branch>)
    | While(cond: seq<Token>, body: seq<Stmt>)
    | For(name: Token, iter: seq<Token>, body: seq<Stmt>)
    | Def(name: Token, params: seq<Token>, kws: map<Token, Val>, body: seq<Stmt>)
    | DefVar(stack: seq<Token>, expr: seq<Token>, text: string)
    | Del(args: Option<seq<Token>>)
    | Print(args: Option<seq<Token>>)
    | Return(args: Option<seq<Token>>)
    | Break
    | Continue
    | Eval(expr: seq<Token>, text: string)
    | Assign(lhs: seq<Token>, rhs: seq<Token>, text: string)
    | EndOfInput
    | Nothing

  // ---------------------------------------------------------------------------
  // Symbols and the symbol store the evaluator talks to
  // ---------------------------------------------------------------------------

  /** The three kinds of symbol: a plain variable, a `def x = expr` formula, a procedure. */
  datatype Kind = VariableKind | DefVarKind | DefProKind

  /** What a symbol carries besides its value. */
  datatype Code =
    | NoCode
    | Formula(expr: seq<Token>, text: string)
    | Body(params: seq<Token>, kws: map<Token, Val>, stmts: seq<Stmt>, desc: Option<string>)

  datatype Sym = Sym(name: string, kind: Kind, value: Val, constant: bool, code: Code)

  /**
   * The symbol table as the evaluator sees it: named groups of symbols, the
   * current data group, the names of the built-in commands, and a counter that
   * makes the names of procedure-call groups unique.
   */
  datatype Store = Store(groups: map<string, map<string, Sym>>, dataGroup: string, funcs: set<string>, serial: nat)

  // ---------------------------------------------------------------------------
  // Routines the evaluator calls but does not define
  // ---------------------------------------------------------------------------

  /** The result of `split_delim`: a status (-1 when the delimiter is missing), the text before and after it. */
  datatype Split3 = Split3(status: int, left: string, right: string)

  /**
   * The expression engine (`Expression.compile`, `Expression.eval`) and the
   * text utilities (`split_delim`, `find_unquoted_char`, `parens_matched`,
   * `split_list`, `trimstring`, `Command2Expr`), each a total function, plus the
   * end-of-input marker `opcodes.eof`.
   */
  datatype Engine = Engine(
    compile: string -> Result<seq<Token>>,
    eval: (Store, seq<Token>) -> Result<Val>,
    splitDelim: (string, char) -> Split3,
    findUnquoted: (string, char) -> int,
    parensMatched: string -> bool,
    splitList: string -> seq<string>,
    trimString: string -> string,
    commandToExpr: string -> string,
    eof: string)
}
