/** `computer-science/session-4/parser.tab.c`: the LALR(1) tables and the interpreter that runs them.

    The specification (`Parsed`) reads the input from left to right without tables or stacks; that it is
    the language of the grammar is shown in `ParserLanguage`. */
module Parser {

  // ----- The tables -----

  const YYPACT: seq<int> := [5, -4, -6, 10, -1, 7, -6, 7, 7, 7, -1, -1, -1, -1]
  const YYDEFACT: seq<nat> := [0, 0, 7, 0, 3, 0, 1, 0, 0, 0, 2, 4, 5, 6]
  const YYPGOTO: seq<int> := [-6, -6, -5]
  const YYDEFGOTO: seq<int> := [-1, 3, 4]
  const YYTABLE: seq<nat> := [10, 5, 11, 12, 13, 7, 8, 9, 1, 2, 6, 2]
  const YYCHECK: seq<nat> := [5, 5, 7, 8, 9, 6, 7, 8, 3, 4, 0, 4]
  const YYR1: seq<nat> := [0, 9, 10, 10, 11, 11, 11, 11]
  const YYR2: seq<nat> := [0, 2, 3, 1, 3, 3, 3, 1]

  const YYFINAL := 6
  const YYLAST := 11
  const YYNTOKENS := 9
  const YYPACT_NINF := -6
  const YYTERROR := 1
  const YYINITDEPTH := 200
  const YYMAXDEPTH := 10000
  const YYEMPTY := -2

  // Symbol numbers of the terminals
  const END := 0
  const IDENT := 3
  const LIT := 4
  const EQUALS := 5
  const PLUS := 6
  const MINUS := 7
  const TIMES := 8

  /** What `yylex` returns, and `yylval`. */
  datatype Token = Token(code: int, value: int)

  /** YYTRANSLATE, and the end of input for anything not positive. */
  function Symbol(code: int): (s: nat)
    ensures s < YYNTOKENS && (s == END <==> code <= 0)
  {
    if code <= 0 then END
    else if code == 61 then EQUALS
    else if code == 43 then PLUS
    else if code == 45 then MINUS
    else if code == 42 then TIMES
    else if code == 256 then YYTERROR
    else if code == 258 then IDENT
    else if code == 259 then LIT
    else 2
  }

  function Code(ts: seq<Token>, i: nat): int {
    if i < |ts| then ts[i].code else 0
  }

  function Sym(ts: seq<Token>, i: nat): (s: nat)
    ensures s < YYNTOKENS && (i >= |ts| ==> s == END)
  {
    Symbol(Code(ts, i))
  }

  // ----- The specification -----

  predicate IsOp(symbol: nat) {
    symbol == PLUS || symbol == MINUS || symbol == TIMES
  }

  /** The rule actions: the one for '*' subtracts. */
  function Combine(op: nat, a: int, b: int): int {
    if op == PLUS then a + b else a - b
  }

  /** An operand that waits for what comes right of its operator. */
  datatype Pending = Pending(value: int, op: nat)

  function Collapse(pending: seq<Pending>, v: int): int {
    if pending == [] then v
    else
      var last := pending[|pending| - 1];
      Collapse(pending[..|pending| - 1], Combine(last.op, last.value, v))
  }

  /** The value `yyparse` returns, and what the actions print. */
  datatype Outcome = Outcome(result: int, printed: seq<int>)

  /** The place of the top of the stack. */
  function Height(assign: bool, pending: seq<Pending>): nat {
    (if assign then 2 else 0) + 2 * |pending|
  }

  /** A literal has to follow. */
  function Operand(ts: seq<Token>, i: nat, assign: bool, pending: seq<Pending>): Outcome
    decreases |ts| + 1 - i, 0
  {
    if Sym(ts, i) != LIT then Outcome(1, [])
    else if Height(assign, pending) + 1 >= YYMAXDEPTH - 1 then Outcome(2, [])
    else Operator(ts, i + 1, assign, pending, ts[i].value)
  }

  /** An operator may follow. */
  function Operator(ts: seq<Token>, i: nat, assign: bool, pending: seq<Pending>, v: int): Outcome
    decreases |ts| + 1 - i, 1
  {
    if IsOp(Sym(ts, i)) then
      if Height(assign, pending) + 2 >= YYMAXDEPTH - 1 then Outcome(2, [])
      else Operand(ts, i + 1, assign, pending + [Pending(v, Sym(ts, i))])
    else
      Ending(ts, i, if assign then [] else [Collapse(pending, v)])
  }

  function Ending(ts: seq<Token>, i: nat, printed: seq<int>): Outcome {
    Outcome(if Sym(ts, i) == END then 0 else 1, printed)
  }

  function Parsed(ts: seq<Token>): Outcome {
    if Sym(ts, 0) != IDENT then Operand(ts, 0, false, [])
    else if Sym(ts, 1) != EQUALS then Outcome(1, [])
    else Operand(ts, 2, true, [])
  }

  // ----- The stacks -----

  /** What the stacks hold between two actions: the viable prefixes of the grammar. */
  datatype Prefix =
    | Named                                                // IDENT
    | Wanting(assign: bool, pending: seq<Pending>)         // [IDENT =] (expression op)*
    | Literal(assign: bool, pending: seq<Pending>, v: int) // ... LIT
    | Operated(assign: bool, pending: seq<Pending>, v: int) // ... expression
    | Statement(printed: seq<int>)                         // statement
    | Accepted(printed: seq<int>)                          // statement $end

  function Base(assign: bool): seq<nat> {
    if assign then [0, 1, 5] else [0]
  }

  function ExprState(assign: bool, pending: seq<Pending>): nat {
    if pending != [] then pending[|pending| - 1].op + 5 else if assign then 10 else 4
  }

  function Waiting(assign: bool, pending: seq<Pending>): (s: seq<nat>)
    ensures |s| == Height(assign, pending) + 1
  {
    if pending == [] then Base(assign)
    else
      var before := pending[..|pending| - 1];
      Waiting(assign, before) + [ExprState(assign, before), pending[|pending| - 1].op + 1]
  }

  function States(c: Prefix): seq<nat> {
    match c
    case Named => [0, 1]
    case Wanting(assign, pending) => Waiting(assign, pending)
    case Literal(assign, pending, _) => Waiting(assign, pending) + [2]
    case Operated(assign, pending, _) => Waiting(assign, pending) + [ExprState(assign, pending)]
    case Statement(_) => [0, 3]
    case Accepted(_) => [0, 3, 6]
  }

  predicate Held(assign: bool, pending: seq<Pending>, values: seq<int>) {
    && |values| == Height(assign, pending) + 1
    && (pending != [] ==>
          var last := pending[|pending| - 1];
          && IsOp(last.op) && values[|values| - 2] == last.value
          && Held(assign, pending[..|pending| - 1], values[..|values| - 2]))
  }

  predicate Values(c: Prefix, values: seq<int>) {
    match c
    case Named => |values| == 2
    case Wanting(assign, pending) => Held(assign, pending, values)
    case Literal(assign, pending, v) =>
      |values| > 0 && values[|values| - 1] == v && Held(assign, pending, values[..|values| - 1])
    case Operated(assign, pending, v) =>
      |values| > 0 && values[|values| - 1] == v && Held(assign, pending, values[..|values| - 1])
    case Statement(_) => |values| == 2
    case Accepted(_) => |values| == 3
  }

  /** What is to come if the stacks hold `c` and token `i` is next; the state on top has still to be
      checked against the limit of the stack. */
  function Future(ts: seq<Token>, i: nat, c: Prefix): Outcome
    decreases if c.Named? then 0 else 1
  {
    match c
    case Named => if Sym(ts, i) != EQUALS then Outcome(1, []) else Operand(ts, i + 1, true, [])
    case Wanting(assign, pending) =>
      if Height(assign, pending) >= YYMAXDEPTH - 1 then Outcome(2, [])
      else if !assign && pending == [] && Sym(ts, i) == IDENT then Future(ts, i + 1, Named)
      else Operand(ts, i, assign, pending)
    case Literal(assign, pending, v) =>
      if Height(assign, pending) + 1 >= YYMAXDEPTH - 1 then Outcome(2, []) else Operator(ts, i, assign, pending, v)
    case Operated(assign, pending, v) =>
      if Height(assign, pending) + 1 >= YYMAXDEPTH - 1 then Outcome(2, []) else Operator(ts, i, assign, pending, v)
    case Statement(printed) => Ending(ts, i, printed)
    case Accepted(printed) => Outcome(0, printed)
  }

  function Printed(c: Prefix): seq<int> {
    if c.Statement? || c.Accepted? then c.printed else []
  }

  function Rank(c: Prefix): nat {
    match c
    case Named => 0
    case Wanting(_, _) => 0
    case Literal(_, pending, _) => 3 + 2 * |pending|
    case Operated(_, pending, _) => 2 + 2 * |pending|
    case Statement(_) => 1
    case Accepted(_) => 0
  }

  ghost predicate Inv(ts: seq<Token>, i: nat, c: Prefix, states: seq<nat>, values: seq<int>, printed: seq<int>) {
    && states == States(c) && Values(c, values) && |states| > 0
    && printed == Printed(c) && Future(ts, i, c) == Parsed(ts) && i <= |ts| + (if c.Accepted? then 1 else 0)
  }

  // ----- What the tables say -----

  datatype Action = Shift(state: nat) | Reduce(rule: nat) | Error

  /** yybackup and yydefault: the action for the state on top and the next symbol. */
  function Decide(state: nat, token: nat): (a: Action)
    requires state < |YYPACT| && token < YYNTOKENS
    ensures a.Reduce? ==> 0 < a.rule < |YYR2|
    ensures a.Shift? ==> a.state < |YYPACT|
  {
    var n := YYPACT[state] + token;
    if YYPACT[state] == YYPACT_NINF || n < 0 || YYLAST < n || YYCHECK[n] != token then
      if YYDEFACT[state] == 0 then Error else Reduce(YYDEFACT[state])
    else
      Shift(YYTABLE[n])
  }

  /** The state to enter after reducing to symbol `lhs`. */
  function Goto(lhs: nat, state: nat): int
    requires YYNTOKENS <= lhs < YYNTOKENS + |YYPGOTO|
  {
    var n := YYPGOTO[lhs - YYNTOKENS] + state;
    if 0 <= n <= YYLAST && YYCHECK[n] == state then YYTABLE[n] else YYDEFGOTO[lhs - YYNTOKENS]
  }

  function Top(c: Prefix): nat {
    match c
    case Named => 1
    case Wanting(assign, pending) => if pending != [] then pending[|pending| - 1].op + 1 else if assign then 5 else 0
    case Literal(_, _, _) => 2
    case Operated(assign, pending, _) => ExprState(assign, pending)
    case Statement(_) => 3
    case Accepted(_) => YYFINAL
  }

  predicate Ops(c: Prefix) {
    match c
    case Wanting(_, pending) => pending != [] ==> IsOp(pending[|pending| - 1].op)
    case Literal(_, pending, _) => pending != [] ==> IsOp(pending[|pending| - 1].op)
    case Operated(_, pending, _) => pending != [] ==> IsOp(pending[|pending| - 1].op)
    case _ => true
  }

  lemma TopOf(c: Prefix, values: seq<int>)
    requires Values(c, values)
    ensures Ops(c) && Top(c) < |YYPACT|
    ensures States(c) != [] && States(c)[|States(c)| - 1] == Top(c) && |values| == |States(c)|
  {
  }

  /** The tables by state and symbol. */
  lemma Decisions(c: Prefix, token: nat)
    requires Ops(c) && token < YYNTOKENS && !c.Accepted?
    ensures Top(c) < |YYPACT|
    ensures Decide(Top(c), token) ==
            match c
            case Named => if token == EQUALS then Shift(5) else Error
            case Wanting(assign, pending) =>
              if token == LIT then Shift(2) else if token == IDENT && !assign && pending == [] then Shift(1) else Error
            case Literal(_, _, _) => Reduce(7)
            case Operated(assign, pending, _) =>
              if IsOp(token) then Shift(token + 1)
              else Reduce(if pending != [] then pending[|pending| - 1].op - 2 else if assign then 2 else 3)
            case Statement(_) => if token == END then Shift(YYFINAL) else Error
  {
  }

  /** The prefix after shifting. */
  function Shifted(c: Prefix, token: nat, value: int): Prefix
    requires !c.Literal? && !c.Accepted?
  {
    match c
    case Named => Wanting(true, [])
    case Wanting(assign, pending) => if token == LIT then Literal(assign, pending, value) else Named
    case Operated(assign, pending, v) => Wanting(assign, pending + [Pending(v, token)])
    case Statement(printed) => Accepted(printed)
  }

  lemma ShiftStacks(c: Prefix, token: nat, value: int, values: seq<int>)
    requires Values(c, values) && token < YYNTOKENS && !c.Literal? && !c.Accepted? && Ops(c) && Decide(Top(c), token).Shift?
    ensures var c' := Shifted(c, token, value);
            && States(c') == States(c) + [Decide(Top(c), token).state]
            && Values(c', values + [value])
            && Printed(c') == Printed(c)
  {
    hide Decide, Top, Held, Waiting;
    Decisions(c, token);
    assert (values + [value])[..|values|] == values;
    if c.Operated? {
      OperatorShift(c.assign, c.pending, c.v, token, value, values);
    } else if c.Named? {
      NamedShift(values + [value]);
    } else if c.Wanting? && token != LIT {
      IdentShift(values);
    }
  }

  lemma IdentShift(values: seq<int>)
    requires Held(false, [], values)
    ensures |values| == 1 && Waiting(false, []) == [0]
  {
  }

  lemma NamedShift(values: seq<int>)
    requires |values| == 3
    ensures Held(true, [], values) && Waiting(true, []) == [0, 1] + [5]
  {
  }

  lemma OperatorShift(assign: bool, pending: seq<Pending>, v: int, op: nat, value: int, values: seq<int>)
    requires |values| > 0 && values[|values| - 1] == v && Held(assign, pending, values[..|values| - 1]) && IsOp(op)
    ensures var pending' := pending + [Pending(v, op)];
            && Waiting(assign, pending') == Waiting(assign, pending) + [ExprState(assign, pending)] + [op + 1]
            && Held(assign, pending', values + [value])
  {
    hide Waiting, Held, ExprState;
    HeldMore(assign, pending, v, op, value, values);
    WaitingMore(assign, pending, v, op);
  }

  lemma HeldMore(assign: bool, pending: seq<Pending>, v: int, op: nat, value: int, values: seq<int>)
    requires |values| > 0 && values[|values| - 1] == v && Held(assign, pending, values[..|values| - 1]) && IsOp(op)
    ensures Held(assign, pending + [Pending(v, op)], values + [value])
  {
    var pending', values' := pending + [Pending(v, op)], values + [value];
    assert pending'[..|pending'| - 1] == pending;
    assert values'[..|values'| - 2] == values[..|values| - 1];
  }

  lemma WaitingMore(assign: bool, pending: seq<Pending>, v: int, op: nat)
    ensures Waiting(assign, pending + [Pending(v, op)]) == Waiting(assign, pending) + [ExprState(assign, pending)] + [op + 1]
  {
    hide ExprState, Waiting;
    var pending' := pending + [Pending(v, op)];
    WaitingLast(assign, pending');
    assert pending'[..|pending'| - 1] == pending;
  }

  lemma WaitingLast(assign: bool, pending: seq<Pending>)
    requires pending != []
    ensures var before := pending[..|pending| - 1];
            Waiting(assign, pending) ==
            Waiting(assign, before) + [ExprState(assign, before)] + [pending[|pending| - 1].op + 1]
  {
    hide ExprState, Base;
    var before := pending[..|pending| - 1];
    assert [ExprState(assign, before), pending[|pending| - 1].op + 1] ==
           [ExprState(assign, before)] + [pending[|pending| - 1].op + 1];
  }

  /** Below the limit of the stack, shifting does what the specification does with the token. */
  lemma ShiftFuture(ts: seq<Token>, i: nat, c: Prefix)
    requires !c.Literal? && !c.Accepted? && Ops(c) && |States(c)| < YYMAXDEPTH
    requires Decide(Top(c), Sym(ts, i)).Shift?
    ensures Future(ts, i + 1, Shifted(c, Sym(ts, i), if i < |ts| then ts[i].value else 0)) == Future(ts, i, c)
    ensures i < |ts| || c.Statement?
  {
    Decisions(c, Sym(ts, i));
  }

  lemma ErrorFuture(ts: seq<Token>, i: nat, c: Prefix)
    requires Ops(c) && |States(c)| < YYMAXDEPTH && !c.Accepted? && Decide(Top(c), Sym(ts, i)).Error?
    ensures Future(ts, i, c) == Outcome(1, Printed(c))
  {
    Decisions(c, Sym(ts, i));
  }

  /** The prefix after reducing. */
  function Reduced(c: Prefix): Prefix
    requires c.Literal? || c.Operated?
  {
    if c.Literal? then Operated(c.assign, c.pending, c.v)
    else if c.pending == [] then Statement(if c.assign then [] else [c.v])
    else
      var last := c.pending[|c.pending| - 1];
      Operated(c.assign, c.pending[..|c.pending| - 1], Combine(last.op, last.value, c.v))
  }

  /** The semantic action of a rule, on the values of its right-hand side. */
  function Act(rule: nat, rhs: seq<int>): int
    requires 0 < rule < |YYR2| && |rhs| == YYR2[rule]
  {
    if rule == 4 then rhs[0] + rhs[2]
    else if rule == 5 || rule == 6 then rhs[0] - rhs[2]
    else rhs[0]
  }

  /** What reducing by `rule` does to the stacks. */
  ghost predicate Reduces(c: Prefix, rule: nat, values: seq<int>) {
    && (c.Literal? || c.Operated?)
    && 0 < rule < |YYR2|
    && var keep := |values| - YYR2[rule];
    && 0 < keep <= |values| == |States(c)|
    && Goto(YYR1[rule], States(c)[keep - 1]) >= 0
    && States(Reduced(c)) == States(c)[..keep] + [Goto(YYR1[rule], States(c)[keep - 1])]
    && Values(Reduced(c), values[..keep] + [Act(rule, values[keep..])])
    && Printed(Reduced(c)) == Printed(c) + (if rule == 3 then [values[|values| - 1]] else [])
  }

  lemma ReduceStacks(c: Prefix, token: nat, values: seq<int>)
    requires Values(c, values) && Ops(c) && token < YYNTOKENS && !c.Accepted? && Decide(Top(c), token).Reduce?
    ensures Reduces(c, Decide(Top(c), token).rule, values)
  {
    hide Reduces, Values, Decide, Top;
    Decisions(c, token);
    if c.Literal? {
      LiteralStacks(c, values);
    } else if c.pending == [] {
      StatementStacks(c, values);
    } else {
      OperatedStacks(c, values);
    }
  }

  lemma LiteralStacks(c: Prefix, values: seq<int>)
    requires Values(c, values) && Ops(c) && c.Literal?
    ensures Reduces(c, 7, values)
  {
    var values0 := values[..|values| - 1];
    TopOf(Wanting(c.assign, c.pending), values0);
    assert values0 + [c.v] == values;
    assert Goto(11, Top(Wanting(c.assign, c.pending))) == ExprState(c.assign, c.pending);
  }

  lemma StatementStacks(c: Prefix, values: seq<int>)
    requires Values(c, values) && c.Operated? && c.pending == []
    ensures Reduces(c, if c.assign then 2 else 3, values)
  {
    assert States(c)[..1] == [0];
  }

  lemma OperatedStates(c: Prefix, values: seq<int>)
    requires Values(c, values) && Ops(c) && c.Operated? && c.pending != []
    ensures var keep := |values| - 3;
            var before := c.pending[..|c.pending| - 1];
            && 0 < keep <= |values| == |States(c)|
            && States(c)[..keep] == Waiting(c.assign, before)
            && States(c)[keep - 1] == Top(Wanting(c.assign, before))
            && Held(c.assign, before, values[..keep])
            && values[keep] == c.pending[|c.pending| - 1].value && values[keep + 2] == c.v
  {
    var keep := |values| - 3;
    var before := c.pending[..|c.pending| - 1];
    assert values[..|values| - 1][..|values| - 3] == values[..keep];
    TopOf(Wanting(c.assign, before), values[..keep]);
    assert States(c)[..keep] == Waiting(c.assign, before);
  }

  lemma OperatedStacks(c: Prefix, values: seq<int>)
    requires Values(c, values) && Ops(c) && c.Operated? && c.pending != []
    ensures Reduces(c, c.pending[|c.pending| - 1].op - 2, values)
  {
    hide Waiting, Held, Act, Top, Goto, ExprState, Values, Ops;
    OperatedStates(c, values);
    var keep := |values| - 3;
    var before := c.pending[..|c.pending| - 1];
    LastOp(c);
    OpAct(c.pending[|c.pending| - 1].op, values[keep..]);
    ExprGoto(c.assign, before, values[..keep]);
    OperatedValues(c.assign, before, Reduced(c).v, values[..keep]);
  }

  lemma LastOp(c: Prefix)
    requires Ops(c) && c.Operated? && c.pending != []
    ensures IsOp(c.pending[|c.pending| - 1].op)
  {
  }

  lemma OperatedValues(assign: bool, pending: seq<Pending>, v: int, values: seq<int>)
    requires Held(assign, pending, values)
    ensures Values(Operated(assign, pending, v), values + [v])
  {
    assert (values + [v])[..|values|] == values;
  }

  lemma ExprGoto(assign: bool, pending: seq<Pending>, values: seq<int>)
    requires Held(assign, pending, values)
    ensures Goto(11, Top(Wanting(assign, pending))) == ExprState(assign, pending)
  {
  }

  lemma OpAct(op: nat, rhs: seq<int>)
    requires IsOp(op) && |rhs| == 3
    ensures YYR2[op - 2] == 3 && YYR1[op - 2] == 11 && Act(op - 2, rhs) == Combine(op, rhs[0], rhs[2])
  {
  }

  lemma ReduceFuture(ts: seq<Token>, i: nat, c: Prefix)
    requires (c.Literal? || c.Operated?) && Ops(c) && |States(c)| < YYMAXDEPTH && Decide(Top(c), Sym(ts, i)).Reduce?
    ensures Future(ts, i, Reduced(c)) == Future(ts, i, c)
  {
    Decisions(c, Sym(ts, i));
  }

  // ----- yyparse -----

  /** yysetstate: makes room for one state more.  `exhausted` tells that there is none to be had. */
  method Extend(depth: nat, size: nat) returns (size': nat, exhausted: bool)
    requires 0 < depth <= size && YYINITDEPTH <= size <= YYMAXDEPTH
    ensures size <= size' <= YYMAXDEPTH
    ensures exhausted <==> depth == YYMAXDEPTH
    ensures !exhausted ==> depth < size'
  {
    size', exhausted := size, false;
    if size - 1 <= depth - 1 {
      if YYMAXDEPTH <= size {
        exhausted := true;
        return;
      }
      size' := size * 2;
      if YYMAXDEPTH < size' {
        size' := YYMAXDEPTH;
      }
    }
  }

  /** yyerrlab1: looks for a state that can shift the error token; there is none, so that the stack is
      popped down to its bottom and the parse aborted. */
  method PopAll(stack: seq<nat>) returns (left: seq<nat>, shifted: bool)
    requires |stack| > 0 && forall i :: 0 <= i < |stack| ==> stack[i] < |YYPACT|
    ensures left == stack[..1] && !shifted
  {
    left := stack;
    shifted := ShiftsError(left[|left| - 1]);
    while |left| > 1 && !shifted
      invariant 0 < |left| <= |stack| && left == stack[..|left|]
      invariant shifted == ShiftsError(left[|left| - 1])
      decreases |left|
    {
      left := left[..|left| - 1];
      shifted := ShiftsError(left[|left| - 1]);
    }
  }

  /** The table's answer to the error token. */
  predicate ShiftsError(state: nat)
    requires state < |YYPACT|
    ensures !ShiftsError(state)
  {
    var n := YYPACT[state] + YYTERROR;
    YYPACT[state] != YYPACT_NINF && 0 <= n <= YYLAST && YYCHECK[n] == YYTERROR
  }

  /** The interpreter: `result` 0 for accepted, 1 for a syntax error, 2 for an exhausted stack. */
  method Parse(ts: seq<Token>) returns (result: int, printed: seq<int>)
    ensures Outcome(result, printed) == Parsed(ts)
  {
    hide Inv, Future, Values, States, Decide, Rank, Ops, Printed, Reduces, Goto, Act, Shifted, Reduced, Top, Parsed;
    var states: seq<nat>, values: seq<int> := [0], [0];
    var size := YYINITDEPTH;
    var yychar, value := YYEMPTY, 0;
    var next := 0;                        // how many tokens have been read
    ghost var i, c := 0, Wanting(false, []);  // how many have been shifted
    printed := [];
    Begin(ts);
    while true
      invariant YYINITDEPTH <= size <= YYMAXDEPTH && |states| <= size
      invariant Inv(ts, i, c, states, values, printed)
      invariant yychar == YYEMPTY ==> next == i
      invariant yychar != YYEMPTY ==> next == i + 1 && Symbol(yychar) == Sym(ts, i) && value == LexValue(ts, i)
      decreases |ts| + 2 - i, Rank(c)
    {
      Look(ts, i, c, states, values, printed);
      var exhausted;
      size, exhausted := Extend(|states|, size);
      if exhausted {
        return 2, printed;
      }
      var state := states[|states| - 1];
      if state == YYFINAL {
        return 0, printed;
      }
      if YYPACT[state] != YYPACT_NINF && yychar == YYEMPTY {
        yychar, value := Code(ts, next), LexValue(ts, next);
        next := next + 1;
        if yychar <= 0 {
          yychar := 0;
        }
      }
      ghost var token := Sym(ts, i);
      DecideQuiet(state, if yychar == YYEMPTY then 0 else Symbol(yychar), token);
      match Decide(state, if yychar == YYEMPTY then 0 else Symbol(yychar))
      case Shift(n) =>
        Shifts(ts, i, c, states, values, printed);
        yychar := YYEMPTY;
        states, values := states + [n], values + [value];
        i, c := i + 1, Shifted(c, token, value);
      case Reduce(rule) =>
        Reductions(ts, i, c, states, values, printed);
        var keep := |values| - YYR2[rule];
        assert printed + [] == printed;
        if rule == 3 {
          printed := printed + [values[|values| - 1]];
        }
        states := states[..keep] + [Goto(YYR1[rule], states[keep - 1])];
        values := values[..keep] + [Act(rule, values[keep..])];
        c := Reduced(c);
      case Error =>
        ErrorFuture(ts, i, c);
        var left, shifted := PopAll(states);
        return 1, printed;
    }
  }

  function LexValue(ts: seq<Token>, i: nat): int {
    if i < |ts| then ts[i].value else 0
  }

  lemma Begin(ts: seq<Token>)
    ensures Inv(ts, 0, Wanting(false, []), [0], [0], [])
  {
  }

  /** States without a look at the next symbol decide the same whatever it is. */
  lemma DecideQuiet(state: nat, token: nat, token': nat)
    requires state < |YYPACT| && token < YYNTOKENS && token' < YYNTOKENS && (YYPACT[state] == YYPACT_NINF || token == token')
    ensures Decide(state, token) == Decide(state, token')
    ensures Decide(state, token).Shift? ==> YYPACT[state] != YYPACT_NINF
  {
  }

  lemma Look(ts: seq<Token>, i: nat, c: Prefix, states: seq<nat>, values: seq<int>, printed: seq<int>)
    requires Inv(ts, i, c, states, values, printed)
    ensures |states| > 0 && |states| == |values| && (forall j :: 0 <= j < |states| ==> states[j] < |YYPACT|)
    ensures states[|states| - 1] == Top(c) && Top(c) < |YYPACT| && Ops(c)
    ensures |states| == YYMAXDEPTH ==> Parsed(ts) == Outcome(2, printed)
    ensures Top(c) == YYFINAL <==> c.Accepted?
    ensures c.Accepted? ==> Parsed(ts) == Outcome(0, printed)
    ensures |states| == |States(c)| && printed == Printed(c) && i <= |ts| + 1
    ensures Parsed(ts) == Future(ts, i, c)
  {
    TopOf(c, values);
    SmallStates(c, values);
  }

  lemma {:induction false} SmallWaiting(assign: bool, pending: seq<Pending>, values: seq<int>)
    requires Held(assign, pending, values)
    ensures forall j :: 0 <= j < |Waiting(assign, pending)| ==> Waiting(assign, pending)[j] < |YYPACT|
  {
    if pending != [] {
      var before := pending[..|pending| - 1];
      SmallWaiting(assign, before, values[..|values| - 2]);
      assert ExprState(assign, before) < |YYPACT|;
    }
  }

  lemma SmallStates(c: Prefix, values: seq<int>)
    requires Values(c, values)
    ensures forall j :: 0 <= j < |States(c)| ==> States(c)[j] < |YYPACT|
  {
    match c
    case Wanting(assign, pending) => SmallWaiting(assign, pending, values);
    case Literal(assign, pending, _) => SmallWaiting(assign, pending, values[..|values| - 1]);
    case Operated(assign, pending, _) => SmallWaiting(assign, pending, values[..|values| - 1]); TopOf(c, values);
    case _ =>
  }

  lemma Shifts(ts: seq<Token>, i: nat, c: Prefix, states: seq<nat>, values: seq<int>, printed: seq<int>)
    requires Inv(ts, i, c, states, values, printed) && |states| < YYMAXDEPTH && !c.Accepted? && Ops(c) && Top(c) < |YYPACT|
    requires Decide(Top(c), Sym(ts, i)).Shift?
    ensures !c.Literal? && i <= |ts|
    ensures Inv(ts, i + 1, Shifted(c, Sym(ts, i), LexValue(ts, i)), states + [Decide(Top(c), Sym(ts, i)).state],
        values + [LexValue(ts, i)], printed)
  {
    hide Future, Values, Decide, Top, Ops;
    Decisions(c, Sym(ts, i));
    ShiftStacks(c, Sym(ts, i), LexValue(ts, i), values);
    ShiftFuture(ts, i, c);
  }

  /** Reducing by `rule` has led to `c'`. */
  ghost predicate GoesOn(ts: seq<Token>, i: nat, c': Prefix, rule: nat, states: seq<nat>, values: seq<int>,
                         printed: seq<int>) {
    && 0 < rule < |YYR2|
    && var keep := |values| - YYR2[rule];
    && 0 < keep <= |values| == |states|
    && Goto(YYR1[rule], states[keep - 1]) >= 0
    && Inv(ts, i, c', states[..keep] + [Goto(YYR1[rule], states[keep - 1])],
           values[..keep] + [Act(rule, values[keep..])],
           printed + (if rule == 3 then [values[|values| - 1]] else []))
  }

  lemma Reductions(ts: seq<Token>, i: nat, c: Prefix, states: seq<nat>, values: seq<int>, printed: seq<int>)
    requires Inv(ts, i, c, states, values, printed) && |states| < YYMAXDEPTH && !c.Accepted? && Ops(c) && Top(c) < |YYPACT|
    requires Decide(Top(c), Sym(ts, i)).Reduce?
    ensures (c.Literal? || c.Operated?) && Rank(Reduced(c)) < Rank(c)
    ensures Reduces(c, Decide(Top(c), Sym(ts, i)).rule, values)
    ensures GoesOn(ts, i, Reduced(c), Decide(Top(c), Sym(ts, i)).rule, states, values, printed)
  {
    hide Future, Values, Decide, Top, Ops;
    ReduceStacks(c, Sym(ts, i), values);
    ReduceFuture(ts, i, c);
  }
}
