/** The language `Parser` accepts, as a grammar: statements IDENT = expression and expression, where an
    expression is a literal or a literal, an operator and an expression. */
module ParserLanguage {
  import opened Parser

  datatype Expr = Lit(value: int) | Bin(left: int, op: nat, right: Expr)

  datatype Stmt = Assign(e: Expr) | Show(e: Expr)

  /** All operators associate to the right, with one precedence. */
  function Value(e: Expr): int {
    match e
    case Lit(v) => v
    case Bin(v, op, right) => Combine(op, v, Value(right))
  }

  function Literals(e: Expr): nat {
    match e
    case Lit(_) => 1
    case Bin(_, _, right) => 1 + Literals(right)
  }

  /** The tokens from place `i` on, up to the end of the input, spell the expression. */
  predicate Spells(ts: seq<Token>, i: nat, e: Expr)
    decreases e
  {
    && Sym(ts, i) == LIT && i < |ts|
    && match e
       case Lit(v) => ts[i].value == v && Sym(ts, i + 1) == END
       case Bin(v, op, right) => ts[i].value == v && IsOp(op) && Sym(ts, i + 1) == op && Spells(ts, i + 2, right)
  }

  predicate SpellsStmt(ts: seq<Token>, st: Stmt) {
    match st
    case Assign(e) => Sym(ts, 0) == IDENT && Sym(ts, 1) == EQUALS && Spells(ts, 2, e)
    case Show(e) => Spells(ts, 0, e)
  }

  /** The highest place of the stack used by a statement. */
  function Depth(st: Stmt): nat {
    match st
    case Assign(e) => 2 * Literals(e) + 1
    case Show(e) => 2 * Literals(e) - 1
  }

  function Output(st: Stmt): seq<int> {
    match st
    case Assign(_) => []
    case Show(e) => [Value(e)]
  }

  // ----- Sums, over the codes of the tokens -----

  const CODE_IDENT := 258
  const CODE_LIT := 259
  const LIMIT := 9999 // the highest place of the stack

  predicate IsLiteral(ts: seq<Token>, i: nat) {
    i < |ts| && ts[i].code == CODE_LIT
  }

  predicate IsOperator(ts: seq<Token>, i: nat) {
    i < |ts| && (ts[i].code == '+' as int || ts[i].code == '-' as int || ts[i].code == '*' as int)
  }

  predicate AtEnd(ts: seq<Token>, i: nat) {
    i >= |ts| || ts[i].code <= 0
  }

  predicate Assigns(ts: seq<Token>) {
    |ts| >= 2 && ts[0].code == CODE_IDENT && ts[1].code == '=' as int
  }

  /** `m` literals from place `i` on, with operators between them. */
  predicate SumAt(ts: seq<Token>, i: nat, m: nat)
    decreases m
  {
    m > 0 && IsLiteral(ts, i) && (m > 1 ==> IsOperator(ts, i + 1) && SumAt(ts, i + 2, m - 1))
  }

  /** The same, and no operator follows. */
  predicate WholeSumAt(ts: seq<Token>, i: nat, m: nat) {
    SumAt(ts, i, m) && !IsOperator(ts, i + 2 * m - 1)
  }

  /** How many of the first `k` operators behind place `i` are '-' or '*'. */
  function Minuses(ts: seq<Token>, i: nat, k: nat): nat {
    if k == 0 then 0
    else Minuses(ts, i, k - 1) + (if IsOperator(ts, i + 2 * k - 1) && ts[i + 2 * k - 1].code != '+' as int then 1 else 0)
  }

  /** The literals with the sign that the operators left of each give it together. */
  function SignedSum(ts: seq<Token>, i: nat, m: nat): int {
    if m == 0 then 0
    else SignedSum(ts, i, m - 1) + Signed(Minuses(ts, i, m - 1), ValueAt(ts, i + 2 * (m - 1)))
  }

  function ValueAt(ts: seq<Token>, i: nat): int {
    if i < |ts| then ts[i].value else 0
  }

  /** Plus exactly for an even number of minuses. */
  function Signed(minuses: nat, v: int): int {
    if minuses % 2 == 0 then v else -v
  }

  lemma Codes(ts: seq<Token>, i: nat)
    ensures Sym(ts, i) == LIT <==> IsLiteral(ts, i)
    ensures IsOp(Sym(ts, i)) <==> IsOperator(ts, i)
    ensures Sym(ts, i) == PLUS <==> i < |ts| && ts[i].code == '+' as int
    ensures Sym(ts, i) == END <==> AtEnd(ts, i)
    ensures Sym(ts, i) == IDENT <==> i < |ts| && ts[i].code == CODE_IDENT
    ensures Sym(ts, i) == EQUALS <==> i < |ts| && ts[i].code == '=' as int
  {
  }

  lemma {:induction false} MinusesShift(ts: seq<Token>, i: nat, k: nat)
    requires k > 0
    ensures Minuses(ts, i, k) == Minuses(ts, i, 1) + Minuses(ts, i + 2, k - 1)
  {
    if k > 1 {
      MinusesShift(ts, i, k - 1);
      assert i + 2 + 2 * (k - 1) - 1 == i + 2 * k - 1;
    }
  }

  /** The first operator turns all that follows about, or does not. */
  lemma {:induction false} SumShift(ts: seq<Token>, i: nat, m: nat)
    requires m > 0
    ensures SignedSum(ts, i, m) == ValueAt(ts, i) + Signed(Minuses(ts, i, 1), SignedSum(ts, i + 2, m - 1))
  {
    hide Minuses, ValueAt, Signed;
    if m > 1 {
      var v := ValueAt(ts, i + 2 * (m - 1));
      SumShift(ts, i, m - 1);
      MinusesShift(ts, i, m - 1);
      assert i + 2 + 2 * (m - 2) == i + 2 * (m - 1);
      SignedTwice(Minuses(ts, i, 1), Minuses(ts, i + 2, m - 2), SignedSum(ts, i + 2, m - 2), v);
    } else {
      NoMinuses(ts, i);
      assert i + 2 * 0 == i;
    }
  }

  lemma SignedTwice(first: nat, rest: nat, sum: int, v: int)
    ensures Signed(first, sum) + Signed(first + rest, v) == Signed(first, sum + Signed(rest, v))
  {
  }

  lemma NoMinuses(ts: seq<Token>, i: nat)
    ensures Minuses(ts, i, 0) == 0 && Signed(0, ValueAt(ts, i)) == ValueAt(ts, i) && Signed(Minuses(ts, i, 1), 0) == 0
  {
  }

  lemma CombineSigns(ts: seq<Token>, i: nat, a: int, b: int)
    requires IsOperator(ts, i + 1)
    ensures Combine(Sym(ts, i + 1), a, b) == a + Signed(Minuses(ts, i, 1), b)
  {
    Codes(ts, i + 1);
    assert i + 2 * 1 - 1 == i + 1;
  }

  lemma IsThere(ts: seq<Token>, i: nat)
    ensures IsLiteral(ts, i) ==> i < |ts| && ValueAt(ts, i) == ts[i].value
  {
  }

  lemma NoSum(ts: seq<Token>, i: nat)
    ensures SignedSum(ts, i, 0) == 0
  {
  }

  /** The value of an expression is the signed sum of its literals. */
  lemma {:induction false} ValueIsSum(ts: seq<Token>, i: nat, e: Expr)
    requires Spells(ts, i, e)
    ensures WholeSumAt(ts, i, Literals(e)) && Value(e) == SignedSum(ts, i, Literals(e))
    decreases e
  {
    hide SignedSum, Sym, IsOp, IsLiteral, IsOperator, Minuses, Combine, ValueAt, Signed, AtEnd;
    Codes(ts, i);
    Codes(ts, i + 1);
    IsThere(ts, i);
    SumShift(ts, i, Literals(e));
    if e.Bin? {
      ValueIsSum(ts, i + 2, e.right);
      CombineSigns(ts, i, e.left, Value(e.right));
      assert i + 2 + 2 * Literals(e.right) - 1 == i + 2 * Literals(e) - 1;
    } else {
      NoMinuses(ts, i);
      NoSum(ts, i + 2);
      EndIsNoOperator(ts, i + 1);
    }
  }

  lemma EndIsNoOperator(ts: seq<Token>, i: nat)
    ensures AtEnd(ts, i) ==> !IsOperator(ts, i)
  {
  }

  // ----- Sentences -----

  lemma {:induction false} OperandAccepts(ts: seq<Token>, i: nat, assign: bool, pending: seq<Pending>, e: Expr)
    requires Spells(ts, i, e)
    ensures Operand(ts, i, assign, pending) ==
            if Height(assign, pending) + 2 * Literals(e) - 1 >= YYMAXDEPTH - 1 then Outcome(2, [])
            else Outcome(0, if assign then [] else [Collapse(pending, Value(e))])
    decreases e
  {
    if e.Bin? {
      var pending' := pending + [Pending(e.left, e.op)];
      OperandAccepts(ts, i + 2, assign, pending', e.right);
      assert pending'[..|pending|] == pending;
    }
  }

  lemma {:induction false} OperandSpelled(ts: seq<Token>, i: nat, assign: bool, pending: seq<Pending>) returns (e: Expr)
    requires Operand(ts, i, assign, pending).result == 0
    ensures Spells(ts, i, e)
    decreases |ts| + 1 - i
  {
    var v := ts[i].value;
    if IsOp(Sym(ts, i + 1)) {
      var right := OperandSpelled(ts, i + 2, assign, pending + [Pending(v, Sym(ts, i + 1))]);
      e := Bin(v, Sym(ts, i + 1), right);
    } else {
      e := Lit(v);
    }
  }

  /** Sentences: accepted, with the right-associated value printed, which is the signed sum of the literals,
      unless the stack is too low. */
  lemma SentencesParse(ts: seq<Token>, st: Stmt)
    requires SpellsStmt(ts, st)
    ensures Parsed(ts) == if Depth(st) < YYMAXDEPTH - 1 then Outcome(0, Output(st)) else Outcome(2, [])
    ensures Output(st) == if st.Assign? then [] else [SignedSum(ts, 0, Literals(st.e))]
  {
    match st
    case Assign(e) => OperandAccepts(ts, 2, true, [], e);
    case Show(e) =>
      OperandAccepts(ts, 0, false, [], e);
      ValueIsSum(ts, 0, e);
  }

  /** The language exactly: `yyparse` returns 0 for the sentences of the grammar whose parse stays below
      the limit of the stack, and for nothing else. */
  lemma LanguageExact(ts: seq<Token>)
    ensures Parsed(ts).result == 0 <==> exists st :: SpellsStmt(ts, st) && Depth(st) < YYMAXDEPTH - 1
    ensures forall st :: SpellsStmt(ts, st) && Parsed(ts).result == 0 ==> Parsed(ts).printed == Output(st)
  {
    if Parsed(ts).result == 0 {
      var st: Stmt;
      if Sym(ts, 0) != IDENT {
        var e := OperandSpelled(ts, 0, false, []);
        st := Show(e);
      } else {
        var e := OperandSpelled(ts, 2, true, []);
        st := Assign(e);
      }
      SentencesParse(ts, st);
      assert SpellsStmt(ts, st) && Depth(st) < YYMAXDEPTH - 1;
    }
    forall st | SpellsStmt(ts, st)
      ensures Parsed(ts) == if Depth(st) < YYMAXDEPTH - 1 then Outcome(0, Output(st)) else Outcome(2, [])
    {
      SentencesParse(ts, st);
    }
  }

  // ----- Exhaustion -----

  lemma {:induction false} SumExhausts(ts: seq<Token>, i: nat, assign: bool, pending: seq<Pending>, m: nat)
    requires m > 0 && Height(assign, pending) + 2 * m - 1 == LIMIT
    ensures Operand(ts, i, assign, pending).result == 2 <==> SumAt(ts, i, m)
    decreases m
  {
    hide Sym, IsOp, IsLiteral, IsOperator, Ending;
    Codes(ts, i);
    Codes(ts, i + 1);
    IsThere(ts, i);
    if m > 1 && IsLiteral(ts, i) && IsOperator(ts, i + 1) {
      SumExhausts(ts, i + 2, assign, pending + [Pending(ts[i].value, Sym(ts, i + 1))], m - 1);
    }
    EndingIs(ts, i + 1, if assign then [] else [Collapse(pending, ValueAt(ts, i))]);
  }

  lemma EndingIs(ts: seq<Token>, i: nat, printed: seq<int>)
    ensures Ending(ts, i, printed).result in {0, 1}
  {
  }

  /** The stack is exhausted exactly by 5000 literals in a row, or 4999 after IDENT '=', with operators
      between them, whatever follows. */
  lemma ExhaustedExact(ts: seq<Token>)
    ensures Parsed(ts).result == 2 <==> SumAt(ts, 0, 5000) || (Assigns(ts) && SumAt(ts, 2, 4999))
  {
    hide Operand, SumAt;
    Codes(ts, 0);
    Codes(ts, 1);
    SumExhausts(ts, 0, false, [], 5000);
    SumExhausts(ts, 2, true, [], 4999);
    SumStarts(ts, 0, 5000);
  }

  lemma SumStarts(ts: seq<Token>, i: nat, m: nat)
    ensures SumAt(ts, i, m) ==> IsLiteral(ts, i)
  {
  }

  // ----- The outcome over the codes of the tokens -----

  lemma {:induction false} OperandSums(ts: seq<Token>, i: nat, assign: bool, pending: seq<Pending>, m: nat)
    requires WholeSumAt(ts, i, m)
    ensures Operand(ts, i, assign, pending) ==
            if Height(assign, pending) + 2 * m - 1 >= LIMIT then Outcome(2, [])
            else Ending(ts, i + 2 * m - 1, if assign then [] else [Collapse(pending, SignedSum(ts, i, m))])
    decreases m
  {
    hide SignedSum, Sym, IsOp, IsLiteral, IsOperator, Minuses, Combine, Ending, ValueAt, Signed;
    Codes(ts, i);
    Codes(ts, i + 1);
    IsThere(ts, i);
    SumShift(ts, i, m);
    if m > 1 {
      var pending' := pending + [Pending(ts[i].value, Sym(ts, i + 1))];
      OperandSums(ts, i + 2, assign, pending', m - 1);
      assert pending'[..|pending|] == pending;
      CombineSigns(ts, i, ts[i].value, SignedSum(ts, i + 2, m - 1));
      assert i + 2 + 2 * (m - 1) - 1 == i + 2 * m - 1;
    } else {
      NoMinuses(ts, i);
      NoSum(ts, i + 2);
    }
  }

  /** A sum without an assignment prints, with the sign of each literal given by the number of '-' and '*'
      before it, unless the stack is exhausted; what follows can only spoil the result. */
  lemma PrintsSignedSum(ts: seq<Token>, m: nat)
    requires WholeSumAt(ts, 0, m)
    ensures Parsed(ts) ==
            if 2 * m - 1 >= LIMIT then Outcome(2, [])
            else Outcome(if AtEnd(ts, 2 * m - 1) then 0 else 1, [SignedSum(ts, 0, m)])
  {
    hide SignedSum, Operand;
    Codes(ts, 0);
    Codes(ts, 2 * m - 1);
    OperandSums(ts, 0, false, [], m);
  }

  /** An assignment prints nothing. */
  lemma AssignsSilently(ts: seq<Token>, m: nat)
    requires Assigns(ts) && WholeSumAt(ts, 2, m)
    ensures Parsed(ts) ==
            if 2 * m + 1 >= LIMIT then Outcome(2, []) else Outcome(if AtEnd(ts, 2 * m + 1) then 0 else 1, [])
  {
    hide SignedSum, Operand;
    Codes(ts, 0);
    Codes(ts, 1);
    Codes(ts, 2 * m + 1);
    OperandSums(ts, 2, true, [], m);
    assert 2 + 2 * m - 1 == 2 * m + 1;
  }

  /** The literals from place `i` on; behind them there is no operator with a literal. */
  lemma SumFrom(ts: seq<Token>, i: nat) returns (m: nat)
    requires IsLiteral(ts, i)
    ensures SumAt(ts, i, m) && (IsOperator(ts, i + 2 * m - 1) ==> !IsLiteral(ts, i + 2 * m))
    decreases |ts| - i
  {
    if IsOperator(ts, i + 1) && IsLiteral(ts, i + 2) {
      m := SumFrom(ts, i + 2);
      m := m + 1;
    } else {
      m := 1;
    }
  }

  lemma {:induction false} DanglingSum(ts: seq<Token>, i: nat, assign: bool, pending: seq<Pending>, m: nat)
    requires SumAt(ts, i, m) && IsOperator(ts, i + 2 * m - 1) && !IsLiteral(ts, i + 2 * m)
    ensures Operand(ts, i, assign, pending) == Outcome(if Height(assign, pending) + 2 * m >= LIMIT then 2 else 1, [])
    decreases m
  {
    hide Sym, IsOp, IsLiteral, IsOperator, Ending, Collapse;
    Codes(ts, i);
    Codes(ts, i + 1);
    Codes(ts, i + 2);
    IsThere(ts, i);
    var pending' := pending + [Pending(ts[i].value, Sym(ts, i + 1))];
    if m > 1 {
      assert i + 2 + 2 * (m - 1) == i + 2 * m;
      DanglingSum(ts, i + 2, assign, pending', m - 1);
    } else {
      assert Operand(ts, i + 2, assign, pending') == Outcome(1, []);
    }
  }

  lemma OperandOutcome(ts: seq<Token>, i: nat, assign: bool) returns (m: nat)
    ensures var o := Operand(ts, i, assign, []);
            || (o.result != 0 && o.printed == [])
            || (&& WholeSumAt(ts, i, m) && Height(assign, []) + 2 * m - 1 < LIMIT
                && (o.result == 0 ==> AtEnd(ts, i + 2 * m - 1)))
    ensures Operand(ts, i, assign, []).result in {0, 1, 2}
  {
    hide SignedSum, Collapse, Sym;
    m := 0;
    Codes(ts, i);
    if IsLiteral(ts, i) {
      m := SumFrom(ts, i);
      Codes(ts, i + 2 * m - 1);
      if IsOperator(ts, i + 2 * m - 1) {
        DanglingSum(ts, i, assign, [], m);
      } else {
        OperandSums(ts, i, assign, [], m);
      }
    }
  }

  /** [IDENT '='] LIT (op LIT)*, below the limit of the stack, in the codes that `yylex` returns. */
  predicate IsSentence(ts: seq<Token>, m: nat) {
    || (SumAt(ts, 0, m) && AtEnd(ts, 2 * m - 1) && 2 * m - 1 < LIMIT)
    || (Assigns(ts) && SumAt(ts, 2, m) && AtEnd(ts, 2 * m + 1) && 2 * m + 1 < LIMIT)
  }

  predicate HasSum(ts: seq<Token>, m: nat) {
    WholeSumAt(ts, 0, m) && 2 * m - 1 < LIMIT
  }

  /** For every input: 0 is returned exactly for the sentences; something is printed exactly if the input
      begins with a sum that stays below the limit, whatever follows it. */
  lemma OutcomeExact(ts: seq<Token>)
    ensures Parsed(ts).result in {0, 1, 2}
    ensures Parsed(ts).result == 0 <==> exists m :: IsSentence(ts, m)
    ensures Parsed(ts).printed != [] <==> exists m :: HasSum(ts, m)
  {
    hide Operand, SumAt, SignedSum;
    forall m | IsSentence(ts, m)
      ensures Parsed(ts).result == 0
    {
      SentenceAccepted(ts, m);
    }
    forall m | HasSum(ts, m)
      ensures Parsed(ts).printed != []
    {
      PrintsSignedSum(ts, m);
    }
    Codes(ts, 0);
    Codes(ts, 1);
    if Sym(ts, 0) != IDENT {
      var m := OperandOutcome(ts, 0, false);
      assert Parsed(ts).result == 0 ==> IsSentence(ts, m);
      assert Parsed(ts).printed != [] ==> HasSum(ts, m);
    } else if Sym(ts, 1) == EQUALS {
      var m := OperandOutcome(ts, 2, true);
      if WholeSumAt(ts, 2, m) {
        AssignsSilently(ts, m);
      }
      assert Parsed(ts).result == 0 ==> IsSentence(ts, m);
    }
  }

  lemma SentenceAccepted(ts: seq<Token>, m: nat)
    requires IsSentence(ts, m)
    ensures Parsed(ts).result == 0
  {
    hide Operand, SignedSum;
    if SumAt(ts, 0, m) && AtEnd(ts, 2 * m - 1) && 2 * m - 1 < LIMIT {
      PrintsSignedSum(ts, m);
    } else {
      AssignsSilently(ts, m);
    }
  }
}
