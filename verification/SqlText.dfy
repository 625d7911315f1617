// The SQL dialect the trace store speaks: tokens, a parser with SQL's precedences that numbers the
// `?` placeholders left to right, and evaluation under three-valued logic.
module SqlText {
  import opened LikePattern
  import opened Wrappers

  datatype Column =
    | TraceId | FinalStatus | ErrorType | ErrorMessage | FinalCredentialId | KeyId | Model
    | SessionId | PreviousCredentialId | ClientIp | TsEpoch
    | AttemptTraceId | AttemptCredentialId | AttemptOutcome

  datatype Token =
    | Name(column: Column) | Mark | Text(text: string) | Num(num: int)
    | Equals | NotEquals | AtLeast | AtMost
    | LParen | RParen | Comma
    | And | Or | Is | Not | Null | In | LikeWord | Escape | IfNull
    | Exists | SelectOneFromAttempts | Where

  datatype Value = NullValue | IntValue(i: int) | TextValue(s: string)

  datatype Tri = True | False | Unknown

  datatype CompareOp = EqOp | NeOp | GeOp | LeOp

  datatype Operand = Col(column: Column) | Param(index: nat) | Literal(value: Value) | IfNullOf(a: Operand, b: Operand)

  datatype Expr =
    | Compare(op: CompareOp, left: Operand, right: Operand)
    | NotNullTest(operand: Operand)
    | InList(operand: Operand, items: seq<Operand>)
    | LikeTest(text: Operand, pattern: Operand, escape: Operand)
    | AndAlso(e1: Expr, e2: Expr)
    | OrElse(e1: Expr, e2: Expr)
    | ExistsAttempt(cond: Expr)

  // One row of `traces`; columns declared NOT NULL are not optional.
  datatype Row = Row(
    traceId: string, finalStatus: string, errorType: Option<string>, errorMessage: Option<string>,
    finalCredentialId: int, keyId: int, model: string, sessionId: Option<string>,
    previousCredentialId: Option<int>, clientIp: Option<string>, tsEpoch: int)

  // One row of `trace_attempts`.
  datatype Attempt = Attempt(traceId: string, credentialId: int, outcome: string)

  // ----- parsing -----

  // A parsed phrase, the position after it, and the number of the next placeholder.
  datatype Parsed<T> = Fail | Found(value: T, next: nat, mark: nat)

  function At(ts: seq<Token>, i: nat): Option<Token> {
    if i < |ts| then Some(ts[i]) else None
  }

  function ParseOperand(ts: seq<Token>, i: nat, mark: nat): (r: Parsed<Operand>)
    ensures r.Found? ==> i < r.next <= |ts|
    decreases |ts| - i
  {
    if i >= |ts| then Fail
    else
      match ts[i]
      case Name(c) => Found(Col(c), i + 1, mark)
      case Mark => Found(Param(mark), i + 1, mark + 1)
      case Text(s) => Found(Literal(TextValue(s)), i + 1, mark)
      case Num(n) => Found(Literal(IntValue(n)), i + 1, mark)
      case IfNull =>
        if At(ts, i + 1) != Some(LParen) then Fail else
          var a := ParseOperand(ts, i + 2, mark);
          if a.Fail? || At(ts, a.next) != Some(Comma) then Fail else
            var b := ParseOperand(ts, a.next + 1, a.mark);
            if b.Fail? || At(ts, b.next) != Some(RParen) then Fail
            else Found(IfNullOf(a.value, b.value), b.next + 1, b.mark)
      case _ => Fail
  }

  // operand (',' operand)* ')'
  function ParseItems(ts: seq<Token>, i: nat, mark: nat): (r: Parsed<seq<Operand>>)
    ensures r.Found? ==> i < r.next <= |ts|
    decreases |ts| - i
  {
    var a := ParseOperand(ts, i, mark);
    if a.Fail? then Fail
    else if At(ts, a.next) == Some(RParen) then Found([a.value], a.next + 1, a.mark)
    else if At(ts, a.next) != Some(Comma) then Fail
    else
      var rest := ParseItems(ts, a.next + 1, a.mark);
      if rest.Fail? then Fail else Found([a.value] + rest.value, rest.next, rest.mark)
  }

  function OpOf(t: Token): Option<CompareOp> {
    match t
    case Equals => Some(EqOp)
    case NotEquals => Some(NeOp)
    case AtLeast => Some(GeOp)
    case AtMost => Some(LeOp)
    case _ => None
  }

  // What follows the left operand of a test.
  function ParseTest(ts: seq<Token>, left: Operand, i: nat, mark: nat): (r: Parsed<Expr>)
    ensures r.Found? ==> i < r.next <= |ts|
  {
    if i >= |ts| then Fail
    else if OpOf(ts[i]).Some? then
      var b := ParseOperand(ts, i + 1, mark);
      if b.Fail? then Fail else Found(Compare(OpOf(ts[i]).value, left, b.value), b.next, b.mark)
    else if ts[i] == Is then
      if At(ts, i + 1) == Some(Not) && At(ts, i + 2) == Some(Null) then Found(NotNullTest(left), i + 3, mark) else Fail
    else if ts[i] == In then
      if At(ts, i + 1) != Some(LParen) then Fail else
        var items := ParseItems(ts, i + 2, mark);
        if items.Fail? then Fail else Found(InList(left, items.value), items.next, items.mark)
    else if ts[i] == LikeWord then
      var p := ParseOperand(ts, i + 1, mark);
      if p.Fail? || At(ts, p.next) != Some(Escape) then Fail else
        var e := ParseOperand(ts, p.next + 1, p.mark);
        if e.Fail? then Fail else Found(LikeTest(left, p.value, e.value), e.next, e.mark)
    else Fail
  }

  function ParseTerm(ts: seq<Token>, i: nat, mark: nat): (r: Parsed<Expr>)
    ensures r.Found? ==> i < r.next <= |ts|
    decreases |ts| - i, 0
  {
    if i >= |ts| then Fail
    else if ts[i] == LParen then
      var e := ParseOr(ts, i + 1, mark);
      if e.Fail? || At(ts, e.next) != Some(RParen) then Fail else Found(e.value, e.next + 1, e.mark)
    else if ts[i] == Exists then
      if At(ts, i + 1) != Some(LParen) || At(ts, i + 2) != Some(SelectOneFromAttempts) || At(ts, i + 3) != Some(Where)
      then Fail else
        var e := ParseOr(ts, i + 4, mark);
        if e.Fail? || At(ts, e.next) != Some(RParen) then Fail else Found(ExistsAttempt(e.value), e.next + 1, e.mark)
    else
      var left := ParseOperand(ts, i, mark);
      if left.Fail? then Fail else ParseTest(ts, left.value, left.next, left.mark)
  }

  // AND binds tighter than OR.
  function ParseAnd(ts: seq<Token>, i: nat, mark: nat): (r: Parsed<Expr>)
    ensures r.Found? ==> i < r.next <= |ts|
    decreases |ts| - i, 1
  {
    var a := ParseTerm(ts, i, mark);
    if a.Fail? || At(ts, a.next) != Some(And) then a
    else
      var b := ParseAnd(ts, a.next + 1, a.mark);
      if b.Fail? then Fail else Found(AndAlso(a.value, b.value), b.next, b.mark)
  }

  function ParseOr(ts: seq<Token>, i: nat, mark: nat): (r: Parsed<Expr>)
    ensures r.Found? ==> i < r.next <= |ts|
    decreases |ts| - i, 2
  {
    var a := ParseAnd(ts, i, mark);
    if a.Fail? || At(ts, a.next) != Some(Or) then a
    else
      var b := ParseOr(ts, a.next + 1, a.mark);
      if b.Fail? then Fail else Found(OrElse(a.value, b.value), b.next, b.mark)
  }

  // ----- evaluation -----

  datatype Scope = Scope(row: Row, attempt: Option<Attempt>, attempts: seq<Attempt>, params: seq<Value>,
                         fold: char -> char)

  function TextOrNull(s: Option<string>): Value {
    match s
    case None => NullValue
    case Some(t) => TextValue(t)
  }

  function ColumnValue(c: Column, sc: Scope): Value {
    match c
    case TraceId => TextValue(sc.row.traceId)
    case FinalStatus => TextValue(sc.row.finalStatus)
    case ErrorType => TextOrNull(sc.row.errorType)
    case ErrorMessage => TextOrNull(sc.row.errorMessage)
    case FinalCredentialId => IntValue(sc.row.finalCredentialId)
    case KeyId => IntValue(sc.row.keyId)
    case Model => TextValue(sc.row.model)
    case SessionId => TextOrNull(sc.row.sessionId)
    case PreviousCredentialId => (match sc.row.previousCredentialId case None => NullValue case Some(i) => IntValue(i))
    case ClientIp => TextOrNull(sc.row.clientIp)
    case TsEpoch => IntValue(sc.row.tsEpoch)
    case AttemptTraceId => (match sc.attempt case None => NullValue case Some(a) => TextValue(a.traceId))
    case AttemptCredentialId => (match sc.attempt case None => NullValue case Some(a) => IntValue(a.credentialId))
    case AttemptOutcome => (match sc.attempt case None => NullValue case Some(a) => TextValue(a.outcome))
  }

  function OperandValue(o: Operand, sc: Scope): Value {
    match o
    case Col(c) => ColumnValue(c, sc)
    case Param(i) => if i < |sc.params| then sc.params[i] else NullValue
    case Literal(v) => v
    case IfNullOf(a, b) => var v := OperandValue(a, sc); if v == NullValue then OperandValue(b, sc) else v
  }

  function Bool(b: bool): Tri { if b then True else False }

  // Codepoint order of texts, and numbers before texts.
  predicate TextLe(a: string, b: string) {
    a == [] || (b != [] && (a[0] < b[0] || (a[0] == b[0] && TextLe(a[1..], b[1..]))))
  }

  predicate ValueLe(a: Value, b: Value) {
    match (a, b)
    case (IntValue(i), IntValue(j)) => i <= j
    case (TextValue(s), TextValue(t)) => TextLe(s, t)
    case (IntValue(_), TextValue(_)) => true
    case _ => false
  }

  // Comparing with NULL is unknown.
  function CompareValues(op: CompareOp, a: Value, b: Value): Tri {
    if a == NullValue || b == NullValue then Unknown
    else
      match op
      case EqOp => Bool(a == b)
      case NeOp => Bool(a != b)
      case GeOp => Bool(ValueLe(b, a))
      case LeOp => Bool(ValueLe(a, b))
  }

  // SQL's three-valued connectives: unknown unless one side decides.
  function AndTri(a: Tri, b: Tri): (r: Tri)
    ensures r == True <==> a == True && b == True
    ensures r == False <==> a == False || b == False
  {
    if a == False || b == False then False else if a == True && b == True then True else Unknown
  }

  function OrTri(a: Tri, b: Tri): (r: Tri)
    ensures r == True <==> a == True || b == True
    ensures r == False <==> a == False && b == False
  {
    if a == True || b == True then True else if a == False && b == False then False else Unknown
  }

  function InValues(v: Value, items: seq<Operand>, sc: Scope): Tri {
    if items == [] then False
    else OrTri(CompareValues(EqOp, v, OperandValue(items[0], sc)), InValues(v, items[1..], sc))
  }

  function LikeValues(text: Value, pattern: Value, escape: Value, fold: char -> char): Tri {
    if text.TextValue? && pattern.TextValue? && escape == TextValue("\\") then Bool(Like(pattern.s, text.s, fold))
    else Unknown
  }

  function Eval(e: Expr, sc: Scope): Tri
    decreases e, 0
  {
    match e
    case Compare(op, a, b) => CompareValues(op, OperandValue(a, sc), OperandValue(b, sc))
    case NotNullTest(a) => Bool(OperandValue(a, sc) != NullValue)
    case InList(a, items) => InValues(OperandValue(a, sc), items, sc)
    case LikeTest(a, p, x) => LikeValues(OperandValue(a, sc), OperandValue(p, sc), OperandValue(x, sc), sc.fold)
    case AndAlso(a, b) => AndTri(Eval(a, sc), Eval(b, sc))
    case OrElse(a, b) => OrTri(Eval(a, sc), Eval(b, sc))
    case ExistsAttempt(c) => Bool(SomeAttempt(c, sc, sc.attempts))
  }

  predicate SomeAttempt(cond: Expr, sc: Scope, attempts: seq<Attempt>)
    decreases cond, 1, |attempts|
  {
    attempts != [] &&
    (Eval(cond, sc.(attempt := Some(attempts[0]))) == True || SomeAttempt(cond, sc, attempts[1..]))
  }

  // The row is returned: the clause is empty, or it parses completely, has as many placeholders as
  // there are parameters, and evaluates to true.
  predicate Selected(sql: seq<Token>, params: seq<Value>, row: Row, attempts: seq<Attempt>, fold: char -> char) {
    if sql == [] then params == []
    else
      var e := ParseOr(sql, 1, 0);
      && sql[0] == Where
      && e.Found? && e.next == |sql| && e.mark == |params|
      && Eval(e.value, Scope(row, None, attempts, params, fold)) == True
  }

  function CountMarks(ts: seq<Token>): nat {
    if ts == [] then 0 else (if ts[0] == Mark then 1 else 0) + CountMarks(ts[1..])
  }
}
