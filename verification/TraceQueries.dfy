// Compiling a trace query into a WHERE clause with positional parameters.
module TraceQueries {
  import opened LikePattern
  import opened SqlText
  import opened Wrappers

  datatype TraceQuery = TraceQuery(
    status: Option<string>,
    errorType: Option<string>,
    credentialId: Option<nat>,
    keyId: Option<nat>,
    failedAttemptCredentialId: Option<nat>,
    model: Option<string>,
    onlyFailed: bool,
    credentialIds: Option<seq<nat>>,
    startTs: Option<int>,
    endTs: Option<int>,
    keyword: Option<string>,
    sessionId: Option<string>,
    onlySwitched: bool,
    clientIp: Option<string>)

  // `as i64`: two's complement reinterpretation of a 64-bit unsigned id. One below 2^63 is stored as it
  // is, a larger one as the negative number 2^64 less.
  function AsI64(u: nat): (i: int)
    ensures u <= 9_223_372_036_854_775_807 ==> i == u
    ensures 9_223_372_036_854_775_807 < u <= 18_446_744_073_709_551_615 ==> i == u - 18_446_744_073_709_551_616
  {
    var low := u % 0x1_0000_0000_0000_0000;
    if low < 0x8000_0000_0000_0000 then low else low - 0x1_0000_0000_0000_0000
  }

  // Ids are stored through the same cast, and it loses nothing on 64-bit values.
  lemma AsI64Injective(a: nat, b: nat)
    requires IsU64(a) && IsU64(b)
    ensures AsI64(a) == AsI64(b) <==> a == b
  {
  }

  // The credential failed on some hop of the trace.
  ghost predicate FailedOn(row: Row, attempts: seq<Attempt>, credentialId: int) {
    exists i :: 0 <= i < |attempts| && HopFailed(attempts[i], row, credentialId)
  }

  predicate HopFailed(a: Attempt, row: Row, credentialId: int) {
    a.traceId == row.traceId && a.credentialId == credentialId && a.outcome != "success"
  }

  function OrEmpty(s: Option<string>): string {
    match s
    case None => ""
    case Some(t) => t
  }

  predicate MentionsKeyword(row: Row, kw: string, fold: char -> char) {
    || Contains(row.model, kw, fold)
    || Contains(row.traceId, kw, fold)
    || Contains(OrEmpty(row.errorMessage), kw, fold)
    || Contains(OrEmpty(row.sessionId), kw, fold)
    || Contains(OrEmpty(row.clientIp), kw, fold)
  }

  // ----- the clauses -----

  datatype Clause =
    | TextIs(column: Column, text: string)
    | IntIs(column: Column, num: int)
    | NotBefore(start: int)
    | NotAfter(end: int)
    | AttemptFailed(credential: int)
    | OneOf(ids: seq<int>)
    | NotSuccess
    | Switched
    | Mentions(kw: string)

  function TokensOf(c: Clause): seq<Token> {
    match c
    case TextIs(col, _) => [Name(col), Equals, Mark]
    case IntIs(col, _) => [Name(col), Equals, Mark]
    case NotBefore(_) => [Name(TsEpoch), AtLeast, Mark]
    case NotAfter(_) => [Name(TsEpoch), AtMost, Mark]
    case AttemptFailed(_) =>
      [Exists, LParen, SelectOneFromAttempts, Where,
       Name(AttemptTraceId), Equals, Name(TraceId), And,
       Name(AttemptCredentialId), Equals, Mark, And,
       Name(AttemptOutcome), NotEquals, Text("success"), RParen]
    case OneOf(ids) =>
      if ids == [] then [Num(1), Equals, Num(0)]
      else [Name(FinalCredentialId), In, LParen] + Placeholders(|ids|) + [RParen]
    case NotSuccess => [Name(FinalStatus), NotEquals, Text("success")]
    case Switched =>
      [Name(PreviousCredentialId), Is, Not, Null, And, Name(PreviousCredentialId), NotEquals, Name(FinalCredentialId)]
    case Mentions(_) => [LParen] + LikeAny(KeywordColumns()) + [RParen]
  }

  function KeywordColumns(): seq<Column> {
    [Model, TraceId, ErrorMessage, SessionId, ClientIp]
  }

  predicate Nullable(c: Column) {
    c == ErrorMessage || c == SessionId || c == ClientIp
  }

  // column LIKE ? ESCAPE '\', with IFNULL(column, '') for a column that may be null.
  function LikeTokens(c: Column): seq<Token> {
    if Nullable(c) then [IfNull, LParen, Name(c), Comma, Text(""), RParen, LikeWord, Mark, Escape, Text("\\")]
    else [Name(c), LikeWord, Mark, Escape, Text("\\")]
  }

  function LikeAny(cs: seq<Column>): seq<Token> {
    if cs == [] then []
    else if |cs| == 1 then LikeTokens(cs[0])
    else LikeTokens(cs[0]) + [Or] + LikeAny(cs[1..])
  }

  // `?,?,...,?`
  function Placeholders(n: nat): seq<Token> {
    if n == 0 then [] else if n == 1 then [Mark] else [Mark, Comma] + Placeholders(n - 1)
  }

  function ParamsOf(c: Clause): seq<Value> {
    match c
    case TextIs(_, s) => [TextValue(s)]
    case IntIs(_, i) => [IntValue(i)]
    case NotBefore(t) => [IntValue(t)]
    case NotAfter(t) => [IntValue(t)]
    case AttemptFailed(i) => [IntValue(i)]
    case OneOf(ids) => Ints(ids)
    case NotSuccess => []
    case Switched => []
    case Mentions(kw) => seq(5, _ => TextValue(PatternFor(kw)))
  }

  function Ints(ids: seq<int>): (vs: seq<Value>)
    ensures |vs| == |ids| && forall i :: 0 <= i < |ids| ==> vs[i] == IntValue(ids[i])
  {
    seq(|ids|, i requires 0 <= i < |ids| => IntValue(ids[i]))
  }

  // What one clause demands of a row.
  ghost predicate Holds(c: Clause, row: Row, attempts: seq<Attempt>, fold: char -> char) {
    match c
    case TextIs(col, s) => ColumnValue(col, Scope(row, None, attempts, [], fold)) == TextValue(s)
    case IntIs(col, i) => ColumnValue(col, Scope(row, None, attempts, [], fold)) == IntValue(i)
    case NotBefore(t) => t <= row.tsEpoch
    case NotAfter(t) => row.tsEpoch <= t
    case AttemptFailed(i) => FailedOn(row, attempts, i)
    case OneOf(ids) => row.finalCredentialId in ids
    case NotSuccess => row.finalStatus != "success"
    case Switched => row.previousCredentialId.Some? && row.previousCredentialId.value != row.finalCredentialId
    case Mentions(kw) => MentionsKeyword(row, kw, fold)
  }

  // ----- parsing each clause back -----

  // The tokens `c` stand in `ts` from position `i`.
  predicate HasAt(ts: seq<Token>, i: nat, c: seq<Token>) {
    i + |c| <= |ts| && ts[i..i + |c|] == c
  }

  function LikeOperand(c: Column): Operand {
    if Nullable(c) then IfNullOf(Col(c), Literal(TextValue(""))) else Col(c)
  }

  function LikeExpr(c: Column, mark: nat): Expr {
    LikeTest(LikeOperand(c), Param(mark), Literal(TextValue("\\")))
  }

  function LikeAnyExpr(cs: seq<Column>, mark: nat): Expr
    requires cs != []
  {
    if |cs| == 1 then LikeExpr(cs[0], mark)
    else OrElse(LikeExpr(cs[0], mark), LikeAnyExpr(cs[1..], mark + 1))
  }

  function Params(mark: nat, n: nat): seq<Operand>
    decreases n
  {
    if n == 0 then [] else [Param(mark)] + Params(mark + 1, n - 1)
  }

  function HopExpr(mark: nat): Expr {
    AndAlso(Compare(EqOp, Col(AttemptTraceId), Col(TraceId)),
            AndAlso(Compare(EqOp, Col(AttemptCredentialId), Param(mark)),
                    Compare(NeOp, Col(AttemptOutcome), Literal(TextValue("success")))))
  }

  function SwitchedLeft(): Expr { NotNullTest(Col(PreviousCredentialId)) }
  function SwitchedRight(): Expr { Compare(NeOp, Col(PreviousCredentialId), Col(FinalCredentialId)) }

  function ExprOf(c: Clause, mark: nat): Expr {
    match c
    case TextIs(col, _) => Compare(EqOp, Col(col), Param(mark))
    case IntIs(col, _) => Compare(EqOp, Col(col), Param(mark))
    case NotBefore(_) => Compare(GeOp, Col(TsEpoch), Param(mark))
    case NotAfter(_) => Compare(LeOp, Col(TsEpoch), Param(mark))
    case AttemptFailed(_) => ExistsAttempt(HopExpr(mark))
    case OneOf(ids) =>
      if ids == [] then Compare(EqOp, Literal(IntValue(1)), Literal(IntValue(0)))
      else InList(Col(FinalCredentialId), Params(mark, |ids|))
    case NotSuccess => Compare(NeOp, Col(FinalStatus), Literal(TextValue("success")))
    case Switched => AndAlso(SwitchedLeft(), SwitchedRight())
    case Mentions(_) => LikeAnyExpr(KeywordColumns(), mark)
  }

  // One-token operands.
  predicate IsSimple(t: Token) {
    t.Name? || t.Mark? || t.Text? || t.Num?
  }

  function Simple(t: Token, mark: nat): Operand
    requires IsSimple(t)
  {
    match t
    case Name(c) => Col(c)
    case Mark => Param(mark)
    case Text(x) => Literal(TextValue(x))
    case Num(n) => Literal(IntValue(n))
  }

  function MarksIn(t: Token): nat {
    if t.Mark? then 1 else 0
  }

  lemma ParseSimple(ts: seq<Token>, i: nat, mark: nat)
    requires i < |ts| && IsSimple(ts[i])
    ensures ParseOperand(ts, i, mark) == Found(Simple(ts[i], mark), i + 1, mark + MarksIn(ts[i]))
  {
  }

  // One step of each grammar rule.
  lemma AndStep(ts: seq<Token>, i: nat, mark: nat, a: Expr, k: nat, m: nat, b: Expr, end: nat, endMark: nat)
    requires ParseTerm(ts, i, mark) == Found(a, k, m) && At(ts, k) == Some(And)
    requires ParseAnd(ts, k + 1, m) == Found(b, end, endMark)
    ensures ParseAnd(ts, i, mark) == Found(AndAlso(a, b), end, endMark)
  {
    hide ParseTerm, At;
  }

  lemma AndLast(ts: seq<Token>, i: nat, mark: nat, a: Expr, k: nat, m: nat)
    requires ParseTerm(ts, i, mark) == Found(a, k, m) && At(ts, k) != Some(And)
    ensures ParseAnd(ts, i, mark) == Found(a, k, m)
  {
  }

  lemma OrStep(ts: seq<Token>, i: nat, mark: nat, a: Expr, k: nat, m: nat, b: Expr, end: nat, endMark: nat)
    requires ParseTerm(ts, i, mark) == Found(a, k, m) && At(ts, k) == Some(Or)
    requires ParseOr(ts, k + 1, m) == Found(b, end, endMark)
    ensures ParseOr(ts, i, mark) == Found(OrElse(a, b), end, endMark)
  {
  }

  lemma OrLast(ts: seq<Token>, i: nat, mark: nat, a: Expr, k: nat, m: nat)
    requires ParseAnd(ts, i, mark) == Found(a, k, m) && At(ts, k) != Some(Or)
    ensures ParseOr(ts, i, mark) == Found(a, k, m)
  {
  }

  lemma ParenStep(ts: seq<Token>, i: nat, mark: nat, e: Expr, k: nat, m: nat)
    requires At(ts, i) == Some(LParen) && ParseOr(ts, i + 1, mark) == Found(e, k, m) && At(ts, k) == Some(RParen)
    ensures ParseTerm(ts, i, mark) == Found(e, k + 1, m)
  {
  }

  lemma ExistsStep(ts: seq<Token>, i: nat, mark: nat, e: Expr, k: nat, m: nat)
    requires At(ts, i) == Some(Exists) && At(ts, i + 1) == Some(LParen)
    requires At(ts, i + 2) == Some(SelectOneFromAttempts) && At(ts, i + 3) == Some(Where)
    requires ParseOr(ts, i + 4, mark) == Found(e, k, m) && At(ts, k) == Some(RParen)
    ensures ParseTerm(ts, i, mark) == Found(ExistsAttempt(e), k + 1, m)
  {
  }

  lemma InStep(ts: seq<Token>, i: nat, mark: nat, c: Column, items: seq<Operand>, k: nat, m: nat)
    requires At(ts, i) == Some(Name(c)) && At(ts, i + 1) == Some(In) && At(ts, i + 2) == Some(LParen)
    requires ParseItems(ts, i + 3, mark) == Found(items, k, m)
    ensures ParseTerm(ts, i, mark) == Found(InList(Col(c), items), k, m)
  {
    hide ParseOperand, ParseItems;
    ParseSimple(ts, i, mark);
  }

  // operand op operand
  lemma ParseComparison(ts: seq<Token>, i: nat, mark: nat)
    requires i + 2 < |ts| && IsSimple(ts[i]) && OpOf(ts[i + 1]).Some? && IsSimple(ts[i + 2])
    ensures ParseTerm(ts, i, mark)
         == Found(Compare(OpOf(ts[i + 1]).value, Simple(ts[i], mark), Simple(ts[i + 2], mark + MarksIn(ts[i]))),
               i + 3, mark + MarksIn(ts[i]) + MarksIn(ts[i + 2]))
  {
    ParseSimple(ts, i, mark);
    ParseSimple(ts, i + 2, mark + MarksIn(ts[i]));
  }

  lemma ParseIfNull(ts: seq<Token>, i: nat, c: Column, mark: nat)
    requires i + 5 < |ts| && ts[i] == IfNull && ts[i + 1] == LParen && ts[i + 2] == Name(c)
    requires ts[i + 3] == Comma && ts[i + 4] == Text("") && ts[i + 5] == RParen
    ensures ParseOperand(ts, i, mark) == Found(IfNullOf(Col(c), Literal(TextValue(""))), i + 6, mark)
  {
    ParseSimple(ts, i + 2, mark);
    ParseSimple(ts, i + 4, mark);
  }

  // LIKE ? ESCAPE '\'
  lemma ParseLikeTest(ts: seq<Token>, left: Operand, i: nat, mark: nat)
    requires i + 3 < |ts| && ts[i] == LikeWord && ts[i + 1] == Mark && ts[i + 2] == Escape && ts[i + 3] == Text("\\")
    ensures ParseTest(ts, left, i, mark)
         == Found(LikeTest(left, Param(mark), Literal(TextValue("\\"))), i + 4, mark + 1)
  {
    ParseSimple(ts, i + 1, mark);
    ParseSimple(ts, i + 3, mark + 1);
  }

  lemma {:induction false} ParseLike(ts: seq<Token>, i: nat, c: Column, mark: nat)
    requires HasAt(ts, i, LikeTokens(c))
    ensures ParseTerm(ts, i, mark) == Found(LikeExpr(c, mark), i + |LikeTokens(c)|, mark + 1)
  {
    if Nullable(c) {
      ParseNullableLike(ts, i, c, mark);
    } else {
      ParsePlainLike(ts, i, c, mark);
    }
  }

  lemma {:induction false} ParsePlainLike(ts: seq<Token>, i: nat, c: Column, mark: nat)
    requires HasAt(ts, i, [Name(c), LikeWord, Mark, Escape, Text("\\")])
    ensures ParseTerm(ts, i, mark) == Found(LikeTest(Col(c), Param(mark), Literal(TextValue("\\"))), i + 5, mark + 1)
  {
    var l := [Name(c), LikeWord, Mark, Escape, Text("\\")];
    TokensAt(ts, i, l);
    assert ts[i + 0] == l[0] && ts[i + 1] == l[1] && ts[i + 2] == l[2] && ts[i + 3] == l[3] && ts[i + 4] == l[4];
    ParseSimple(ts, i, mark);
    ParseLikeTest(ts, Col(c), i + 1, mark);
  }

  lemma ParseNullableLike(ts: seq<Token>, i: nat, c: Column, mark: nat)
    requires HasAt(ts, i, [IfNull, LParen, Name(c), Comma, Text(""), RParen, LikeWord, Mark, Escape, Text("\\")])
    ensures ParseTerm(ts, i, mark)
         == Found(LikeTest(IfNullOf(Col(c), Literal(TextValue(""))), Param(mark), Literal(TextValue("\\"))),
                  i + 10, mark + 1)
  {
    hide ParseOperand, ParseTest;
    var l := [IfNull, LParen, Name(c), Comma, Text(""), RParen, LikeWord, Mark, Escape, Text("\\")];
    TokensAt(ts, i, l);
    assert ts[i + 0] == l[0] && ts[i + 1] == l[1] && ts[i + 2] == l[2] && ts[i + 3] == l[3] && ts[i + 4] == l[4];
    assert ts[i + 5] == l[5] && ts[i + 6] == l[6] && ts[i + 7] == l[7] && ts[i + 8] == l[8] && ts[i + 9] == l[9];
    ParseIfNull(ts, i, c, mark);
    ParseLikeTest(ts, IfNullOf(Col(c), Literal(TextValue(""))), i + 6, mark);
  }

  // A part of a phrase stands where the phrase does.
  lemma HasPart(ts: seq<Token>, i: nat, c: seq<Token>, from: nat, part: seq<Token>)
    requires HasAt(ts, i, c) && from + |part| <= |c| && c[from..from + |part|] == part
    ensures HasAt(ts, i + from, part)
  {
    SubSlice(ts, i, i + |c|, from, from + |part|);
  }

  lemma SubSlice(ts: seq<Token>, lo: nat, hi: nat, a: nat, b: nat)
    requires lo <= hi <= |ts| && a <= b <= hi - lo
    ensures ts[lo..hi][a..b] == ts[lo + a..lo + b]
  {
    var x, y := ts[lo..hi][a..b], ts[lo + a..lo + b];
    assert |x| == |y|;
    forall j | 0 <= j < |x| ensures x[j] == y[j] {
    }
  }

  lemma TokensAt(ts: seq<Token>, i: nat, c: seq<Token>)
    requires HasAt(ts, i, c)
    ensures forall j :: 0 <= j < |c| ==> ts[i + j] == c[j]
  {
    forall j | 0 <= j < |c| ensures ts[i + j] == c[j] {
      assert ts[i..i + |c|][j] == c[j];
    }
  }

  lemma {:induction false} ParseLikeAny(ts: seq<Token>, i: nat, cs: seq<Column>, mark: nat)
    requires cs != [] && HasAt(ts, i, LikeAny(cs)) && At(ts, i + |LikeAny(cs)|) == Some(RParen)
    ensures ParseOr(ts, i, mark) == Found(LikeAnyExpr(cs, mark), i + |LikeAny(cs)|, mark + |cs|)
    decreases |cs|
  {
    hide *;
    if |cs| == 1 {
      LikeAnyOne(cs, mark);
      LastLike(ts, i, cs[0], mark);
    } else {
      var n := |LikeTokens(cs[0])|;
      LikeAnyPlaces(ts, i, cs);
      ParseLike(ts, i, cs[0], mark);
      ParseLikeAny(ts, i + n + 1, cs[1..], mark + 1);
      LikeAnySplits(cs, mark);
      OrStep(ts, i, mark, LikeExpr(cs[0], mark), i + n, mark + 1,
             LikeAnyExpr(cs[1..], mark + 1), i + |LikeAny(cs)|, mark + |cs|);
    }
  }

  lemma LastLike(ts: seq<Token>, i: nat, c: Column, mark: nat)
    requires HasAt(ts, i, LikeTokens(c)) && At(ts, i + |LikeTokens(c)|) == Some(RParen)
    ensures ParseOr(ts, i, mark) == Found(LikeExpr(c, mark), i + |LikeTokens(c)|, mark + 1)
  {
    var n := |LikeTokens(c)|;
    ParseLike(ts, i, c, mark);
    AndLast(ts, i, mark, LikeExpr(c, mark), i + n, mark + 1);
    OrLast(ts, i, mark, LikeExpr(c, mark), i + n, mark + 1);
  }

  lemma LikeAnyOne(cs: seq<Column>, mark: nat)
    requires |cs| == 1
    ensures LikeAny(cs) == LikeTokens(cs[0]) && LikeAnyExpr(cs, mark) == LikeExpr(cs[0], mark)
  {
  }

  lemma LikeAnySplits(cs: seq<Column>, mark: nat)
    requires |cs| > 1
    ensures LikeAny(cs) == LikeTokens(cs[0]) + [Or] + LikeAny(cs[1..])
    ensures LikeAnyExpr(cs, mark) == OrElse(LikeExpr(cs[0], mark), LikeAnyExpr(cs[1..], mark + 1))
  {
  }

  lemma LikeAnyPlaces(ts: seq<Token>, i: nat, cs: seq<Column>)
    requires |cs| > 1 && HasAt(ts, i, LikeAny(cs))
    ensures HasAt(ts, i, LikeTokens(cs[0])) && At(ts, i + |LikeTokens(cs[0])|) == Some(Or)
    ensures HasAt(ts, i + |LikeTokens(cs[0])| + 1, LikeAny(cs[1..]))
    ensures |LikeAny(cs)| == |LikeTokens(cs[0])| + 1 + |LikeAny(cs[1..])|
  {
    hide *;
    LikeAnySplits(cs, 0);
    Places(ts, i, LikeTokens(cs[0]), Or, LikeAny(cs[1..]));
  }

  // Two phrases with a connective between them.
  lemma Places(ts: seq<Token>, i: nat, l: seq<Token>, connective: Token, rest: seq<Token>)
    requires HasAt(ts, i, l + [connective] + rest)
    ensures HasAt(ts, i, l) && At(ts, i + |l|) == Some(connective)
    ensures HasAt(ts, i + |l| + 1, rest)
  {
    var all := l + [connective] + rest;
    HasPart(ts, i, all, 0, l);
    TokensAt(ts, i, all);
    assert ts[i + |l|] == all[|l|] == connective;
    HasPart(ts, i, all, |l| + 1, rest);
    assert i + (|l| + 1) == i + |l| + 1;
  }

  lemma {:induction false} ParsePlaceholders(ts: seq<Token>, i: nat, n: nat, mark: nat)
    requires n > 0 && HasAt(ts, i, Placeholders(n)) && At(ts, i + |Placeholders(n)|) == Some(RParen)
    ensures ParseItems(ts, i, mark) == Found(Params(mark, n), i + |Placeholders(n)| + 1, mark + n)
    decreases n
  {
    hide ParseOperand;
    var p := Placeholders(n);
    TokensAt(ts, i, p);
    assert p[0] == Mark && ts[i + 0] == p[0];
    ParseSimple(ts, i, mark);
    if n == 1 {
      assert Params(mark + 1, 0) == [];
      assert Params(mark, 1) == [Param(mark)];
    } else {
      var rest := Placeholders(n - 1);
      assert p == [Mark, Comma] + rest;
      assert ts[i + 1] == p[1];
      HasPart(ts, i, p, 2, rest);
      ParsePlaceholders(ts, i + 2, n - 1, mark + 1);
    }
  }

  lemma ParseOneOf(ts: seq<Token>, i: nat, n: nat, mark: nat)
    requires n > 0 && HasAt(ts, i, [Name(FinalCredentialId), In, LParen] + Placeholders(n) + [RParen])
    ensures ParseTerm(ts, i, mark)
         == Found(InList(Col(FinalCredentialId), Params(mark, n)), i + 4 + |Placeholders(n)|, mark + n)
  {
    hide ParseTerm, Params;
    var p := Placeholders(n);
    hide Placeholders;
    var l := [Name(FinalCredentialId), In, LParen] + p + [RParen];
    TokensAt(ts, i, l);
    assert ts[i + 0] == l[0] && ts[i + 1] == l[1] && ts[i + 2] == l[2];
    HasPart(ts, i, l, 3, p);
    assert ts[i + (3 + |p|)] == l[3 + |p|] == RParen;
    ParsePlaceholders(ts, i + 3, n, mark);
    InStep(ts, i, mark, FinalCredentialId, Params(mark, n), i + 3 + |p| + 1, mark + n);
  }

  lemma ParseMentions(ts: seq<Token>, i: nat, mark: nat)
    requires HasAt(ts, i, [LParen] + LikeAny(KeywordColumns()) + [RParen])
    ensures ParseTerm(ts, i, mark)
         == Found(LikeAnyExpr(KeywordColumns(), mark), i + 2 + |LikeAny(KeywordColumns())|, mark + 5)
  {
    hide ParseTerm, LikeAny, LikeAnyExpr;
    var p := LikeAny(KeywordColumns());
    var l := [LParen] + p + [RParen];
    TokensAt(ts, i, l);
    assert ts[i + 0] == l[0] == LParen;
    HasPart(ts, i, l, 1, p);
    assert ts[i + (1 + |p|)] == l[1 + |p|] == RParen;
    ParseLikeAny(ts, i + 1, KeywordColumns(), mark);
    ParenStep(ts, i, mark, LikeAnyExpr(KeywordColumns(), mark), i + 1 + |p|, mark + 5);
  }

  lemma ParseHop(ts: seq<Token>, i: nat, mark: nat)
    requires HasAt(ts, i, TokensOf(AttemptFailed(0)))
    ensures ParseTerm(ts, i, mark) == Found(ExistsAttempt(HopExpr(mark)), i + 16, mark + 1)
  {
    HopTokens(ts, i);
    var trace, credential, outcome := HopExpr(mark).e1, HopExpr(mark).e2.e1, HopExpr(mark).e2.e2;
    ParseComparison(ts, i + 12, mark + 1);
    AndLast(ts, i + 12, mark + 1, outcome, i + 15, mark + 1);
    ParseComparison(ts, i + 8, mark);
    AndStep(ts, i + 8, mark, credential, i + 11, mark + 1, outcome, i + 15, mark + 1);
    ParseComparison(ts, i + 4, mark);
    AndStep(ts, i + 4, mark, trace, i + 7, mark, AndAlso(credential, outcome), i + 15, mark + 1);
    OrLast(ts, i + 4, mark, HopExpr(mark), i + 15, mark + 1);
    ExistsStep(ts, i, mark, HopExpr(mark), i + 15, mark + 1);
  }

  lemma HopTokens(ts: seq<Token>, i: nat)
    requires HasAt(ts, i, TokensOf(AttemptFailed(0)))
    ensures i + 15 < |ts|
    ensures ts[i] == Exists && ts[i + 1] == LParen && ts[i + 2] == SelectOneFromAttempts && ts[i + 3] == Where
    ensures ts[i + 4] == Name(AttemptTraceId) && ts[i + 5] == Equals && ts[i + 6] == Name(TraceId) && ts[i + 7] == And
    ensures ts[i + 8] == Name(AttemptCredentialId) && ts[i + 9] == Equals && ts[i + 10] == Mark && ts[i + 11] == And
    ensures ts[i + 12] == Name(AttemptOutcome) && ts[i + 13] == NotEquals && ts[i + 14] == Text("success")
    ensures ts[i + 15] == RParen
  {
    var l := TokensOf(AttemptFailed(0));
    TokensAt(ts, i, l);
    assert ts[i + 0] == l[0] && ts[i + 1] == l[1] && ts[i + 2] == l[2] && ts[i + 3] == l[3];
    assert ts[i + 4] == l[4] && ts[i + 5] == l[5] && ts[i + 6] == l[6] && ts[i + 7] == l[7];
    assert ts[i + 8] == l[8] && ts[i + 9] == l[9] && ts[i + 10] == l[10] && ts[i + 11] == l[11];
    assert ts[i + 12] == l[12] && ts[i + 13] == l[13] && ts[i + 14] == l[14] && ts[i + 15] == l[15];
  }

  // The clauses that compare one column.
  predicate OneComparison(c: Clause) {
    !c.Switched? && !c.AttemptFailed? && !c.Mentions? && !(c.OneOf? && c.ids != [])
  }

  lemma ParseOneComparison(ts: seq<Token>, i: nat, c: Clause, mark: nat)
    requires OneComparison(c) && HasAt(ts, i, TokensOf(c))
    ensures ParseTerm(ts, i, mark) == Found(ExprOf(c, mark), i + |TokensOf(c)|, mark + |ParamsOf(c)|)
  {
    var l := TokensOf(c);
    TokensAt(ts, i, l);
    assert ts[i + 0] == l[0] && ts[i + 1] == l[1] && ts[i + 2] == l[2];
    ParseComparison(ts, i, mark);
  }

  // A clause that is a single term parses to its expression.
  lemma {:induction false} ParseClause(ts: seq<Token>, i: nat, c: Clause, mark: nat)
    requires !c.Switched? && HasAt(ts, i, TokensOf(c))
    ensures ParseTerm(ts, i, mark) == Found(ExprOf(c, mark), i + |TokensOf(c)|, mark + |ParamsOf(c)|)
  {
    hide ParseTerm, HasAt;
    if c.AttemptFailed? {
      ParseHop(ts, i, mark);
    } else if c.Mentions? {
      ParseMentions(ts, i, mark);
    } else if c.OneOf? && c.ids != [] {
      ParseOneOf(ts, i, |c.ids|, mark);
    } else {
      ParseOneComparison(ts, i, c, mark);
    }
  }

  // ----- the whole clause -----

  // clauses.join(" AND ")
  function Joined(cs: seq<Clause>): seq<Token> {
    if cs == [] then []
    else if |cs| == 1 then TokensOf(cs[0])
    else TokensOf(cs[0]) + [And] + Joined(cs[1..])
  }

  function AllParams(cs: seq<Clause>): seq<Value> {
    if cs == [] then [] else ParamsOf(cs[0]) + AllParams(cs[1..])
  }

  // The joined clauses as AND reads them: to the right.
  function Conjunction(cs: seq<Clause>, mark: nat): Expr
    requires cs != []
    decreases |cs|
  {
    if cs[0].Switched? then
      AndAlso(SwitchedLeft(),
              if |cs| == 1 then SwitchedRight() else AndAlso(SwitchedRight(), Conjunction(cs[1..], mark)))
    else if |cs| == 1 then ExprOf(cs[0], mark)
    else AndAlso(ExprOf(cs[0], mark), Conjunction(cs[1..], mark + |ParamsOf(cs[0])|))
  }

  lemma ParseNotNull(ts: seq<Token>, i: nat, mark: nat)
    requires i + 3 < |ts|
    requires ts[i] == Name(PreviousCredentialId) && ts[i + 1] == Is && ts[i + 2] == Not && ts[i + 3] == Null
    ensures ParseTerm(ts, i, mark) == Found(SwitchedLeft(), i + 4, mark)
  {
    ParseSimple(ts, i, mark);
  }

  lemma SwitchedTokens(ts: seq<Token>, i: nat, mark: nat)
    requires HasAt(ts, i, TokensOf(Switched))
    ensures ParseTerm(ts, i, mark) == Found(SwitchedLeft(), i + 4, mark)
    ensures At(ts, i + 4) == Some(And)
    ensures ParseTerm(ts, i + 5, mark) == Found(SwitchedRight(), i + 8, mark)
    ensures |TokensOf(Switched)| == 8 && |ParamsOf(Switched)| == 0
  {
    var l := TokensOf(Switched);
    TokensAt(ts, i, l);
    assert ts[i + 0] == l[0] && ts[i + 1] == l[1] && ts[i + 2] == l[2] && ts[i + 3] == l[3];
    assert ts[i + 4] == l[4] && ts[i + 5] == l[5] && ts[i + 6] == l[6] && ts[i + 7] == l[7];
    ParseNotNull(ts, i, mark);
    ParseComparison(ts, i + 5, mark);
  }

  lemma JoinedSplits(cs: seq<Clause>)
    requires |cs| > 1
    ensures Joined(cs) == TokensOf(cs[0]) + [And] + Joined(cs[1..])
    ensures |AllParams(cs)| == |ParamsOf(cs[0])| + |AllParams(cs[1..])|
  {
  }

  lemma ConjunctionSplits(cs: seq<Clause>, mark: nat)
    requires |cs| > 1
    ensures Conjunction(cs, mark) == AndThen(cs[0], mark, Conjunction(cs[1..], mark + |ParamsOf(cs[0])|))
  {
  }

  lemma SingleClause(cs: seq<Clause>, mark: nat)
    requires |cs| == 1
    ensures Joined(cs) == TokensOf(cs[0]) && |AllParams(cs)| == |ParamsOf(cs[0])|
    ensures Conjunction(cs, mark) == Conjunction([cs[0]], mark)
  {
    assert cs == [cs[0]];
    assert AllParams(cs[1..]) == [];
  }

  function AndThen(c: Clause, mark: nat, e: Expr): Expr {
    if c.Switched? then AndAlso(SwitchedLeft(), AndAlso(SwitchedRight(), e)) else AndAlso(ExprOf(c, mark), e)
  }

  // A clause followed by AND and a parsed rest.
  lemma {:induction false} ParseClauseThen(ts: seq<Token>, i: nat, c: Clause, mark: nat, e: Expr, endMark: nat)
    requires HasAt(ts, i, TokensOf(c)) && At(ts, i + |TokensOf(c)|) == Some(And)
    requires ParseAnd(ts, i + |TokensOf(c)| + 1, mark + |ParamsOf(c)|) == Found(e, |ts|, endMark)
    ensures ParseAnd(ts, i, mark) == Found(AndThen(c, mark, e), |ts|, endMark)
  {
    hide ParseAnd, ParseTerm, ParseOr, ParseOperand, ParseTest, ParseItems, TokensOf, ParamsOf, ExprOf, HasAt;
    if c.Switched? {
      SwitchedTokens(ts, i, mark);
      AndStep(ts, i + 5, mark, SwitchedRight(), i + 8, mark, e, |ts|, endMark);
      AndStep(ts, i, mark, SwitchedLeft(), i + 4, mark, AndAlso(SwitchedRight(), e), |ts|, endMark);
    } else {
      ParseClause(ts, i, c, mark);
      AndStep(ts, i, mark, ExprOf(c, mark), i + |TokensOf(c)|, mark + |ParamsOf(c)|, e, |ts|, endMark);
    }
  }

  // The last clause.
  lemma ParseClauseLast(ts: seq<Token>, i: nat, c: Clause, mark: nat)
    requires HasAt(ts, i, TokensOf(c)) && i + |TokensOf(c)| == |ts|
    ensures ParseAnd(ts, i, mark) == Found(Conjunction([c], mark), |ts|, mark + |ParamsOf(c)|)
  {
    hide ParseAnd, ParseTerm, ParseOr, ParseOperand, ParseTest, ParseItems, TokensOf, ParamsOf, HasAt;
    if c.Switched? {
      SwitchedTokens(ts, i, mark);
      AndLast(ts, i + 5, mark, SwitchedRight(), i + 8, mark);
      AndStep(ts, i, mark, SwitchedLeft(), i + 4, mark, SwitchedRight(), |ts|, mark);
    } else {
      ParseClause(ts, i, c, mark);
      AndLast(ts, i, mark, ExprOf(c, mark), |ts|, mark + |ParamsOf(c)|);
    }
  }

  // The joined clauses parse to the conjunction, reading the parameters in order.
  lemma {:induction false} ParseJoined(ts: seq<Token>, i: nat, cs: seq<Clause>, mark: nat)
    requires cs != [] && HasAt(ts, i, Joined(cs)) && i + |Joined(cs)| == |ts|
    ensures ParseAnd(ts, i, mark) == Found(Conjunction(cs, mark), |ts|, mark + |AllParams(cs)|)
    decreases |cs|
  {
    hide *;
    if |cs| == 1 {
      SingleClause(cs, mark);
      ParseClauseLast(ts, i, cs[0], mark);
    } else {
      var next, m := i + |TokensOf(cs[0])| + 1, mark + |ParamsOf(cs[0])|;
      JoinedPlaces(ts, i, cs);
      ParseJoined(ts, next, cs[1..], m);
      JoinedSplits(cs);
      ConjunctionSplits(cs, mark);
      ParseClauseThen(ts, i, cs[0], mark, Conjunction(cs[1..], m), m + |AllParams(cs[1..])|);
    }
  }

  lemma {:induction false} JoinedPlaces(ts: seq<Token>, i: nat, cs: seq<Clause>)
    requires |cs| > 1 && HasAt(ts, i, Joined(cs)) && i + |Joined(cs)| == |ts|
    ensures HasAt(ts, i, TokensOf(cs[0])) && At(ts, i + |TokensOf(cs[0])|) == Some(And)
    ensures HasAt(ts, i + |TokensOf(cs[0])| + 1, Joined(cs[1..]))
    ensures i + |TokensOf(cs[0])| + 1 + |Joined(cs[1..])| == |ts|
  {
    hide *;
    JoinedSplits(cs);
    Places(ts, i, TokensOf(cs[0]), And, Joined(cs[1..]));
  }

  // ----- meaning -----

  // The clause's own parameters stand in `params` from position `mark`.
  predicate Bound(c: Clause, mark: nat, params: seq<Value>) {
    mark + |ParamsOf(c)| <= |params| && params[mark..mark + |ParamsOf(c)|] == ParamsOf(c)
  }

  // Under three-valued logic a clause is true exactly when its demand holds; rows with nulls in the
  // tested columns come out as unknown or false, never true.
  lemma ClauseMeaning(c: Clause, mark: nat, row: Row, attempts: seq<Attempt>, params: seq<Value>, fold: char -> char)
    requires Bound(c, mark, params)
    ensures Eval(ExprOf(c, mark), Scope(row, None, attempts, params, fold)) == True <==> Holds(c, row, attempts, fold)
  {
    var sc := Scope(row, None, attempts, params, fold);
    if c.AttemptFailed? {
      assert params[mark] == params[mark..mark + 1][0] == IntValue(c.credential);
      HopMeaning(mark, sc, c.credential, attempts);
    } else if c.OneOf? && c.ids != [] {
      InMeaning(c.ids, mark, sc);
    } else if c.Mentions? {
      MentionsMeaning(c.kw, mark, sc);
    } else if |ParamsOf(c)| == 1 {
      assert params[mark] == params[mark..mark + 1][0] == ParamsOf(c)[0];
    }
  }

  lemma {:induction false} HopMeaning(mark: nat, sc: Scope, credential: int, attempts: seq<Attempt>)
    requires mark < |sc.params| && sc.params[mark] == IntValue(credential)
    ensures SomeAttempt(HopExpr(mark), sc, attempts) <==> FailedOn(sc.row, attempts, credential)
    decreases |attempts|
  {
    if attempts != [] {
      var a, rest := attempts[0], attempts[1..];
      HopMeaning(mark, sc, credential, rest);
      OneHopMeaning(mark, sc, credential, a);
      if FailedOn(sc.row, attempts, credential) && !HopFailed(a, sc.row, credential) {
        var i :| 0 <= i < |attempts| && HopFailed(attempts[i], sc.row, credential);
        assert HopFailed(rest[i - 1], sc.row, credential);
      }
      if FailedOn(sc.row, rest, credential) {
        var i :| 0 <= i < |rest| && HopFailed(rest[i], sc.row, credential);
        assert HopFailed(attempts[i + 1], sc.row, credential);
      }
      if HopFailed(a, sc.row, credential) {
        assert HopFailed(attempts[0], sc.row, credential);
      }
    }
  }

  lemma OneHopMeaning(mark: nat, sc: Scope, credential: int, a: Attempt)
    requires mark < |sc.params| && sc.params[mark] == IntValue(credential)
    ensures Eval(HopExpr(mark), sc.(attempt := Some(a))) == True <==> HopFailed(a, sc.row, credential)
  {
    var hop := sc.(attempt := Some(a));
    var id, cred, outcome := HopExpr(mark).e1, HopExpr(mark).e2.e1, HopExpr(mark).e2.e2;
    assert OperandValue(Literal(TextValue("success")), hop) == TextValue("success");
    assert Eval(id, hop) == Bool(a.traceId == sc.row.traceId);
    assert Eval(cred, hop) == Bool(a.credentialId == credential);
    assert Eval(outcome, hop) == Bool(a.outcome != "success");
    assert Eval(HopExpr(mark).e2, hop) == AndTri(Eval(cred, hop), Eval(outcome, hop));
  }

  lemma IntsAt(ids: seq<int>, mark: nat, params: seq<Value>)
    requires ids != [] && mark + |ids| <= |params| && params[mark..mark + |ids|] == Ints(ids)
    ensures params[mark] == IntValue(ids[0])
    ensures params[mark + 1..mark + 1 + |ids[1..]|] == Ints(ids[1..])
  {
    assert params[mark] == params[mark..mark + |ids|][0] == Ints(ids)[0];
    assert params[mark + 1..mark + 1 + |ids[1..]|] == params[mark..mark + |ids|][1..];
    assert Ints(ids)[1..] == Ints(ids[1..]);
  }

  lemma ParamsSplitFirst(mark: nat, n: nat)
    requires n > 0
    ensures Params(mark, n) != [] && Params(mark, n)[0] == Param(mark)
    ensures Params(mark, n)[1..] == Params(mark + 1, n - 1)
  {
  }

  lemma {:induction false} InMeaning(ids: seq<int>, mark: nat, sc: Scope)
    requires mark + |ids| <= |sc.params| && sc.params[mark..mark + |ids|] == Ints(ids)
    ensures InValues(IntValue(sc.row.finalCredentialId), Params(mark, |ids|), sc) == True
        <==> sc.row.finalCredentialId in ids
    decreases |ids|
  {
    hide Ints;
    if ids != [] {
      hide Params;
      ParamsSplitFirst(mark, |ids|);
      IntsAt(ids, mark, sc.params);
      InMeaning(ids[1..], mark + 1, sc);
      assert ids == [ids[0]] + ids[1..];
    }
  }

  function ColumnText(c: Column, row: Row): string {
    match c
    case Model => row.model
    case TraceId => row.traceId
    case ErrorMessage => OrEmpty(row.errorMessage)
    case SessionId => OrEmpty(row.sessionId)
    case ClientIp => OrEmpty(row.clientIp)
    case _ => ""
  }

  lemma LikeMeaning(kw: string, c: Column, mark: nat, sc: Scope)
    requires c in KeywordColumns()
    requires mark < |sc.params| && sc.params[mark] == TextValue(PatternFor(kw))
    ensures Eval(LikeExpr(c, mark), sc) == True <==> Contains(ColumnText(c, sc.row), kw, sc.fold)
  {
    PatternMatchesSubstring(kw, ColumnText(c, sc.row), sc.fold);
    assert OperandValue(Col(c), sc) == ColumnValue(c, sc);
    assert OperandValue(Literal(TextValue("")), sc) == TextValue("");
    assert OperandValue(LikeOperand(c), sc) == TextValue(ColumnText(c, sc.row));
    assert OperandValue(Literal(TextValue("\\")), sc) == TextValue("\\");
  }

  lemma {:induction false} LikeAnyMeaning(kw: string, cs: seq<Column>, mark: nat, sc: Scope)
    requires cs != [] && forall i :: 0 <= i < |cs| ==> cs[i] in KeywordColumns()
    requires mark + |cs| <= |sc.params|
    requires forall i :: mark <= i < mark + |cs| ==> sc.params[i] == TextValue(PatternFor(kw))
    ensures Eval(LikeAnyExpr(cs, mark), sc) == True
      <==> exists i :: 0 <= i < |cs| && Contains(ColumnText(cs[i], sc.row), kw, sc.fold)
    decreases |cs|
  {
    LikeMeaning(kw, cs[0], mark, sc);
    if |cs| > 1 {
      var rest := cs[1..];
      LikeAnyMeaning(kw, rest, mark + 1, sc);
      if i :| 0 <= i < |rest| && Contains(ColumnText(rest[i], sc.row), kw, sc.fold) {
        assert Contains(ColumnText(cs[i + 1], sc.row), kw, sc.fold);
      }
      if i :| 0 < i < |cs| && Contains(ColumnText(cs[i], sc.row), kw, sc.fold) {
        assert Contains(ColumnText(rest[i - 1], sc.row), kw, sc.fold);
      }
    }
  }

  lemma MentionsMeaning(kw: string, mark: nat, sc: Scope)
    requires Bound(Mentions(kw), mark, sc.params)
    ensures Eval(LikeAnyExpr(KeywordColumns(), mark), sc) == True <==> MentionsKeyword(sc.row, kw, sc.fold)
  {
    hide Eval, LikeAnyExpr, Contains, PatternFor;
    var cs := KeywordColumns();
    forall i | mark <= i < mark + 5 ensures sc.params[i] == TextValue(PatternFor(kw)) {
      assert sc.params[i] == sc.params[mark..mark + 5][i - mark];
    }
    LikeAnyMeaning(kw, cs, mark, sc);
    assert cs[0] == Model && cs[1] == TraceId && cs[2] == ErrorMessage && cs[3] == SessionId && cs[4] == ClientIp;
    assert MentionsKeyword(sc.row, kw, sc.fold) <==>
      exists i :: 0 <= i < |cs| && Contains(ColumnText(cs[i], sc.row), kw, sc.fold);
  }

  ghost predicate AllHold(cs: seq<Clause>, row: Row, attempts: seq<Attempt>, fold: char -> char) {
    cs == [] || (Holds(cs[0], row, attempts, fold) && AllHold(cs[1..], row, attempts, fold))
  }

  lemma {:induction false} ConjunctionMeaning(cs: seq<Clause>, mark: nat, row: Row, attempts: seq<Attempt>,
                                              params: seq<Value>, fold: char -> char)
    requires cs != [] && mark <= |params| && params[mark..] == AllParams(cs)
    ensures Eval(Conjunction(cs, mark), Scope(row, None, attempts, params, fold)) == True
        <==> AllHold(cs, row, attempts, fold)
    decreases |cs|
  {
    hide *;
    var sc := Scope(row, None, attempts, params, fold);
    FirstParams(cs, mark, params);
    ClauseMeaning(cs[0], mark, row, attempts, params, fold);
    AllHoldSplits(cs, row, attempts, fold);
    if |cs| > 1 {
      var m := mark + |ParamsOf(cs[0])|;
      ConjunctionMeaning(cs[1..], m, row, attempts, params, fold);
      ConjunctionSplits(cs, mark);
      AndThenMeaning(cs[0], mark, Conjunction(cs[1..], m), sc);
    } else {
      ConjunctionOne(cs, mark);
      NoneLeft(cs, row, attempts, fold);
    }
  }

  lemma AndThenMeaning(c: Clause, mark: nat, e: Expr, sc: Scope)
    ensures Eval(AndThen(c, mark, e), sc) == True <==> Eval(ExprOf(c, mark), sc) == True && Eval(e, sc) == True
  {
    if c.Switched? {
      assert Eval(AndAlso(SwitchedRight(), e), sc) == AndTri(Eval(SwitchedRight(), sc), Eval(e, sc));
      assert Eval(ExprOf(c, mark), sc) == AndTri(Eval(SwitchedLeft(), sc), Eval(SwitchedRight(), sc));
    }
  }

  lemma AllHoldSplits(cs: seq<Clause>, row: Row, attempts: seq<Attempt>, fold: char -> char)
    requires cs != []
    ensures AllHold(cs, row, attempts, fold)
        <==> Holds(cs[0], row, attempts, fold) && AllHold(cs[1..], row, attempts, fold)
  {
  }

  lemma NoneLeft(cs: seq<Clause>, row: Row, attempts: seq<Attempt>, fold: char -> char)
    requires |cs| == 1
    ensures AllHold(cs[1..], row, attempts, fold)
  {
  }

  lemma ConjunctionOne(cs: seq<Clause>, mark: nat)
    requires |cs| == 1
    ensures Conjunction(cs, mark) == ExprOf(cs[0], mark)
  {
  }

  lemma FirstParams(cs: seq<Clause>, mark: nat, params: seq<Value>)
    requires cs != [] && mark <= |params| && params[mark..] == AllParams(cs)
    ensures mark + |ParamsOf(cs[0])| <= |params| && Bound(cs[0], mark, params)
    ensures params[mark + |ParamsOf(cs[0])|..] == AllParams(cs[1..])
  {
    hide *;
    assert cs == [cs[0]] + cs[1..];
    ParamsSplit(cs[0], cs[1..], mark, params);
  }

  lemma ParamsSplit(c: Clause, rest: seq<Clause>, mark: nat, params: seq<Value>)
    requires mark <= |params| && params[mark..] == AllParams([c] + rest)
    ensures mark + |ParamsOf(c)| <= |params| && Bound(c, mark, params)
    ensures params[mark + |ParamsOf(c)|..] == AllParams(rest)
  {
    assert ([c] + rest)[1..] == rest;
    var k := |ParamsOf(c)|;
    assert params[mark..] == ParamsOf(c) + AllParams(rest);
    assert params[mark..mark + k] == params[mark..][..k];
    assert params[mark + k..] == params[mark..][k..];
  }

  function WhereSql(cs: seq<Clause>): seq<Token> {
    if cs == [] then [] else [Where] + Joined(cs)
  }

  // The generated clause, with its parameters bound left to right, selects a row exactly when
  // every clause's demand holds.
  lemma WhereMeaning(cs: seq<Clause>, row: Row, attempts: seq<Attempt>, fold: char -> char)
    ensures Selected(WhereSql(cs), AllParams(cs), row, attempts, fold) <==> AllHold(cs, row, attempts, fold)
  {
    if cs == [] {
      NoClauses(row, attempts, fold);
    } else {
      hide *;
      var sql, params := WhereSql(cs), AllParams(cs);
      WhereHas(cs);
      ParseWhere(sql, cs);
      assert params[0..] == params;
      ConjunctionMeaning(cs, 0, row, attempts, params, fold);
      SelectedBy(sql, params, Conjunction(cs, 0), row, attempts, fold);
    }
  }

  lemma WhereHas(cs: seq<Clause>)
    requires cs != []
    ensures var sql := WhereSql(cs);
            HasAt(sql, 1, Joined(cs)) && |sql| == 1 + |Joined(cs)| && sql[0] == Where
  {
    hide Joined;
  }

  lemma NoClauses(row: Row, attempts: seq<Attempt>, fold: char -> char)
    ensures Selected(WhereSql([]), AllParams([]), row, attempts, fold) && AllHold([], row, attempts, fold)
  {
  }

  lemma ParseWhere(sql: seq<Token>, cs: seq<Clause>)
    requires cs != [] && HasAt(sql, 1, Joined(cs)) && |sql| == 1 + |Joined(cs)|
    ensures ParseOr(sql, 1, 0) == Found(Conjunction(cs, 0), |sql|, |AllParams(cs)|)
  {
    ParseJoined(sql, 1, cs, 0);
    OrLast(sql, 1, 0, Conjunction(cs, 0), |sql|, |AllParams(cs)|);
  }

  lemma SelectedBy(sql: seq<Token>, params: seq<Value>, e: Expr, row: Row, attempts: seq<Attempt>, fold: char -> char)
    requires sql != [] && sql[0] == Where && ParseOr(sql, 1, 0) == Found(e, |sql|, |params|)
    ensures Selected(sql, params, row, attempts, fold)
      <==> Eval(e, Scope(row, None, attempts, params, fold)) == True
  {
  }

  // ----- build_where -----

  // The k-th filter of the query, in source order: at most one clause.
  function Nth(q: TraceQuery, k: nat): seq<Clause> {
    match k
    case 1 => if q.status.Some? then [TextIs(FinalStatus, q.status.value)] else []
    case 2 => if q.errorType.Some? then [TextIs(ErrorType, q.errorType.value)] else []
    case 3 => if q.credentialId.Some? then [IntIs(FinalCredentialId, AsI64(q.credentialId.value))] else []
    case 4 => if q.keyId.Some? then [IntIs(KeyId, AsI64(q.keyId.value))] else []
    case 5 =>
      if q.failedAttemptCredentialId.Some? then [AttemptFailed(AsI64(q.failedAttemptCredentialId.value))] else []
    case 6 => if q.model.Some? then [TextIs(Model, q.model.value)] else []
    case 7 => if q.credentialIds.Some? then [OneOf(AllI64(q.credentialIds.value))] else []
    case 8 => if q.onlyFailed then [NotSuccess] else []
    case 9 => if q.sessionId.Some? then [TextIs(SessionId, q.sessionId.value)] else []
    case 10 => if q.onlySwitched then [Switched] else []
    case 11 => if q.clientIp.Some? then [TextIs(ClientIp, q.clientIp.value)] else []
    case 12 => if q.startTs.Some? then [NotBefore(q.startTs.value)] else []
    case 13 => if q.endTs.Some? then [NotAfter(q.endTs.value)] else []
    case 14 => if q.keyword.Some? then [Mentions(q.keyword.value)] else []
    case _ => []
  }

  function AllI64(ids: seq<nat>): (r: seq<int>)
    ensures |r| == |ids| && forall i :: 0 <= i < |ids| ==> r[i] == AsI64(ids[i])
  {
    seq(|ids|, i requires 0 <= i < |ids| => AsI64(ids[i]))
  }

  function Clauses(q: TraceQuery, k: nat): seq<Clause> {
    if k == 0 then [] else Clauses(q, k - 1) + Nth(q, k)
  }

  lemma {:induction false} AllHoldConcat(a: seq<Clause>, b: seq<Clause>, row: Row, attempts: seq<Attempt>,
                                         fold: char -> char)
    ensures AllHold(a + b, row, attempts, fold) <==> AllHold(a, row, attempts, fold) && AllHold(b, row, attempts, fold)
    decreases |a|
  {
    if a == [] {
      assert a + b == b;
    } else {
      assert (a + b)[1..] == a[1..] + b;
      AllHoldConcat(a[1..], b, row, attempts, fold);
    }
  }

  // The k-th demand of the query.
  ghost predicate Wants(q: TraceQuery, k: nat, row: Row, attempts: seq<Attempt>, fold: char -> char) {
    match k
    case 1 => q.status.Some? ==> row.finalStatus == q.status.value
    case 2 => q.errorType.Some? ==> row.errorType == q.errorType
    case 3 => q.credentialId.Some? ==> row.finalCredentialId == AsI64(q.credentialId.value)
    case 4 => q.keyId.Some? ==> row.keyId == AsI64(q.keyId.value)
    case 5 => q.failedAttemptCredentialId.Some? ==> FailedOn(row, attempts, AsI64(q.failedAttemptCredentialId.value))
    case 6 => q.model.Some? ==> row.model == q.model.value
    case 7 => q.credentialIds.Some? ==>
        exists i :: 0 <= i < |q.credentialIds.value| && row.finalCredentialId == AsI64(q.credentialIds.value[i])
    case 8 => q.onlyFailed ==> row.finalStatus != "success"
    case 9 => q.sessionId.Some? ==> row.sessionId == q.sessionId
    case 10 => q.onlySwitched ==>
        row.previousCredentialId.Some? && row.previousCredentialId.value != row.finalCredentialId
    case 11 => q.clientIp.Some? ==> row.clientIp == q.clientIp
    case 12 => q.startTs.Some? ==> q.startTs.value <= row.tsEpoch
    case 13 => q.endTs.Some? ==> row.tsEpoch <= q.endTs.value
    case 14 => q.keyword.Some? ==> MentionsKeyword(row, q.keyword.value, fold)
    case _ => true
  }

  // What the query asks for, in two-valued terms: every demand it makes.
  ghost predicate Matches(q: TraceQuery, row: Row, attempts: seq<Attempt>, fold: char -> char) {
    forall k :: 1 <= k <= 14 ==> Wants(q, k, row, attempts, fold)
  }

  lemma NthMeaning(q: TraceQuery, k: nat, row: Row, attempts: seq<Attempt>, fold: char -> char)
    requires 1 <= k <= 14
    ensures AllHold(Nth(q, k), row, attempts, fold) <==> Wants(q, k, row, attempts, fold)
  {
    if Nth(q, k) != [] {
      assert Nth(q, k)[1..] == [];
      assert AllHold(Nth(q, k), row, attempts, fold) <==> Holds(Nth(q, k)[0], row, attempts, fold);
    }
  }

  // The clauses together demand what the query asks for.
  lemma {:induction false} ClausesMeaning(q: TraceQuery, n: nat, row: Row, attempts: seq<Attempt>, fold: char -> char)
    requires n <= 14
    ensures AllHold(Clauses(q, n), row, attempts, fold)
        <==> forall k :: 1 <= k <= n ==> Wants(q, k, row, attempts, fold)
  {
    if n > 0 {
      ClausesMeaning(q, n - 1, row, attempts, fold);
      NthMeaning(q, n, row, attempts, fold);
      AllHoldConcat(Clauses(q, n - 1), Nth(q, n), row, attempts, fold);
    }
  }

  // The texts and parameters pushed so far are those of `cs`.
  predicate Compiled(clauses: seq<seq<Token>>, params: seq<Value>, cs: seq<Clause>) {
    && |clauses| == |cs|
    && (forall i :: 0 <= i < |cs| ==> clauses[i] == TokensOf(cs[i]))
    && params == AllParams(cs)
  }

  lemma {:induction false} AllParamsAppend(cs: seq<Clause>, c: Clause)
    ensures AllParams(cs + [c]) == AllParams(cs) + ParamsOf(c)
    decreases |cs|
  {
    if cs == [] {
      assert cs + [c] == [c];
      assert [c][1..] == [];
    } else {
      assert (cs + [c])[1..] == cs[1..] + [c];
      AllParamsAppend(cs[1..], c);
    }
  }

  function Join(clauses: seq<seq<Token>>): seq<Token> {
    if clauses == [] then []
    else if |clauses| == 1 then clauses[0]
    else clauses[0] + [And] + Join(clauses[1..])
  }

  lemma {:induction false} JoinIsJoined(clauses: seq<seq<Token>>, cs: seq<Clause>)
    requires |clauses| == |cs| && forall i :: 0 <= i < |cs| ==> clauses[i] == TokensOf(cs[i])
    ensures Join(clauses) == Joined(cs)
    decreases |cs|
  {
    if |cs| > 1 {
      JoinIsJoined(clauses[1..], cs[1..]);
    }
  }

  // Pushes one clause's text, and its parameters.
  method Push(clauses: seq<seq<Token>>, params: seq<Value>, c: Clause, ghost cs: seq<Clause>)
    returns (clauses': seq<seq<Token>>, params': seq<Value>, ghost cs': seq<Clause>)
    requires Compiled(clauses, params, cs)
    ensures Compiled(clauses', params', cs') && cs' == cs + [c]
  {
    clauses' := clauses + [TokensOf(c)];
    params' := params + ParamsOf(c);
    cs' := cs + [c];
    AllParamsAppend(cs, c);
  }

  // The whole clause and its parameters, joined from the filters in source order. Whatever the query,
  // the text has as many placeholders as there are parameters, and it selects a row exactly when every
  // requested filter holds.
  method BuildWhere(q: TraceQuery) returns (sql: seq<Token>, params: seq<Value>)
    ensures sql == WhereSql(Clauses(q, 14)) && params == AllParams(Clauses(q, 14))
    ensures CountMarks(sql) == |params|
    ensures forall row, attempts, fold ::
      Selected(sql, params, row, attempts, fold) <==> Matches(q, row, attempts, fold)
  {
    var clauses: seq<seq<Token>>;
    ghost var cs: seq<Clause>;
    clauses, params, cs := FirstFilters(q);
    clauses, params, cs := MiddleFilters(q, clauses, params, cs);
    clauses, params, cs := LastFilters(q, clauses, params, cs);
    sql := if clauses == [] then [] else [Where] + Join(clauses);
    JoinIsJoined(clauses, cs);
    assert sql == WhereSql(cs) && params == AllParams(cs);
    CountWhere(cs);
    forall row, attempts, fold ensures Selected(sql, params, row, attempts, fold) <==> Matches(q, row, attempts, fold) {
      WhereMeaning(cs, row, attempts, fold);
      ClausesMeaning(q, 14, row, attempts, fold);
    }
  }

  lemma NextFilter(q: TraceQuery, k: nat)
    requires k > 0
    ensures Clauses(q, k) == Clauses(q, k - 1) + Nth(q, k)
    ensures Nth(q, k) == [] ==> Clauses(q, k) == Clauses(q, k - 1)
    ensures Clauses(q, 0) == [] && Compiled([], [], [])
  {
  }

  method FirstFilters(q: TraceQuery) returns (clauses: seq<seq<Token>>, params: seq<Value>, ghost cs: seq<Clause>)
    ensures Compiled(clauses, params, cs) && cs == Clauses(q, 5)
  {
    hide Compiled, Clauses, TokensOf, ParamsOf, AsI64, AllI64;
    clauses, params, cs := [], [], [];
    NextFilter(q, 1);
    if q.status.Some? {
      clauses, params, cs := Push(clauses, params, TextIs(FinalStatus, q.status.value), cs);
    }
    assert cs == Clauses(q, 1);
    NextFilter(q, 2);
    if q.errorType.Some? {
      clauses, params, cs := Push(clauses, params, TextIs(ErrorType, q.errorType.value), cs);
    }
    assert cs == Clauses(q, 2);
    NextFilter(q, 3);
    if q.credentialId.Some? {
      clauses, params, cs := Push(clauses, params, IntIs(FinalCredentialId, AsI64(q.credentialId.value)), cs);
    }
    assert cs == Clauses(q, 3);
    NextFilter(q, 4);
    if q.keyId.Some? {
      clauses, params, cs := Push(clauses, params, IntIs(KeyId, AsI64(q.keyId.value)), cs);
    }
    assert cs == Clauses(q, 4);
    NextFilter(q, 5);
    if q.failedAttemptCredentialId.Some? {
      clauses, params, cs := Push(clauses, params, AttemptFailed(AsI64(q.failedAttemptCredentialId.value)), cs);
    }
    assert cs == Clauses(q, 5);
  }

  method MiddleFilters(q: TraceQuery, clauses0: seq<seq<Token>>, params0: seq<Value>, ghost cs0: seq<Clause>)
    returns (clauses: seq<seq<Token>>, params: seq<Value>, ghost cs: seq<Clause>)
    requires Compiled(clauses0, params0, cs0) && cs0 == Clauses(q, 5)
    ensures Compiled(clauses, params, cs) && cs == Clauses(q, 10)
  {
    hide Compiled, Clauses, TokensOf, ParamsOf, AsI64, AllI64;
    clauses, params, cs := clauses0, params0, cs0;
    NextFilter(q, 6);
    if q.model.Some? {
      clauses, params, cs := Push(clauses, params, TextIs(Model, q.model.value), cs);
    }
    assert cs == Clauses(q, 6);
    NextFilter(q, 7);
    if q.credentialIds.Some? {
      clauses, params, cs := Push(clauses, params, OneOf(AllI64(q.credentialIds.value)), cs);
    }
    assert cs == Clauses(q, 7);
    NextFilter(q, 8);
    if q.onlyFailed {
      clauses, params, cs := Push(clauses, params, NotSuccess, cs);
    }
    assert cs == Clauses(q, 8);
    NextFilter(q, 9);
    if q.sessionId.Some? {
      clauses, params, cs := Push(clauses, params, TextIs(SessionId, q.sessionId.value), cs);
    }
    assert cs == Clauses(q, 9);
    NextFilter(q, 10);
    if q.onlySwitched {
      clauses, params, cs := Push(clauses, params, Switched, cs);
    }
    assert cs == Clauses(q, 10);
  }

  method LastFilters(q: TraceQuery, clauses0: seq<seq<Token>>, params0: seq<Value>, ghost cs0: seq<Clause>)
    returns (clauses: seq<seq<Token>>, params: seq<Value>, ghost cs: seq<Clause>)
    requires Compiled(clauses0, params0, cs0) && cs0 == Clauses(q, 10)
    ensures Compiled(clauses, params, cs) && cs == Clauses(q, 14)
  {
    hide Compiled, Clauses, TokensOf, ParamsOf, AsI64, AllI64;
    clauses, params, cs := clauses0, params0, cs0;
    NextFilter(q, 11);
    if q.clientIp.Some? {
      clauses, params, cs := Push(clauses, params, TextIs(ClientIp, q.clientIp.value), cs);
    }
    assert cs == Clauses(q, 11);
    NextFilter(q, 12);
    if q.startTs.Some? {
      clauses, params, cs := Push(clauses, params, NotBefore(q.startTs.value), cs);
    }
    assert cs == Clauses(q, 12);
    NextFilter(q, 13);
    if q.endTs.Some? {
      clauses, params, cs := Push(clauses, params, NotAfter(q.endTs.value), cs);
    }
    assert cs == Clauses(q, 13);
    NextFilter(q, 14);
    if q.keyword.Some? {
      clauses, params, cs := Push(clauses, params, Mentions(q.keyword.value), cs);
    }
    assert cs == Clauses(q, 14);
  }

  // ----- counting placeholders -----

  lemma {:induction false} CountConcat(a: seq<Token>, b: seq<Token>)
    ensures CountMarks(a + b) == CountMarks(a) + CountMarks(b)
  {
    if a == [] {
      assert a + b == b;
    } else {
      assert (a + b)[1..] == a[1..] + b;
      CountConcat(a[1..], b);
    }
  }

  lemma {:induction false} CountPlaceholders(n: nat)
    ensures CountMarks(Placeholders(n)) == n
  {
    if n == 1 {
      CountOne(Mark);
    } else if n > 1 {
      CountConcat([Mark, Comma], Placeholders(n - 1));
      CountConcat([Mark], [Comma]);
      assert [Mark] + [Comma] == [Mark, Comma];
      CountOne(Mark);
      CountOne(Comma);
      CountPlaceholders(n - 1);
    }
  }

  lemma CountOne(t: Token)
    ensures CountMarks([t]) == if t == Mark then 1 else 0
  {
    assert [t][1..] == [];
  }

  lemma CountPair(a: Token, b: Token)
    ensures CountMarks([a, b]) == (if a == Mark then 1 else 0) + (if b == Mark then 1 else 0)
  {
    assert [a, b][1..] == [b];
    CountOne(b);
  }

  lemma CountFour(a: Token, b: Token, c: Token, d: Token)
    ensures CountMarks([a, b, c, d]) == (if a == Mark then 1 else 0) + (if b == Mark then 1 else 0)
                                      + (if c == Mark then 1 else 0) + (if d == Mark then 1 else 0)
  {
    assert [a, b, c, d] == [a, b] + [c, d];
    CountConcat([a, b], [c, d]);
    CountPair(a, b);
    CountPair(c, d);
  }

  lemma CountLike(c: Column)
    ensures CountMarks(LikeTokens(c)) == 1
  {
    if Nullable(c) {
      var head, tail := [IfNull, LParen], [Text(""), RParen, LikeWord, Mark];
      assert LikeTokens(c) == head + [Name(c), Comma] + tail + [Escape, Text("\\")];
      CountConcat(head + [Name(c), Comma] + tail, [Escape, Text("\\")]);
      CountConcat(head + [Name(c), Comma], tail);
      CountConcat(head, [Name(c), Comma]);
      CountPair(IfNull, LParen);
      CountPair(Name(c), Comma);
      CountFour(Text(""), RParen, LikeWord, Mark);
      CountPair(Escape, Text("\\"));
    } else {
      assert LikeTokens(c) == [Name(c)] + [LikeWord, Mark, Escape, Text("\\")];
      CountConcat([Name(c)], [LikeWord, Mark, Escape, Text("\\")]);
      CountOne(Name(c));
      CountFour(LikeWord, Mark, Escape, Text("\\"));
    }
  }

  lemma {:induction false} CountLikeAny(cs: seq<Column>)
    ensures CountMarks(LikeAny(cs)) == |cs|
  {
    if |cs| == 1 {
      CountLike(cs[0]);
    } else if |cs| > 1 {
      LikeAnySplits(cs, 0);
      CountConcat(LikeTokens(cs[0]) + [Or], LikeAny(cs[1..]));
      CountConcat(LikeTokens(cs[0]), [Or]);
      CountLike(cs[0]);
      CountOne(Or);
      CountLikeAny(cs[1..]);
    }
  }

  lemma {:induction false} CountHop()
    ensures CountMarks(TokensOf(AttemptFailed(0))) == 1
  {
    hide CountMarks;
    var a, b := [Exists, LParen, SelectOneFromAttempts, Where], [Name(AttemptTraceId), Equals, Name(TraceId), And];
    var c, d := [Name(AttemptCredentialId), Equals, Mark, And],
                [Name(AttemptOutcome), NotEquals, Text("success"), RParen];
    assert TokensOf(AttemptFailed(0)) == a + b + c + d;
    CountConcat(a + b + c, d);
    CountConcat(a + b, c);
    CountConcat(a, b);
    CountFour(Exists, LParen, SelectOneFromAttempts, Where);
    CountFour(Name(AttemptTraceId), Equals, Name(TraceId), And);
    CountFour(Name(AttemptCredentialId), Equals, Mark, And);
    CountFour(Name(AttemptOutcome), NotEquals, Text("success"), RParen);
  }

  lemma CountThree(a: Token, b: Token, c: Token)
    ensures CountMarks([a, b, c])
         == (if a == Mark then 1 else 0) + (if b == Mark then 1 else 0) + (if c == Mark then 1 else 0)
  {
    assert [a, b, c] == [a] + [b, c];
    CountConcat([a], [b, c]);
    CountOne(a);
    CountPair(b, c);
  }

  // Each clause has one placeholder for each of its parameters.
  lemma CountClause(c: Clause)
    ensures CountMarks(TokensOf(c)) == |ParamsOf(c)|
  {
    hide CountMarks, Placeholders, LikeAny;
    if c.AttemptFailed? {
      CountHop();
    } else if c.OneOf? && c.ids != [] {
      var head, marks := [Name(FinalCredentialId), In, LParen], Placeholders(|c.ids|);
      CountConcat(head + marks, [RParen]);
      CountConcat(head, marks);
      CountThree(Name(FinalCredentialId), In, LParen);
      CountPlaceholders(|c.ids|);
      CountOne(RParen);
    } else if c.Mentions? {
      var marks := LikeAny(KeywordColumns());
      CountConcat([LParen] + marks, [RParen]);
      CountConcat([LParen], marks);
      CountOne(LParen);
      CountOne(RParen);
      CountLikeAny(KeywordColumns());
    } else if c.Switched? {
      var a, b := [Name(PreviousCredentialId), Is, Not, Null],
                  [And, Name(PreviousCredentialId), NotEquals, Name(FinalCredentialId)];
      assert TokensOf(c) == a + b;
      CountConcat(a, b);
      CountFour(Name(PreviousCredentialId), Is, Not, Null);
      CountFour(And, Name(PreviousCredentialId), NotEquals, Name(FinalCredentialId));
    } else {
      var l := TokensOf(c);
      assert l == [l[0], l[1], l[2]];
      CountThree(l[0], l[1], l[2]);
    }
  }

  lemma {:induction false} CountJoined(cs: seq<Clause>)
    ensures CountMarks(Joined(cs)) == |AllParams(cs)|
  {
    if |cs| == 1 {
      CountClause(cs[0]);
      SingleClause(cs, 0);
    } else if |cs| > 1 {
      JoinedSplits(cs);
      CountConcat(TokensOf(cs[0]) + [And], Joined(cs[1..]));
      CountConcat(TokensOf(cs[0]), [And]);
      CountClause(cs[0]);
      CountOne(And);
      CountJoined(cs[1..]);
    }
  }

  lemma CountWhere(cs: seq<Clause>)
    ensures CountMarks(WhereSql(cs)) == |AllParams(cs)|
  {
    if cs != [] {
      CountConcat([Where], Joined(cs));
      CountOne(Where);
      CountJoined(cs);
    }
  }

  // With an empty id whitelist the generated clause selects no row.
  lemma EmptyWhitelist(q: TraceQuery, row: Row, attempts: seq<Attempt>, fold: char -> char)
    requires q.credentialIds == Some([])
    ensures !Selected(WhereSql(Clauses(q, 14)), AllParams(Clauses(q, 14)), row, attempts, fold)
  {
    hide Selected, WhereSql, Clauses, AllParams, AllHold, Wants;
    WhereMeaning(Clauses(q, 14), row, attempts, fold);
    ClausesMeaning(q, 14, row, attempts, fold);
    NothingWanted(q, row, attempts, fold);
  }

  lemma NothingWanted(q: TraceQuery, row: Row, attempts: seq<Attempt>, fold: char -> char)
    requires q.credentialIds == Some([])
    ensures !Wants(q, 7, row, attempts, fold)
  {
  }

  predicate IsU64(n: nat) {
    n < 0x1_0000_0000_0000_0000
  }

  // Attempt i of this trace failed on the credential.
  predicate FailedAt(row: Row, attempts: seq<Attempt>, i: nat)
    requires i < |attempts|
  {
    attempts[i].traceId == row.traceId && attempts[i].outcome != "success"
  }

  // Rows and attempts hold ids through the cast to i64, `tried` being those of the attempts; the
  // filters still compare the u64 ids themselves.
  lemma IdFiltersCompareIds(q: TraceQuery, row: Row, credential: nat, key: nat, attempts: seq<Attempt>, tried: seq<nat>,
                            fold: char -> char)
    requires IsU64(credential) && IsU64(key)
    requires |tried| == |attempts|
    requires forall i :: 0 <= i < |tried| ==> IsU64(tried[i]) && attempts[i].credentialId == AsI64(tried[i])
    requires q.failedAttemptCredentialId.Some? ==> IsU64(q.failedAttemptCredentialId.value)
    requires row.finalCredentialId == AsI64(credential) && row.keyId == AsI64(key)
    requires q.credentialId.Some? ==> IsU64(q.credentialId.value)
    requires q.keyId.Some? ==> IsU64(q.keyId.value)
    requires q.credentialIds.Some? ==> forall i :: 0 <= i < |q.credentialIds.value| ==> IsU64(q.credentialIds.value[i])
    ensures Wants(q, 3, row, attempts, fold) <==> (q.credentialId.Some? ==> credential == q.credentialId.value)
    ensures Wants(q, 4, row, attempts, fold) <==> (q.keyId.Some? ==> key == q.keyId.value)
    ensures Wants(q, 5, row, attempts, fold) <==>
      (q.failedAttemptCredentialId.Some? ==>
         exists i :: 0 <= i < |tried| && tried[i] == q.failedAttemptCredentialId.value && FailedAt(row, attempts, i))
    ensures Wants(q, 7, row, attempts, fold) <==> (q.credentialIds.Some? ==> credential in q.credentialIds.value)
  {
    hide AsI64;
    if q.failedAttemptCredentialId.Some? {
      var id := q.failedAttemptCredentialId.value;
      forall i | 0 <= i < |tried| ensures attempts[i].credentialId == AsI64(id) <==> tried[i] == id {
        AsI64Injective(tried[i], id);
      }
    }
    if q.credentialId.Some? {
      AsI64Injective(credential, q.credentialId.value);
    }
    if q.keyId.Some? {
      AsI64Injective(key, q.keyId.value);
    }
    if q.credentialIds.Some? {
      var ids := q.credentialIds.value;
      forall i | 0 <= i < |ids| ensures row.finalCredentialId == AsI64(ids[i]) <==> credential == ids[i] {
        AsI64Injective(credential, ids[i]);
      }
    }
  }
}
