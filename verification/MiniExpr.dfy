/** The alarm rule language: device.FIELD cmp VALUE joined by && (internal/alarms/miniexpr.go). */
module MiniExpr {
  import opened Text

  // ---------- values and errors ----------

  datatype Value = Num(n: real) | Str(s: string) | Other
  type Env = map<string, Value>

  datatype Error =
    | Unsupported(clause: string)
    | NeedString(field: string)
    | NotNumeric(v: Value)
    | NumberRequired(field: string)
    | BadFloat(text: string)

  datatype Result = Ok(truth: bool) | Err(error: Error)

  // ---------- clauseRE ----------

  /** The four capture groups of clauseRE. */
  datatype Captures = Captures(field: string, op: string, quoted: string, number: string)

  /** The class \s of Go regular expressions. */
  predicate IsWs(c: char) {
    c == ' ' || c == '\t' || c == '\n' || c == '\r' || c as int == 12
  }

  predicate IsWord(c: char) {
    '0' <= c <= '9' || 'A' <= c <= 'Z' || 'a' <= c <= 'z' || c == '_'
  }

  /** The class [\d.+-eE]: the middle of it is the range from '+' to 'e'. */
  predicate IsNumberChar(c: char) {
    '+' <= c <= 'e'
  }

  predicate NotQuote(c: char) { c != '"' }

  function SkipWs(s: string): string {
    if s != "" && IsWs(s[0]) then SkipWs(s[1..]) else s
  }

  predicate AllWs(s: string) {
    forall i :: 0 <= i < |s| ==> IsWs(s[i])
  }

  /** Length of the longest prefix whose characters all satisfy p. */
  function RunLength(s: string, p: char -> bool): (n: nat)
    ensures n <= |s|
    ensures forall i :: 0 <= i < n ==> p(s[i])
    ensures n < |s| ==> !p(s[n])
  {
    if s != "" && p(s[0]) then 1 + RunLength(s[1..], p) else 0
  }

  /** The last two groups: a quoted text or a number run, then only whitespace. */
  function MatchRhs(field: string, op: string, text: string): Option<Captures> {
    var r := SkipWs(text);
    if r != "" && r[0] == '"' then
      var n := RunLength(r[1..], NotQuote);
      if 1 + n < |r| && AllWs(r[n + 2..]) then Some(Captures(field, op, r[1..][..n], "")) else None
    else
      var n := RunLength(r, IsNumberChar);
      if n > 0 && AllWs(r[n..]) then Some(Captures(field, op, "", r[..n])) else None
  }

  const OPERATORS: seq<string> := [">=", "<=", "==", "!=", ">", "<"]

  /** Leftmost alternative first, with backtracking into the later ones. */
  function MatchOps(field: string, ops: seq<string>, text: string): Option<Captures> {
    if ops == [] then None
    else if HasPrefix(text, ops[0]) && MatchRhs(field, ops[0], text[|ops[0]|..]).Some? then
      MatchRhs(field, ops[0], text[|ops[0]|..])
    else MatchOps(field, ops[1..], text)
  }

  function MatchClause(clause: string): Option<Captures> {
    var s := SkipWs(clause);
    if !HasPrefix(s, "device.") then None
    else
      var n := RunLength(s[7..], IsWord);
      if n == 0 then None
      else MatchOps(s[7..][..n], OPERATORS, SkipWs(s[7..][n..]))
  }

  // ---------- strconv.ParseFloat on decimal texts ----------

  predicate IsDigit(c: char) { '0' <= c <= '9' }

  predicate AllDigits(s: string) { forall i :: 0 <= i < |s| ==> IsDigit(s[i]) }

  function DigitValue(c: char): nat
    requires IsDigit(c)
  {
    c as int - 48
  }

  function DigitsValue(s: string): nat
    requires AllDigits(s)
  {
    if s == "" then 0 else 10 * DigitsValue(s[..|s| - 1]) + DigitValue(s[|s| - 1])
  }

  /** x * 10^n */
  function ScaleUp(x: real, n: nat): real {
    if n == 0 then x else 10.0 * ScaleUp(x, n - 1)
  }

  /** x / 10^n */
  function ScaleDown(x: real, n: nat): real {
    if n == 0 then x else ScaleDown(x, n - 1) / 10.0
  }

  function Signed(negative: bool, n: int): int { if negative then -n else n }

  /** The exponent part: empty, or [eE][+-]?digits. */
  function ParseExponent(s: string): Option<int> {
    if s == "" then Some(0)
    else if s[0] != 'e' && s[0] != 'E' then None
    else
      var signed := |s| > 1 && (s[1] == '+' || s[1] == '-');
      var digits := if signed then s[2..] else s[1..];
      if digits == "" || RunLength(digits, IsDigit) != |digits| then None
      else Some(Signed(signed && s[1] == '-', DigitsValue(digits)))
  }

  /** mantissa * 10^exponent */
  datatype Magnitude = Magnitude(mantissa: nat, exponent: int)

  /** digits [. digits] with at least one digit, then an exponent part. */
  function ParseMagnitude(t: string): Option<Magnitude> {
    var w := RunLength(t, IsDigit);
    var dot := w < |t| && t[w] == '.';
    var f := if dot then RunLength(t[w + 1..], IsDigit) else 0;
    var frac := if dot then t[w + 1..][..f] else "";
    var rest := if dot then t[w + 1..][f..] else t[w..];
    if w + f == 0 || ParseExponent(rest).None? then None
    else Some(Magnitude(DigitsValue(t[..w] + frac), ParseExponent(rest).value - f))
  }

  function Scaled(m: Magnitude): real {
    if m.exponent >= 0 then ScaleUp(m.mantissa as real, m.exponent) else ScaleDown(m.mantissa as real, -m.exponent)
  }

  function ParseUnsigned(t: string): Option<real> {
    match ParseMagnitude(t)
    case None => None
    case Some(m) => Some(Scaled(m))
  }

  predicate HasSign(s: string) { s != "" && (s[0] == '+' || s[0] == '-') }

  function WithoutSign(s: string): string { if HasSign(s) then s[1..] else s }

  /** Decimal floating-point texts, with an optional sign. */
  function ParseFloat(s: string): Option<real> {
    match ParseUnsigned(WithoutSign(s))
    case None => None
    case Some(v) => Some(if HasSign(s) && s[0] == '-' then -v else v)
  }

  // ---------- evaluation ----------

  function CompareFloat(l: real, op: string, r: real): bool {
    if op == ">" then l > r
    else if op == ">=" then l >= r
    else if op == "<" then l < r
    else if op == "<=" then l <= r
    else if op == "==" then l == r
    else if op == "!=" then l != r
    else false
  }

  function CompareString(l: string, op: string, r: string): bool {
    if op == "==" then l == r
    else if op == "!=" then l != r
    else false
  }

  function EvalCaptures(m: Captures, env: Env): Result {
    if m.field !in env then Ok(false)
    else
      var rv := env[m.field];
      if m.quoted != "" then
        if rv.Str? then Ok(CompareString(rv.s, m.op, m.quoted)) else Err(NeedString(m.field))
      else if !rv.Num? then Err(NotNumeric(rv))
      else if m.number == "" then Err(NumberRequired(m.field))
      else match ParseFloat(m.number)
           case None => Err(BadFloat(m.number))
           case Some(rf) => Ok(CompareFloat(rv.n, m.op, rf))
  }

  function EvalClause(clause: string, env: Env): Result {
    match MatchClause(clause)
    case None => Err(Unsupported(clause))
    case Some(m) => EvalCaptures(m, env)
  }

  function EvalParts(parts: seq<string>, env: Env): Result {
    if parts == [] then Ok(true)
    else
      var r := EvalClause(TrimSpace(parts[0]), env);
      if r == Ok(true) then EvalParts(parts[1..], env) else r
  }

  /** What EvalMini returns, as a function. */
  function Truth(text: string, env: Env): Result {
    var expr := TrimSpace(text);
    if expr == "" || expr == "false" then Ok(false)
    else if expr == "true" then Ok(true)
    else EvalParts(SplitAmp(expr), env)
  }

  /** The evaluator: a left-to-right loop that returns at the first clause that is false or fails. */
  method EvalMini(text: string, env: Env) returns (r: Result)
    ensures r == Truth(text, env)
  {
    var expr := TrimSpace(text);
    if expr == "" || expr == "false" {
      return Ok(false);
    }
    if expr == "true" {
      return Ok(true);
    }
    var parts := SplitAmp(expr);
    for k := 0 to |parts|
      invariant EvalParts(parts, env) == EvalParts(parts[k..], env)
    {
      r := EvalClause(TrimSpace(parts[k]), env);
      if r.Err? || !r.truth {
        return;
      }
      assert parts[k..][1..] == parts[k + 1..];
    }
    return Ok(true);
  }

  // ---------- abstract syntax, its meaning and its printed form ----------

  datatype Op = Ge | Le | Eq | Ne | Gt | Lt

  /** A plain decimal: sign, whole digits, fraction digits. */
  datatype Decimal = Decimal(negative: bool, whole: string, frac: string)
  datatype Literal = Text(s: string) | Number(d: Decimal)
  datatype Clause = Clause(field: string, op: Op, lit: Literal)

  function OpText(op: Op): string {
    match op case Ge => ">=" case Le => "<=" case Eq => "==" case Ne => "!=" case Gt => ">" case Lt => "<"
  }

  predicate GoodDecimal(d: Decimal) {
    d.whole != "" && AllDigits(d.whole) && AllDigits(d.frac)
  }

  predicate GoodField(field: string) {
    field != "" && forall i :: 0 <= i < |field| ==> IsWord(field[i])
  }

  predicate QuoteFree(s: string) {
    forall i :: 0 <= i < |s| ==> NotQuote(s[i])
  }

  predicate ShapedLiteral(l: Literal) {
    match l
    case Text(s) => QuoteFree(s) && NoAmp(s)
    case Number(d) => GoodDecimal(d)
  }

  predicate ShapedClause(c: Clause) {
    GoodField(c.field) && ShapedLiteral(c.lit)
  }

  /** Shaped, and no empty string literal. */
  predicate GoodClause(c: Clause) {
    ShapedClause(c) && (c.lit.Text? ==> c.lit.s != "")
  }

  function UnsignedText(whole: string, frac: string): string {
    whole + (if frac == "" then "" else "." + frac)
  }

  function DecimalText(d: Decimal): string {
    (if d.negative then "-" else "") + UnsignedText(d.whole, d.frac)
  }

  /** whole + frac / 10^|frac| */
  function DecimalMagnitude(whole: string, frac: string): real
    requires AllDigits(whole) && AllDigits(frac)
  {
    DigitsValue(whole) as real + ScaleDown(DigitsValue(frac) as real, |frac|)
  }

  function DecimalValue(d: Decimal): real
    requires GoodDecimal(d)
  {
    if d.negative then -DecimalMagnitude(d.whole, d.frac) else DecimalMagnitude(d.whole, d.frac)
  }

  function LiteralText(l: Literal): string {
    match l case Text(s) => "\"" + s + "\"" case Number(d) => DecimalText(d)
  }

  function ClauseText(c: Clause): string {
    "device." + c.field + " " + OpText(c.op) + " " + LiteralText(c.lit)
  }

  function Texts(cs: seq<Clause>): (ts: seq<string>)
    ensures |ts| == |cs|
    ensures forall i :: 0 <= i < |cs| ==> ts[i] == ClauseText(cs[i])
  {
    seq(|cs|, i requires 0 <= i < |cs| => ClauseText(cs[i]))
  }

  function Print(cs: seq<Clause>): string
    requires cs != []
  {
    JoinAmp(Texts(cs))
  }

  function HoldsReal(l: real, op: Op, r: real): bool {
    match op case Ge => l >= r case Le => l <= r case Eq => l == r case Ne => l != r case Gt => l > r case Lt => l < r
  }

  function ClauseMeaning(c: Clause, env: Env): Result
    requires GoodClause(c)
  {
    if c.field !in env then Ok(false)
    else match c.lit
         case Text(s) =>
           if !env[c.field].Str? then Err(NeedString(c.field))
           else Ok((c.op == Eq && env[c.field].s == s) || (c.op == Ne && env[c.field].s != s))
         case Number(d) =>
           if !env[c.field].Num? then Err(NotNumeric(env[c.field]))
           else Ok(HoldsReal(env[c.field].n, c.op, DecimalValue(d)))
  }

  /** Left-to-right conjunction that stops at the first clause that is false or an error. */
  function Meaning(cs: seq<Clause>, env: Env): Result
    requires forall i :: 0 <= i < |cs| ==> GoodClause(cs[i])
  {
    if cs == [] then Ok(true)
    else
      var r := ClauseMeaning(cs[0], env);
      if r == Ok(true) then Meaning(cs[1..], env) else r
  }

  /** The clause list a text denotes, clause by clause, as the capture groups. */
  function Parse(text: string): seq<Option<Captures>> {
    var parts := SplitAmp(TrimSpace(text));
    seq(|parts|, i requires 0 <= i < |parts| => MatchClause(TrimSpace(parts[i])))
  }

  function CapturesFor(field: string, op: string, l: Literal): Captures {
    match l
    case Text(s) => Captures(field, op, s, "")
    case Number(d) => Captures(field, op, "", DecimalText(d))
  }

  function CapturesOf(c: Clause): Captures {
    CapturesFor(c.field, OpText(c.op), c.lit)
  }

  // ---------- the printed text parses back ----------

  lemma {:induction false} RunLengthOf(a: string, b: string, p: char -> bool)
    requires forall i :: 0 <= i < |a| ==> p(a[i])
    requires b == "" || !p(b[0])
    ensures RunLength(a + b, p) == |a|
  {
    if a == "" {
      assert a + b == b;
    } else {
      assert (a + b)[1..] == a[1..] + b;
      RunLengthOf(a[1..], b, p);
    }
  }

  /** The run is cut off exactly. */
  lemma RunCut(a: string, b: string, p: char -> bool)
    requires forall i :: 0 <= i < |a| ==> p(a[i])
    requires b == "" || !p(b[0])
    ensures RunLength(a + b, p) == |a| && (a + b)[..|a|] == a && (a + b)[|a|..] == b
  {
    RunLengthOf(a, b, p);
  }

  lemma DecimalChars(d: Decimal)
    requires GoodDecimal(d)
    ensures DecimalText(d) != ""
    ensures forall i :: 0 <= i < |DecimalText(d)| ==>
                          IsDigit(DecimalText(d)[i]) || DecimalText(d)[i] == '-' || DecimalText(d)[i] == '.'
    ensures IsDigit(DecimalText(d)[|DecimalText(d)| - 1])
  {
  }

  lemma SkipOne(t: string)
    requires t != "" && !IsWs(t[0])
    ensures SkipWs(" " + t) == t
  {
    assert (" " + t)[1..] == t;
  }

  lemma RhsOfText(field: string, op: string, s: string)
    requires ShapedLiteral(Literal.Text(s))
    ensures MatchRhs(field, op, " \"" + s + "\"") == Some(Captures(field, op, s, ""))
  {
    var r := "\"" + s + "\"";
    SkipOne(r);
    assert " " + r == " \"" + s + "\"";
    assert r[1..] == s + "\"";
    RunLengthOf(s, "\"", NotQuote);
    assert r[1..][..|s|] == s;
  }

  lemma RhsOfNumber(field: string, op: string, d: Decimal)
    requires GoodDecimal(d)
    ensures MatchRhs(field, op, " " + DecimalText(d)) == Some(Captures(field, op, "", DecimalText(d)))
  {
    var r := DecimalText(d);
    DecimalChars(d);
    SkipOne(r);
    assert r + "" == r;
    RunLengthOf(r, "", IsNumberChar);
    assert r[..|r|] == r;
  }

  lemma RhsOfLiteral(field: string, op: string, l: Literal)
    requires ShapedLiteral(l)
    ensures MatchRhs(field, op, " " + LiteralText(l)) == Some(CapturesFor(field, op, l))
  {
    match l
    case Text(s) =>
      assert " " + LiteralText(l) == " \"" + s + "\"";
      RhsOfText(field, op, s);
    case Number(d) => RhsOfNumber(field, op, d);
  }

  /** Before a blank, an operator text starts with no operator that precedes it in the list. */
  lemma FirstOperator(op: Op, tail: string) returns (k: nat)
    requires tail != "" && tail[0] == ' '
    ensures k < |OPERATORS| && OPERATORS[k] == OpText(op)
    ensures HasPrefix(OpText(op) + tail, OPERATORS[k])
    ensures forall i :: 0 <= i < k ==> !HasPrefix(OpText(op) + tail, OPERATORS[i])
  {
    k := match op case Ge => 0 case Le => 1 case Eq => 2 case Ne => 3 case Gt => 4 case Lt => 5;
    var t := OpText(op) + tail;
    assert t[..|OpText(op)|] == OpText(op);
    forall i | 0 <= i < k ensures !HasPrefix(t, OPERATORS[i]) {
      if |t| >= |OPERATORS[i]| {
        var p := t[..|OPERATORS[i]|];
        assert p[0] == t[0];
        if |OPERATORS[i]| == 2 { assert p[1] == t[1]; }
      }
    }
  }

  lemma OpsMatchPrinted(field: string, op: Op, l: Literal)
    requires ShapedLiteral(l)
    ensures MatchOps(field, OPERATORS, OpText(op) + " " + LiteralText(l)) == Some(CapturesFor(field, OpText(op), l))
  {
    var tail := " " + LiteralText(l);
    var text := OpText(op) + tail;
    assert text == OpText(op) + " " + LiteralText(l);
    RhsOfLiteral(field, OpText(op), l);
    var k := FirstOperator(op, tail);
    assert text[|OPERATORS[k]|..] == tail;
    MatchOpsAt(field, OPERATORS, text, k);
  }

  /** The k-th alternative is taken when no earlier one is a prefix. */
  lemma {:induction false} MatchOpsAt(field: string, ops: seq<string>, text: string, k: nat)
    requires k < |ops|
    requires forall i :: 0 <= i < k ==> !HasPrefix(text, ops[i])
    requires HasPrefix(text, ops[k]) && MatchRhs(field, ops[k], text[|ops[k]|..]).Some?
    ensures MatchOps(field, ops, text) == MatchRhs(field, ops[k], text[|ops[k]|..])
  {
    if k > 0 {
      assert !HasPrefix(text, ops[0]);
      MatchOpsAt(field, ops[1..], text, k - 1);
    }
  }

  /** A clause begins with its field; what follows the blank is left to the operators. */
  lemma ClauseHead(field: string, body: string)
    requires GoodField(field) && body != "" && !IsWs(body[0])
    ensures MatchClause("device." + field + " " + body) == MatchOps(field, OPERATORS, body)
  {
    var t := "device." + field + " " + body;
    var rest := field + (" " + body);
    assert t == "device." + rest;
    assert t[0] == 'd' && SkipWs(t) == t;
    assert t[..7] == "device." && t[7..] == rest;
    RunCut(field, " " + body, IsWord);
    SkipOne(body);
  }

  lemma ClauseParsesBack(c: Clause)
    requires ShapedClause(c)
    ensures MatchClause(ClauseText(c)) == Some(CapturesOf(c))
  {
    var body := OpText(c.op) + " " + LiteralText(c.lit);
    assert ClauseText(c) == "device." + c.field + " " + body;
    assert body[0] == OpText(c.op)[0];
    ClauseHead(c.field, body);
    OpsMatchPrinted(c.field, c.op, c.lit);
  }

  lemma LiteralNoAmp(l: Literal)
    requires ShapedLiteral(l)
    ensures var t := LiteralText(l); t != "" && NoAmp(t) && t[|t| - 1] != '&' && !IsSpace(t[|t| - 1])
  {
    var t := LiteralText(l);
    match l
    case Number(d) => DecimalChars(d);
    case Text(s) =>
      forall i | 0 <= i < |t| - 1 ensures !(t[i] == '&' && t[i + 1] == '&') {
        if 0 < i < |t| - 2 {
          assert t[i] == s[i - 1] && t[i + 1] == s[i];
        }
      }
  }

  lemma ClauseTextJoinable(c: Clause)
    requires ShapedClause(c)
    ensures Joinable(ClauseText(c))
  {
    var t := ClauseText(c);
    var head := "device." + c.field + " " + OpText(c.op) + " ";
    var lit := LiteralText(c.lit);
    assert t == head + lit;
    LiteralNoAmp(c.lit);
    assert t[|t| - 1] == lit[|lit| - 1];
    forall i | 0 <= i < |t| - 1 ensures !(t[i] == '&' && t[i + 1] == '&') {
      if i < |head| {
        assert t[i] == head[i] && head[i] != '&';
      } else {
        assert t[i] == lit[i - |head|] && t[i + 1] == lit[i + 1 - |head|];
      }
    }
  }

  /** Splitting and trimming the printed text gives the clause texts back. */
  lemma PrintedParts(cs: seq<Clause>)
    requires cs != [] && forall i :: 0 <= i < |cs| ==> ShapedClause(cs[i])
    ensures TrimSpace(Print(cs)) == Print(cs)
    ensures Print(cs) != "" && Print(cs)[0] == 'd'
    ensures |SplitAmp(Print(cs))| == |cs|
    ensures forall i :: 0 <= i < |cs| ==> TrimSpace(SplitAmp(Print(cs))[i]) == ClauseText(cs[i])
  {
    var ts := Texts(cs);
    forall i | 0 <= i < |ts| ensures Joinable(ts[i]) {
      ClauseTextJoinable(cs[i]);
    }
    JoinedTight(ts);
    TrimSpaceBlank("", Print(cs), "");
    assert "" + Print(cs) + "" == Print(cs) && "" + Print(cs) == Print(cs);
    SplitJoined("", ts);
    forall i | 0 <= i < |cs| ensures TrimSpace(SplitAmp(Print(cs))[i]) == ClauseText(cs[i]) {
      var part := SplitAmp(Print(cs))[i];
      assert Padded(part, ts[i]);
      var pre: string, post: string :| Blank(pre) && Blank(post) && part == pre + ts[i] + post;
      TrimSpaceBlank(pre, ts[i], post);
    }
    assert ts[0][0] == 'd';
  }

  /** Parsing the printed text of a clause list gives the list back. */
  lemma ParsePrint(cs: seq<Clause>)
    requires cs != [] && forall i :: 0 <= i < |cs| ==> ShapedClause(cs[i])
    ensures |Parse(Print(cs))| == |cs|
    ensures forall i :: 0 <= i < |cs| ==> Parse(Print(cs))[i] == Some(CapturesOf(cs[i]))
  {
    PrintedParts(cs);
    forall i | 0 <= i < |cs| ensures MatchClause(ClauseText(cs[i])) == Some(CapturesOf(cs[i])) {
      ClauseParsesBack(cs[i]);
    }
  }

  // ---------- number literals ----------

  /** Appending the digits of b shifts the value of a by |b| places. */
  lemma {:induction false} DigitsValueConcat(a: string, b: string)
    requires AllDigits(a) && AllDigits(b)
    ensures AllDigits(a + b)
    ensures DigitsValue(a + b) as real == ScaleUp(DigitsValue(a) as real, |b|) + DigitsValue(b) as real
  {
    if b == "" {
      assert a + b == a;
    } else {
      var b' := b[..|b| - 1];
      assert (a + b)[..|a + b| - 1] == a + b';
      DigitsValueConcat(a, b');
    }
  }

  lemma {:induction false} ScaleDownSum(x: real, y: real, n: nat)
    ensures ScaleDown(ScaleUp(x, n) + y, n) == x + ScaleDown(y, n)
    decreases n
  {
    if n > 0 {
      ScaleDownTenth(ScaleUp(x, n) + y, n - 1);
      ScaleDownTenth(y, n - 1);
      assert (ScaleUp(x, n) + y) / 10.0 == ScaleUp(x, n - 1) + y / 10.0;
      ScaleDownSum(x, y / 10.0, n - 1);
    }
  }

  lemma {:induction false} ScaleDownTenth(x: real, n: nat)
    ensures ScaleDown(x, n) / 10.0 == ScaleDown(x / 10.0, n)
    decreases n
  {
    if n > 0 { ScaleDownTenth(x, n - 1); }
  }

  lemma RunOfAll(s: string, p: char -> bool)
    requires forall i :: 0 <= i < |s| ==> p(s[i])
    ensures RunLength(s, p) == |s| && s[..|s|] == s && s[|s|..] == ""
  {
    assert s + "" == s;
    RunCut(s, "", p);
  }

  lemma WholeMagnitude(whole: string)
    requires whole != "" && AllDigits(whole)
    ensures ParseMagnitude(whole) == Some(Magnitude(DigitsValue(whole), 0))
  {
    RunOfAll(whole, IsDigit);
    assert whole + "" == whole;
    assert ParseExponent("") == Some(0);
  }

  /** Where the whole part ends there is the point, and the fraction after it. */
  lemma PointAfter(whole: string, frac: string)
    requires AllDigits(whole)
    ensures var t := whole + ("." + frac);
            && RunLength(t, IsDigit) == |whole| && t[..|whole|] == whole && t[|whole|] == '.'
              && t[|whole| + 1..] == frac
  {
    RunCut(whole, "." + frac, IsDigit);
  }

  lemma FractionMagnitude(whole: string, frac: string)
    requires whole != "" && AllDigits(whole) && AllDigits(frac)
    ensures ParseMagnitude(whole + ("." + frac)) == Some(Magnitude(DigitsValue(whole + frac), -|frac|))
  {
    PointAfter(whole, frac);
    RunOfAll(frac, IsDigit);
    assert ParseExponent("") == Some(0);
  }

  lemma MagnitudeOfDigits(whole: string, frac: string)
    requires whole != "" && AllDigits(whole) && AllDigits(frac)
    ensures AllDigits(whole + frac)
    ensures ParseMagnitude(UnsignedText(whole, frac))
         == Some(Magnitude(DigitsValue(whole + frac), -|frac|))
  {
    DigitsValueConcat(whole, frac);
    if frac == "" {
      assert whole + frac == whole;
      WholeMagnitude(whole);
    } else {
      assert UnsignedText(whole, frac) == whole + ("." + frac);
      FractionMagnitude(whole, frac);
    }
  }

  lemma SignOfDecimal(d: Decimal)
    requires GoodDecimal(d)
    ensures DecimalText(d) != "" && (d.negative <==> DecimalText(d)[0] == '-')
    ensures WithoutSign(DecimalText(d)) == UnsignedText(d.whole, d.frac)
  {
    var s, t := DecimalText(d), UnsignedText(d.whole, d.frac);
    assert t[0] == d.whole[0];
    if d.negative {
      assert s[1..] == t;
    } else {
      assert s == t;
    }
  }

  lemma UnsignedFloat(whole: string, frac: string)
    requires whole != "" && AllDigits(whole) && AllDigits(frac)
    ensures ParseUnsigned(UnsignedText(whole, frac)) == Some(DecimalMagnitude(whole, frac))
  {
    MagnitudeOfDigits(whole, frac);
    ScaledMagnitude(whole, frac);
  }

  /** A plain decimal is read as the number it writes. */
  lemma ParseFloatOfDecimal(d: Decimal)
    requires GoodDecimal(d)
    ensures ParseFloat(DecimalText(d)) == Some(DecimalValue(d))
  {
    SignOfDecimal(d);
    UnsignedFloat(d.whole, d.frac);
  }

  lemma ScaledMagnitude(whole: string, frac: string)
    requires AllDigits(whole) && AllDigits(frac) && AllDigits(whole + frac)
    ensures Scaled(Magnitude(DigitsValue(whole + frac), -|frac|)) == DecimalMagnitude(whole, frac)
  {
    DigitsValueConcat(whole, frac);
    ScaleDownSum(DigitsValue(whole) as real, DigitsValue(frac) as real, |frac|);
  }

  // ---------- evaluation of printed expressions ----------

  lemma OperatorHolds(l: real, op: Op, r: real)
    ensures CompareFloat(l, OpText(op), r) == HoldsReal(l, op, r)
  {
    match op {
      case Ge =>
      case Le =>
      case Eq =>
      case Ne =>
      case Gt =>
      case Lt =>
    }
  }

  lemma NumberEvaluates(m: Captures, op: Op, v: real, env: Env)
    requires m.op == OpText(op) && m.quoted == "" && m.number != "" && ParseFloat(m.number) == Some(v)
    ensures EvalCaptures(m, env)
         == if m.field !in env then Ok(false)
            else if !env[m.field].Num? then Err(NotNumeric(env[m.field]))
            else Ok(HoldsReal(env[m.field].n, op, v))
  {
    if m.field in env && env[m.field].Num? { OperatorHolds(env[m.field].n, op, v); }
  }

  lemma CapturesEvaluate(c: Clause, env: Env)
    requires GoodClause(c)
    ensures EvalCaptures(CapturesOf(c), env) == ClauseMeaning(c, env)
  {
    if c.lit.Number? {
      ParseFloatOfDecimal(c.lit.d);
      DecimalChars(c.lit.d);
      NumberEvaluates(CapturesOf(c), c.op, DecimalValue(c.lit.d), env);
    }
  }

  lemma ClauseEvaluates(c: Clause, env: Env)
    requires GoodClause(c)
    ensures EvalClause(ClauseText(c), env) == ClauseMeaning(c, env)
  {
    ClauseParsesBack(c);
    CapturesEvaluate(c, env);
  }

  lemma {:induction false} PartsEvaluate(parts: seq<string>, cs: seq<Clause>, env: Env)
    requires |parts| == |cs|
    requires forall i :: 0 <= i < |cs| ==> GoodClause(cs[i])
    requires forall i :: 0 <= i < |cs| ==> TrimSpace(parts[i]) == ClauseText(cs[i])
    ensures EvalParts(parts, env) == Meaning(cs, env)
  {
    if cs != [] {
      ClauseEvaluates(cs[0], env);
      PartsEvaluate(parts[1..], cs[1..], env);
    }
  }

  /** On a printed clause list the evaluator is left-to-right short-circuit conjunction, errors included. */
  lemma EvalPrinted(cs: seq<Clause>, env: Env)
    requires cs != [] && forall i :: 0 <= i < |cs| ==> GoodClause(cs[i])
    ensures Truth(Print(cs), env) == Meaning(cs, env)
  {
    PrintedParts(cs);
    PartsEvaluate(SplitAmp(Print(cs)), cs, env);
  }

  // ---------- which string literals survive printing ----------

  lemma {:induction false} TrimRightPrefix(s: string)
    ensures |TrimRight(s)| <= |s| && TrimRight(s) == s[..|TrimRight(s)|]
    ensures forall i :: 0 <= i < |s| && !IsSpace(s[i]) ==> i < |TrimRight(s)|
  {
    if s != "" && IsSpace(s[|s| - 1]) { TrimRightPrefix(s[..|s| - 1]); }
  }

  lemma {:induction false} NoOperatorMatches(field: string, ops: seq<string>, text: string)
    requires forall i :: 0 <= i < |ops| && HasPrefix(text, ops[i]) ==> MatchRhs(field, ops[i], text[|ops[i]|..]).None?
    ensures MatchOps(field, ops, text) == None
  {
    if ops != [] { NoOperatorMatches(field, ops[1..], text); }
  }

  lemma UnclosedRhs(field: string, op: string, s: string)
    requires QuoteFree(s)
    ensures MatchRhs(field, op, " \"" + s) == None
  {
    var r := "\"" + s;
    SkipOne(r);
    assert " " + r == " \"" + s;
    assert r[1..] == s && s + "" == s;
    RunLengthOf(s, "", NotQuote);
  }

  lemma StrayEquals(field: string, op: string, s: string)
    ensures MatchRhs(field, op, "= \"" + s) == None
  {
    var r := "= \"" + s;
    assert SkipWs(r) == r;
    assert r == "=" + (" \"" + s);
    RunLengthOf("=", " \"" + s, IsNumberChar);
    assert r[1..][1] == '"';
  }

  /** An alternative that begins an operator text and a blank is the operator itself, or the operator is it and "=". */
  lemma OperatorPrefix(op: Op, tail: string, i: nat)
    requires tail != "" && tail[0] == ' ' && i < |OPERATORS| && HasPrefix(OpText(op) + tail, OPERATORS[i])
    ensures OPERATORS[i] == OpText(op) || OPERATORS[i] + "=" == OpText(op)
  {
    var text, o := OpText(op) + tail, OPERATORS[i];
    assert o[0] == text[..|o|][0] == text[0] == OpText(op)[0];
    if |o| == 2 { assert o[1] == text[..|o|][1] == text[1]; }
  }

  lemma AfterOperator(op: Op, tail: string, o: string)
    ensures o == OpText(op) && HasPrefix(OpText(op) + tail, o) ==> (OpText(op) + tail)[|o|..] == tail
    ensures o + "=" == OpText(op) && HasPrefix(OpText(op) + tail, o) ==> (OpText(op) + tail)[|o|..] == "=" + tail
  {
    if o + "=" == OpText(op) { assert OpText(op) + tail == o + ("=" + tail); }
  }

  lemma UnclosedAt(field: string, op: Op, s: string, i: nat)
    requires QuoteFree(s) && i < |OPERATORS| && HasPrefix(OpText(op) + (" \"" + s), OPERATORS[i])
    ensures MatchRhs(field, OPERATORS[i], (OpText(op) + (" \"" + s))[|OPERATORS[i]|..]).None?
  {
    OperatorPrefix(op, " \"" + s, i);
    AfterOperator(op, " \"" + s, OPERATORS[i]);
    UnclosedRhs(field, OPERATORS[i], s);
    StrayEquals(field, OPERATORS[i], s);
    assert "=" + (" \"" + s) == "= \"" + s;
  }

  lemma UnclosedOps(field: string, op: Op, s: string)
    requires QuoteFree(s)
    ensures MatchOps(field, OPERATORS, OpText(op) + (" \"" + s)) == None
  {
    var text := OpText(op) + (" \"" + s);
    forall i | 0 <= i < |OPERATORS| && HasPrefix(text, OPERATORS[i])
      ensures MatchRhs(field, OPERATORS[i], text[|OPERATORS[i]|..]).None?
    {
      UnclosedAt(field, op, s, i);
    }
    NoOperatorMatches(field, OPERATORS, text);
  }

  lemma UnclosedClause(field: string, op: Op, s: string)
    requires GoodField(field)
    requires QuoteFree(s)
    ensures MatchClause("device." + field + " " + OpText(op) + " \"" + s) == None
  {
    var body := OpText(op) + (" \"" + s);
    assert "device." + field + " " + OpText(op) + " \"" + s == "device." + field + " " + body;
    assert body[0] == OpText(op)[0];
    ClauseHead(field, body);
    UnclosedOps(field, op, s);
  }

  /** The position of the first "&&". */
  lemma {:induction false} FirstAmp(s: string) returns (i: nat)
    requires !NoAmp(s)
    ensures i + 1 < |s| && s[i] == '&' && s[i + 1] == '&'
    ensures NoAmp(s[..i]) && (i > 0 ==> s[i - 1] != '&')
  {
    if s[0] == '&' && s[1] == '&' {
      i := 0;
    } else {
      var j :| 0 <= j < |s| - 1 && s[j] == '&' && s[j + 1] == '&';
      assert s[1..][j - 1] == '&' && s[1..][j] == '&';
      var k := FirstAmp(s[1..]);
      i := k + 1;
      forall m | 0 <= m < i - 1 ensures !(s[..i][m] == '&' && s[..i][m + 1] == '&') {
        if m > 0 {
          assert s[1..][..k][m - 1] == s[..i][m] && s[1..][..k][m] == s[..i][m + 1];
        }
      }
      assert k > 0 ==> s[i - 1] == s[1..][k - 1];
    }
  }

  /** A literal with "&&" in it is cut there: the first part is an unclosed literal. */
  lemma FirstPartUnclosed(c: Clause)
    requires GoodField(c.field) && c.lit.Text? && QuoteFree(c.lit.s) && !NoAmp(c.lit.s)
    ensures MatchClause(TrimSpace(SplitAmp(ClauseText(c))[0])) == None
  {
    var t, s := ClauseText(c), c.lit.s;
    var i := FirstAmp(s);
    var head := "device." + c.field + " " + OpText(c.op) + " \"";
    var p := head + s[..i];
    var rest := s[i + 2..] + "\"";
    assert t == p + "&&" + rest;
    HeadNoAmp(head, s[..i]);
    SplitAtAmp(p, rest);
    var s' := HeadStays(head, s[..i]);
    UnclosedClause(c.field, c.op, s');
  }

  /** Trimming a clause that starts an unclosed literal takes blanks from the literal only. */
  lemma HeadStays(head: string, s: string) returns (s': string)
    requires head != "" && head[0] == 'd' && head[|head| - 1] == '"'
    ensures s' <= s && TrimSpace(head + s) == head + s'
  {
    var p := head + s;
    assert p[0] == 'd' && p[|head| - 1] == '"';
    TrimRightPrefix(p);
    assert TrimLeft(p) == p;
    var n := |TrimSpace(p)|;
    s' := s[..n - |head|];
    assert p[..n] == head + s';
  }

  lemma HeadNoAmp(head: string, s: string)
    requires NoAmp(s) && forall i :: 0 <= i < |head| ==> head[i] != '&'
    ensures NoAmp(head + s)
  {
    var p := head + s;
    forall k | 0 <= k < |p| - 1 ensures !(p[k] == '&' && p[k + 1] == '&') {
      if k < |head| {
        assert p[k] == head[k];
      } else {
        assert p[k] == s[k - |head|] && p[k + 1] == s[k + 1 - |head|];
      }
    }
  }

  lemma TextClauseTrimmed(c: Clause)
    requires c.lit.Text?
    ensures TrimSpace(Print([c])) == ClauseText(c)
    ensures Print([c]) != "" && Print([c]) != "true" && Print([c]) != "false"
    ensures ClauseText(c) != "" && ClauseText(c) != "true" && ClauseText(c) != "false"
  {
    var t := ClauseText(c);
    assert Print([c]) == t;
    assert t[0] == 'd' && t[|t| - 1] == '"';
    TrimSpaceBlank("", t, "");
    assert "" + t + "" == t;
  }

  lemma AmpersandLiteralFails(c: Clause, env: Env)
    requires GoodField(c.field) && c.lit.Text? && QuoteFree(c.lit.s) && !NoAmp(c.lit.s)
    ensures Truth(Print([c]), env).Err?
  {
    TextClauseTrimmed(c);
    FirstPartUnclosed(c);
  }

  lemma EmptyLiteralFails(c: Clause, env: Env)
    requires GoodField(c.field) && c.lit == Literal.Text("")
    requires c.field in env && env[c.field].Str?
    ensures Truth(Print([c]), env).Err?
  {
    TextClauseTrimmed(c);
    PrintedParts([c]);
    ClauseParsesBack(c);
  }

  /** Against a string-valued field, a quote-free literal evaluates exactly when it is non-empty and free of "&&". */
  lemma LiteralEvaluatesIff(c: Clause, env: Env)
    requires GoodField(c.field)
    requires c.lit.Text? && QuoteFree(c.lit.s)
    requires c.field in env && env[c.field].Str?
    ensures Truth(Print([c]), env).Ok? <==> c.lit.s != "" && NoAmp(c.lit.s)
  {
    if c.lit.s == "" {
      EmptyLiteralFails(c, env);
    } else if NoAmp(c.lit.s) {
      EvalPrinted([c], env);
    } else {
      AmpersandLiteralFails(c, env);
    }
  }
}
