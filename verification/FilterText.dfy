/** The filter language: parsing a restricted WHERE clause and rendering it as SQL text.
    Text is ASCII: letters, digits, white space and case mapping are the ASCII ones. */
module FilterText {
  import opened Text
  import opened Rows
  import opened Filters

  predicate IsSpace(c: char) {
    c in [' ', '\t', '\n', '\r', '\U{000B}', '\U{000C}']
  }

  function TrimLeft(s: string): string {
    if |s| > 0 && IsSpace(s[0]) then TrimLeft(s[1..]) else s
  }

  function TrimRight(s: string): string {
    if |s| > 0 && IsSpace(s[|s| - 1]) then TrimRight(s[..|s| - 1]) else s
  }

  function TrimSpace(s: string): string { TrimRight(TrimLeft(s)) }

  function Upper(c: char): char {
    if 'a' <= c <= 'z' then (c as int - 32) as char else c
  }

  function ToUpper(s: string): string {
    seq(|s|, i requires 0 <= i < |s| => Upper(s[i]))
  }

  predicate HasSuffix(s: string, suffix: string) {
    |s| >= |suffix| && s[|s| - |suffix|..] == suffix
  }

  predicate OccursAt(s: string, sub: string, i: int) {
    0 <= i <= i + |sub| <= |s| && s[i..i + |sub|] == sub
  }

  lemma SliceOfTail(s: string, a: nat, b: nat)
    requires 1 <= a <= b <= |s|
    ensures s[1..][a - 1..b - 1] == s[a..b]
  {
  }

  /** strings.Index: the first occurrence, or -1. */
  function Index(s: string, sub: string): (r: int)
    requires |sub| > 0
    ensures r >= 0 ==> OccursAt(s, sub, r) && forall j :: 0 <= j < r ==> !OccursAt(s, sub, j)
    ensures r < 0 ==> forall j :: !OccursAt(s, sub, j)
  {
    if |s| < |sub| then -1
    else if s[..|sub|] == sub then 0
    else
      var r := Index(s[1..], sub);
      assert forall j :: j > 0 ==> (OccursAt(s, sub, j) <==> OccursAt(s[1..], sub, j - 1)) by {
        forall j | j > 0 ensures OccursAt(s, sub, j) <==> OccursAt(s[1..], sub, j - 1) {
          if j + |sub| <= |s| {
            SliceOfTail(s, j, j + |sub|);
          }
        }
      }
      if r < 0 then -1 else r + 1
  }

  predicate IsLetter(c: char) { 'a' <= c <= 'z' || 'A' <= c <= 'Z' }

  predicate IdentChar(c: char, first: bool) {
    IsLetter(c) || c == '_' || (!first && '0' <= c <= '9')
  }

  predicate ValidIdent(name: string) {
    |name| > 0 && forall i :: 0 <= i < |name| ==> IdentChar(name[i], i == 0)
  }

  const AND := " AND "

  /** The clause cut at every " AND ", in any letter case. */
  function SplitAnd(clause: string): (parts: seq<string>)
    ensures |parts| > 0
    decreases |clause|
  {
    var i := Index(ToUpper(clause), AND);
    if i < 0 then [clause] else [clause[..i]] + SplitAnd(clause[i + 5..])
  }

  lemma SplitAndFrom(clause: string, start: nat, i: int)
    requires start <= |clause| && i == Index(ToUpper(clause)[start..], AND)
    ensures i < 0 ==> SplitAnd(clause[start..]) == [clause[start..]]
    ensures i >= 0 ==>
              && start + i + 5 <= |clause|
              && SplitAnd(clause[start..]) == [clause[start..start + i]] + SplitAnd(clause[start + i + 5..])
  {
    var rest := clause[start..];
    assert ToUpper(clause)[start..] == ToUpper(rest);
    if i >= 0 {
      assert OccursAt(ToUpper(rest), AND, i);
      assert rest[i + 5..] == clause[start + i + 5..];
      assert rest[..i] == clause[start..start + i];
      assert SplitAnd(rest) == [rest[..i]] + SplitAnd(rest[i + 5..]);
    }
  }

  method ComputeSplitAnd(clause: string) returns (parts: seq<string>)
    ensures parts == SplitAnd(clause)
  {
    var upper := ToUpper(clause);
    parts := [];
    var start := 0;
    assert clause[0..] == clause;
    while true
      invariant 0 <= start <= |clause|
      invariant SplitAnd(clause) == parts + SplitAnd(clause[start..])
      decreases |clause| - start
    {
      var i := Index(upper[start..], AND);
      SplitAndFrom(clause, start, i);
      if i < 0 {
        return parts + [clause[start..]];
      }
      ConcatAssoc(parts, [clause[start..start + i]], SplitAnd(clause[start + i + 5..]));
      parts := parts + [clause[start..start + i]];
      start := start + i + 5;
    }
  }

  /** The column left of the first separator, when the right side is a lone placeholder. */
  function CutAt(part: string, i: int, width: nat, op: Op): Result<(string, Op)>
    requires 0 <= i <= i + width <= |part|
  {
    var col := TrimSpace(part[..i]);
    if TrimSpace(part[i + width..]) == "?" && ValidIdent(col) then Ok((col, op)) else Err(BadWhere)
  }

  function ParseComparison(part: string): Result<(string, Op)> {
    var ne := Index(part, "!=");
    var ltgt := Index(part, "<>");
    var eq := Index(part, "=");
    if ne >= 0 then CutAt(part, ne, 2, Ne)
    else if ltgt >= 0 then CutAt(part, ltgt, 2, Ne)
    else if eq >= 0 then CutAt(part, eq, 1, Eq)
    else Err(BadWhere)
  }

  function NullTestOf(part: string, suffix: nat, op: Op): Result<(string, Op)>
    requires suffix <= |part|
  {
    var col := TrimSpace(part[..|part| - suffix]);
    if ValidIdent(col) then Ok((col, op)) else Err(BadWhere)
  }

  /** One AND-free fragment, already trimmed. */
  function ParseFragment(part: string): Result<(string, Op)> {
    if HasSuffix(ToUpper(part), " IS NOT NULL") then NullTestOf(part, 12, IsNotNull)
    else if HasSuffix(ToUpper(part), " IS NULL") then NullTestOf(part, 8, IsNull)
    else ParseComparison(part)
  }

  function Prepend(ps: seq<Pred>, r: Result<seq<Pred>>): Result<seq<Pred>> {
    match r case Ok(qs) => Ok(ps + qs) case Err(e) => r
  }

  lemma PrependNothing(r: Result<seq<Pred>>)
    ensures Prepend([], r) == r
  {
    if r.Ok? {
      assert [] + r.value == r.value;
    }
  }

  lemma PrependTwice(ps: seq<Pred>, qs: seq<Pred>, r: Result<seq<Pred>>)
    ensures Prepend(ps, Prepend(qs, r)) == Prepend(ps + qs, r)
  {
    if r.Ok? {
      ConcatAssoc(ps, qs, r.value);
    }
  }

  /** Fragments paired with arguments, left to right; every argument is used. */
  function ParseParts(parts: seq<string>, args: seq<Value>): Result<seq<Pred>> {
    if |parts| == 0 then (if |args| == 0 then Ok([]) else Err(BadWhere))
    else match ParseFragment(TrimSpace(parts[0]))
      case Err(e) => Err(e)
      case Ok((col, op)) =>
        if op.Eq? || op.Ne? then
          if |args| == 0 then Err(BadWhere)
          else Prepend([Pred(col, op, args[0])], ParseParts(parts[1..], args[1..]))
        else Prepend([Pred(col, op, Null)], ParseParts(parts[1..], args))
  }

  function ParseWhere(clause: string, args: seq<Value>): Result<Filter> {
    var c := TrimSpace(clause);
    if c == "" then Err(BadWhere) else ParseParts(SplitAnd(c), args)
  }

  method ComputeParseWhere(clause: string, args: seq<Value>) returns (r: Result<Filter>)
    ensures r == ParseWhere(clause, args)
  {
    var c := TrimSpace(clause);
    if c == "" {
      return Err(BadWhere);
    }
    var parts := ComputeSplitAnd(c);
    var argIdx := 0;
    var preds: Filter := [];
    assert parts[0..] == parts && args[0..] == args;
    PrependNothing(ParseParts(parts, args));
    for k := 0 to |parts|
      invariant 0 <= argIdx <= |args|
      invariant ParseParts(parts, args) == Prepend(preds, ParseParts(parts[k..], args[argIdx..]))
    {
      ghost var rest := parts[k..];
      assert rest[0] == parts[k] && rest[1..] == parts[k + 1..];
      match ParseFragment(TrimSpace(parts[k]))
      case Err(e) => return Err(e);
      case Ok((col, op)) =>
        if op.Eq? || op.Ne? {
          if argIdx >= |args| {
            return Err(BadWhere);
          }
          assert args[argIdx..][1..] == args[argIdx + 1..];
          PrependTwice(preds, [Pred(col, op, args[argIdx])], ParseParts(parts[k + 1..], args[argIdx + 1..]));
          preds, argIdx := preds + [Pred(col, op, args[argIdx])], argIdx + 1;
        } else {
          PrependTwice(preds, [Pred(col, op, Null)], ParseParts(parts[k + 1..], args[argIdx..]));
          preds := preds + [Pred(col, op, Null)];
        }
    }
    assert parts[|parts|..] == [];
    if argIdx != |args| {
      return Err(BadWhere);
    }
    assert preds + [] == preds;
    return Ok(preds);
  }

  // ---- rendering

  function Doubled(s: string): string {
    if |s| == 0 then "" else (if s[0] == '"' then "\"\"" else [s[0]]) + Doubled(s[1..])
  }

  function QuoteIdent(s: string): string { "\"" + Doubled(s) + "\"" }

  /** Reads a text in which every double quote is doubled. */
  function Undoubled(s: string): string
    decreases |s|
  {
    if |s| == 0 then ""
    else if s[0] == '"' && |s| > 1 then [s[0]] + Undoubled(s[2..])
    else [s[0]] + Undoubled(s[1..])
  }

  lemma {:induction false} DoubledReads(s: string)
    ensures Undoubled(Doubled(s)) == s
  {
    if |s| > 0 {
      DoubledReads(s[1..]);
      var d := Doubled(s);
      if s[0] == '"' {
        assert d[2..] == Doubled(s[1..]);
      } else {
        assert d[1..] == Doubled(s[1..]);
      }
    }
  }

  /** A quoted identifier stands between double quotes, and what stands there reads back as the identifier. */
  lemma QuotedReads(s: string)
    ensures var q := QuoteIdent(s);
            |q| >= 2 && q[0] == '"' && q[|q| - 1] == '"' && Undoubled(q[1..|q| - 1]) == s
  {
    DoubledReads(s);
    assert QuoteIdent(s)[1..|QuoteIdent(s)| - 1] == Doubled(s);
  }

  function Show(c: Cond): string {
    match c
    case Compare(col, ne, n) => QuoteIdent(col) + (if ne then " <> $" else " = $") + Digits(n)
    case NullTest(col, isNull) => QuoteIdent(col) + (if isNull then " IS NULL" else " IS NOT NULL")
  }

  function ShowAll(cs: seq<Cond>): seq<string> {
    seq(|cs|, i requires 0 <= i < |cs| => Show(cs[i]))
  }

  function SqlClause(f: Filter): Result<(string, seq<Value>)> {
    if |f| == 0 then Err(EmptyFilter)
    else if exists i :: 0 <= i < |f| && !ValidIdent(f[i].column) then Err(BadWhere)
    else Ok((Join(ShowAll(Conds(f, 1)), AND), Args(f)))
  }

  /** Exactly when a filter cannot be rendered, and how that is reported. */
  lemma RenderFails(f: Filter)
    ensures SqlClause(f) == Err(EmptyFilter) <==> f == []
    ensures SqlClause(f) == Err(BadWhere) <==> exists i :: 0 <= i < |f| && !ValidIdent(f[i].column)
    ensures SqlClause(f).Err? ==> SqlClause(f) == Err(EmptyFilter) || SqlClause(f) == Err(BadWhere)
  {
  }

  lemma RenderHead(f: Filter, n: nat)
    requires |f| > 0
    ensures ShowAll(Conds(f, n)) ==
            [Show(CondOf(f[0], n))] + ShowAll(Conds(f[1..], if f[0].Comparison() then n + 1 else n))
  {
    assert Conds(f, n)[1..] == Conds(f[1..], if f[0].Comparison() then n + 1 else n);
  }

  lemma RenderStep(f: Filter, k: nat, n: nat)
    requires k < |f|
    ensures ShowAll(Conds(f[k..], n)) ==
            [Show(CondOf(f[k], n))] + ShowAll(Conds(f[k + 1..], if f[k].Comparison() then n + 1 else n))
    ensures Args(f[k..]) == (if f[k].Comparison() then [f[k].value] else []) + Args(f[k + 1..])
  {
    assert f[k..][0] == f[k] && f[k..][1..] == f[k + 1..];
    RenderHead(f[k..], n);
  }

  /** The text of one condition, written out per operator. */
  lemma ShowsPred(p: Pred, n: nat)
    ensures Show(CondOf(p, n)) ==
            match p.op
            case Eq => QuoteIdent(p.column) + " = $" + Digits(n)
            case Ne => QuoteIdent(p.column) + " <> $" + Digits(n)
            case IsNull => QuoteIdent(p.column) + " IS NULL"
            case IsNotNull => QuoteIdent(p.column) + " IS NOT NULL"
  {
  }

  /** The text of one predicate and whether it takes the argument numbered `argN`. */
  method RenderPred(p: Pred, argN: nat) returns (part: string, takes: bool)
    ensures part == Show(CondOf(p, argN)) && takes == p.Comparison()
  {
    var col := QuoteIdent(p.column);
    ShowsPred(p, argN);
    match p.op {
      case Eq => return col + " = $" + Digits(argN), true;
      case Ne => return col + " <> $" + Digits(argN), true;
      case IsNull => return col + " IS NULL", false;
      case IsNotNull => return col + " IS NOT NULL", false;
    }
  }

  /** What is left to render after the first k predicates. */
  ghost predicate Rendered(f: Filter, k: nat, parts: seq<string>, args: seq<Value>, argN: nat)
    requires k <= |f|
  {
    && ShowAll(Conds(f, 1)) == parts + ShowAll(Conds(f[k..], argN))
    && Args(f) == args + Args(f[k..])
  }

  lemma RenderedNext(f: Filter, k: nat, parts: seq<string>, args: seq<Value>, argN: nat)
    requires k < |f| && Rendered(f, k, parts, args, argN)
    ensures Rendered(f, k + 1, parts + [Show(CondOf(f[k], argN))],
                     if f[k].Comparison() then args + [f[k].value] else args,
                     if f[k].Comparison() then argN + 1 else argN)
  {
    var p := f[k];
    RenderStep(f, k, argN);
    var rest := ShowAll(Conds(f[k + 1..], if p.Comparison() then argN + 1 else argN));
    ConcatAssoc(parts, [Show(CondOf(p, argN))], rest);
    ConcatAssoc(args, if p.Comparison() then [p.value] else [], Args(f[k + 1..]));
    assert args + [] == args;
  }

  lemma RenderedAll(f: Filter, parts: seq<string>, args: seq<Value>, argN: nat)
    requires Rendered(f, |f|, parts, args, argN)
    ensures parts == ShowAll(Conds(f, 1)) && args == Args(f)
  {
    assert f[|f|..] == [];
    assert ShowAll(Conds([], argN)) == [] && parts + [] == parts && args + [] == args;
  }

  method ComputeSqlClause(f: Filter) returns (r: Result<(string, seq<Value>)>)
    ensures r == SqlClause(f)
  {
    if |f| == 0 {
      return Err(EmptyFilter);
    }
    var parts: seq<string>, args: seq<Value>, argN: nat := [], [], 1;
    assert f[0..] == f;
    for k := 0 to |f|
      invariant forall i :: 0 <= i < k ==> ValidIdent(f[i].column)
      invariant Rendered(f, k, parts, args, argN)
    {
      if !ValidIdent(f[k].column) {
        return Err(BadWhere);
      }
      RenderedNext(f, k, parts, args, argN);
      var part, takes := RenderPred(f[k], argN);
      parts := parts + [part];
      if takes {
        args, argN := args + [f[k].value], argN + 1;
      }
    }
    RenderedAll(f, parts, args, argN);
    return Ok((Join(parts, AND), args));
  }

  // ---- accepted clauses render

  lemma FragmentNamesColumn(part: string)
    ensures ParseFragment(part).Ok? ==> ValidIdent(ParseFragment(part).value.0)
  {
  }

  /** One more predicate in front takes one more argument, or none. */
  lemma ArgsOfCons(p: Pred, f: Filter)
    ensures Args([p] + f) == (if p.Comparison() then [p.value] else []) + Args(f)
  {
    assert ([p] + f)[1..] == f;
  }

  /** What the first part contributes. */
  lemma FirstPart(parts: seq<string>, args: seq<Value>) returns (p: Pred, rest: seq<Value>)
    requires |parts| > 0 && ParseParts(parts, args).Ok?
    ensures ParseFragment(TrimSpace(parts[0])) == Ok((p.column, p.op)) && ValidIdent(p.column)
    ensures if p.Comparison() then args == [p.value] + rest else p.value.Null? && args == rest
    ensures ParseParts(parts[1..], rest).Ok?
    ensures ParseParts(parts, args).value == [p] + ParseParts(parts[1..], rest).value
  {
    var (col, op) := ParseFragment(TrimSpace(parts[0])).value;
    FragmentNamesColumn(TrimSpace(parts[0]));
    if op.Eq? || op.Ne? {
      p, rest := Pred(col, op, args[0]), args[1..];
    } else {
      p, rest := Pred(col, op, Null), args;
    }
  }

  lemma {:induction false} ParsePartsShape(parts: seq<string>, args: seq<Value>)
    requires ParseParts(parts, args).Ok?
    ensures var f := ParseParts(parts, args).value;
            |f| == |parts| && Args(f) == args && forall i :: 0 <= i < |f| ==> ValidIdent(f[i].column)
    decreases |parts|
  {
    if |parts| > 0 {
      var p, rest := FirstPart(parts, args);
      ParsePartsShape(parts[1..], rest);
      ArgsOfCons(p, ParseParts(parts[1..], rest).value);
    }
  }

  function ArgNumbers(cs: seq<Cond>): seq<nat> {
    if |cs| == 0 then [] else (if cs[0].Compare? then [cs[0].arg] else []) + ArgNumbers(cs[1..])
  }

  lemma {:induction false} PlaceholdersCount(f: Filter, n: nat)
    ensures |ArgNumbers(Conds(f, n))| == |Args(f)|
    ensures forall i :: 0 <= i < |Args(f)| ==> ArgNumbers(Conds(f, n))[i] == n + i
  {
    if |f| > 0 {
      var m := if f[0].Comparison() then n + 1 else n;
      PlaceholdersCount(f[1..], m);
      assert Conds(f, n)[1..] == Conds(f[1..], m);
    }
  }

  /** Every accepted clause renders, with the caller's arguments unchanged and the placeholders
      numbered 1, 2, ..., n in text order. */
  lemma AcceptedClauseRenders(clause: string, args: seq<Value>)
    requires ParseWhere(clause, args).Ok?
    ensures var f := ParseWhere(clause, args).value;
            && |f| > 0
            && SqlClause(f) == Ok((Join(ShowAll(Conds(f, 1)), AND), args))
            && |ArgNumbers(Conds(f, 1))| == |args|
            && forall i :: 0 <= i < |args| ==> ArgNumbers(Conds(f, 1))[i] == i + 1
  {
    ParsePartsShape(SplitAnd(TrimSpace(clause)), args);
    PlaceholdersCount(ParseWhere(clause, args).value, 1);
  }
}
