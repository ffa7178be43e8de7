/** Every text the filter parser accepts: which clauses it reads, and as what. */
module Spellings {
  import opened Text
  import opened Rows
  import opened Filters
  import opened FilterText

  // ---- the language

  predicate Blank(c: char) { c == ' ' || 9 <= c as int <= 13 }

  predicate Blanks(s: string) { forall i :: 0 <= i < |s| ==> Blank(s[i]) }

  predicate WordChar(c: char) { c == '_' || '0' <= c <= '9' || 'A' <= c <= 'Z' || 'a' <= c <= 'z' }

  /** Letters, digits and underscores, not starting with a digit. */
  predicate Name(s: string) {
    |s| > 0 && !('0' <= s[0] <= '9') && forall i :: 0 <= i < |s| ==> WordChar(s[i])
  }

  /** The word, each letter in either case. */
  predicate Spells(t: string, word: string) {
    && |t| == |word|
    && forall i :: 0 <= i < |t| ==>
         t[i] == word[i] || ('A' <= word[i] <= 'Z' && t[i] as int == word[i] as int + 32)
  }

  /** What follows the column: a separator and a placeholder, or the words of a null test. */
  datatype Test = Versus(gap: string, sep: string, space: string) | Nullness(gap: string, words: string)

  datatype Fragment = Fragment(pre: string, col: string, test: Test, post: string)

  predicate ValidTest(t: Test) {
    match t
    case Versus(gap, sep, space) => Blanks(gap) && Blanks(space) && sep in ["=", "!=", "<>"]
    case Nullness(gap, words) => Blanks(gap) && (Spells(words, " IS NULL") || Spells(words, " IS NOT NULL"))
  }

  predicate Valid(fr: Fragment) { Blanks(fr.pre) && Name(fr.col) && ValidTest(fr.test) && Blanks(fr.post) }

  function TestText(t: Test): string {
    match t
    case Versus(gap, sep, space) => gap + sep + (space + "?")
    case Nullness(gap, words) => gap + words
  }

  /** The fragment without the white space around it. */
  function Core(fr: Fragment): string { fr.col + TestText(fr.test) }

  function FragmentText(fr: Fragment): string { fr.pre + Core(fr) + fr.post }

  function TestOp(t: Test): Op {
    match t
    case Versus(_, sep, _) => if sep == "=" then Eq else Ne
    case Nullness(_, words) => if Spells(words, " IS NULL") then IsNull else IsNotNull
  }

  /** A column called AND between two spaces reads as a separator. */
  predicate Ambiguous(fr: Fragment) {
    && |fr.pre| > 0 && fr.pre[|fr.pre| - 1] == ' ' && Spells(fr.col, "AND")
    && |TestText(fr.test)| > 0 && TestText(fr.test)[0] == ' '
  }

  function Texts(frs: seq<Fragment>): seq<string> {
    seq(|frs|, i requires 0 <= i < |frs| => FragmentText(frs[i]))
  }

  /** The parts with the separators between them. */
  function Glue(parts: seq<string>, seps: seq<string>): string
    requires |parts| == |seps| + 1
    decreases |seps|
  {
    if |seps| == 0 then parts[0] else parts[0] + (seps[0] + Glue(parts[1..], seps[1..]))
  }

  predicate AllSpell(seps: seq<string>) { forall i :: 0 <= i < |seps| ==> Spells(seps[i], " AND ") }

  /** Null tests carry no value. */
  predicate WellFormed(f: Filter) {
    forall i :: 0 <= i < |f| ==> ValidIdent(f[i].column) && (f[i].Comparison() || f[i].value.Null?)
  }

  /** A clause: fragments and the separators between them, with white space around the whole. */
  datatype Clause = Clause(lead: string, frs: seq<Fragment>, seps: seq<string>, trail: string)

  /** Valid fragments joined by AND in any letter case. White space before the first column and after the last test
      belongs to the clause. */
  predicate ValidClause(c: Clause) {
    && |c.frs| == |c.seps| + 1 && AllValid(c.frs) && AllSpell(c.seps) && Blanks(c.lead) && Blanks(c.trail)
    && c.frs[0].pre == "" && c.frs[|c.seps|].post == ""
  }

  predicate AllValid(frs: seq<Fragment>) { forall i :: 0 <= i < |frs| ==> Valid(frs[i]) && !Ambiguous(frs[i]) }

  function ClauseText(c: Clause): string
    requires ValidClause(c)
  {
    c.lead + Glue(Texts(c.frs), c.seps) + c.trail
  }

  /** The fragments name the columns and operators of the filter, in order. */
  predicate Says(frs: seq<Fragment>, f: Filter) {
    |frs| == |f| && forall i :: 0 <= i < |f| ==> frs[i].col == f[i].column && TestOp(frs[i].test) == f[i].op
  }

  predicate Spelt(text: string, c: Clause, f: Filter) {
    ValidClause(c) && text == ClauseText(c) && Says(c.frs, f)
  }

  // ---- characters

  lemma BlankIsSpace(c: char)
    ensures IsSpace(c) <==> Blank(c)
  {
  }

  lemma NameIsIdent(s: string)
    ensures ValidIdent(s) <==> Name(s)
  {
    if ValidIdent(s) {
      forall i | 0 <= i < |s| ensures WordChar(s[i]) {
        assert IdentChar(s[i], i == 0);
      }
      assert IdentChar(s[0], true);
    }
  }

  lemma SpellsUpper(t: string, word: string)
    requires forall i :: 0 <= i < |word| ==> !('a' <= word[i] <= 'z')
    ensures Spells(t, word) <==> ToUpper(t) == word
  {
    if ToUpper(t) == word {
      forall i | 0 <= i < |t|
        ensures t[i] == word[i] || ('A' <= word[i] <= 'Z' && t[i] as int == word[i] as int + 32)
      {
        assert ToUpper(t)[i] == word[i];
      }
    }
  }

  // ---- trimming

  lemma {:induction false} TrimLeftCuts(s: string) returns (a: string)
    ensures Blanks(a) && s == a + TrimLeft(s)
    ensures |TrimLeft(s)| > 0 ==> !Blank(TrimLeft(s)[0])
    decreases |s|
  {
    a := "";
    if |s| > 0 {
      BlankIsSpace(s[0]);
      if IsSpace(s[0]) {
        var b := TrimLeftCuts(s[1..]);
        a := [s[0]] + b;
      }
    }
  }

  lemma {:induction false} TrimRightCuts(s: string) returns (b: string)
    ensures Blanks(b) && s == TrimRight(s) + b
    ensures |TrimRight(s)| > 0 ==> !Blank(TrimRight(s)[|TrimRight(s)| - 1])
    decreases |s|
  {
    b := "";
    if |s| > 0 {
      BlankIsSpace(s[|s| - 1]);
      if IsSpace(s[|s| - 1]) {
        var c := TrimRightCuts(s[..|s| - 1]);
        b := c + [s[|s| - 1]];
      }
    }
  }

  /** Trimming cuts white space off both ends. */
  lemma TrimCuts(s: string) returns (a: string, b: string)
    ensures Blanks(a) && Blanks(b) && s == a + TrimSpace(s) + b
  {
    a := TrimLeftCuts(s);
    b := TrimRightCuts(TrimLeft(s));
    ConcatAssoc(a, TrimSpace(s), b);
  }

  predicate Tight(s: string) { |s| > 0 && !Blank(s[0]) && !Blank(s[|s| - 1]) }

  lemma {:induction false} TrimLeftStops(a: string, s: string)
    requires Blanks(a) && |s| > 0 && !Blank(s[0])
    ensures TrimLeft(a + s) == s
    decreases |a|
  {
    if |a| == 0 {
      BlankIsSpace(s[0]);
      assert a + s == s;
    } else {
      BlankIsSpace(a[0]);
      TrimLeftStops(a[1..], s);
      assert (a + s)[1..] == a[1..] + s;
    }
  }

  lemma {:induction false} TrimRightStops(s: string, b: string)
    requires Blanks(b) && |s| > 0 && !Blank(s[|s| - 1])
    ensures TrimRight(s + b) == s
    decreases |b|
  {
    if |b| == 0 {
      BlankIsSpace(s[|s| - 1]);
      assert s + b == s;
    } else {
      BlankIsSpace(b[|b| - 1]);
      TrimRightStops(s, b[..|b| - 1]);
      assert (s + b)[..|s + b| - 1] == s + b[..|b| - 1];
    }
  }

  /** Trimming finds the text between the white space. */
  lemma TrimFinds(a: string, s: string, b: string)
    requires Blanks(a) && Tight(s) && Blanks(b)
    ensures TrimSpace(a + s + b) == s
  {
    ConcatAssoc(a, s, b);
    TrimLeftStops(a, s + b);
    TrimRightStops(s, b);
  }

  // ---- one fragment

  lemma NameEnds(s: string)
    requires Name(s)
    ensures Tight(s)
  {
    assert WordChar(s[0]) && WordChar(s[|s| - 1]);
  }

  lemma NullWords(words: string)
    requires Spells(words, " IS NULL") || Spells(words, " IS NOT NULL")
    ensures |words| == (if Spells(words, " IS NULL") then 8 else 12)
    ensures Upper(words[|words| - 1]) == 'L' && words[0] == ' '
  {
  }

  lemma TestEnds(t: Test)
    requires ValidTest(t)
    ensures var s := TestText(t); |s| > 0 && !Blank(s[|s| - 1]) && Upper(s[|s| - 1]) != 'D'
    ensures t.Versus? ==> TestText(t)[|TestText(t)| - 1] == '?'
  {
    if t.Nullness? {
      NullWords(t.words);
      assert TestText(t)[|TestText(t)| - 1] == t.words[|t.words| - 1];
    }
  }

  lemma CoreIsTight(fr: Fragment)
    requires Valid(fr)
    ensures Tight(Core(fr)) && TrimSpace(FragmentText(fr)) == Core(fr)
  {
    NameEnds(fr.col);
    TestEnds(fr.test);
    TrimFinds(fr.pre, Core(fr), fr.post);
  }

  /** Free of the characters separators are made of. */
  predicate Plain(s: string) { forall i :: 0 <= i < |s| ==> s[i] !in ['!', '<', '=', '>'] }

  lemma SeparatorChars(a: string, sep: string, b: string, j: int)
    requires Plain(a) && Plain(b) && 0 <= j < |a + sep + b| && (a + sep + b)[j] in ['!', '<', '=']
    ensures |a| <= j < |a| + |sep| && (a + sep + b)[j] == sep[j - |a|]
  {
  }

  lemma OccurrenceStarts(s: string, sub: string, j: int)
    requires |sub| > 0 && OccursAt(s, sub, j)
    ensures s[j] == sub[0]
  {
    assert s[j..j + |sub|][0] == s[j];
  }

  /** A separator is found where it stands and no separator tried before it is found. */
  lemma SeparatorFound(a: string, sep: string, b: string)
    requires Plain(a) && Plain(b) && sep in ["=", "!=", "<>"]
    ensures var s := a + sep + b;
            && Index(s, sep) == |a|
            && (sep == "<>" ==> Index(s, "!=") < 0)
            && (sep == "=" ==> Index(s, "!=") < 0 && Index(s, "<>") < 0)
  {
    var s := a + sep + b;
    forall t, j | t in ["=", "!=", "<>"] && OccursAt(s, t, j)
      ensures |a| <= j < |a| + |sep| && t[0] == sep[j - |a|]
    {
      OccurrenceStarts(s, t, j);
      SeparatorChars(a, sep, b, j);
    }
    assert s[|a|..|a| + |sep|] == sep;
    assert OccursAt(s, sep, |a|);
  }

  lemma NameThenBlanks(col: string, gap: string)
    requires Name(col) && Blanks(gap)
    ensures Plain(col + gap) && TrimSpace(col + gap) == col
  {
    NameEnds(col);
    TrimFinds("", col, gap);
    assert "" + col == col;
    forall i | 0 <= i < |col + gap| ensures (col + gap)[i] !in ['!', '<', '=', '>'] {
      assert if i < |col| then WordChar((col + gap)[i]) else Blank((col + gap)[i]);
    }
  }

  lemma PlaceholderTrims(space: string)
    requires Blanks(space)
    ensures Plain(space + "?") && TrimSpace(space + "?") == "?"
  {
    TrimFinds(space, "?", "");
    assert space + "?" + "" == space + "?";
    forall i | 0 <= i < |space + "?"| ensures (space + "?")[i] !in ['!', '<', '=', '>'] {
      assert i < |space| ==> Blank((space + "?")[i]);
    }
  }

  lemma CutParses(a: string, sep: string, b: string, col: string, op: Op)
    requires TrimSpace(a) == col && ValidIdent(col) && TrimSpace(b) == "?"
    ensures CutAt(a + sep + b, |a|, |sep|, op) == Ok((col, op))
  {
    var s := a + sep + b;
    assert s[..|a|] == a && s[|a| + |sep|..] == b;
  }

  lemma SeparatorParses(a: string, sep: string, b: string, col: string)
    requires Plain(a) && Plain(b) && sep in ["=", "!=", "<>"]
    requires TrimSpace(a) == col && ValidIdent(col) && TrimSpace(b) == "?"
    ensures ParseComparison(a + sep + b) == Ok((col, if sep == "=" then Eq else Ne))
  {
    SeparatorFound(a, sep, b);
    CutParses(a, sep, b, col, if sep == "=" then Eq else Ne);
  }

  lemma VersusParses(col: string, t: Test)
    requires Name(col) && ValidTest(t) && t.Versus?
    ensures ParseComparison(col + TestText(t)) == Ok((col, TestOp(t)))
  {
    NameThenBlanks(col, t.gap);
    PlaceholderTrims(t.space);
    NameIsIdent(col);
    SeparatorParses(col + t.gap, t.sep, t.space + "?", col);
    ConcatAssoc(col, t.gap + t.sep, t.space + "?");
    ConcatAssoc(col, t.gap, t.sep);
  }

  lemma UpperSuffix(a: string, words: string, suffix: string)
    requires ToUpper(words) == suffix
    ensures HasSuffix(ToUpper(a + words), suffix)
  {
    assert ToUpper(a + words)[|a|..] == ToUpper(words);
  }

  /** " IS NULL" and " IS NOT NULL" are not both suffixes of one text. */
  lemma NullSuffixesDiffer(u: string)
    requires HasSuffix(u, " IS NULL")
    ensures !HasSuffix(u, " IS NOT NULL")
  {
    assert u[|u| - 8..][1] == u[|u| - 7];
    if |u| >= 12 {
      assert u[|u| - 12..][5] == u[|u| - 7];
    }
  }

  lemma NullnessParses(col: string, t: Test)
    requires Name(col) && ValidTest(t) && t.Nullness?
    ensures ParseFragment(col + TestText(t)) == Ok((col, TestOp(t)))
  {
    var a := col + t.gap;
    var s := a + t.words;
    assert col + TestText(t) == s;
    NameThenBlanks(col, t.gap);
    NameIsIdent(col);
    SpellsUpper(t.words, " IS NULL");
    SpellsUpper(t.words, " IS NOT NULL");
    UpperSuffix(a, t.words, ToUpper(t.words));
    if Spells(t.words, " IS NULL") {
      NullSuffixesDiffer(ToUpper(s));
    }
    assert s[..|s| - |t.words|] == a;
  }

  lemma SuffixEnds(s: string, suffix: string)
    requires |suffix| > 0 && HasSuffix(s, suffix)
    ensures s[|s| - 1] == suffix[|suffix| - 1]
  {
    assert s[|s| - |suffix|..][|suffix| - 1] == s[|s| - 1];
  }

  lemma NoNullSuffix(s: string)
    requires |s| > 0 && s[|s| - 1] == '?'
    ensures !HasSuffix(ToUpper(s), " IS NULL") && !HasSuffix(ToUpper(s), " IS NOT NULL")
  {
    forall w | w in [" IS NULL", " IS NOT NULL"] && HasSuffix(ToUpper(s), w) ensures false {
      SuffixEnds(ToUpper(s), w);
    }
  }

  /** Every spelling of a fragment is read as its column and operator. */
  lemma FragmentParses(fr: Fragment)
    requires Valid(fr)
    ensures ParseFragment(TrimSpace(FragmentText(fr))) == Ok((fr.col, TestOp(fr.test)))
  {
    CoreIsTight(fr);
    if fr.test.Versus? {
      TestEnds(fr.test);
      NoNullSuffix(Core(fr));
      VersusParses(fr.col, fr.test);
    } else {
      NullnessParses(fr.col, fr.test);
    }
  }

  lemma RegroupCut(a: string, col: string, b: string, sep: string, c: string, mark: string, d: string)
    ensures (a + col + b) + sep + (c + mark + d) == a + (col + (b + sep + (c + mark))) + d
  {
  }

  /** The whole text before and after a found separator. */
  lemma CutReads(part: string, i: int, sep: string, op: Op) returns (fr: Fragment)
    requires OccursAt(part, sep, i) && sep in ["=", "!=", "<>"] && (op == if sep == "=" then Eq else Ne)
    requires CutAt(part, i, |sep|, op).Ok?
    ensures Valid(fr) && FragmentText(fr) == part && CutAt(part, i, |sep|, op) == Ok((fr.col, TestOp(fr.test)))
  {
    var left, right := part[..i], part[i + |sep|..];
    var a, b := TrimCuts(left);
    var c, d := TrimCuts(right);
    var col := TrimSpace(left);
    NameIsIdent(col);
    fr := Fragment(a, col, Versus(b, sep, c), d);
    ThreePieces(part, i, i + |sep|);
    ConcatAssoc(left, sep, right);
    RegroupCut(a, col, b, sep, c, "?", d);
  }

  lemma RegroupNullTest(a: string, col: string, b: string, words: string)
    ensures (a + col + b) + words == a + (col + (b + words)) + ""
  {
  }

  lemma SuffixSpells(part: string, suffix: string)
    requires suffix in [" IS NULL", " IS NOT NULL"] && HasSuffix(ToUpper(part), suffix)
    ensures Spells(part[|part| - |suffix|..], suffix)
  {
    UpperSlice(part, |part| - |suffix|, |part|);
    assert part[|part| - |suffix|..|part|] == part[|part| - |suffix|..];
    assert ToUpper(part)[|part| - |suffix|..|part|] == suffix;
    SpellsUpper(part[|part| - |suffix|..], suffix);
  }

  lemma NullTestReads(part: string, suffix: string, op: Op) returns (fr: Fragment)
    requires suffix in [" IS NULL", " IS NOT NULL"] && HasSuffix(ToUpper(part), suffix)
    requires op == if suffix == " IS NULL" then IsNull else IsNotNull
    requires NullTestOf(part, |suffix|, op).Ok?
    ensures Valid(fr) && FragmentText(fr) == part
    ensures NullTestOf(part, |suffix|, op) == Ok((fr.col, TestOp(fr.test)))
  {
    var left, words := part[..|part| - |suffix|], part[|part| - |suffix|..];
    var a, b := TrimCuts(left);
    var col := TrimSpace(left);
    NameIsIdent(col);
    SuffixSpells(part, suffix);
    fr := Fragment(a, col, Nullness(b, words), "");
    RegroupNullTest(a, col, b, words);
    assert left + words == part;
  }

  /** Every fragment the parser accepts is such a spelling. */
  lemma TrimmedFragmentReads(part: string) returns (fr: Fragment)
    requires ParseFragment(part).Ok?
    ensures Valid(fr) && FragmentText(fr) == part && ParseFragment(part) == Ok((fr.col, TestOp(fr.test)))
  {
    if HasSuffix(ToUpper(part), " IS NOT NULL") {
      fr := NullTestReads(part, " IS NOT NULL", IsNotNull);
    } else if HasSuffix(ToUpper(part), " IS NULL") {
      fr := NullTestReads(part, " IS NULL", IsNull);
    } else if Index(part, "!=") >= 0 {
      fr := CutReads(part, Index(part, "!="), "!=", Ne);
    } else if Index(part, "<>") >= 0 {
      fr := CutReads(part, Index(part, "<>"), "<>", Ne);
    } else {
      fr := CutReads(part, Index(part, "="), "=", Eq);
    }
  }

  /** White space around a fragment belongs to it. */
  function Padded(a: string, fr: Fragment, b: string): Fragment {
    fr.(pre := a + fr.pre, post := fr.post + b)
  }

  lemma PaddedText(a: string, fr: Fragment, b: string)
    requires Blanks(a) && Blanks(b) && Valid(fr)
    ensures Valid(Padded(a, fr, b)) && FragmentText(Padded(a, fr, b)) == a + FragmentText(fr) + b
  {
    assert a + fr.pre + Core(fr) + (fr.post + b) == a + (fr.pre + Core(fr) + fr.post) + b;
  }

  lemma FragmentReads(part: string) returns (fr: Fragment)
    requires ParseFragment(TrimSpace(part)).Ok?
    ensures Valid(fr) && FragmentText(fr) == part && ParseFragment(TrimSpace(part)) == Ok((fr.col, TestOp(fr.test)))
  {
    var a, b := TrimCuts(part);
    var inner := TrimmedFragmentReads(TrimSpace(part));
    fr := Padded(a, inner, b);
    PaddedText(a, inner, b);
  }

  // ---- splitting

  ghost predicate NoAnd(s: string) { forall j :: !OccursAt(ToUpper(s), AND, j) }

  lemma OccurrenceChars(s: string, sub: string, j: int)
    requires OccursAt(s, sub, j)
    ensures forall k :: 0 <= k < |sub| ==> s[j + k] == sub[k]
  {
    forall k | 0 <= k < |sub| ensures s[j + k] == sub[k] {
      assert s[j..j + |sub|][k] == s[j + k];
    }
  }

  lemma AndChars(s: string, j: int)
    requires OccursAt(ToUpper(s), AND, j)
    ensures 0 <= j && j + 5 <= |s| && s[j] == ' ' && Spells(s[j + 1..j + 4], "AND") && s[j + 4] == ' '
    ensures Upper(s[j + 1]) == 'A' && Upper(s[j + 2]) == 'N' && Upper(s[j + 3]) == 'D'
  {
    var u := ToUpper(s);
    OccurrenceChars(u, AND, j);
    assert u[j + 0] == ' ' && u[j + 1] == 'A' && u[j + 2] == 'N' && u[j + 3] == 'D' && u[j + 4] == ' ';
    assert ToUpper(s[j + 1..j + 4]) == "AND";
    SpellsUpper(s[j + 1..j + 4], "AND");
  }

  /** A separator cannot begin in a part that holds none and does not end in a D. */
  lemma AndStartsOutside(part: string, rest: string, j: int)
    requires Splits(part) && |rest| > 0 && rest[0] == ' '
    requires 0 <= j < |part|
    ensures !OccursAt(ToUpper(part + rest), AND, j)
  {
    var s, n := part + rest, |part|;
    var u := ToUpper(s);
    if j + 5 <= n {
      assert u[j..j + 5] == ToUpper(part)[j..j + 5];
      assert !OccursAt(ToUpper(part), AND, j);
    } else if j + 5 <= |s| {
      assert u[j..j + 5][n - j] == ' ' && u[j..j + 5][n - 1 - j] == Upper(part[n - 1]);
    }
  }

  lemma SplitFirst(part: string, sep: string, rest: string)
    requires Splits(part) && Spells(sep, " AND ")
    ensures SplitAnd(part + (sep + rest)) == [part] + SplitAnd(rest)
  {
    var s, n := part + (sep + rest), |part|;
    var u := ToUpper(s);
    forall j | 0 <= j < n ensures !OccursAt(u, AND, j) {
      AndStartsOutside(part, sep + rest, j);
    }
    SpellsUpper(sep, " AND ");
    assert s[n..n + 5] == sep;
    UpperSlice(s, n, n + 5);
    assert OccursAt(u, AND, n);
    assert s[..n] == part && s[n + 5..] == rest;
    SplitUnfolds(s, n);
  }

  ghost predicate Splits(part: string) { |part| > 0 && NoAnd(part) && Upper(part[|part| - 1]) != 'D' }

  ghost predicate Splittable(parts: seq<string>) { forall i :: 0 <= i < |parts| ==> Splits(parts[i]) }

  lemma SplitLast(part: string)
    requires NoAnd(part)
    ensures SplitAnd(part) == [part]
  {
    assert Index(ToUpper(part), AND) < 0;
  }

  lemma SplitGluedFirst(parts: seq<string>, seps: seq<string>)
    requires |parts| == |seps| + 1 && |seps| > 0 && Splits(parts[0]) && Spells(seps[0], " AND ")
    requires SplitAnd(Glue(parts[1..], seps[1..])) == parts[1..]
    ensures SplitAnd(Glue(parts, seps)) == parts
  {
    SplitFirst(parts[0], seps[0], Glue(parts[1..], seps[1..]));
    assert [parts[0]] + parts[1..] == parts;
  }

  lemma {:induction false} SplitGlued(parts: seq<string>, seps: seq<string>)
    requires |parts| == |seps| + 1 && Splittable(parts) && AllSpell(seps)
    ensures SplitAnd(Glue(parts, seps)) == parts
    decreases |seps|
  {
    assert Splits(parts[0]);
    if |seps| == 0 {
      SplitLast(parts[0]);
    } else {
      assert Splittable(parts[1..]) && AllSpell(seps[1..]);
      SplitGlued(parts[1..], seps[1..]);
      SplitGluedFirst(parts, seps);
    }
  }

  lemma UpperSlice(s: string, i: nat, j: nat)
    requires i <= j <= |s|
    ensures ToUpper(s[i..j]) == ToUpper(s)[i..j]
  {
  }

  lemma FirstPieceHasNone(clause: string, i: int)
    requires i == Index(ToUpper(clause), AND) >= 0
    ensures NoAnd(clause[..i])
  {
    UpperSlice(clause, 0, i);
    var u := ToUpper(clause);
    assert ToUpper(clause[..i]) == u[..i];
    forall j ensures !OccursAt(u[..i], AND, j) {
      if 0 <= j && j + 5 <= i {
        assert u[..i][j..j + 5] == u[j..j + 5];
        assert !OccursAt(u, AND, j);
      }
    }
  }

  lemma GlueCons(part: string, parts: seq<string>, sep: string, seps: seq<string>)
    requires |parts| == |seps| + 1
    ensures Glue([part] + parts, [sep] + seps) == part + (sep + Glue(parts, seps))
  {
    assert ([part] + parts)[1..] == parts && ([sep] + seps)[1..] == seps;
  }

  /** The pieces, glued with the separators that stood between them, are the clause; no piece holds a separator. */
  lemma {:induction false} SplitReads(clause: string) returns (seps: seq<string>)
    ensures |SplitAnd(clause)| == |seps| + 1 && AllSpell(seps) && Glue(SplitAnd(clause), seps) == clause
    ensures AllNoAnd(SplitAnd(clause))
    decreases |clause|
  {
    var i := Index(ToUpper(clause), AND);
    if i < 0 {
      seps := [];
      assert SplitAnd(clause) == [clause];
    } else {
      SplitAtFirst(clause, i);
      SplitUnfolds(clause, i);
      var part, sep, rest := clause[..i], clause[i..i + 5], clause[i + 5..];
      var more := SplitReads(rest);
      seps := [sep] + more;
      GlueCons(part, SplitAnd(rest), sep, more);
    }
  }

  ghost predicate AllNoAnd(parts: seq<string>) { forall i :: 0 <= i < |parts| ==> NoAnd(parts[i]) }

  lemma ThreePieces(s: string, i: nat, j: nat)
    requires i <= j <= |s|
    ensures s == s[..i] + (s[i..j] + s[j..])
  {
  }

  lemma SplitUnfolds(clause: string, i: int)
    requires i == Index(ToUpper(clause), AND) >= 0
    ensures i + 5 <= |clause| && SplitAnd(clause) == [clause[..i]] + SplitAnd(clause[i + 5..])
  {
    assert clause[0..] == clause && ToUpper(clause)[0..] == ToUpper(clause);
    SplitAndFrom(clause, 0, i);
  }

  lemma SplitAtFirst(clause: string, i: int)
    requires i == Index(ToUpper(clause), AND) >= 0
    ensures i + 5 <= |clause| && NoAnd(clause[..i]) && Spells(clause[i..i + 5], " AND ")
    ensures clause == clause[..i] + (clause[i..i + 5] + clause[i + 5..])
  {
    FirstPieceHasNone(clause, i);
    UpperSlice(clause, i, i + 5);
    SpellsUpper(clause[i..i + 5], " AND ");
    ThreePieces(clause, i, i + 5);
  }

  // ---- whole clauses

  lemma TestLetters(t: Test, i: nat)
    requires ValidTest(t) && i < |TestText(t)|
    ensures Upper(TestText(t)[i]) != 'A' && Upper(TestText(t)[i]) != 'D'
  {
    var s := TestText(t);
    if t.Nullness? && i >= |t.gap| {
      assert s[i] == t.words[i - |t.gap|];
    } else if i < |t.gap| {
      assert s[i] == t.gap[i] && Blank(s[i]);
    } else if |t.gap| + |t.sep| <= i < |s| - 1 {
      assert s[i] == t.space[i - |t.gap| - |t.sep|] && Blank(s[i]);
    }
  }

  /** The letters A and D only occur in the column, and spaces do not. */
  lemma LettersInColumn(fr: Fragment)
    requires Valid(fr)
    ensures var s, m := FragmentText(fr), |fr.pre|;
            forall i :: 0 <= i < |s| ==>
              if m <= i < m + |fr.col| then s[i] != ' ' else Upper(s[i]) != 'A' && Upper(s[i]) != 'D'
  {
    var s, m, n := FragmentText(fr), |fr.pre|, |fr.pre| + |Core(fr)|;
    forall i | 0 <= i < |s|
      ensures if m <= i < m + |fr.col| then s[i] != ' ' else Upper(s[i]) != 'A' && Upper(s[i]) != 'D'
    {
      if i < m {
        assert s[i] == fr.pre[i] && Blank(s[i]);
      } else if i >= n {
        assert s[i] == fr.post[i - n] && Blank(s[i]);
      } else if i >= m + |fr.col| {
        assert s[i] == TestText(fr.test)[i - m - |fr.col|];
        TestLetters(fr.test, i - m - |fr.col|);
      } else {
        assert s[i] == fr.col[i - m] && WordChar(s[i]);
      }
    }
  }

  lemma AmbiguousHoldsAnd(fr: Fragment)
    requires Ambiguous(fr)
    ensures OccursAt(ToUpper(FragmentText(fr)), AND, |fr.pre| - 1)
  {
    var s, m := FragmentText(fr), |fr.pre|;
    assert s[m - 1..m + 4] == " " + fr.col + " ";
    SpellsUpper(fr.col, "AND");
    UpperSlice(s, m - 1, m + 4);
    assert ToUpper(" " + fr.col + " ") == " " + ToUpper(fr.col) + " ";
  }

  /** A fragment holds a separator exactly when it is ambiguous. */
  lemma AmbiguousExactly(fr: Fragment)
    requires Valid(fr)
    ensures NoAnd(FragmentText(fr)) <==> !Ambiguous(fr)
  {
    var s, m := FragmentText(fr), |fr.pre|;
    if Ambiguous(fr) {
      AmbiguousHoldsAnd(fr);
    } else {
      forall j ensures !OccursAt(ToUpper(s), AND, j) {
        if OccursAt(ToUpper(s), AND, j) {
          SeparatorIsColumn(fr, j);
        }
      }
    }
  }

  lemma SeparatorIsColumn(fr: Fragment, j: int)
    requires Valid(fr) && OccursAt(ToUpper(FragmentText(fr)), AND, j)
    ensures Ambiguous(fr)
  {
    var s, m := FragmentText(fr), |fr.pre|;
    AndChars(s, j);
    LettersInColumn(fr);
    TestEnds(fr.test);
    assert j + 1 == m && |fr.col| == 3;
    assert s[j + 1..j + 4] == fr.col && s[j + 4] == TestText(fr.test)[0];
  }

  /** The fragments parse, one by one, to the predicates of the filter. */
  predicate FragmentsOf(parts: seq<string>, f: Filter) {
    && |parts| == |f|
    && forall i :: 0 <= i < |f| ==> ParseFragment(TrimSpace(parts[i])) == Ok((f[i].column, f[i].op))
  }

  lemma PartsStep(parts: seq<string>, args: seq<Value>, restArgs: seq<Value>, p: Pred, rest: Filter)
    requires |parts| > 0 && ParseFragment(TrimSpace(parts[0])) == Ok((p.column, p.op))
    requires if p.Comparison() then |args| > 0 && p.value == args[0] else p.value.Null?
    requires restArgs == if p.Comparison() then args[1..] else args
    requires ParseParts(parts[1..], restArgs) == Ok(rest)
    ensures ParseParts(parts, args) == Ok([p] + rest)
  {
  }

  lemma PartsParseFirst(parts: seq<string>, f: Filter)
    requires |f| > 0 && WellFormed(f) && FragmentsOf(parts, f)
    requires ParseParts(parts[1..], Args(f[1..])) == Ok(f[1..])
    ensures ParseParts(parts, Args(f)) == Ok(f)
  {
    var args := Args(f);
    ArgsOfCons(f[0], f[1..]);
    assert [f[0]] + f[1..] == f;
    assert f[0].Comparison() ==> args[1..] == Args(f[1..]);
    PartsStep(parts, args, Args(f[1..]), f[0], f[1..]);
  }

  lemma {:induction false} PartsParse(parts: seq<string>, f: Filter)
    requires WellFormed(f) && FragmentsOf(parts, f)
    ensures ParseParts(parts, Args(f)) == Ok(f)
  {
    if |f| > 0 {
      FragmentsOfRest(parts, f);
      PartsParse(parts[1..], f[1..]);
      PartsParseFirst(parts, f);
    }
  }

  lemma FragmentsOfRest(parts: seq<string>, f: Filter)
    requires |f| > 0 && FragmentsOf(parts, f)
    ensures FragmentsOf(parts[1..], f[1..])
  {
    forall i | 0 <= i < |f| - 1
      ensures ParseFragment(TrimSpace(parts[1..][i])) == Ok((f[1..][i].column, f[1..][i].op))
    {
      assert parts[1..][i] == parts[i + 1] && f[1..][i] == f[i + 1];
    }
  }

  lemma {:induction false} GlueEnds(parts: seq<string>, seps: seq<string>)
    requires |parts| == |seps| + 1 && forall i :: 0 <= i < |parts| ==> |parts[i]| > 0
    ensures var s, z := Glue(parts, seps), parts[|seps|];
            |s| > 0 && s[0] == parts[0][0] && s[|s| - 1] == z[|z| - 1]
    decreases |seps|
  {
    if |seps| > 0 {
      GlueEnds(parts[1..], seps[1..]);
    }
  }

  lemma FragmentSplittable(fr: Fragment)
    requires Valid(fr) && !Ambiguous(fr)
    ensures Splits(FragmentText(fr))
  {
    var s := FragmentText(fr);
    AmbiguousExactly(fr);
    TestEnds(fr.test);
    if |fr.post| > 0 {
      assert s[|s| - 1] == fr.post[|fr.post| - 1] && Blank(s[|s| - 1]);
    } else {
      assert s[|s| - 1] == TestText(fr.test)[|TestText(fr.test)| - 1];
    }
  }

  lemma TextsSplittable(frs: seq<Fragment>)
    requires AllValid(frs)
    ensures Splittable(Texts(frs))
  {
    forall i | 0 <= i < |frs| ensures Splits(Texts(frs)[i]) {
      FragmentSplittable(frs[i]);
    }
  }

  /** Exactly when a fragment begins or ends with white space. */
  lemma FragmentEdges(fr: Fragment)
    requires Valid(fr)
    ensures var s := FragmentText(fr);
            |s| > 0 && (Blank(s[0]) <==> fr.pre != "") && (Blank(s[|s| - 1]) <==> fr.post != "")
  {
    var s, core := FragmentText(fr), Core(fr);
    CoreIsTight(fr);
    assert s[0] == if fr.pre != "" then fr.pre[0] else core[0];
    assert s[|s| - 1] == if fr.post != "" then fr.post[|fr.post| - 1] else core[|core| - 1];
  }

  /** Exactly when the fragments of a clause leave no white space at its ends. */
  lemma EdgesAreTight(frs: seq<Fragment>, seps: seq<string>)
    requires |frs| == |seps| + 1 && AllValid(frs)
    ensures Tight(Glue(Texts(frs), seps)) <==> frs[0].pre == "" && frs[|seps|].post == ""
  {
    TextsSplittable(frs);
    GlueEnds(Texts(frs), seps);
    FragmentEdges(frs[0]);
    FragmentEdges(frs[|seps|]);
  }

  lemma FragmentsParse(frs: seq<Fragment>, f: Filter)
    requires AllValid(frs) && Says(frs, f)
    ensures FragmentsOf(Texts(frs), f)
  {
    forall i | 0 <= i < |f| ensures ParseFragment(TrimSpace(Texts(frs)[i])) == Ok((f[i].column, f[i].op)) {
      FragmentParses(frs[i]);
    }
  }

  /** Every spelling of a filter parses to it. */
  lemma SpellingParses(text: string, c: Clause, f: Filter)
    requires Spelt(text, c, f) && WellFormed(f)
    ensures ParseWhere(text, Args(f)) == Ok(f)
  {
    var body := Glue(Texts(c.frs), c.seps);
    EdgesAreTight(c.frs, c.seps);
    TrimFinds(c.lead, body, c.trail);
    TextsSplittable(c.frs);
    SplitGlued(Texts(c.frs), c.seps);
    FragmentsParse(c.frs, f);
    PartsParse(Texts(c.frs), f);
  }

  lemma PartReads(part: string) returns (fr: Fragment)
    requires ParseFragment(TrimSpace(part)).Ok? && NoAnd(part)
    ensures Valid(fr) && !Ambiguous(fr) && FragmentText(fr) == part
    ensures ParseFragment(TrimSpace(part)) == Ok((fr.col, TestOp(fr.test))) && ValidIdent(fr.col)
  {
    fr := FragmentReads(part);
    AmbiguousExactly(fr);
    NameIsIdent(fr.col);
  }

  lemma {:induction false} PartsRead(parts: seq<string>, args: seq<Value>, f: Filter) returns (frs: seq<Fragment>)
    requires ParseParts(parts, args) == Ok(f) && AllNoAnd(parts)
    ensures Texts(frs) == parts && AllValid(frs) && Says(frs, f) && WellFormed(f)
    decreases |parts|
  {
    if |parts| == 0 {
      frs := [];
    } else {
      var p, rest := FirstPart(parts, args);
      assert f[0] == p && f[1..] == ParseParts(parts[1..], rest).value;
      var fr := PartReads(parts[0]);
      var more := PartsRead(parts[1..], rest, f[1..]);
      frs := [fr] + more;
      TextsCons(fr, more);
      FirstAndRest(fr, more, f);
    }
  }

  lemma FirstAndRest(fr: Fragment, more: seq<Fragment>, f: Filter)
    requires |f| > 0 && AllValid(more) && Says(more, f[1..]) && WellFormed(f[1..])
    requires Valid(fr) && !Ambiguous(fr) && ValidIdent(fr.col) && fr.col == f[0].column && TestOp(fr.test) == f[0].op
    requires f[0].Comparison() || f[0].value.Null?
    ensures AllValid([fr] + more) && Says([fr] + more, f) && WellFormed(f)
  {
    forall i | 0 < i < |f|
      ensures f[i] == f[1..][i - 1] && ([fr] + more)[i] == more[i - 1]
    {
    }
  }

  lemma TextsCons(fr: Fragment, frs: seq<Fragment>)
    ensures Texts([fr] + frs) == [FragmentText(fr)] + Texts(frs)
  {
  }

  lemma TrimIsTight(s: string)
    ensures |TrimSpace(s)| > 0 ==> Tight(TrimSpace(s))
  {
    var a := TrimLeftCuts(s);
    var b := TrimRightCuts(TrimLeft(s));
  }

  /** Every accepted text is such a spelling of its filter. */
  lemma AcceptedIsSpelt(text: string, args: seq<Value>, f: Filter) returns (c: Clause)
    requires ParseWhere(text, args) == Ok(f)
    ensures Spelt(text, c, f) && WellFormed(f) && args == Args(f)
  {
    var body := TrimSpace(text);
    var a, b := TrimCuts(text);
    var seps := SplitReads(body);
    var frs := PartsRead(SplitAnd(body), args, f);
    ParsePartsShape(SplitAnd(body), args);
    TrimIsTight(text);
    EdgesAreTight(frs, seps);
    c := Clause(a, frs, seps, b);
  }

  /** Exactly which texts the parser accepts, and what it makes of them. */
  lemma AcceptedExactly(text: string, args: seq<Value>, f: Filter)
    ensures ParseWhere(text, args) == Ok(f) <==>
              WellFormed(f) && args == Args(f) && exists c :: Spelt(text, c, f)
  {
    if ParseWhere(text, args) == Ok(f) {
      var c := AcceptedIsSpelt(text, args, f);
    }
    if args == Args(f) && WellFormed(f) && exists c :: Spelt(text, c, f) {
      var c :| Spelt(text, c, f);
      SpellingParses(text, c, f);
    }
  }

  // ---- canonical text

  /** The canonical spelling of a predicate. */
  function CanonFragment(p: Pred): Fragment {
    Fragment("", p.column,
             match p.op
             case Eq => Versus(" ", "=", " ")
             case Ne => Versus(" ", "!=", " ")
             case IsNull => Nullness("", " IS NULL")
             case IsNotNull => Nullness("", " IS NOT NULL"), "")
  }

  function Canon(p: Pred): string {
    p.column + match p.op
               case Eq => " = ?"
               case Ne => " != ?"
               case IsNull => " IS NULL"
               case IsNotNull => " IS NOT NULL"
  }

  function CanonAll(f: Filter): seq<string> {
    seq(|f|, i requires 0 <= i < |f| => Canon(f[i]))
  }

  lemma CanonText(p: Pred)
    ensures FragmentText(CanonFragment(p)) == Canon(p)
  {
    var fr := CanonFragment(p);
    assert "" + Core(fr) + "" == Core(fr);
    match p.op {
      case Eq => assert " " + "=" + (" " + "?") == " = ?";
      case Ne => assert " " + "!=" + (" " + "?") == " != ?";
      case IsNull => assert "" + " IS NULL" == " IS NULL";
      case IsNotNull => assert "" + " IS NOT NULL" == " IS NOT NULL";
    }
  }

  lemma CanonValid(p: Pred)
    requires ValidIdent(p.column)
    ensures var fr := CanonFragment(p); Valid(fr) && TestOp(fr.test) == p.op && !Ambiguous(fr)
  {
    NameIsIdent(p.column);
  }

  lemma {:induction false} JoinIsGlue(parts: seq<string>, seps: seq<string>)
    requires |parts| == |seps| + 1 && forall i :: 0 <= i < |seps| ==> seps[i] == AND
    ensures Glue(parts, seps) == Join(parts, AND)
    decreases |seps|
  {
    if |seps| > 0 {
      JoinIsGlue(parts[1..], seps[1..]);
      ConcatAssoc(parts[0], AND, Join(parts[1..], AND));
    }
  }

  /** The canonical clause of a filter. */
  function CanonClause(f: Filter): Clause
    requires |f| > 0
  {
    Clause("", seq(|f|, i requires 0 <= i < |f| => CanonFragment(f[i])), seq(|f| - 1, _ => AND), "")
  }

  lemma CanonTexts(f: Filter)
    requires |f| > 0
    ensures Texts(CanonClause(f).frs) == CanonAll(f)
  {
    forall i | 0 <= i < |f| ensures Texts(CanonClause(f).frs)[i] == CanonAll(f)[i] {
      CanonText(f[i]);
    }
  }

  lemma CanonIsValid(f: Filter)
    requires |f| > 0 && WellFormed(f)
    ensures ValidClause(CanonClause(f)) && Says(CanonClause(f).frs, f)
  {
    var c := CanonClause(f);
    forall i | 0 <= i < |f|
      ensures Valid(c.frs[i]) && TestOp(c.frs[i].test) == f[i].op && !Ambiguous(c.frs[i])
    {
      CanonValid(f[i]);
    }
  }

  lemma CanonIsSpelt(f: Filter)
    requires |f| > 0 && WellFormed(f)
    ensures Spelt(Join(CanonAll(f), AND), CanonClause(f), f)
  {
    CanonIsValid(f);
    CanonTexts(f);
    JoinIsGlue(CanonAll(f), CanonClause(f).seps);
    var text := Join(CanonAll(f), AND);
    assert "" + text + "" == text;
  }

  /** Every filter is the parse of its canonical text, even when columns are called AND, IS or NOT. */
  lemma ParseRoundTrip(f: Filter)
    requires |f| > 0 && WellFormed(f)
    ensures ParseWhere(Join(CanonAll(f), AND), Args(f)) == Ok(f)
  {
    CanonIsSpelt(f);
    SpellingParses(Join(CanonAll(f), AND), CanonClause(f), f);
  }
}
