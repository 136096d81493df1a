/** The OTRS ticket page: the client code, line number and tariff scanners
    over the ticket text, the record sent to the side panel, and the queue
    move. The three regular expressions are written out as scanners that
    try each start position in turn, as a global `exec` loop does. */
module OtrsContent {
  import opened Text
  import opened Lists

  // ---------------------------------------------------------------------
  // Case-insensitive literals and `\s*`
  // ---------------------------------------------------------------------

  /** The literal w matches at k under the `i` flag. */
  predicate FoldAt(s: string, k: nat, w: string) {
    k + |w| <= |s| && forall i :: 0 <= i < |w| ==> SameFold(s[k + i], w[i])
  }

  /** Where a greedy `\s*` starting at j stops. */
  function SkipSpaces(s: string, j: nat): (e: nat)
    requires j <= |s|
    ensures j <= e <= |s|
    ensures forall i :: j <= i < e ==> IsSpace(s[i])
    ensures e < |s| ==> !IsSpace(s[e])
    decreases |s| - j
  {
    if j < |s| && IsSpace(s[j]) then SkipSpaces(s, j + 1) else j
  }

  // ---------------------------------------------------------------------
  // CLIENT_CODE_RE = ([A-Z]{3}\d{5})(?:_(\d+)(?:\((\d+)\))?)?
  // ---------------------------------------------------------------------

  /** One element of `parseClientCodeFull`'s result. */
  datatype CodeMatch = CodeMatch(full: string, clientCode: string, suffix: string, extra: string)

  /** Three capital Latin letters and five digits start at k. */
  predicate IsCodeAt(s: string, k: nat) {
    k + 8 <= |s| && IsUpperLatin(s[k]) && IsUpperLatin(s[k + 1]) && IsUpperLatin(s[k + 2])
    && AllDigits(s[k + 3..k + 8])
  }

  /** A client code: `[A-Z]{3}\d{5}`. */
  predicate IsClientCode(c: string) {
    |c| == 8 && IsUpperLatin(c[0]) && IsUpperLatin(c[1]) && IsUpperLatin(c[2]) && AllDigits(c[3..])
  }

  /** The matched text rebuilt from its groups. */
  function Assemble(code: string, suffix: string, extra: string): string {
    if suffix == "" then code
    else if extra == "" then code + "_" + suffix
    else code + "_" + suffix + ("(" + extra + ")")
  }

  /** What every match satisfies: a client code, digit-only groups, the
      extra only after a suffix, and the whole match made of the groups. */
  predicate WellFormed(m: CodeMatch) {
    IsClientCode(m.clientCode) && AllDigits(m.suffix) && AllDigits(m.extra)
    && (m.extra != "" ==> m.suffix != "")
    && m.full == Assemble(m.clientCode, m.suffix, m.extra)
  }

  /** The `(\d+)` group after a suffix ending at j: the digits between
      parentheses, or '' when the optional group does not match. */
  function ExtraAt(s: string, j: nat): (x: string)
    requires j <= |s|
    ensures AllDigits(x)
    ensures x != "" ==> j + |x| + 2 <= |s|
  {
    if j + 1 < |s| && s[j] == '(' then
      var d := DigitPrefix(s[j + 1..]);
      if d != "" && j + 1 + |d| < |s| && s[j + 1 + |d|] == ')' then d else ""
    else ""
  }

  lemma ExtraAtOccurs(s: string, j: nat)
    requires j <= |s| && ExtraAt(s, j) != ""
    ensures OccursAt(s, "(" + ExtraAt(s, j) + ")", j)
  {
    var d := ExtraAt(s, j);
    assert s[j + 1..][..|d|] == s[j + 1..j + 1 + |d|];
    assert s[j..j + |d| + 2] == "(" + d + ")";
  }

  /** The match at k when the code is followed by '_' and a digit: the
      greedy suffix, then the optional parenthesised extra. */
  function SuffixedCodeAt(s: string, k: nat): (m: CodeMatch)
    requires IsCodeAt(s, k) && k + 9 < |s| && s[k + 8] == '_' && IsDigit(s[k + 9])
    ensures 8 < |m.full| <= |s| - k
  {
    var code := s[k..k + 8];
    var suffix := DigitPrefix(s[k + 9..]);
    var extra := ExtraAt(s, k + 9 + |suffix|);
    CodeMatch(Assemble(code, suffix, extra), code, suffix, extra)
  }

  /** The code, the underscore and a digit run after them lie side by side at k. */
  lemma CodeThenSuffix(s: string, k: nat, suffix: string)
    requires k + 9 <= |s| && s[k + 8] == '_'
    requires |suffix| <= |s| - (k + 9) && suffix == s[k + 9..][..|suffix|]
    ensures s[k..k + 9 + |suffix|] == s[k..k + 8] + "_" + suffix
  {
    var j := k + 9 + |suffix|;
    assert s[k + 9..][..|suffix|] == s[k + 9..j];
    assert s[k..j] == s[k..k + 8] + s[k + 8..k + 9] + s[k + 9..j];
  }

  /** A code, '_' and a suffix at k, followed by the parenthesised extra
      when there is one, spell out the assembled match at k. */
  lemma AssembledOccurs(s: string, k: nat, code: string, suffix: string, extra: string)
    requires suffix != "" && k + 9 + |suffix| <= |s|
    requires s[k..k + 9 + |suffix|] == code + "_" + suffix
    requires extra != "" ==> OccursAt(s, "(" + extra + ")", k + 9 + |suffix|)
    ensures OccursAt(s, Assemble(code, suffix, extra), k)
  {
    var j := k + 9 + |suffix|;
    var head := code + "_" + suffix;
    if extra == "" {
      assert Assemble(code, suffix, extra) == head;
    } else {
      var tail := "(" + extra + ")";
      var e := j + |tail|;
      assert s[j..e] == tail;
      assert s[k..e] == s[k..j] + s[j..e];
      assert Assemble(code, suffix, extra) == head + tail;
    }
  }

  /** The match at k after a code, '_' and a digit spells out its text at k. */
  lemma SuffixedCodeOccurs(s: string, k: nat)
    requires IsCodeAt(s, k) && k + 9 < |s| && s[k + 8] == '_' && IsDigit(s[k + 9])
    ensures OccursAt(s, SuffixedCodeAt(s, k).full, k)
  {
    var code := s[k..k + 8];
    var suffix := DigitPrefix(s[k + 9..]);
    var j := k + 9 + |suffix|;
    var extra := ExtraAt(s, j);
    CodeThenSuffix(s, k, suffix);
    if extra != "" {
      ExtraAtOccurs(s, j);
    }
    AssembledOccurs(s, k, code, suffix, extra);
  }

  /** The match at k after a code, '_' and a digit is well formed, occurs at
      k, has a suffix, and its code is the eight characters there. */
  lemma SuffixedCodeAtProperties(s: string, k: nat)
    requires IsCodeAt(s, k) && k + 9 < |s| && s[k + 8] == '_' && IsDigit(s[k + 9])
    ensures var m := SuffixedCodeAt(s, k);
      WellFormed(m) && m.suffix != "" && OccursAt(s, m.full, k) && m.clientCode == s[k..k + 8]
  {
    SuffixedCodeOccurs(s, k);
    assert s[k..k + 8][3..] == s[k + 3..k + 8];
  }

  /** The match of CLIENT_CODE_RE starting exactly at k, if any. The digit
      runs are greedy; the optional groups fall away when they cannot match. */
  function CodeAt(s: string, k: nat): (r: Option<CodeMatch>)
    ensures r.Some? <==> IsCodeAt(s, k)
    ensures r.Some? ==> 8 <= |r.value.full| <= |s| - k
  {
    if !IsCodeAt(s, k) then None
    else if k + 9 < |s| && s[k + 8] == '_' && IsDigit(s[k + 9]) then Some(SuffixedCodeAt(s, k))
    else Some(CodeMatch(s[k..k + 8], s[k..k + 8], "", ""))
  }

  /** A match found at k is well formed, occurs at k, and its code is the
      eight characters there. */
  lemma CodeAtProperties(s: string, k: nat)
    requires IsCodeAt(s, k)
    ensures var m := CodeAt(s, k).value;
      WellFormed(m) && OccursAt(s, m.full, k) && m.clientCode == s[k..k + 8]
  {
    assert s[k..k + 8][3..] == s[k + 3..k + 8];
    if k + 9 < |s| && s[k + 8] == '_' && IsDigit(s[k + 9]) {
      SuffixedCodeAtProperties(s, k);
    }
  }

  /** The matches of the global `exec` loop from position k on: the leftmost
      match, then the search resumes after it. */
  function CodesFrom(s: string, k: nat): (r: seq<CodeMatch>)
    requires k <= |s|
    decreases |s| - k
  {
    if k == |s| then []
    else match CodeAt(s, k)
      case Some(m) => [m] + CodesFrom(s, k + |m.full|)
      case None => CodesFrom(s, k + 1)
  }

  /** One turn of the global loop over client codes. */
  lemma CodesStep(s: string, k: nat)
    requires k < |s|
    ensures CodeAt(s, k).Some? ==> CodesFrom(s, k) == [CodeAt(s, k).value] + CodesFrom(s, k + |CodeAt(s, k).value.full|)
    ensures CodeAt(s, k).None? ==> CodesFrom(s, k) == CodesFrom(s, k + 1)
  {
  }

  /** One turn of the client-code loop keeps its invariant. */
  lemma CodesLoopStep(s: string, k: nat, found: seq<CodeMatch>, found': seq<CodeMatch>, k': nat)
    requires k < |s|
    requires CodesFrom(s, 0) == found + CodesFrom(s, k)
    requires found' == (if CodeAt(s, k).Some? then found + [CodeAt(s, k).value] else found)
    requires k' == (if CodeAt(s, k).Some? then k + |CodeAt(s, k).value.full| else k + 1)
    ensures k' <= |s| && CodesFrom(s, 0) == found' + CodesFrom(s, k')
  {
    CodesStep(s, k);
    if CodeAt(s, k).Some? {
      ConcatAssoc(found, [CodeAt(s, k).value], CodesFrom(s, k'));
    }
  }

  /** Every match is well formed and occurs in the text. */
  lemma {:induction false} CodesWellFormed(s: string, k: nat)
    requires k <= |s|
    ensures forall i :: 0 <= i < |CodesFrom(s, k)| ==>
      WellFormed(CodesFrom(s, k)[i]) && Contains(s, CodesFrom(s, k)[i].full)
    decreases |s| - k
  {
    if k < |s| {
      match CodeAt(s, k)
      case Some(m) =>
        CodesWellFormed(s, k + |m.full|);
        CodeAtProperties(s, k);
        assert OccursAt(s, m.full, k);
      case None =>
        CodesWellFormed(s, k + 1);
    }
  }

  /** The client code of every match occurs in the text. */
  lemma {:induction false} CodesInText(s: string, k: nat)
    requires k <= |s|
    ensures forall i :: 0 <= i < |CodesFrom(s, k)| ==> Contains(s, CodesFrom(s, k)[i].clientCode)
    decreases |s| - k
  {
    if k < |s| {
      match CodeAt(s, k)
      case Some(m) =>
        CodesInText(s, k + |m.full|);
        CodeAtProperties(s, k);
        assert OccursAt(s, m.clientCode, k);
      case None =>
        CodesInText(s, k + 1);
    }
  }

  /** The first match is the leftmost code in the text, and there is one
      exactly when some position starts a code. */
  lemma {:induction false} FirstCodeIsLeftmost(s: string, k: nat)
    requires k <= |s|
    ensures CodesFrom(s, k) != [] <==> exists j :: k <= j < |s| && IsCodeAt(s, j)
    ensures CodesFrom(s, k) != [] ==>
      exists j :: k <= j < |s| && CodeAt(s, j) == Some(CodesFrom(s, k)[0])
                 && forall i :: k <= i < j ==> !IsCodeAt(s, i)
    decreases |s| - k
  {
    if k < |s| && !IsCodeAt(s, k) {
      FirstCodeIsLeftmost(s, k + 1);
      if CodesFrom(s, k) != [] {
        var j :| k + 1 <= j < |s| && CodeAt(s, j) == Some(CodesFrom(s, k + 1)[0])
                 && forall i :: k + 1 <= i < j ==> !IsCodeAt(s, i);
        assert forall i :: k <= i < j ==> !IsCodeAt(s, i);
      }
    }
  }

  /** `parseClientCodeFull(text)`. */
  method ParseClientCodeFull(text: string) returns (results: seq<CodeMatch>)
    ensures results == CodesFrom(text, 0)
  {
    results := [];
    var k := 0;
    while k < |text|
      invariant k <= |text|
      invariant CodesFrom(text, 0) == results + CodesFrom(text, k)
      decreases |text| - k
    {
      var m := CodeAt(text, k);
      ghost var before, from := results, k;
      if m.Some? {
        results := results + [m.value];
        k := k + |m.value.full|;
      } else {
        k := k + 1;
      }
      CodesLoopStep(text, from, before, results, k);
    }
  }

  // ---------------------------------------------------------------------
  // LINE_NUMBER_RE = (?:линия|line)\s*(?:номер|number|#|№)?\s*[:=]?\s*(\d{6,12})  (flags gi)
  // ---------------------------------------------------------------------

  /** After the keyword ending at j: `\s*`, the optional word, `\s*`, the
      optional ':' or '=', `\s*`. Each part is greedy; none of them can give
      characters back to let a later part match, because the parts start
      with disjoint characters. */
  function NumberStart(s: string, j: nat): (e: nat)
    requires j <= |s|
    ensures j <= e <= |s|
  {
    var j1 := SkipSpaces(s, j);
    var j2 :=
      if FoldAt(s, j1, "номер") then j1 + 5
      else if FoldAt(s, j1, "number") then j1 + 6
      else if j1 < |s| && (s[j1] == '#' || s[j1] == '№') then j1 + 1
      else j1;
    var j3 := SkipSpaces(s, j2);
    var j4 := if j3 < |s| && (s[j3] == ':' || s[j3] == '=') then j3 + 1 else j3;
    SkipSpaces(s, j4)
  }

  /** The keyword at k: where it ends, if 'линия' or 'line' starts there. */
  function KeywordEnd(s: string, k: nat): (e: Option<nat>)
    ensures e.Some? ==> k + 4 <= e.value <= |s|
  {
    if FoldAt(s, k, "линия") then Some(k + 5)
    else if FoldAt(s, k, "line") then Some(k + 4)
    else None
  }

  /** `(\d{6,12})` at n: the greedy digit run, cut at twelve, when it has at
      least six digits. */
  function DigitsAt(s: string, n: nat): (r: Option<string>)
    requires n <= |s|
    ensures r.Some? ==> AllDigits(r.value) && 6 <= |r.value| <= 12 && OccursAt(s, r.value, n)
  {
    var ds := DigitPrefix(s[n..]);
    if |ds| < 6 then None
    else
      var d := if |ds| <= 12 then ds else ds[..12];
      assert s[n..][..|d|] == s[n..n + |d|];
      Some(d)
  }

  /** The captured number and the end of the match of LINE_NUMBER_RE at k. */
  function LineNumberAt(s: string, k: nat): (r: Option<(string, nat)>)
    ensures r.Some? ==> AllDigits(r.value.0) && 6 <= |r.value.0| <= 12
    ensures r.Some? ==> k < r.value.1 <= |s| && |r.value.0| <= r.value.1
    ensures r.Some? ==> r.value.0 == s[r.value.1 - |r.value.0|..r.value.1]
  {
    match KeywordEnd(s, k)
    case None => None
    case Some(j) =>
      var n := NumberStart(s, j);
      match DigitsAt(s, n)
      case None => None
      case Some(d) => Some((d, n + |d|))
  }

  /** Every captured number of the global loop from position k on. */
  function LineMatchesFrom(s: string, k: nat): (r: seq<string>)
    requires k <= |s|
    ensures forall i :: 0 <= i < |r| ==> AllDigits(r[i]) && 6 <= |r[i]| <= 12
    decreases |s| - k
  {
    if k == |s| then []
    else match LineNumberAt(s, k)
      case Some((d, e)) => [d] + LineMatchesFrom(s, e)
      case None => LineMatchesFrom(s, k + 1)
  }

  /** One turn of the global loop: a match is captured and the search
      resumes after it, otherwise at the next position. */
  lemma LineMatchesStep(s: string, k: nat)
    requires k < |s|
    ensures LineNumberAt(s, k).Some? ==>
      LineMatchesFrom(s, k) == [LineNumberAt(s, k).value.0] + LineMatchesFrom(s, LineNumberAt(s, k).value.1)
    ensures LineNumberAt(s, k).None? ==> LineMatchesFrom(s, k) == LineMatchesFrom(s, k + 1)
  {
  }

  /** One turn of the line-number loop keeps its invariant: the captures so
      far and the rest of the scan make up the whole scan. */
  lemma LineLoopStep(s: string, k: nat, seen: seq<string>)
    requires k < |s|
    requires LineMatchesFrom(s, 0) == seen + LineMatchesFrom(s, k)
    ensures LineNumberAt(s, k).None? ==> LineMatchesFrom(s, 0) == seen + LineMatchesFrom(s, k + 1)
    ensures LineNumberAt(s, k).Some? ==>
      LineMatchesFrom(s, 0) == (seen + [LineNumberAt(s, k).value.0]) + LineMatchesFrom(s, LineNumberAt(s, k).value.1)
  {
    LineMatchesStep(s, k);
  }

  /** The line-number loop of `extractFromBody`: each capture is pushed
      unless already included. */
  method ExtractLineNumbers(text: string) returns (lineNumbers: seq<string>)
    ensures lineNumbers == Dedup(LineMatchesFrom(text, 0))
  {
    lineNumbers := [];
    ghost var seen: seq<string> := [];
    var k := 0;
    while k < |text|
      invariant k <= |text|
      invariant LineMatchesFrom(text, 0) == seen + LineMatchesFrom(text, k)
      invariant lineNumbers == Dedup(seen)
      decreases |text| - k
    {
      LineLoopStep(text, k, seen);
      var m := LineNumberAt(text, k);
      if m.Some? {
        var d := m.value.0;
        DedupPush(seen, d);
        seen := seen + [d];
        if d !in lineNumbers {
          lineNumbers := lineNumbers + [d];
        }
        k := m.value.1;
      } else {
        k := k + 1;
      }
    }
    assert LineMatchesFrom(text, k) == [];
    assert seen + [] == seen;
  }

  /** `lineNumbers` holds distinct 6-12 digit numbers, each of them captured
      somewhere in the text, and every capture is kept. */
  lemma LineNumbersDistinct(s: string)
    ensures var ns := Dedup(LineMatchesFrom(s, 0));
      NoDup(ns) && forall i :: 0 <= i < |ns| ==> AllDigits(ns[i]) && 6 <= |ns[i]| <= 12
    ensures forall i :: 0 <= i < |LineMatchesFrom(s, 0)| ==> LineMatchesFrom(s, 0)[i] in Dedup(LineMatchesFrom(s, 0))
  {
    DedupNoDup(LineMatchesFrom(s, 0));
  }

  // ---------------------------------------------------------------------
  // ATC_PLAN_RE = \b(Start|Business)\b  (flags gi)
  // ---------------------------------------------------------------------

  /** `\b` between positions k - 1 and k, when s[k] is a word character. */
  predicate BoundaryBefore(s: string, k: nat) { k == 0 || (k <= |s| && !IsWordChar(s[k - 1])) }

  /** `\b` after a word character ending at e. */
  predicate BoundaryAfter(s: string, e: nat) { e >= |s| || !IsWordChar(s[e]) }

  /** `m.charAt(0).toUpperCase() + m.slice(1).toLowerCase()`. */
  function Capitalize(m: string): (r: string)
    ensures |r| == |m|
  {
    if m == [] then [] else [UpperChar(m[0])] + Lower(m[1..])
  }

  /** The normalised plan matched at k and where the match ends. */
  function PlanAt(s: string, k: nat): (r: Option<(string, nat)>)
    ensures r.Some? ==> k < r.value.1 <= |s|
  {
    if !BoundaryBefore(s, k) then None
    else if FoldAt(s, k, "start") && BoundaryAfter(s, k + 5) then Some((Capitalize(s[k..k + 5]), k + 5))
    else if FoldAt(s, k, "business") && BoundaryAfter(s, k + 8) then Some((Capitalize(s[k..k + 8]), k + 8))
    else None
  }

  function PlansFrom(s: string, k: nat): seq<string>
    requires k <= |s|
    decreases |s| - k
  {
    if k == |s| then []
    else match PlanAt(s, k)
      case Some((p, e)) => [p] + PlansFrom(s, e)
      case None => PlansFrom(s, k + 1)
  }

  /** A character equal, ignoring case, to a lower-case Latin letter is that
      letter in one of its two cases. */
  lemma FoldLatin(c: char, w: char)
    requires 'a' <= w <= 'z' && SameFold(c, w)
    ensures LowerChar(c) == w && UpperChar(c) as int == w as int - 32
  {
  }

  lemma {:induction false} LowerAt(m: string, i: nat)
    requires i < |m|
    ensures Lower(m)[i] == LowerChar(m[i])
  {
    if i > 0 {
      LowerAt(m[1..], i - 1);
    }
  }

  /** Whatever its case, a matched plan name is normalised to the spelling
      with one leading capital. */
  lemma CapitalizeFold(s: string, k: nat, w: string, canon: string)
    requires FoldAt(s, k, w) && |w| == |canon| && |w| > 0
    requires forall i :: 0 <= i < |w| ==> 'a' <= w[i] <= 'z'
    requires canon[0] as int == w[0] as int - 32 && canon[1..] == w[1..]
    ensures Capitalize(s[k..k + |w|]) == canon
  {
    var m := s[k..k + |w|];
    FoldLatin(m[0], w[0]);
    forall i | 1 <= i < |w| ensures Capitalize(m)[i] == canon[i] {
      FoldLatin(m[i], w[i]);
      LowerAt(m[1..], i - 1);
    }
  }

  lemma CapitalizeStart(s: string, k: nat)
    requires FoldAt(s, k, "start")
    ensures Capitalize(s[k..k + 5]) == "Start"
  {
    CapitalizeFold(s, k, "start", "Start");
  }

  lemma CapitalizeBusiness(s: string, k: nat)
    requires FoldAt(s, k, "business")
    ensures Capitalize(s[k..k + 8]) == "Business"
  {
    CapitalizeFold(s, k, "business", "Business");
  }

  /** Every captured plan is 'Start' or 'Business'. */
  lemma {:induction false} PlanNames(s: string, k: nat)
    requires k <= |s|
    ensures forall i :: 0 <= i < |PlansFrom(s, k)| ==> PlansFrom(s, k)[i] in ["Start", "Business"]
    decreases |s| - k
  {
    if k < |s| {
      match PlanAt(s, k)
      case Some((p, e)) =>
        if FoldAt(s, k, "start") && BoundaryAfter(s, k + 5) {
          CapitalizeStart(s, k);
        } else {
          CapitalizeBusiness(s, k);
        }
        PlanNames(s, e);
      case None =>
        PlanNames(s, k + 1);
    }
  }

  /** One turn of the tariff loop keeps its invariant. */
  lemma PlanLoopStep(s: string, k: nat, seen: seq<string>)
    requires k < |s|
    requires PlansFrom(s, 0) == seen + PlansFrom(s, k)
    ensures PlanAt(s, k).None? ==> PlansFrom(s, 0) == seen + PlansFrom(s, k + 1)
    ensures PlanAt(s, k).Some? ==>
      PlansFrom(s, 0) == (seen + [PlanAt(s, k).value.0]) + PlansFrom(s, PlanAt(s, k).value.1)
  {
    if PlanAt(s, k).Some? {
      assert PlansFrom(s, k) == [PlanAt(s, k).value.0] + PlansFrom(s, PlanAt(s, k).value.1);
    }
  }

  /** The tariff loop of `extractFromBody`. */
  method ExtractAtcPlans(text: string) returns (atcPlans: seq<string>)
    ensures atcPlans == Dedup(PlansFrom(text, 0))
  {
    atcPlans := [];
    ghost var seen: seq<string> := [];
    var k := 0;
    while k < |text|
      invariant k <= |text|
      invariant PlansFrom(text, 0) == seen + PlansFrom(text, k)
      invariant atcPlans == Dedup(seen)
      decreases |text| - k
    {
      PlanLoopStep(text, k, seen);
      var m := PlanAt(text, k);
      if m.Some? {
        var plan := m.value.0;
        DedupPush(seen, plan);
        seen := seen + [plan];
        if plan !in atcPlans {
          atcPlans := atcPlans + [plan];
        }
        k := m.value.1;
      } else {
        k := k + 1;
      }
    }
    assert PlansFrom(text, k) == [];
    assert seen + [] == seen;
  }

  /** The distinct plans are among the two known names. */
  lemma AtcPlansBounded(s: string)
    ensures var ps := Dedup(PlansFrom(s, 0));
      NoDup(ps) && forall i :: 0 <= i < |ps| ==> ps[i] in ["Start", "Business"]
  {
    var ps := Dedup(PlansFrom(s, 0));
    PlanNames(s, 0);
    DedupNoDup(PlansFrom(s, 0));
  }

  // ---------------------------------------------------------------------
  // collectTicketData
  // ---------------------------------------------------------------------

  const BODY_TEXT_LIMIT: nat := 5000
  const BODY_EXCERPT_LIMIT: nat := 2000

  /** What `extractFromSidebar` found; its DOM scan is not part of this model. */
  datatype SidebarData = SidebarData(clientCode: string, accountingUrl: string, telphinOffice: Option<CodeMatch>)

  datatype BodyData = BodyData(lineNumbers: seq<string>, atcPlans: seq<string>, clientCodes: seq<CodeMatch>, bodyText: string)

  /** The record sent as `OTRS_DATA_READY` and in the `PARSE_OTRS` reply. */
  datatype TicketData = TicketData(
    source: string, url: string, ticketId: string, clientCode: string,
    clientCodeFull: Option<CodeMatch>, lineNumbers: seq<string>, atcPlan: string,
    accountingUrl: string, sidebarRaw: Option<CodeMatch>, bodyExcerpt: string)

  /** `fullText`: a space before each article's text. */
  function FullText(articles: seq<string>): string {
    if articles == [] then ""
    else FullText(articles[..|articles| - 1]) + " " + articles[|articles| - 1]
  }

  /** What `extractFromBody` returns for the article texts. */
  function BodyOf(articles: seq<string>): BodyData {
    var full := FullText(articles);
    BodyData(Dedup(LineMatchesFrom(full, 0)), Dedup(PlansFrom(full, 0)), CodesFrom(full, 0),
             HeadSlice(full, BODY_TEXT_LIMIT))
  }

  /** `extractFromBody()`. */
  method ExtractFromBody(articles: seq<string>) returns (body: BodyData)
    ensures body == BodyOf(articles)
  {
    var full := "";
    for i := 0 to |articles|
      invariant full == FullText(articles[..i])
    {
      assert articles[..i + 1][..i] == articles[..i];
      full := full + " " + articles[i];
    }
    assert articles[..|articles|] == articles;
    var lineNumbers := ExtractLineNumbers(full);
    var atcPlans := ExtractAtcPlans(full);
    var codes := ParseClientCodeFull(full);
    body := BodyData(lineNumbers, atcPlans, codes, HeadSlice(full, BODY_TEXT_LIMIT));
  }

  /** `collectTicketData()`: the sidebar code wins, then the first code in
      the ticket text, then ''. */
  function CollectTicketData(url: string, ticketId: string, sidebar: SidebarData, body: BodyData): (d: TicketData)
    ensures d.source == "otrs" && d.url == url && d.ticketId == ticketId
    ensures sidebar.clientCode != "" ==> d.clientCode == sidebar.clientCode
    ensures sidebar.clientCode == "" && body.clientCodes != [] ==> d.clientCode == body.clientCodes[0].clientCode
    ensures sidebar.clientCode == "" && body.clientCodes == [] ==> d.clientCode == ""
    ensures d.clientCodeFull.Some? <==> body.clientCodes != []
    ensures body.clientCodes != [] ==> d.clientCodeFull == Some(body.clientCodes[0])
    ensures body.atcPlans == [] ==> d.atcPlan == ""
    ensures body.atcPlans != [] ==> d.atcPlan == body.atcPlans[0]
    ensures d.lineNumbers == body.lineNumbers && d.accountingUrl == sidebar.accountingUrl
    ensures d.sidebarRaw == sidebar.telphinOffice
    ensures |d.bodyExcerpt| <= BODY_EXCERPT_LIMIT && |d.bodyExcerpt| <= |body.bodyText|
    ensures |d.bodyExcerpt| == if |body.bodyText| < BODY_EXCERPT_LIMIT then |body.bodyText| else BODY_EXCERPT_LIMIT
    ensures d.bodyExcerpt == body.bodyText[..|d.bodyExcerpt|]
  {
    var code := if sidebar.clientCode == "" && body.clientCodes != [] then body.clientCodes[0].clientCode
                else sidebar.clientCode;
    TicketData("otrs", url, ticketId, code,
      if body.clientCodes != [] then Some(body.clientCodes[0]) else None,
      body.lineNumbers,
      if body.atcPlans != [] then body.atcPlans[0] else "",
      sidebar.accountingUrl, sidebar.telphinOffice,
      HeadSlice(body.bodyText, BODY_EXCERPT_LIMIT))
  }

  /** The ticket record for the pages' article texts: a body client code is
      a well-formed code from the text, the tariff is '', 'Start' or
      'Business', the line numbers are distinct, and the excerpt is the start
      of the article text, at most 2000 characters. */
  lemma TicketDataProperties(url: string, ticketId: string, sidebar: SidebarData, articles: seq<string>)
    ensures var d := CollectTicketData(url, ticketId, sidebar, BodyOf(articles));
      && (sidebar.clientCode == "" && d.clientCode != "" ==>
            IsClientCode(d.clientCode) && Contains(FullText(articles), d.clientCode))
      && d.atcPlan in ["", "Start", "Business"]
      && NoDup(d.lineNumbers)
      && |d.bodyExcerpt| <= BODY_EXCERPT_LIMIT
      && d.bodyExcerpt == FullText(articles)[..|d.bodyExcerpt|]
  {
    var full := FullText(articles);
    CodesWellFormed(full, 0);
    CodesInText(full, 0);
    AtcPlansBounded(full);
    LineNumbersDistinct(full);
  }

  // ---------------------------------------------------------------------
  // Queue moves
  // ---------------------------------------------------------------------

  datatype QueueOption = QueueOption(text: string, value: string)

  /** The `DestQueueID` select of the ticket page. */
  class QueueSelect {
    var value: string
    var changeEvents: nat
    const options: seq<QueueOption>

    constructor(options: seq<QueueOption>, value: string)
      ensures this.options == options && this.value == value && changeEvents == 0
    {
      this.options := options;
      this.value := value;
      changeEvents := 0;
    }

    /** Select the first option the test accepts and fire `change`; no
        option, no change. */
    method SelectFirst(accepts: QueueOption -> bool) returns (chosen: Option<nat>)
      modifies this
      ensures chosen == FirstWhere(options, accepts)
      ensures chosen.Some? ==> value == options[chosen.value].value && changeEvents == old(changeEvents) + 1
      ensures chosen.None? ==> value == old(value) && changeEvents == old(changeEvents)
    {
      chosen := FirstWhere(options, accepts);
      if chosen.Some? {
        value := options[chosen.value].value;
        changeEvents := changeEvents + 1;
      }
    }
  }

  /** The `moveToQueue` test: the queue name occurs in the text or the value. */
  predicate NamesQueue(queueName: string, o: QueueOption) {
    Contains(o.text, queueName) || Contains(o.value, queueName)
  }

  /** A case-insensitive `/14day/i` test. */
  predicate ContainsFold(s: string, w: string) {
    exists k :: 0 <= k <= |s| && FoldAt(s, k, w)
  }

  /** The `performPostpone14` test. */
  predicate Is14DayQueue(o: QueueOption) {
    ContainsFold(o.text, "14day") || ContainsFold(o.value, "14day")
  }

  /** `moveToQueue(queueName)`; `sel` is null when the page has no select. */
  method MoveToQueue(sel: QueueSelect?, queueName: string) returns (chosen: Option<nat>)
    modifies sel
    ensures sel == null ==> chosen.None?
    ensures sel != null ==> chosen == FirstWhere(sel.options, o => NamesQueue(queueName, o))
    ensures sel != null && chosen.Some? ==> sel.value == sel.options[chosen.value].value
    ensures sel != null && chosen.None? ==> sel.value == old(sel.value)
  {
    chosen := None;
    if sel != null {
      chosen := sel.SelectFirst(o => NamesQueue(queueName, o));
    }
  }

  /** `performPostpone14()`: the first option naming the 14-day queue. */
  method Postpone14(sel: QueueSelect?) returns (chosen: Option<nat>)
    modifies sel
    ensures sel == null ==> chosen.None?
    ensures sel != null ==> chosen == FirstWhere(sel.options, Is14DayQueue)
    ensures sel != null && chosen.Some? ==> sel.value == sel.options[chosen.value].value
    ensures sel != null && chosen.None? ==> sel.value == old(sel.value)
  {
    chosen := None;
    if sel != null {
      chosen := sel.SelectFirst(Is14DayQueue);
    }
  }

  /** The chosen option is the first that names the queue: every earlier one
      names it neither in its text nor in its value. */
  lemma QueueChoiceIsFirst(options: seq<QueueOption>, queueName: string, i: nat)
    requires i < |options| && NamesQueue(queueName, options[i])
    requires forall j :: 0 <= j < i ==> !Contains(options[j].text, queueName) && !Contains(options[j].value, queueName)
    ensures FirstWhere(options, o => NamesQueue(queueName, o)) == Some(i)
  {
    FirstWhereAt(options, o => NamesQueue(queueName, o), i);
  }
}
