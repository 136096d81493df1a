/** The page side of the Runexis numbers wizard: the content script's
    replies to the wizard's messages, computed from what the page shows.
    The page is given as plain values: cell texts, pagination links,
    autocomplete suggestions, select options and buttons. */
module RunexisPage {
  import opened Text
  import opened Values

  // ---------------------------------------------------------------------
  // Phone numbers
  // ---------------------------------------------------------------------

  /** A character `/[\s\-\(\)\+]/g` removes. */
  predicate IsPhoneSeparator(c: char) {
    IsSpace(c) || c == '-' || c == '(' || c == ')' || c == '+'
  }

  /** `text.replace(/[\s\-\(\)\+]/g, '')` */
  function StripSeparators(s: string): (r: string)
    ensures |r| <= |s|
    ensures forall j :: 0 <= j < |r| ==> !IsPhoneSeparator(r[j])
    ensures forall c :: c in r ==> c in s
  {
    if s == [] then []
    else (if IsPhoneSeparator(s[0]) then [] else [s[0]]) + StripSeparators(s[1..])
  }

  /** `/^\d{10,11}$/` */
  predicate IsCandidate(s: string) {
    (|s| == 10 || |s| == 11) && AllDigits(s)
  }

  /** Ten digits get a leading 7; eleven digits starting with 8 get the 8 replaced by 7. */
  function Normalize(num: string): string {
    var n := if |num| == 10 then "7" + num else num;
    if |n| == 11 && n[0] == '8' then "7" + n[1..] else n
  }

  /** A normalised number: eleven characters, the first of which is not 8. */
  predicate IsNormalized(n: string) {
    |n| == 11 && n[0] != '8'
  }

  /** Every accepted cell normalises to eleven digits not starting with 8,
      keeping its last ten digits. */
  lemma NormalizeCandidate(s: string)
    requires IsCandidate(s)
    ensures var n := Normalize(s); IsNormalized(n) && AllDigits(n) && n[1..] == s[|s| - 10..]
    ensures |s| == 10 || s[0] == '8' ==> Normalize(s)[0] == '7'
    ensures |s| == 11 && s[0] != '8' ==> Normalize(s) == s
  {
    if |s| == 10 {
      assert ("7" + s)[1..] == s;
    } else if s[0] == '8' {
      assert ("7" + s[1..])[1..] == s[1..];
    }
  }

  /** Normalising twice is normalising once; any eleven-character string
      that does not start with 8 is left alone. */
  lemma NormalizeIdempotent(s: string)
    ensures IsNormalized(s) ==> Normalize(s) == s
    ensures |Normalize(s)| == 11 ==> Normalize(Normalize(s)) == Normalize(s)
  {
  }

  /** The numbers the cell scan accepts, in page order, before de-duplication. */
  function CellNumbers(cells: seq<string>): (ns: seq<string>)
    ensures forall j :: 0 <= j < |ns| ==> IsNormalized(ns[j]) && AllDigits(ns[j])
  {
    if cells == [] then []
    else
      var c := StripSeparators(Trim(cells[|cells| - 1]));
      CellNumbers(cells[..|cells| - 1])
      + (if IsCandidate(c) then NormalizeCandidate(c); [Normalize(c)] else [])
  }

  /** The numbers the full-text fallback keeps from the phone-pattern matches. */
  function FallbackNumbers(matches: seq<string>): (ns: seq<string>)
    ensures forall j :: 0 <= j < |ns| ==> IsNormalized(ns[j])
  {
    if matches == [] then []
    else
      var n := Normalize(StripSeparators(matches[|matches| - 1]));
      FallbackNumbers(matches[..|matches| - 1]) + (if |n| == 11 then [n] else [])
  }

  /** What `collectNumbers` returns: the distinct cell numbers in first-seen
      order, or, when the cells gave none, the distinct fallback numbers. */
  function Collected(cells: seq<string>, matches: seq<string>): seq<string> {
    var fromCells := Dedup(CellNumbers(cells));
    if fromCells == [] then Dedup(FallbackNumbers(matches)) else fromCells
  }

  /** The two normalisation rules applied one after the other, as the scan writes them. */
  method NormalizeNumber(cleaned: string) returns (num: string)
    ensures num == Normalize(cleaned)
  {
    num := cleaned;
    if |num| == 10 {
      num := "7" + num;
    }
    if |num| == 11 && num[0] == '8' {
      num := "7" + num[1..];
    }
  }

  lemma CellNumbersSnoc(cells: seq<string>, i: nat)
    requires i < |cells|
    ensures var c := StripSeparators(Trim(cells[i]));
      CellNumbers(cells[..i + 1]) == CellNumbers(cells[..i]) + (if IsCandidate(c) then [Normalize(c)] else [])
  {
    assert cells[..i + 1][..i] == cells[..i];
    assert cells[..i + 1][i] == cells[i];
  }

  lemma FallbackNumbersSnoc(matches: seq<string>, i: nat)
    requires i < |matches|
    ensures var n := Normalize(StripSeparators(matches[i]));
      FallbackNumbers(matches[..i + 1]) == FallbackNumbers(matches[..i]) + (if |n| == 11 then [n] else [])
  {
    assert matches[..i + 1][..i] == matches[..i];
    assert matches[..i + 1][i] == matches[i];
  }

  /** The cell loop of `collectNumbers`. */
  method ScanCells(cells: seq<string>) returns (numbers: seq<string>)
    ensures numbers == Dedup(CellNumbers(cells))
  {
    numbers := [];
    for i := 0 to |cells|
      invariant numbers == Dedup(CellNumbers(cells[..i]))
    {
      var cleaned := StripSeparators(Trim(cells[i]));
      ghost var prev := CellNumbers(cells[..i]);
      CellNumbersSnoc(cells, i);
      if IsCandidate(cleaned) {
        var num := NormalizeNumber(cleaned);
        assert CellNumbers(cells[..i + 1]) == prev + [num];
        DedupPush(prev, num);
        if num !in numbers {
          numbers := numbers + [num];
        }
      } else {
        assert CellNumbers(cells[..i + 1]) == prev;
      }
    }
    assert cells[..|cells|] == cells;
  }

  /** The full-text loop of `collectNumbers`, over the phone-pattern matches. */
  method ScanText(matches: seq<string>) returns (numbers: seq<string>)
    ensures numbers == Dedup(FallbackNumbers(matches))
  {
    numbers := [];
    for i := 0 to |matches|
      invariant numbers == Dedup(FallbackNumbers(matches[..i]))
    {
      var num := NormalizeNumber(StripSeparators(matches[i]));
      ghost var prev := FallbackNumbers(matches[..i]);
      FallbackNumbersSnoc(matches, i);
      if |num| == 11 {
        assert FallbackNumbers(matches[..i + 1]) == prev + [num];
        DedupPush(prev, num);
        if num !in numbers {
          numbers := numbers + [num];
        }
      } else {
        assert FallbackNumbers(matches[..i + 1]) == prev;
      }
    }
    assert matches[..|matches|] == matches;
  }

  /** `collectNumbers`: the cell scan, then the full-text scan only when the
      cells gave nothing. `matches` are the phone-pattern matches of the
      page text, in order. */
  method CollectNumbers(cells: seq<string>, matches: seq<string>) returns (numbers: seq<string>)
    ensures numbers == Collected(cells, matches)
  {
    numbers := ScanCells(cells);
    if |numbers| == 0 {
      numbers := ScanText(matches);
    }
  }

  /** The collected list has no duplicates, every entry is normalised, the
      fallback is used exactly when no cell held a number, and a cell scan
      lists every accepted cell number in the order it was first seen. */
  lemma CollectedProperties(cells: seq<string>, matches: seq<string>)
    ensures var ns := Collected(cells, matches);
      NoDup(ns) && (forall j :: 0 <= j < |ns| ==> IsNormalized(ns[j]))
    ensures CellNumbers(cells) != [] ==>
      var ns := Collected(cells, matches);
      ns == Dedup(CellNumbers(cells)) && (forall j :: 0 <= j < |ns| ==> AllDigits(ns[j]))
      && (forall j :: 0 <= j < |CellNumbers(cells)| ==> CellNumbers(cells)[j] in ns)
    ensures CellNumbers(cells) == [] ==> Collected(cells, matches) == Dedup(FallbackNumbers(matches))
  {
    var cs, fs := CellNumbers(cells), FallbackNumbers(matches);
    DedupNoDup(cs);
    DedupNoDup(fs);
    DedupKeepsForm(cs, true);
    DedupKeepsForm(fs, false);
    if cs != [] {
      assert cs[0] in Dedup(cs);
    }
  }

  /** Dropping repeats keeps every entry normalised (and all digits when the input was). */
  lemma DedupKeepsForm(s: seq<string>, digits: bool)
    requires forall j :: 0 <= j < |s| ==> IsNormalized(s[j]) && (digits ==> AllDigits(s[j]))
    ensures forall j :: 0 <= j < |Dedup(s)| ==> IsNormalized(Dedup(s)[j]) && (digits ==> AllDigits(Dedup(s)[j]))
  {
    forall j | 0 <= j < |Dedup(s)|
      ensures IsNormalized(Dedup(s)[j]) && (digits ==> AllDigits(Dedup(s)[j]))
    {
      var k :| 0 <= k < |s| && s[k] == Dedup(s)[j];
    }
  }

  // ---------------------------------------------------------------------
  // Pagination
  // ---------------------------------------------------------------------

  /** `parseInt(text.trim(), 10)` for each label that parses. */
  function PageNumbers(labels: seq<string>): seq<int> {
    if labels == [] then []
    else
      var p := ParseInt(Trim(labels[|labels| - 1]));
      PageNumbers(labels[..|labels| - 1]) + (if p.Some? then [p.value] else [])
  }

  /** `Math.max(...pages)`, or 1 with no pages. */
  function MaxPage(pages: seq<int>): (m: int)
    ensures pages == [] ==> m == 1
    ensures forall j :: 0 <= j < |pages| ==> pages[j] <= m
    ensures pages != [] ==> m in pages
  {
    if pages == [] then 1
    else if |pages| == 1 then pages[0]
    else
      var rest := MaxPage(pages[1..]);
      assert pages[1..] != [] ==> rest in pages[1..];
      if pages[0] >= rest then pages[0] else rest
  }

  datatype PaginationReply = PaginationReply(ok: bool, currentPage: int, maxPage: int, pages: seq<int>)

  /** `getPaginationInfo`. `active` is the text of the active pagination item, if any. */
  method GetPaginationInfo(labels: seq<string>, active: Option<string>) returns (r: PaginationReply)
    ensures r.ok && r.pages == PageNumbers(labels) && r.maxPage == MaxPage(r.pages)
    ensures r.currentPage == if active.None? then 1 else
      match ParseInt(Trim(active.value)) case Some(n) => (if n != 0 then n else 1) case None => 1
  {
    var pages: seq<int> := [];
    for i := 0 to |labels|
      invariant pages == PageNumbers(labels[..i])
    {
      assert labels[..i + 1][..i] == labels[..i];
      var num := ParseInt(Trim(labels[i]));
      if num.Some? {
        pages := pages + [num.value];
      }
    }
    assert labels[..|labels|] == labels;
    var maxPage := if |pages| > 0 then MaxPage(pages) else 1;
    var currentPage := 1;
    if active.Some? {
      var n := ParseInt(Trim(active.value));
      currentPage := if n.Some? && n.value != 0 then n.value else 1;
    }
    r := PaginationReply(true, currentPage, maxPage, pages);
  }

  /** A pagination link as the content script sees it. */
  datatype PageLink = PageLink(text: string, href: Option<string>, dataPage: Option<string>)

  /** The link's trimmed text is the page number. */
  predicate LabelIs(l: PageLink, target: int) {
    Trim(l.text) == Num(target).Render()
  }

  /** The link's href contains `page=N` or its `data-page` is N. */
  predicate PointsTo(l: PageLink, target: int) {
    Includes(OrEmpty(l.href), "page=" + Num(target).Render()) || l.dataPage == Some(Num(target).Render())
  }

  /** The first loop of `RUNEXIS_GO_TO_PAGE`: the first link labelled with the page number. */
  method FindLabelled(links: seq<PageLink>, target: int) returns (k: Option<nat>)
    ensures k.Some? ==> k.value < |links| && LabelIs(links[k.value], target)
    ensures k.Some? ==> forall j :: 0 <= j < k.value ==> !LabelIs(links[j], target)
    ensures k.None? ==> forall j :: 0 <= j < |links| ==> !LabelIs(links[j], target)
  {
    for i := 0 to |links|
      invariant forall j :: 0 <= j < i ==> !LabelIs(links[j], target)
    {
      if LabelIs(links[i], target) {
        return Some(i);
      }
    }
    return None;
  }

  /** The second loop: the first link whose href or data-page points to the page. */
  method FindPointing(links: seq<PageLink>, target: int) returns (k: Option<nat>)
    ensures k.Some? ==> k.value < |links| && PointsTo(links[k.value], target)
    ensures k.Some? ==> forall j :: 0 <= j < k.value ==> !PointsTo(links[j], target)
    ensures k.None? ==> forall j :: 0 <= j < |links| ==> !PointsTo(links[j], target)
  {
    for i := 0 to |links|
      invariant forall j :: 0 <= j < i ==> !PointsTo(links[j], target)
    {
      if PointsTo(links[i], target) {
        return Some(i);
      }
    }
    return None;
  }

  datatype GoToReply = GoToReply(ok: bool, clicked: Option<nat>, error: Option<string>)

  /** `RUNEXIS_GO_TO_PAGE`: the first link labelled with the page number, or
      failing that the first whose href or data-page points to it; ok exactly
      when a link was clicked. */
  method GoToPage(links: seq<PageLink>, target: int) returns (r: GoToReply)
    ensures r.ok <==> r.clicked.Some?
    ensures r.clicked.Some? ==> r.clicked.value < |links| && r.error.None?
    ensures r.clicked.Some? && LabelIs(links[r.clicked.value], target) ==>
      forall j :: 0 <= j < r.clicked.value ==> !LabelIs(links[j], target)
    ensures r.clicked.Some? && !LabelIs(links[r.clicked.value], target) ==>
      (forall j :: 0 <= j < |links| ==> !LabelIs(links[j], target))
      && PointsTo(links[r.clicked.value], target)
      && (forall j :: 0 <= j < r.clicked.value ==> !PointsTo(links[j], target))
    ensures r.clicked.None? ==>
      (forall j :: 0 <= j < |links| ==> !LabelIs(links[j], target) && !PointsTo(links[j], target))
      && r.error == Some("Страница " + Num(target).Render() + " не найдена в пагинации")
  {
    var clicked := FindLabelled(links, target);
    if clicked.None? {
      clicked := FindPointing(links, target);
    }
    var found := clicked.Some?;
    r := GoToReply(found, clicked,
      if found then None else Some("Страница " + Num(target).Render() + " не найдена в пагинации"));
  }

  // ---------------------------------------------------------------------
  // Filters
  // ---------------------------------------------------------------------

  /** The suggestion test: its trimmed, lowercased text equals or starts with the lowercased city. */
  predicate SuggestionMatches(text: string, city: string) {
    var t := Lower(Trim(text));
    t == Lower(city) || StartsWith(t, Lower(city))
  }

  /** The equality test adds nothing: the first match is the first whose
      text starts with the city, exact or not. */
  lemma SuggestionMatchIsPrefix(text: string, city: string)
    ensures SuggestionMatches(text, city) <==> StartsWith(Lower(Trim(text)), Lower(city))
  {
  }

  /** The first suggestion that matches the city. */
  function FirstSuggestionMatch(suggestions: seq<string>, city: string): (k: Option<nat>)
    ensures k.Some? ==> k.value < |suggestions| && SuggestionMatches(suggestions[k.value], city)
    ensures k.Some? ==> forall j :: 0 <= j < k.value ==> !SuggestionMatches(suggestions[j], city)
    ensures k.None? ==> forall j :: 0 <= j < |suggestions| ==> !SuggestionMatches(suggestions[j], city)
  {
    if suggestions == [] then None
    else if SuggestionMatches(suggestions[0], city) then Some(0)
    else match FirstSuggestionMatch(suggestions[1..], city)
      case Some(k) => assert suggestions[1..][k] == suggestions[k + 1]; Some(k + 1)
      case None => None
  }

  /** The suggestion clicked for a city: the first matching one, else the first one, else none. */
  function ChosenSuggestion(suggestions: seq<string>, city: string): (pick: Option<nat>)
    ensures suggestions == [] <==> pick.None?
    ensures pick.Some? ==> pick.value < |suggestions|
    ensures pick.Some? && SuggestionMatches(suggestions[pick.value], city) ==>
      forall j :: 0 <= j < pick.value ==> !SuggestionMatches(suggestions[j], city)
    ensures pick.Some? && !SuggestionMatches(suggestions[pick.value], city) ==>
      pick.value == 0 && forall j :: 0 <= j < |suggestions| ==> !SuggestionMatches(suggestions[j], city)
  {
    if suggestions == [] then None
    else match FirstSuggestionMatch(suggestions, city)
      case Some(k) => Some(k)
      case None => Some(0)
  }

  /** The suggestion loop of `setFilters`, run once the autocomplete has answered. */
  method ChooseSuggestion(suggestions: seq<string>, city: string) returns (pick: Option<nat>)
    ensures pick == ChosenSuggestion(suggestions, city)
  {
    if |suggestions| == 0 {
      return None;
    }
    for i := 0 to |suggestions|
      invariant forall j :: 0 <= j < i ==> !SuggestionMatches(suggestions[j], city)
    {
      var text := Lower(Trim(suggestions[i]));
      if text == Lower(city) || StartsWith(text, Lower(city)) {
        FirstMatchAt(suggestions, city, i);
        return Some(i);
      }
    }
    return Some(0);
  }

  lemma {:induction false} FirstMatchAt(suggestions: seq<string>, city: string, i: nat)
    requires i < |suggestions| && SuggestionMatches(suggestions[i], city)
    requires forall j :: 0 <= j < i ==> !SuggestionMatches(suggestions[j], city)
    ensures FirstSuggestionMatch(suggestions, city) == Some(i)
  {
    if i > 0 {
      FirstMatchAt(suggestions[1..], city, i - 1);
    }
  }

  /** An exact suggestion placed after a longer one with the same prefix is
      not chosen: of ["ab", "a"] for the city "a" the first is clicked. */
  lemma ExactMatchNotPreferred()
    ensures ChosenSuggestion(["ab", "a"], "a") == Some(0)
    ensures SuggestionMatches("a", "a")
  {
    assert Trim("ab") == "ab";
    assert Trim("a") == "a";
    assert Lower("ab") == "ab";
    assert Lower("a") == "a";
    assert StartsWith("ab", "a");
  }

  datatype SelectOption = SelectOption(text: string, value: string)

  /** The type option test: the text contains 'простой' or the value 'simple', ignoring case. */
  predicate IsSimpleType(o: SelectOption) {
    Includes(Lower(o.text), "простой") || Includes(Lower(o.value), "simple")
  }

  /** The code option test: the text contains the code or the value is the code. */
  predicate IsCodeOption(o: SelectOption, code: string) {
    Includes(o.text, code) || o.value == code
  }

  function FindSimpleType(opts: seq<SelectOption>): (k: Option<nat>)
    ensures k.Some? ==> k.value < |opts| && IsSimpleType(opts[k.value])
    ensures k.Some? ==> forall j :: 0 <= j < k.value ==> !IsSimpleType(opts[j])
    ensures k.None? ==> forall j :: 0 <= j < |opts| ==> !IsSimpleType(opts[j])
  {
    if opts == [] then None
    else if IsSimpleType(opts[0]) then Some(0)
    else match FindSimpleType(opts[1..])
      case Some(k) => Some(k + 1)
      case None => None
  }

  function FindCodeOption(opts: seq<SelectOption>, code: string): (k: Option<nat>)
    ensures k.Some? ==> k.value < |opts| && IsCodeOption(opts[k.value], code)
    ensures k.Some? ==> forall j :: 0 <= j < k.value ==> !IsCodeOption(opts[j], code)
    ensures k.None? ==> forall j :: 0 <= j < |opts| ==> !IsCodeOption(opts[j], code)
  {
    if opts == [] then None
    else if IsCodeOption(opts[0], code) then Some(0)
    else match FindCodeOption(opts[1..], code)
      case Some(k) => Some(k + 1)
      case None => None
  }

  /** The filter fields as the page holds them. */
  datatype FilterForm = FilterForm(cityText: string, pickedSuggestion: Option<string>, numberType: string, code: string)

  /** The filter controls the page offers. */
  datatype FilterPage = FilterPage(
    hasCityInput: bool,
    suggestions: seq<string>,
    typeSelect: Option<seq<SelectOption>>,
    codeSelect: Option<seq<SelectOption>>,
    hasCodeInput: bool)

  /** `setFilters`: each control found is set; nothing is ever cleared. With
      no suggestion to click the previously picked one stays. */
  function SetFilters(page: FilterPage, form: FilterForm, city: string, code: string): (f: FilterForm)
    ensures !page.hasCityInput ==> f.cityText == form.cityText && f.pickedSuggestion == form.pickedSuggestion
    ensures page.hasCityInput ==> f.cityText == city
    ensures page.hasCityInput && page.suggestions != [] ==>
      f.pickedSuggestion == Some(page.suggestions[ChosenSuggestion(page.suggestions, city).value])
    ensures code == "" ==> f.code == form.code
    ensures f.numberType != form.numberType ==>
      page.typeSelect.Some? && FindSimpleType(page.typeSelect.value).Some?
      && f.numberType == page.typeSelect.value[FindSimpleType(page.typeSelect.value).value].value
    ensures f.code != form.code ==> code != "" && (f.code == code || page.codeSelect.Some?)
    ensures code != "" && page.codeSelect.None? && page.hasCodeInput ==> f.code == code
    ensures page.hasCityInput && page.suggestions == [] ==> f.pickedSuggestion == form.pickedSuggestion
    ensures page.typeSelect.Some? && FindSimpleType(page.typeSelect.value).Some? ==>
      f.numberType == page.typeSelect.value[FindSimpleType(page.typeSelect.value).value].value
    ensures page.typeSelect.None? || FindSimpleType(page.typeSelect.value).None? ==> f.numberType == form.numberType
    ensures code != "" && page.codeSelect.Some? ==>
      f.code == (match FindCodeOption(page.codeSelect.value, code)
                 case Some(k) => page.codeSelect.value[k].value
                 case None => form.code)
    ensures code != "" && page.codeSelect.None? && !page.hasCodeInput ==> f.code == form.code
  {
    var f1 :=
      if !page.hasCityInput then form
      else form.(cityText := city,
                 pickedSuggestion :=
                   match ChosenSuggestion(page.suggestions, city)
                   case Some(k) => Some(page.suggestions[k])
                   case None => form.pickedSuggestion);
    var f2 :=
      if page.typeSelect.None? then f1
      else match FindSimpleType(page.typeSelect.value)
        case Some(k) => f1.(numberType := page.typeSelect.value[k].value)
        case None => f1;
    if code == "" then f2
    else if page.codeSelect.Some? then
      match FindCodeOption(page.codeSelect.value, code)
      case Some(k) => f2.(code := page.codeSelect.value[k].value)
      case None => f2
    else if page.hasCodeInput then f2.(code := code)
    else f2
  }

  /** A second `setFilters` without a code keeps the code of the first one. */
  lemma FiltersNotCleared(page: FilterPage, form: FilterForm, city: string, code: string, city2: string)
    ensures SetFilters(page, SetFilters(page, form, city, code), city2, "").code == SetFilters(page, form, city, code).code
  {
  }

  // ---------------------------------------------------------------------
  // Buttons and the auth check
  // ---------------------------------------------------------------------

  datatype Button = Button(text: string, value: Option<string>)

  /** `findButtonByText`'s test on one button. */
  predicate ButtonHasText(b: Button, text: string) {
    Includes(Lower(Trim(b.text)), Lower(text))
    || (Present(b.value) && Includes(Lower(b.value.value), Lower(text)))
  }

  /** No button carries the text. */
  predicate NoButtonHas(buttons: seq<Button>, text: string) {
    forall j :: 0 <= j < |buttons| ==> !ButtonHasText(buttons[j], text)
  }

  /** The first button whose text or value contains the text, ignoring case. */
  function FirstButton(buttons: seq<Button>, text: string): (k: Option<nat>)
    ensures k.Some? ==> k.value < |buttons| && ButtonHasText(buttons[k.value], text)
    ensures k.Some? ==> forall j :: 0 <= j < k.value ==> !ButtonHasText(buttons[j], text)
    ensures k.None? ==> NoButtonHas(buttons, text)
  {
    if buttons == [] then None
    else if ButtonHasText(buttons[0], text) then Some(0)
    else match FirstButton(buttons[1..], text)
      case Some(k) => assert buttons[1..][k] == buttons[k + 1]; Some(k + 1)
      case None => None
  }

  /** `findButtonByText`: the loop over the page's buttons. */
  method FindButtonByText(buttons: seq<Button>, text: string) returns (k: Option<nat>)
    ensures k == FirstButton(buttons, text)
  {
    for i := 0 to |buttons|
      invariant forall j :: 0 <= j < i ==> !ButtonHasText(buttons[j], text)
    {
      if ButtonHasText(buttons[i], text) {
        FirstButtonAt(buttons, text, i);
        return Some(i);
      }
    }
    FirstButtonAbsent(buttons, text);
    return None;
  }

  lemma {:induction false} FirstButtonAbsent(buttons: seq<Button>, text: string)
    requires forall j :: 0 <= j < |buttons| ==> !ButtonHasText(buttons[j], text)
    ensures FirstButton(buttons, text) == None
  {
    if buttons != [] {
      FirstButtonAbsent(buttons[1..], text);
    }
  }

  lemma {:induction false} FirstButtonAt(buttons: seq<Button>, text: string, i: nat)
    requires i < |buttons| && ButtonHasText(buttons[i], text)
    requires forall j :: 0 <= j < i ==> !ButtonHasText(buttons[j], text)
    ensures FirstButton(buttons, text) == Some(i)
  {
    if i > 0 {
      FirstButtonAt(buttons[1..], text, i - 1);
    }
  }

  datatype ApplyChoice = ByLabel(caption: string, index: nat) | SubmitButton(index: nat) | PrimaryButton(index: nat)

  /** The button `RUNEXIS_APPLY_FILTERS` clicks: the labels in priority
      order, then the first submit button, then the first `.btn-primary`. */
  function ApplyTarget(buttons: seq<Button>, submit: Option<nat>, primary: Option<nat>): Option<ApplyChoice> {
    match FirstButton(buttons, "Применить")
    case Some(k) => Some(ByLabel("Применить", k))
    case None =>
      match FirstButton(buttons, "Поиск")
      case Some(k) => Some(ByLabel("Поиск", k))
      case None =>
        match FirstButton(buttons, "Найти")
        case Some(k) => Some(ByLabel("Найти", k))
        case None =>
          if submit.Some? then Some(SubmitButton(submit.value))
          else if primary.Some? then Some(PrimaryButton(primary.value))
          else None
  }

  /** The priority law: a button is chosen by a label only when no button
      carries an earlier label; the submit button only when no button carries
      any label; the primary button only when there is also no submit
      button; and nothing is chosen only when none of these exists. */
  lemma ApplyTargetPriority(buttons: seq<Button>, submit: Option<nat>, primary: Option<nat>)
    ensures var t := ApplyTarget(buttons, submit, primary);
      t.Some? && t.value.ByLabel? ==>
        t.value.index < |buttons| && ButtonHasText(buttons[t.value.index], t.value.caption)
        && (t.value.caption == "Поиск" ==> NoButtonHas(buttons, "Применить"))
        && (t.value.caption == "Найти" ==> NoButtonHas(buttons, "Применить") && NoButtonHas(buttons, "Поиск"))
    ensures var t := ApplyTarget(buttons, submit, primary);
      (t.Some? && !t.value.ByLabel?) <==>
        NoButtonHas(buttons, "Применить") && NoButtonHas(buttons, "Поиск") && NoButtonHas(buttons, "Найти")
        && (submit.Some? || primary.Some?)
    ensures var t := ApplyTarget(buttons, submit, primary);
      t.Some? && t.value.SubmitButton? ==> submit == Some(t.value.index)
    ensures var t := ApplyTarget(buttons, submit, primary);
      t.Some? && t.value.PrimaryButton? ==> submit.None? && primary == Some(t.value.index)
  {
    var a := FirstButton(buttons, "Применить");
    var b := FirstButton(buttons, "Поиск");
    var c := FirstButton(buttons, "Найти");
    if a.Some? {
      assert !NoButtonHas(buttons, "Применить") by { assert ButtonHasText(buttons[a.value], "Применить"); }
    } else if b.Some? {
      assert !NoButtonHas(buttons, "Поиск") by { assert ButtonHasText(buttons[b.value], "Поиск"); }
    } else if c.Some? {
      assert !NoButtonHas(buttons, "Найти") by { assert ButtonHasText(buttons[c.value], "Найти"); }
    }
  }

  datatype ApplyReply = ApplyReply(ok: bool, clicked: Option<ApplyChoice>, error: Option<string>)

  /** `RUNEXIS_APPLY_FILTERS`: `submit` and `primary` are the first
      `button[type=submit]` and the first `.btn-primary`, if any. */
  method ApplyFilters(buttons: seq<Button>, submit: Option<nat>, primary: Option<nat>) returns (r: ApplyReply)
    ensures r.clicked == ApplyTarget(buttons, submit, primary)
    ensures r.ok <==> r.clicked.Some?
    ensures r.error == if r.ok then None else Some("Кнопка \"Применить\" не найдена")
  {
    var k := FindButtonByText(buttons, "Применить");
    if k.Some? {
      return ApplyReply(true, Some(ByLabel("Применить", k.value)), None);
    }
    k := FindButtonByText(buttons, "Поиск");
    if k.Some? {
      return ApplyReply(true, Some(ByLabel("Поиск", k.value)), None);
    }
    k := FindButtonByText(buttons, "Найти");
    if k.Some? {
      return ApplyReply(true, Some(ByLabel("Найти", k.value)), None);
    }
    if submit.Some? {
      return ApplyReply(true, Some(SubmitButton(submit.value)), None);
    }
    if primary.Some? {
      return ApplyReply(true, Some(PrimaryButton(primary.value)), None);
    }
    r := ApplyReply(false, None, Some("Кнопка \"Применить\" не найдена"));
  }

  datatype AuthReply = AuthReply(ok: bool, isLoginPage: bool, isNumbersPage: bool, url: string)

  /** `RUNEXIS_CHECK_AUTH`: a login page is recognised by its path or by the login form or username field. */
  function CheckAuth(path: string, href: string, hasLoginForm: bool, hasUsernameInput: bool): (r: AuthReply)
    ensures r.ok && r.url == href
    ensures r.isLoginPage <==> Contains(path, "/site/login") || hasLoginForm || hasUsernameInput
    ensures r.isNumbersPage <==> Contains(path, "/numbers")
  {
    AuthReply(true, Includes(path, "/site/login") || hasLoginForm || hasUsernameInput,
      Includes(path, "/numbers"), href)
  }
}
