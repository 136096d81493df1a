/** The accounting customer page: the client code taken from the query
    string, the "Линия номер" heading, and the `PARSE_ACCOUNTING` reply. */
module AccountingContent {
  import opened Text
  import opened Lists
  import OtrsContent

  // ---------------------------------------------------------------------
  // extractClientCode
  // ---------------------------------------------------------------------

  /** `extractClientCode()`: `customer` is the `otrs_customer` query
      parameter (None when absent). A leading `[A-Z]{3}\d{5}` is cut out;
      otherwise the parameter is returned whole. */
  function ExtractClientCode(customer: Option<string>): (r: string)
    ensures customer.None? ==> r == ""
    ensures customer.Some? && OtrsContent.IsCodeAt(customer.value, 0) ==>
      r == customer.value[..8] && OtrsContent.IsClientCode(r)
    ensures customer.Some? && !OtrsContent.IsCodeAt(customer.value, 0) ==> r == customer.value
  {
    var c := if customer.Some? then customer.value else "";
    if OtrsContent.IsCodeAt(c, 0) then
      assert c[..8][3..] == c[3..8];
      c[..8]
    else c
  }

  /** The result is always a prefix of the parameter, and feeding it back in
      gives it again: a code stays a code, anything else stays as it was. */
  lemma ClientCodeIdempotent(customer: Option<string>)
    ensures var r := ExtractClientCode(customer);
      (customer.Some? ==> StartsWith(customer.value, r))
      && ExtractClientCode(Some(r)) == r
  {
    var r := ExtractClientCode(customer);
    if customer.Some? && OtrsContent.IsCodeAt(customer.value, 0) {
      assert r[3..8] == customer.value[3..8];
      assert OtrsContent.IsCodeAt(r, 0);
    }
  }

  // ---------------------------------------------------------------------
  // LINE_HEADER_RE = Линия\s+номер\s+(\d+)\s*\/?\s*(\d*)   (flag i)
  // ---------------------------------------------------------------------

  /** `{ lineNumber, lineNumberAlt }`. */
  datatype LineHeader = LineHeader(lineNumber: string, lineNumberAlt: string)

  const NO_LINE := LineHeader("", "")

  /** `\s+` at j: where the greedy run ends, when it has at least one space. */
  function SpacesPlus(s: string, j: nat): (e: Option<nat>)
    requires j <= |s|
    ensures e.Some? ==> j < e.value <= |s| && IsSpace(s[j])
  {
    if j < |s| && IsSpace(s[j]) then Some(OtrsContent.SkipSpaces(s, j)) else None
  }

  /** A word of the heading (any case) and `\s+` at k: where the spaces end. */
  function WordEnd(s: string, k: nat, word: string): (e: Option<nat>)
    ensures e.Some? ==> OtrsContent.FoldAt(s, k, word) && k + |word| < e.value <= |s|
    ensures e.Some? <==> OtrsContent.FoldAt(s, k, word) && k + |word| < |s| && IsSpace(s[k + |word|])
  {
    if OtrsContent.FoldAt(s, k, word) then SpacesPlus(s, k + |word|) else None
  }

  /** `(\d+)\s*\/?\s*(\d*)` at d. The number run is greedy; what follows
      it always matches, so no part gives characters back. */
  function GroupsAt(s: string, d: nat): (r: Option<LineHeader>)
    requires d <= |s|
    ensures r.Some? ==> r.value.lineNumber != [] && AllDigits(r.value.lineNumber)
    ensures r.Some? ==> AllDigits(r.value.lineNumberAlt)
  {
    var num := DigitPrefix(s[d..]);
    if num == [] then None
    else
      var e := OtrsContent.SkipSpaces(s, d + |num|);
      var f := if e < |s| && s[e] == '/' then e + 1 else e;
      var g := OtrsContent.SkipSpaces(s, f);
      Some(LineHeader(num, DigitPrefix(s[g..])))
  }

  /** The match of LINE_HEADER_RE starting exactly at k. */
  function HeaderAt(s: string, k: nat): (r: Option<LineHeader>)
    ensures r.Some? ==> r.value.lineNumber != [] && AllDigits(r.value.lineNumber)
    ensures r.Some? ==> AllDigits(r.value.lineNumberAlt)
  {
    match WordEnd(s, k, "Линия")
    case None => None
    case Some(b) =>
      match WordEnd(s, b, "номер")
      case None => None
      case Some(d) => GroupsAt(s, d)
  }

  /** The two words of the heading, each followed by one space. */
  lemma HeadingWords(s: string)
    requires |s| > 12 && s[..12] == "Линия номер " && !IsSpace(s[12])
    ensures WordEnd(s, 0, "Линия") == Some(6) && WordEnd(s, 6, "номер") == Some(12)
  {
    assert forall i :: 0 <= i < 12 ==> s[i] == "Линия номер "[i];
    assert OtrsContent.FoldAt(s, 0, "Линия");
    assert OtrsContent.SkipSpaces(s, 6) == 6;
    assert OtrsContent.FoldAt(s, 6, "номер");
    assert OtrsContent.SkipSpaces(s, 12) == 12;
  }

  /** The number run at d, then the '/' right after it. */
  lemma NumberThenSlash(s: string, d: nat, num: string, tail: string)
    requires num != [] && AllDigits(num)
    requires d <= |s| && s[d..] == num + ("/" + tail)
    ensures DigitPrefix(s[d..]) == num
    ensures d + |num| < |s| && s[d + |num|] == '/'
    ensures OtrsContent.SkipSpaces(s, d + |num|) == d + |num|
    ensures s[d + |num| + 1..] == tail
  {
    DigitPrefixOf(num, "/" + tail);
    assert s[d..][|num|] == '/';
  }

  /** The alternative run after the slash, with nothing to skip before it. */
  lemma AltAfterSlash(s: string, f: nat, alt: string, rest: string)
    requires AllDigits(alt)
    requires rest == [] || (!IsDigit(rest[0]) && !IsSpace(rest[0]))
    requires f <= |s| && s[f..] == alt + rest
    ensures OtrsContent.SkipSpaces(s, f) == f
    ensures DigitPrefix(s[f..]) == alt
  {
    if alt != [] {
      assert s[f] == s[f..][0] == alt[0];
    } else if rest != [] {
      assert s[f] == s[f..][0] == rest[0];
    }
    DigitPrefixOf(alt, rest);
  }

  /** The groups read back from "<num>/<alt>" at d. */
  lemma GroupsReadBack(s: string, d: nat, num: string, alt: string, rest: string)
    requires num != [] && AllDigits(num) && AllDigits(alt)
    requires rest == [] || (!IsDigit(rest[0]) && !IsSpace(rest[0]))
    requires d <= |s| && s[d..] == num + ("/" + (alt + rest))
    ensures GroupsAt(s, d) == Some(LineHeader(num, alt))
  {
    NumberThenSlash(s, d, num, alt + rest);
    var f := d + |num| + 1;
    AltAfterSlash(s, f, alt, rest);
    assert GroupsAt(s, d) == Some(LineHeader(num, DigitPrefix(s[f..])));
  }

  /** A heading written as "Линия номер <num>/<alt>" reads back as (num, alt)
      when what follows cannot extend the alternative number. */
  lemma HeaderReadsBack(num: string, alt: string, rest: string)
    requires num != [] && AllDigits(num) && AllDigits(alt)
    requires rest == [] || (!IsDigit(rest[0]) && !IsSpace(rest[0]))
    ensures HeaderAt("Линия номер " + num + "/" + alt + rest, 0) == Some(LineHeader(num, alt))
  {
    var s := "Линия номер " + num + "/" + alt + rest;
    assert s[..12] == "Линия номер ";
    assert s[12] == num[0];
    HeadingWords(s);
    assert s[12..] == num + ("/" + (alt + rest));
    GroupsReadBack(s, 12, num, alt, rest);
  }

  /** The leftmost match position at or after k, as a non-global `exec` finds it. */
  function FirstHeaderFrom(s: string, k: nat): (r: Option<nat>)
    requires k <= |s|
    ensures r.Some? ==> k <= r.value < |s|
    decreases |s| - k
  {
    if k == |s| then None
    else if HeaderAt(s, k).Some? then Some(k)
    else FirstHeaderFrom(s, k + 1)
  }

  /** The scan stops only at a match. */
  lemma {:induction false} FirstHeaderFound(s: string, k: nat)
    requires k <= |s|
    ensures var r := FirstHeaderFrom(s, k); r.Some? ==> HeaderAt(s, r.value).Some?
    decreases |s| - k
  {
    if k < |s| && HeaderAt(s, k).None? {
      FirstHeaderFound(s, k + 1);
    }
  }

  /** No position the scan passed over starts a match. */
  lemma {:induction false} NoHeaderBefore(s: string, k: nat, i: nat)
    requires k <= i < |s|
    requires FirstHeaderFrom(s, k).Some? && i < FirstHeaderFrom(s, k).value
    ensures HeaderAt(s, i).None?
    decreases |s| - k
  {
    if k < i {
      NoHeaderBefore(s, k + 1, i);
    }
  }

  /** When the scan finds nothing, no position from k on starts a match. */
  lemma {:induction false} NoHeaderAfter(s: string, k: nat, i: nat)
    requires k <= i < |s|
    requires FirstHeaderFrom(s, k).None?
    ensures HeaderAt(s, i).None?
    decreases |s| - k
  {
    if k < i {
      NoHeaderAfter(s, k + 1, i);
    }
  }

  /** `LINE_HEADER_RE.exec(text)` reduced to its two groups. */
  function HeaderIn(text: string): (r: Option<LineHeader>)
    ensures r.Some? ==> r.value.lineNumber != [] && AllDigits(r.value.lineNumber)
    ensures r.Some? ==> AllDigits(r.value.lineNumberAlt)
  {
    match FirstHeaderFrom(text, 0)
    case None => None
    case Some(i) => HeaderAt(text, i)
  }

  /** The text has a match exactly when some position starts one, and the
      match found is one of them. */
  lemma HeaderInSpec(text: string)
    ensures HeaderIn(text).None? <==> forall i :: 0 <= i < |text| ==> HeaderAt(text, i).None?
    ensures HeaderIn(text).Some? ==> exists i :: 0 <= i < |text| && HeaderAt(text, i) == HeaderIn(text)
  {
    FirstHeaderFound(text, 0);
    forall i | 0 <= i < |text| && FirstHeaderFrom(text, 0).None?
      ensures HeaderAt(text, i).None?
    {
      NoHeaderAfter(text, 0, i);
    }
  }

  /** The first heading text (in document order) that contains a match. */
  function FirstHeaderIn(headers: seq<string>): (r: Option<LineHeader>)
    ensures r.None? <==> forall j :: 0 <= j < |headers| ==> HeaderIn(headers[j]).None?
    ensures r.Some? ==> r.value.lineNumber != [] && AllDigits(r.value.lineNumber)
    ensures r.Some? ==> AllDigits(r.value.lineNumberAlt)
  {
    if headers == [] then None
    else if HeaderIn(headers[0]).Some? then HeaderIn(headers[0])
    else FirstHeaderIn(headers[1..])
  }

  /** What `extractLineNumber()` returns for the page text `body` and the
      texts of its headings. */
  function LineNumberOf(body: string, headers: seq<string>): LineHeader {
    match HeaderIn(body)
    case Some(h) => h
    case None =>
      match FirstHeaderIn(headers)
      case Some(h) => h
      case None => NO_LINE
  }

  /** `extractLineNumber()`: the body text first, then each heading in turn. */
  method ExtractLineNumber(body: string, headers: seq<string>) returns (r: LineHeader)
    ensures r == LineNumberOf(body, headers)
  {
    var m := HeaderIn(body);
    if m.Some? {
      return m.value;
    }
    var j := 0;
    while j < |headers|
      invariant j <= |headers|
      invariant FirstHeaderIn(headers) == FirstHeaderIn(headers[j..])
      decreases |headers| - j
    {
      assert headers[j..][1..] == headers[j + 1..];
      var hm := HeaderIn(headers[j]);
      if hm.Some? {
        return hm.value;
      }
      j := j + 1;
    }
    return NO_LINE;
  }

  /** Both fields are empty exactly when no text has a match; otherwise the
      line number is a non-empty digit run and the alternative is digits. */
  lemma LineNumberEmptyIffNoMatch(body: string, headers: seq<string>)
    ensures var r := LineNumberOf(body, headers);
      (r == NO_LINE <==>
        (forall i :: 0 <= i < |body| ==> HeaderAt(body, i).None?)
        && (forall j :: 0 <= j < |headers| ==> HeaderIn(headers[j]).None?))
      && (r != NO_LINE ==> r.lineNumber != [] && AllDigits(r.lineNumber) && AllDigits(r.lineNumberAlt))
  {
    HeaderInSpec(body);
  }

  /** A match anywhere in the body decides the result, whatever the headings
      hold: it is the body's match at the leftmost position, which is at or
      before the given one. */
  lemma BodyTakesPrecedence(body: string, headers: seq<string>, i: nat)
    requires i < |body| && HeaderAt(body, i).Some?
    ensures FirstHeaderFrom(body, 0).Some? && FirstHeaderFrom(body, 0).value <= i
    ensures Some(LineNumberOf(body, headers)) == HeaderAt(body, FirstHeaderFrom(body, 0).value)
  {
    FirstHeaderFound(body, 0);
    if FirstHeaderFrom(body, 0).None? {
      NoHeaderAfter(body, 0, i);
    } else if i < FirstHeaderFrom(body, 0).value {
      NoHeaderBefore(body, 0, i);
    }
  }

  // ---------------------------------------------------------------------
  // collectAccountingData and the PARSE_ACCOUNTING reply
  // ---------------------------------------------------------------------

  /** One row of the services table, kept as the page gives it. */
  datatype ServiceRow = ServiceRow(cells: seq<string>, raw: string)

  datatype AccountingData = AccountingData(
    source: string, url: string, clientCode: string,
    lineNumber: string, lineNumberAlt: string, services: seq<ServiceRow>)

  /** `collectAccountingData()`: the page's url, query parameter, texts and
      service rows arrive as parameters. */
  function CollectAccountingData(url: string, customer: Option<string>, body: string,
                                 headers: seq<string>, services: seq<ServiceRow>): (d: AccountingData)
    ensures d.source == "accounting" && d.url == url && d.services == services
    ensures d.clientCode == ExtractClientCode(customer)
    ensures d.lineNumber == "" <==> LineNumberOf(body, headers) == NO_LINE
    ensures d.lineNumber == LineNumberOf(body, headers).lineNumber
    ensures d.lineNumberAlt == LineNumberOf(body, headers).lineNumberAlt
  {
    LineNumberEmptyIffNoMatch(body, headers);
    var line := LineNumberOf(body, headers);
    AccountingData("accounting", url, ExtractClientCode(customer), line.lineNumber, line.lineNumberAlt, services)
  }

  datatype Reply = DataReply(data: AccountingData) | ErrorReply(error: string)

  /** The message listener. `collected` is what `collectAccountingData()`
      produced, or the message of the error it threw. Other message types get
      no reply (None). */
  function OnMessage(msgType: string, collected: Result<AccountingData>): (r: Option<Reply>)
    ensures r.Some? <==> msgType == "PARSE_ACCOUNTING"
    ensures r.Some? && collected.Ok? ==> r.value == DataReply(collected.value)
    ensures r.Some? && collected.Failure? ==> r.value == ErrorReply(collected.error)
  {
    if msgType != "PARSE_ACCOUNTING" then None
    else match collected
      case Ok(d) => Some(DataReply(d))
      case Failure(e) => Some(ErrorReply(e))
  }

  /** A successful reply to `PARSE_ACCOUNTING` always carries source 'accounting'. */
  lemma ParseReplySource(url: string, customer: Option<string>, body: string,
                         headers: seq<string>, services: seq<ServiceRow>)
    ensures var r := OnMessage("PARSE_ACCOUNTING", Ok(CollectAccountingData(url, customer, body, headers, services)));
      r.Some? && r.value.DataReply? && r.value.data.source == "accounting"
  {
  }
}
