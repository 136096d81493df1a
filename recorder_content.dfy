/** The recorder content script: a stable CSS selector for a clicked element,
    the kind of action it records, the replay of a recorded step, and the
    recording switch. */
module RecorderContent {
  import opened Text
  import opened Lists

  // The clicked element and its ancestors.

  datatype Attr = Attr(name: string, value: string)

  /** One element as the selector code sees it. `name` is '' when the element
      has no name; `className` is None when it is not a string (an SVG
      element). `sameTagSiblings` counts the children of the parent with this
      element's tag, itself included, and `siblingIndex` is its 0-based place
      among them. */
  datatype Node = Node(
    tagName: string, id: string, name: string, attributes: seq<Attr>,
    className: Option<string>, isBody: bool, sameTagSiblings: nat, siblingIndex: nat)

  // `CSS.escape`, as the CSS Object Model specification (section 2.1,
  // "serialize an identifier") defines it.

  function HexDigit(d: nat): char
    requires d < 16
  {
    if d < 10 then ('0' as int + d) as char else ('a' as int + d - 10) as char
  }

  /** Lower-case hexadecimal without leading zeros. */
  function Hex(n: nat): (s: string)
    ensures s != []
  {
    if n < 16 then [HexDigit(n)] else Hex(n / 16) + [HexDigit(n % 16)]
  }

  /** The escape of one character at index i of the identifier s. */
  function EscapeChar(s: string, i: nat): string
    requires i < |s|
  {
    var c := s[i];
    var n := c as int;
    if n == 0 then [0xFFFD as char]
    else if (1 <= n <= 0x1F) || n == 0x7F then "\\" + Hex(n) + " "
    else if i == 0 && IsDigit(c) then "\\" + Hex(n) + " "
    else if i == 1 && IsDigit(c) && s[0] == '-' then "\\" + Hex(n) + " "
    else if i == 0 && c == '-' && |s| == 1 then "\\-"
    else if n >= 0x80 || c == '-' || c == '_' || IsDigit(c) || ('A' <= c <= 'Z') || ('a' <= c <= 'z') then [c]
    else "\\" + [c]
  }

  function EscapeFrom(s: string, i: nat): string
    requires i <= |s|
    decreases |s| - i
  {
    if i == |s| then [] else EscapeChar(s, i) + EscapeFrom(s, i + 1)
  }

  function CssEscape(s: string): string { EscapeFrom(s, 0) }

  /** Characters that never need an escape in any position. */
  predicate IsPlainChar(c: char) { ('A' <= c <= 'Z') || ('a' <= c <= 'z') || c == '_' || c as int >= 0x80 }

  lemma {:induction false} EscapeFromPlain(s: string, i: nat)
    requires i <= |s|
    requires forall j :: 0 <= j < |s| ==> IsPlainChar(s[j])
    ensures EscapeFrom(s, i) == s[i..]
    decreases |s| - i
  {
    if i < |s| {
      EscapeFromPlain(s, i + 1);
      assert s[i..] == [s[i]] + s[i + 1..];
    }
  }

  /** An identifier made of letters, '_' and non-ASCII characters is its own
      escape; a leading digit is always escaped. */
  lemma CssEscapeProperties(s: string)
    ensures (forall j :: 0 <= j < |s| ==> IsPlainChar(s[j])) ==> CssEscape(s) == s
    ensures s != [] && IsDigit(s[0]) ==> CssEscape(s)[0] == '\\'
  {
    if forall j :: 0 <= j < |s| ==> IsPlainChar(s[j]) {
      EscapeFromPlain(s, 0);
    }
  }

  // The selector.

  predicate IsDataAttr(a: Attr) { StartsWith(a.name, "data-") && a.value != "" }

  /** The index of the first `data-*` attribute with a non-empty value. */
  function FirstDataAttr(attrs: seq<Attr>): (k: Option<nat>)
    ensures k.Some? ==> k.value < |attrs| && IsDataAttr(attrs[k.value])
    ensures k.Some? ==> forall m :: 0 <= m < k.value ==> !IsDataAttr(attrs[m])
    ensures k.None? ==> forall m :: 0 <= m < |attrs| ==> !IsDataAttr(attrs[m])
  {
    if attrs == [] then None
    else if IsDataAttr(attrs[0]) then Some(0)
    else match FirstDataAttr(attrs[1..])
      case Some(k) => assert attrs[1..][k] == attrs[k + 1]; Some(k + 1)
      case None => None
  }

  lemma {:induction false} FirstDataAttrAt(attrs: seq<Attr>, j: nat)
    requires j < |attrs| && IsDataAttr(attrs[j])
    requires forall m :: 0 <= m < j ==> !IsDataAttr(attrs[m])
    ensures FirstDataAttr(attrs) == Some(j)
  {
  }

  /** The first two classes: `className.trim().split(/\s+/).slice(0, 2)`,
      empty when the class name is not a string or is blank. */
  function Classes(n: Node): (cs: seq<string>)
    ensures |cs| <= 2
    ensures forall i :: 0 <= i < |cs| ==> cs[i] != []
    ensures n.className.None? ==> cs == []
    ensures n.className.Some? ==>
      |cs| == (if |Words(n.className.value)| < 2 then |Words(n.className.value)| else 2)
      && cs == Words(n.className.value)[..|cs|]
  {
    if n.className.None? then [] else HeadSlice(Words(n.className.value), 2)
  }

  function EscapeAll(cs: seq<string>): (r: seq<string>)
    ensures |r| == |cs|
    ensures forall i {:trigger r[i]} :: 0 <= i < |cs| ==> r[i] == CssEscape(cs[i])
  {
    if cs == [] then []
    else EscapeAll(cs[..|cs| - 1]) + [CssEscape(cs[|cs| - 1])]
  }

  /** `:nth-of-type(k)`, 1-based, only when the parent has several children
      with this tag. */
  function NthPart(n: Node, hasParent: bool): string {
    if hasParent && n.sameTagSiblings > 1 then ":nth-of-type(" + NatToString(n.siblingIndex + 1) + ")" else ""
  }

  /** The path segment of an element without an id. */
  function Segment(n: Node, hasParent: bool): string {
    var cs := Classes(n);
    Lower(n.tagName) + (if cs == [] then "" else "." + Join(EscapeAll(cs), ".")) + NthPart(n, hasParent)
  }

  /** The segments from the nearest ancestor with an id (or the child of
      `body`) down to the element. */
  function PathSegments(chain: seq<Node>): (segs: seq<string>)
    ensures |segs| <= |chain|
  {
    if chain == [] || chain[0].isBody then []
    else if chain[0].id != "" then ["#" + CssEscape(chain[0].id)]
    else PathSegments(chain[1..]) + [Segment(chain[0], |chain| > 1)]
  }

  /** `getStableSelector(el)`; chain[0] is the element, chain[i + 1] the parent
      of chain[i], up to the root. */
  function StableSelector(chain: seq<Node>): string
    requires chain != []
  {
    var el := chain[0];
    if el.id != "" then "#" + CssEscape(el.id)
    else if el.name != "" then Lower(el.tagName) + "[name=\"" + CssEscape(el.name) + "\"]"
    else match FirstDataAttr(el.attributes)
      case Some(k) =>
        var a := el.attributes[k];
        Lower(el.tagName) + "[" + a.name + "=\"" + CssEscape(a.value) + "\"]"
      case None => Join(PathSegments(chain), " > ")
  }

  /** The path climbs to the nearest ancestor with an id, which becomes the
      first segment. */
  lemma {:induction false} PathHeadIsNearestId(chain: seq<Node>, j: nat)
    requires j < |chain| && chain[j].id != "" && !chain[j].isBody
    requires forall m :: 0 <= m < j ==> chain[m].id == "" && !chain[m].isBody
    ensures |PathSegments(chain)| == j + 1
    ensures PathSegments(chain)[0] == "#" + CssEscape(chain[j].id)
  {
    if j > 0 {
      PathHeadIsNearestId(chain[1..], j - 1);
    }
  }

  /** Below that first segment the path lists every element under the
      ancestor, from the root side down to the clicked one. */
  lemma {:induction false} PathStopsAtNearestId(chain: seq<Node>, j: nat)
    requires j < |chain| && chain[j].id != "" && !chain[j].isBody
    requires forall m :: 0 <= m < j ==> chain[m].id == "" && !chain[m].isBody
    ensures |PathSegments(chain)| == j + 1
    ensures PathSegments(chain)[0] == "#" + CssEscape(chain[j].id)
    ensures forall m :: 0 <= m < j ==> PathSegments(chain)[j - m] == Segment(chain[m], m + 1 < |chain|)
  {
    PathHeadIsNearestId(chain, j);
    if j > 0 {
      PathStopsAtNearestId(chain[1..], j - 1);
      PathExtend(chain, j);
    }
  }

  /** The segments below the ancestor, grown by the clicked element's own. */
  lemma PathExtend(chain: seq<Node>, j: nat)
    requires 0 < j < |chain| && chain[0].id == "" && !chain[0].isBody
    requires |PathSegments(chain[1..])| == j
    requires forall m :: 0 <= m < j - 1 ==>
      PathSegments(chain[1..])[(j - 1) - m] == Segment(chain[1..][m], m + 1 < |chain[1..]|)
    ensures forall m :: 0 <= m < j ==> PathSegments(chain)[j - m] == Segment(chain[m], m + 1 < |chain|)
  {
    forall m | 0 <= m < j ensures PathSegments(chain)[j - m] == Segment(chain[m], m + 1 < |chain|) {
      if m > 0 {
        PathShift(chain, j, m);
      } else {
        PathLast(chain);
      }
    }
  }

  /** An element without an id below `body` contributes the last segment. */
  lemma PathLast(chain: seq<Node>)
    requires chain != [] && chain[0].id == "" && !chain[0].isBody
    ensures |PathSegments(chain)| == |PathSegments(chain[1..])| + 1
    ensures PathSegments(chain)[|PathSegments(chain[1..])|] == Segment(chain[0], |chain| > 1)
  {
  }

  /** One step of PathStopsAtNearestId: an element below the clicked one keeps
      its segment when the path grows by the clicked element's own. */
  lemma PathShift(chain: seq<Node>, j: nat, m: nat)
    requires 0 < m < j < |chain| && chain[0].id == "" && !chain[0].isBody
    requires |PathSegments(chain[1..])| == j
    requires PathSegments(chain[1..])[(j - 1) - (m - 1)] == Segment(chain[1..][m - 1], (m - 1) + 1 < |chain[1..]|)
    ensures PathSegments(chain)[j - m] == Segment(chain[m], m + 1 < |chain|)
  {
    assert chain[1..][m - 1] == chain[m];
  }

  /** Without an id below `body`, the path has one segment per element below
      `body`, the clicked element's segment last. */
  lemma {:induction false} PathToBody(chain: seq<Node>, b: nat)
    requires b <= |chain| && (b < |chain| ==> chain[b].isBody)
    requires forall m :: 0 <= m < b ==> chain[m].id == "" && !chain[m].isBody
    ensures |PathSegments(chain)| == b
    ensures b > 0 ==> PathSegments(chain)[b - 1] == Segment(chain[0], |chain| > 1)
  {
    if b > 0 {
      PathToBody(chain[1..], b - 1);
    }
  }

  /** The first two classes and the sibling position make up a segment. */
  lemma SegmentParts(n: Node, hasParent: bool)
    ensures |Classes(n)| <= 2
    ensures NthPart(n, hasParent) != "" <==> hasParent && n.sameTagSiblings > 1
    ensures Segment(n, hasParent) == Lower(n.tagName) + Segment(n, hasParent)[|n.tagName|..]
  {
    var cs := Classes(n);
    var tail := (if cs == [] then "" else "." + Join(EscapeAll(cs), ".")) + NthPart(n, hasParent);
    assert Segment(n, hasParent) == Lower(n.tagName) + tail;
    assert |Lower(n.tagName)| == |n.tagName|;
  }

  /** The loop over `el.attributes` of `getStableSelector`. */
  method FindDataAttr(attrs: seq<Attr>) returns (k: Option<nat>)
    ensures k == FirstDataAttr(attrs)
  {
    for j := 0 to |attrs|
      invariant forall m :: 0 <= m < j ==> !IsDataAttr(attrs[m])
    {
      if IsDataAttr(attrs[j]) {
        FirstDataAttrAt(attrs, j);
        return Some(j);
      }
    }
    return None;
  }

  /** One step of the climb: an element with an id closes the path, any
      other is prepended and the climb goes on at its parent. */
  lemma PathStep(c: seq<Node>, path: seq<string>)
    requires c != [] && !c[0].isBody
    ensures c[0].id != "" ==> PathSegments(c) + path == ["#" + CssEscape(c[0].id)] + path
    ensures c[0].id == "" ==>
      PathSegments(c) + path == PathSegments(c[1..]) + ([Segment(c[0], |c| > 1)] + path)
  {
  }

  /** The climbing loop of `getStableSelector`, building the path with
      `path.unshift`. */
  method BuildPath(chain: seq<Node>) returns (path: seq<string>)
    ensures path == PathSegments(chain)
  {
    path := [];
    var i := 0;
    while i < |chain| && !chain[i].isBody
      invariant 0 <= i <= |chain|
      invariant PathSegments(chain) == PathSegments(chain[i..]) + path
      decreases |chain| - i
    {
      var cur := chain[i];
      assert chain[i..][0] == cur && chain[i..][1..] == chain[i + 1..];
      PathStep(chain[i..], path);
      if cur.id != "" {
        path := ["#" + CssEscape(cur.id)] + path;
        return;
      }
      path := [Segment(cur, i + 1 < |chain|)] + path;
      i := i + 1;
    }
    assert PathSegments(chain[i..]) == [];
  }

  method GetStableSelector(chain: seq<Node>) returns (sel: string)
    requires chain != []
    ensures sel == StableSelector(chain)
  {
    var el := chain[0];
    if el.id != "" {
      return "#" + CssEscape(el.id);
    }
    if el.name != "" {
      return Lower(el.tagName) + "[name=\"" + CssEscape(el.name) + "\"]";
    }
    var k := FindDataAttr(el.attributes);
    if k.Some? {
      var a := el.attributes[k.value];
      return Lower(el.tagName) + "[" + a.name + "=\"" + CssEscape(a.value) + "\"]";
    }
    var path := BuildPath(chain);
    sel := Join(path, " > ");
  }

  // Action classification.

  /** `detectActionType(el)`; `inputType` is `el.type`, '' when absent. */
  function DetectActionType(tagName: string, inputType: string): (a: string)
    ensures a == "check" || a == "input" || a == "select" || a == "click"
    ensures Lower(tagName) == "input" || Lower(tagName) == "textarea" ==>
      var t := Lower(if inputType == "" then "text" else inputType);
      a == (if t == "checkbox" || t == "radio" then "check" else "input")
    ensures Lower(tagName) == "select" ==> a == "select"
    ensures Lower(tagName) != "input" && Lower(tagName) != "textarea" && Lower(tagName) != "select" ==> a == "click"
  {
    var tag := Lower(tagName);
    if tag == "input" || tag == "textarea" then
      var t := Lower(if inputType == "" then "text" else inputType);
      if t == "checkbox" || t == "radio" then "check" else "input"
    else if tag == "select" then "select"
    else "click"
  }

  /** Text inputs record `input`, check boxes and radios `check`, selects
      `select`, anything else `click`. */
  lemma DetectActionKinds(tagName: string, inputType: string)
    ensures DetectActionType(tagName, inputType) == "select" <==> Lower(tagName) == "select"
    ensures (DetectActionType(tagName, inputType) == "input" || DetectActionType(tagName, inputType) == "check")
      <==> (Lower(tagName) == "input" || Lower(tagName) == "textarea")
    ensures (Lower(tagName) == "input" || Lower(tagName) == "textarea") && inputType == "" ==>
      DetectActionType(tagName, inputType) == "input"
  {
    if (Lower(tagName) == "input" || Lower(tagName) == "textarea") && inputType == "" {
      assert Lower("text") == "text";
    }
  }

  // Recorded steps and their replay.

  datatype RecordedStep = RecordedStep(
    selector: string, action: string, tagName: string, text: string,
    value: string, placeholder: string, url: string, timestamp: string)

  /** The step `onClick` sends for the clicked element. */
  function MakeStep(chain: seq<Node>, inputType: string, textContent: string, value: string,
                    placeholder: string, url: string, now: string): (s: RecordedStep)
    requires chain != []
    ensures s.selector == StableSelector(chain) && |s.text| <= 100
    ensures s.action == DetectActionType(chain[0].tagName, inputType) && s.tagName == Lower(chain[0].tagName)
    ensures |s.text| == (if |Trim(textContent)| < 100 then |Trim(textContent)| else 100)
    ensures s.text == Trim(textContent)[..|s.text|]
    ensures s.value == value && s.placeholder == placeholder && s.url == url && s.timestamp == now
  {
    RecordedStep(StableSelector(chain), DetectActionType(chain[0].tagName, inputType),
      Lower(chain[0].tagName), HeadSlice(Trim(textContent), 100), value, placeholder, url, now)
  }

  datatype ReplayReply = ReplayReply(ok: bool, error: string)

  /** The reply of `executeStep`, given whether the selector matched. */
  function ReplayResult(step: RecordedStep, found: bool): (r: ReplayReply)
    ensures r.ok <==> found && (step.action == "click" || step.action == "input"
                                || step.action == "select" || step.action == "check")
    ensures !found ==> r.error == "Элемент не найден: " + step.selector
    ensures found && !r.ok ==> r.error == "Неизвестное действие: " + step.action
  {
    if !found then ReplayReply(false, "Элемент не найден: " + step.selector)
    else if step.action == "click" || step.action == "input" || step.action == "select" || step.action == "check" then
      ReplayReply(true, "")
    else ReplayReply(false, "Неизвестное действие: " + step.action)
  }

  /** The form control a selector finds. */
  class Control {
    var value: string
    var checked: bool
    var clicks: nat

    constructor(value: string, checked: bool)
      ensures this.value == value && this.checked == checked && clicks == 0
    {
      this.value := value;
      this.checked := checked;
      clicks := 0;
    }
  }

  /** `executeStep(step)`: `el` is what `document.querySelector` returned. */
  method ExecuteStep(step: RecordedStep, el: Control?) returns (r: ReplayReply)
    modifies el
    ensures r == ReplayResult(step, el != null)
    ensures el != null && step.action == "click" ==> el.clicks == old(el.clicks) + 1 && el.value == old(el.value) && el.checked == old(el.checked)
    ensures el != null && (step.action == "input" || step.action == "select") ==> el.value == step.value && el.checked == old(el.checked) && el.clicks == old(el.clicks)
    ensures el != null && step.action == "check" ==> el.checked == !old(el.checked) && el.value == old(el.value) && el.clicks == old(el.clicks)
    ensures el != null && !r.ok ==> unchanged(el)
  {
    if el == null {
      return ReplayResult(step, false);
    }
    if step.action == "click" {
      el.clicks := el.clicks + 1;
    } else if step.action == "input" || step.action == "select" {
      el.value := step.value;
    } else if step.action == "check" {
      el.checked := !el.checked;
    }
    r := ReplayResult(step, true);
  }

  /** The recording switch of the content script. */
  class Recorder {
    var isRecording: bool
    /** Whether the overlay and the mouse and click listeners are installed. */
    var hooked: bool

    ghost predicate Valid()
      reads this
    {
      hooked == isRecording
    }

    constructor()
      ensures Valid() && !isRecording
    {
      isRecording := false;
      hooked := false;
    }

    /** `startRecording`: a second call while recording does nothing. */
    method StartRecording()
      requires Valid()
      modifies this
      ensures Valid() && isRecording
      ensures old(isRecording) ==> unchanged(this)
    {
      if isRecording {
        return;
      }
      isRecording := true;
      hooked := true;
    }

    method StopRecording()
      modifies this
      ensures Valid() && !isRecording
    {
      isRecording := false;
      hooked := false;
    }

    /** `onClick`: a step goes to the background only while recording. */
    method OnClick(chain: seq<Node>, inputType: string, textContent: string, value: string,
                   placeholder: string, url: string, now: string) returns (sent: Option<RecordedStep>)
      requires chain != []
      ensures sent.Some? <==> isRecording
      ensures sent.Some? ==> sent.value == MakeStep(chain, inputType, textContent, value, placeholder, url, now)
    {
      if !isRecording {
        return None;
      }
      sent := Some(MakeStep(chain, inputType, textContent, value, placeholder, url, now));
    }
  }
}
