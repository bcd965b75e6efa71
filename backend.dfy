/** The pure rules of the analysis endpoint: pulling a JSON value out of the
    model's free-text answer, the words the prompt uses for the user's gender and
    pregnancy, and the checks and fallbacks of the request handler. JSON decoding
    is the parameter `loads` (Python's `json.loads`: the value, or `None` where it
    raises); the model call is an oracle. Parsed values are `Web.JsValue`s, with
    Python's `None` as `JNull`. */
module Backend {
  import opened Wrappers
  import opened Web
  import opened Strings

  type Loads = string -> Option<JsValue>

  const FENCE := "```"

  // ---------------------------------------------------------------------------
  // The fenced-block search: re.search(r'```(?:json)?\s*([\s\S]*?)```', text)

  /** Where a match of the fenced-block pattern lies: the opening fence, the start
      of the captured group, and the closing fence (the end of the group). */
  datatype FenceMatch = FenceMatch(open: nat, start: nat, close: nat)

  /** The end of the opening fence and of the optional `json` tag after it. */
  function TagEnd(t: string, open: nat): nat {
    open + 3 + (if OccursAt(t, "json", open + 3) then 4 else 0)
  }

  /** What the pattern's leftmost match is, stated without the search: the first
      fence in the text; the tag when present (the optional group is greedy);
      then the longest run of whitespace (`\s*` is greedy and stops at a
      non-space); then the group up to the first fence after it (`*?` is lazy). */
  ghost predicate IsLeftmostFenceMatch(t: string, m: FenceMatch) {
    && OccursAt(t, FENCE, m.open) && (forall k :: 0 <= k < m.open ==> !OccursAt(t, FENCE, k))
    && TagEnd(t, m.open) <= m.start <= m.close && OccursAt(t, FENCE, m.close)
    && (forall k :: TagEnd(t, m.open) <= k < m.start ==> IsSpace(PyWhitespace, t[k]))
    && !IsSpace(PyWhitespace, t[m.start])
    && (forall k :: m.start <= k < m.close ==> !OccursAt(t, FENCE, k))
  }

  /** The search for the fenced block. */
  function FindFence(t: string): Option<FenceMatch> {
    match IndexOf(t, FENCE, 0)
    case None => None
    case Some(open) =>
      var tagEnd := TagEnd(t, open);
      var start := tagEnd + LeadingSpaces(t, tagEnd);
      match IndexOf(t, FENCE, start)
      case None => None
      case Some(close) => Some(FenceMatch(open, start, close))
  }

  /** A match the search finds is the pattern's leftmost match. */
  lemma FindFenceIsLeftmost(t: string)
    ensures FindFence(t).Some? ==> IsLeftmostFenceMatch(t, FindFence(t).value)
  {
  }

  /** The number of Python whitespace characters at `t[from..]`'s start. */
  function LeadingSpaces(t: string, from: nat): (n: nat)
    requires from <= |t|
    ensures from + n <= |t|
    ensures forall k :: from <= k < from + n ==> IsSpace(PyWhitespace, t[k])
    ensures from + n < |t| ==> !IsSpace(PyWhitespace, t[from + n])
  {
    LeadingEnd(t, PyWhitespace, from) - from
  }

  /** There is no fenced block exactly when no two fences lie three or more
      characters apart (an opening one and a later closing one). */
  lemma FenceAbsentIff(t: string)
    ensures FindFence(t).None? <==>
      forall i, j :: 0 <= i && i + 3 <= j ==> !(OccursAt(t, FENCE, i) && OccursAt(t, FENCE, j))
  {
    match IndexOf(t, FENCE, 0)
    case None =>
    case Some(open) =>
      var tagEnd := TagEnd(t, open);
      var start := tagEnd + LeadingSpaces(t, tagEnd);
      if IndexOf(t, FENCE, start).None? {
        forall i, j | 0 <= i && i + 3 <= j && OccursAt(t, FENCE, i) ensures !OccursAt(t, FENCE, j) {
          if OccursAt(t, FENCE, j) && j < start {
            NoFenceBeforeGroup(t, open, start, j);
          }
        }
      }
  }

  /** No fence begins between the end of an opening fence and the group's start:
      that stretch is the tag and whitespace, none of which is a backtick. */
  lemma NoFenceBeforeGroup(t: string, open: nat, start: nat, j: nat)
    requires OccursAt(t, FENCE, open) && open + 3 <= j < start <= |t|
    requires start >= TagEnd(t, open)
    requires forall k :: TagEnd(t, open) <= k < start ==> IsSpace(PyWhitespace, t[k])
    ensures !OccursAt(t, FENCE, j)
  {
    if OccursAt(t, "json", open + 3) && j < open + 7 {
      assert t[j] == "json"[j - open - 3];
    }
    assert j + 3 <= |t| ==> t[j..j + 3][0] == t[j];
  }

  /** The captured group; there is none exactly when no two fences lie three or
      more characters apart. */
  function FencedGroup(t: string): (g: Option<string>)
    ensures g.None? <==>
      forall i, j :: 0 <= i && i + 3 <= j ==> !(OccursAt(t, FENCE, i) && OccursAt(t, FENCE, j))
    ensures g.Some? ==> FindFence(t).Some? && g.value == t[FindFence(t).value.start..FindFence(t).value.close]
  {
    FenceAbsentIff(t);
    match FindFence(t)
    case None => None
    case Some(m) => Some(t[m.start..m.close])
  }

  // ---------------------------------------------------------------------------
  // The braced-span search: re.search(r'\{[\s\S]*\}', text)

  /** The span from the first `{` to the last `}`, when that `}` comes after it. */
  function FindBraces(t: string): (r: Option<(nat, nat)>)
    ensures r.Some? ==> var (a, b) := r.value;
      && a < b < |t| && t[a] == '{' && t[b] == '}'
      && (forall k :: 0 <= k < a ==> t[k] != '{') && (forall k :: b < k < |t| ==> t[k] != '}')
    ensures r.None? <==> forall i, j :: 0 <= i < j < |t| ==> !(t[i] == '{' && t[j] == '}')
  {
    match FirstIndexOfChar(t, '{')
    case None => None
    case Some(a) =>
      match LastIndexOfChar(t, '}')
      case None => None
      case Some(b) => if a < b then Some((a, b)) else None
  }

  function BracedSpan(t: string): (s: Option<string>)
    ensures s.Some? ==> |s.value| >= 2 && s.value[0] == '{' && s.value[|s.value| - 1] == '}'
    ensures s.Some? <==> FindBraces(t).Some?
  {
    match FindBraces(t)
    case None => None
    case Some((a, b)) => Some(t[a..b + 1])
  }

  /** An object with prose around it (no `{` before it, no `}` after it) is the
      braced span. */
  lemma BracedObjectFound(pre: string, obj: string, post: string)
    requires '{' !in pre && '}' !in post
    requires |obj| >= 2 && obj[0] == '{' && obj[|obj| - 1] == '}'
    ensures BracedSpan(pre + obj + post) == Some(obj)
  {
    var t := pre + obj + post;
    var a, b := |pre|, |pre| + |obj| - 1;
    assert t[a] == '{' && t[b] == '}';
    assert forall k :: 0 <= k < a ==> t[k] == pre[k];
    assert forall k :: b < k < |t| ==> t[k] == post[k - a - |obj|];
    assert t[a..b + 1] == obj;
  }

  // ---------------------------------------------------------------------------
  // parse_gemini_response

  /** `parse_gemini_response(text)`: `None` for a missing or empty text; otherwise
      the first of three attempts that decodes: the whole text, the stripped
      fenced group, the braced span. A later attempt is made only when the
      earlier ones failed or had nothing to decode. */
  function ParseGeminiResponse(text: Option<string>, loads: Loads): (r: Option<JsValue>)
    ensures text.None? || text == Some("") ==> r.None?
    ensures text.Some? && text.value != "" && loads(text.value).Some? ==> r == loads(text.value)
  {
    if text.None? || text.value == "" then None
    else Attempts(text.value, FencedGroup(text.value), BracedSpan(text.value), loads)
  }

  /** The three attempts on a nonempty text, given what the two searches found. */
  function Attempts(t: string, group: Option<string>, span: Option<string>, loads: Loads): (r: Option<JsValue>)
    ensures loads(t).Some? ==> r == loads(t)
    ensures r.Some? ==> r == loads(t) || (group.Some? && r == loads(PyStrip(group.value))) || (span.Some? && r == loads(span.value))
  {
    match loads(t)
    case Some(v) => Some(v)
    case None =>
      var fenced := match group case Some(g) => loads(PyStrip(g)) case None => None;
      if fenced.Some? then fenced
      else match span case Some(b) => loads(b) case None => None
  }

  /** The texts the parser tries, in order. */
  function Candidates(t: string): seq<string> {
    CandidateList(t, FencedGroup(t), BracedSpan(t))
  }

  function CandidateList(t: string, group: Option<string>, span: Option<string>): seq<string> {
    [t] + (match group case Some(g) => [PyStrip(g)] case None => [])
        + (match span case Some(b) => [b] case None => [])
  }

  /** The decoding of the first candidate that decodes, if any. */
  function FirstDecoded(cs: seq<string>, loads: Loads): Option<JsValue> {
    if cs == [] then None
    else if loads(cs[0]).Some? then loads(cs[0])
    else FirstDecoded(cs[1..], loads)
  }

  /** `FirstDecoded` is `None` exactly when no candidate decodes, and otherwise the
      decoding of a candidate all of whose predecessors failed. */
  lemma {:induction false} FirstDecodedIsFirst(cs: seq<string>, loads: Loads)
    ensures FirstDecoded(cs, loads).None? <==> forall i :: 0 <= i < |cs| ==> loads(cs[i]).None?
    ensures FirstDecoded(cs, loads).Some? ==>
      exists i :: 0 <= i < |cs| && FirstDecoded(cs, loads) == loads(cs[i]) && (forall j :: 0 <= j < i ==> loads(cs[j]).None?)
  {
    if cs != [] && loads(cs[0]).None? {
      var rest := cs[1..];
      FirstDecodedIsFirst(rest, loads);
      assert forall i :: 1 <= i < |cs| ==> cs[i] == rest[i - 1];
      if FirstDecoded(rest, loads).Some? {
        var i :| 0 <= i < |rest| && FirstDecoded(rest, loads) == loads(rest[i])
          && (forall j :: 0 <= j < i ==> loads(rest[j]).None?);
        assert forall j :: 0 <= j < i + 1 ==> loads(cs[j]).None? by {
          forall j | 0 <= j < i + 1 ensures loads(cs[j]).None? {
            if j > 0 { assert cs[j] == rest[j - 1]; }
          }
        }
      }
    }
  }

  /** The fallback chain is the first success over the candidates: so the parser
      returns `None` only when every attempt failed. */
  lemma ParseIsFirstDecoded(t: string, loads: Loads)
    requires t != ""
    ensures ParseGeminiResponse(Some(t), loads) == FirstDecoded(Candidates(t), loads)
  {
    AttemptsAreFirstDecoded(t, FencedGroup(t), BracedSpan(t), loads);
  }

  lemma AttemptsAreFirstDecoded(t: string, group: Option<string>, span: Option<string>, loads: Loads)
    ensures Attempts(t, group, span, loads) == FirstDecoded(CandidateList(t, group, span), loads)
  {
    var fc := match group case Some(g) => [PyStrip(g)] case None => [];
    var bc := match span case Some(b) => [b] case None => [];
    var cs := CandidateList(t, group, span);
    assert cs == [t] + fc + bc;
    if loads(t).None? {
      assert cs[1..] == fc + bc;
      assert FirstDecoded(cs, loads) == FirstDecoded(fc + bc, loads);
      if group.Some? {
        assert (fc + bc)[0] == PyStrip(group.value);
        if loads(PyStrip(group.value)).None? {
          assert (fc + bc)[1..] == bc;
          assert FirstDecoded(fc + bc, loads) == FirstDecoded(bc, loads);
        }
      } else {
        assert fc + bc == bc;
      }
      if span.Some? {
        assert bc[0] == span.value && bc[1..] == [];
        assert FirstDecoded(bc, loads) == loads(span.value);
      } else {
        assert FirstDecoded(bc, loads) == None;
      }
    }
  }

  /** The conditions on a fenced answer `pre + FENCE + tag + ws + body + FENCE + post`:
      no backtick before the block or in the group; an optional `json` tag; a run
      of whitespace; a group that does not start with whitespace (the run takes
      it) and, when nothing separates it from the fence, does not start with `j`
      (a group starting with "json" would lose it to the tag). */
  ghost predicate FencedParts(pre: string, tag: string, ws: string, body: string) {
    && (tag == "" || tag == "json")
    && (forall k :: 0 <= k < |pre| ==> pre[k] != '`')
    && (forall k :: 0 <= k < |ws| ==> IsSpace(PyWhitespace, ws[k]))
    && (body != [] ==> !IsSpace(PyWhitespace, body[0]))
    && (tag == "" && ws == "" && body != [] ==> body[0] != 'j')
    && (forall k :: 0 <= k < |body| ==> body[k] != '`')
  }

  /** An answer wrapped in a fenced block (with or without the `json` tag, with
      or without whitespace such as a newline before the group) is the captured
      group, and is what the parser returns when the whole text does not decode
      and the stripped block does. */
  lemma FencedAnswerIsRead(pre: string, tag: string, ws: string, body: string, post: string, loads: Loads)
    requires FencedParts(pre, tag, ws, body)
    ensures var t := pre + FENCE + tag + ws + body + FENCE + post;
      && FencedGroup(t) == Some(body)
      && (loads(t).None? && loads(PyStrip(body)).Some? ==> ParseGeminiResponse(Some(t), loads) == loads(PyStrip(body)))
  {
    var t := pre + FENCE + tag + ws + body + FENCE + post;
    FencedGroupOfLayout(pre, tag, ws, body, post);
    if loads(t).None? && loads(PyStrip(body)).Some? {
      GroupIsTriedSecond(t, body, loads);
    }
  }

  lemma FencedGroupOfLayout(pre: string, tag: string, ws: string, body: string, post: string)
    requires FencedParts(pre, tag, ws, body)
    ensures FencedGroup(pre + FENCE + tag + ws + body + FENCE + post) == Some(body)
  {
    var t := pre + FENCE + tag + ws + body + FENCE + post;
    var st := |pre| + 3 + |tag| + |ws|;
    var close := st + |body|;
    FencedLayout(pre, tag, ws, body, post);
    assert t[st..close] == body;
    FencedBlockFound(t, |pre|, |tag|, st, close);
  }

  /** When the whole text does not decode, the stripped group is tried next. */
  lemma GroupIsTriedSecond(t: string, g: string, loads: Loads)
    requires FencedGroup(t) == Some(g) && loads(t).None? && loads(PyStrip(g)).Some?
    ensures ParseGeminiResponse(Some(t), loads) == loads(PyStrip(g))
  {
    assert t != "";
  }

  /** Where the parts of such a text lie in it. */
  lemma FencedLayout(pre: string, tag: string, ws: string, body: string, post: string)
    requires FencedParts(pre, tag, ws, body)
    ensures var t := pre + FENCE + tag + ws + body + FENCE + post;
      var open, tagEnd := |pre|, |pre| + 3 + |tag|;
      var s := tagEnd + |ws|;
      var close := s + |body|;
      && close + 3 <= |t|
      && (forall k :: 0 <= k < open ==> t[k] != '`')
      && t[open..open + 3] == FENCE && t[close..close + 3] == FENCE
      && (|tag| == 0 || (|tag| == 4 && t[open + 3..open + 7] == "json"))
      && (forall k :: tagEnd <= k < s ==> IsSpace(PyWhitespace, t[k]))
      && !IsSpace(PyWhitespace, t[s])
      && (|tag| == 0 ==> t[open + 3] != 'j')
      && (forall k :: s <= k < close ==> t[k] != '`')
      && t[s..close] == body
  {
    FencesOfLayout(pre, tag, ws, body, post);
    GroupOfLayout(pre, tag, ws, body, post);
  }

  /** The prefix, the two fences and the tag of such a text. */
  lemma FencesOfLayout(pre: string, tag: string, ws: string, body: string, post: string)
    requires tag == "" || tag == "json"
    requires forall k :: 0 <= k < |pre| ==> pre[k] != '`'
    ensures var t := pre + FENCE + tag + ws + body + FENCE + post;
      var open, close := |pre|, |pre| + 3 + |tag| + |ws| + |body|;
      && close + 3 <= |t|
      && (forall k :: 0 <= k < open ==> t[k] != '`')
      && t[open..open + 3] == FENCE && t[close..close + 3] == FENCE
      && (|tag| == 0 || (|tag| == 4 && t[open + 3..open + 7] == "json"))
  {
    var t := pre + FENCE + tag + ws + body + FENCE + post;
    var open := |pre|;
    var close := open + 3 + |tag| + |ws| + |body|;
    assert t[..open] == pre;
    assert t[open..open + 3] == FENCE;
    assert t[open + 3..open + 3 + |tag|] == tag;
    assert t[close..close + 3] == FENCE;
  }

  /** The whitespace run and the group of such a text, and the character after
      the opening fence when there is no tag. */
  lemma GroupOfLayout(pre: string, tag: string, ws: string, body: string, post: string)
    requires FencedParts(pre, tag, ws, body)
    ensures var t := pre + FENCE + tag + ws + body + FENCE + post;
      var tagEnd := |pre| + 3 + |tag|;
      var s := tagEnd + |ws|;
      var close := s + |body|;
      && close + 3 <= |t|
      && (forall k :: tagEnd <= k < s ==> IsSpace(PyWhitespace, t[k]))
      && !IsSpace(PyWhitespace, t[s])
      && (|tag| == 0 ==> t[|pre| + 3] != 'j')
      && (forall k :: s <= k < close ==> t[k] != '`')
      && t[s..close] == body
  {
    var u := pre + FENCE + tag;
    var t := u + ws + body + FENCE + post;
    var tagEnd := |u|;
    var s := tagEnd + |ws|;
    var close := s + |body|;
    assert t[tagEnd..s] == ws;
    assert t[s..close] == body;
    assert forall k :: tagEnd <= k < s ==> t[k] == ws[k - tagEnd];
    assert t[s] == if body != [] then body[0] else '`';
    if |tag| == 0 {
      assert t[|pre| + 3] == if ws != [] then ws[0] else t[s];
    }
  }

  /** The search's result on a text whose first fence is at `open`, followed by
      an optional `json` tag, whitespace up to `start`, a group that does not
      start with whitespace and has no backtick, and a fence at `close`. */
  lemma FencedBlockFound(t: string, open: nat, tagLen: nat, start: nat, close: nat)
    requires open + 3 + tagLen <= start <= close && close + 3 <= |t|
    requires forall k :: 0 <= k < open ==> t[k] != '`'
    requires t[open..open + 3] == FENCE && t[close..close + 3] == FENCE
    requires tagLen == 0 || (tagLen == 4 && t[open + 3..open + 7] == "json")
    requires forall k :: open + 3 + tagLen <= k < start ==> IsSpace(PyWhitespace, t[k])
    requires !IsSpace(PyWhitespace, t[start])
    requires tagLen == 0 ==> t[open + 3] != 'j'
    requires forall k :: start <= k < close ==> t[k] != '`'
    ensures FindFence(t) == Some(FenceMatch(open, start, close))
    ensures FencedGroup(t) == Some(t[start..close])
  {
    var tagEnd := open + 3 + tagLen;
    FenceAt(t, 0, open);
    TagEndOf(t, open, tagLen);
    LeadingSpacesOfRun(t, tagEnd, start);
    FenceAt(t, start, close);
    FindFenceOf(t, open, tagEnd, start - tagEnd, close);
  }

  /** The tag the pattern takes: `json` when it is there, nothing when the text
      after the fence does not start with `j`. */
  lemma TagEndOf(t: string, open: nat, tagLen: nat)
    requires open + 3 < |t|
    requires tagLen == 0 || (tagLen == 4 && open + 7 <= |t| && t[open + 3..open + 7] == "json")
    requires tagLen == 0 ==> t[open + 3] != 'j'
    ensures TagEnd(t, open) == open + 3 + tagLen
  {
    if tagLen == 0 && open + 7 <= |t| {
      assert t[open + 3..open + 7][0] == t[open + 3];
    }
  }

  /** The search assembled from its three steps. */
  lemma FindFenceOf(t: string, open: nat, tagEnd: nat, n: nat, close: nat)
    requires IndexOf(t, FENCE, 0) == Some(open)
    requires TagEnd(t, open) == tagEnd && tagEnd + n <= |t| && LeadingSpaces(t, tagEnd) == n
    requires IndexOf(t, FENCE, tagEnd + n) == Some(close)
    ensures FindFence(t) == Some(FenceMatch(open, tagEnd + n, close))
  {
  }

  /** A run of whitespace ending at a non-space is exactly what `\s*` takes. */
  lemma LeadingSpacesOfRun(t: string, from: nat, s: nat)
    requires from <= s < |t|
    requires forall k :: from <= k < s ==> IsSpace(PyWhitespace, t[k])
    requires !IsSpace(PyWhitespace, t[s])
    ensures LeadingSpaces(t, from) == s - from
  {
  }

  /** With no backtick in `t[from..at]` and a fence at `at`, `IndexOf` finds it. */
  lemma FenceAt(t: string, from: nat, at: nat)
    requires from <= at && at + 3 <= |t| && t[at..at + 3] == FENCE
    requires forall k :: from <= k < at ==> t[k] != '`'
    ensures IndexOf(t, FENCE, from) == Some(at)
  {
    forall k | from <= k < at ensures !OccursAt(t, FENCE, k) {
      assert t[k..k + 3][0] == t[k];
    }
    IndexOfFirst(t, FENCE, from, at);
  }

  /** `IndexOf` finds an occurrence with none between `from` and it. */
  lemma IndexOfFirst(s: string, p: string, from: nat, i: nat)
    requires |p| > 0 && from <= i && OccursAt(s, p, i)
    requires forall k :: from <= k < i ==> !OccursAt(s, p, k)
    ensures IndexOf(s, p, from) == Some(i)
  {
    match IndexOf(s, p, from)
    case None =>
    case Some(j) =>
  }

  // ---------------------------------------------------------------------------
  // build_analysis_prompt

  const MALE_URDU := "مرد"
  const FEMALE_URDU := "عورت"
  const YES_URDU := "ہاں"
  const NO_URDU := "نہیں"
  const NO_ALLERGIES := "None reported"

  /** The values the prompt's f-string interpolates into the user-profile part;
      the rest of the prompt is fixed text. */
  datatype Prompt = Prompt(age: int, gender: string, genderUrdu: string, weight: real,
                           pregnant: bool, pregnantUrdu: string, allergies: string)

  /** `build_analysis_prompt`: "man" exactly for `gender == "male"`, "woman" for
      every other value (empty and "other" included); the pregnancy word by the
      flag; the allergies, or "None reported" when empty. */
  function BuildAnalysisPrompt(age: int, gender: string, weight: real, pregnant: bool, allergies: string): (p: Prompt)
    ensures p.genderUrdu == MALE_URDU <==> gender == "male"
    ensures p.genderUrdu == FEMALE_URDU <==> gender != "male"
    ensures p.pregnantUrdu == YES_URDU <==> pregnant
    ensures p.pregnantUrdu == NO_URDU <==> !pregnant
    ensures allergies == "" ==> p.allergies == NO_ALLERGIES
    ensures allergies != "" ==> p.allergies == allergies
    ensures p.age == age && p.gender == gender && p.weight == weight && p.pregnant == pregnant
  {
    Prompt(age, gender, if gender == "male" then MALE_URDU else FEMALE_URDU, weight,
           pregnant, if pregnant then YES_URDU else NO_URDU, if allergies != "" then allergies else NO_ALLERGIES)
  }

  // ---------------------------------------------------------------------------
  // analyze_medicine

  /** `is_pregnant = pregnant.lower() in ("true", "1", "yes")`. */
  function IsPregnant(pregnant: string): (b: bool)
    ensures b <==> AsciiLower(pregnant) == "true" || AsciiLower(pregnant) == "1" || AsciiLower(pregnant) == "yes"
  {
    var l := AsciiLower(pregnant);
    l == "true" || l == "1" || l == "yes"
  }

  /** The flag is read case-insensitively, and the page's "false" reads as false. */
  lemma PregnantFlagWords()
    ensures IsPregnant("true") && IsPregnant("TRUE") && IsPregnant("Yes") && !IsPregnant("false") && !IsPregnant("")
  {
    LowerTrue();
    LowerYes();
  }

  lemma LowerTrue()
    ensures AsciiLower("true") == "true" && AsciiLower("TRUE") == "true"
  {
    var l, u := AsciiLower("true"), AsciiLower("TRUE");
    assert l[0] == 't' && l[1] == 'r' && l[2] == 'u' && l[3] == 'e';
    assert u[0] == 't' && u[1] == 'r' && u[2] == 'u' && u[3] == 'e';
  }

  lemma LowerYes()
    ensures AsciiLower("Yes") == "yes"
  {
    var l := AsciiLower("Yes");
    assert l[0] == 'y' && l[1] == 'e' && l[2] == 's';
  }

  /** The temporary file's suffix: `"." + content_type.split("/")[-1].split(";")[0]`. */
  function Suffix(contentType: string): (s: string)
    ensures |s| >= 1 && s[0] == '.'
    ensures '/' !in s[1..] && ';' !in s[1..]
  {
    "." + BeforeFirst(AfterLast(contentType, '/'), ';')
  }

  /** A plain subtype becomes the suffix, and parameters after `;` are cut off. */
  lemma SuffixOfSubtype(sub: string, params: string)
    requires '/' !in sub && ';' !in sub && '/' !in params
    ensures Suffix("image/" + sub) == "." + sub
    ensures Suffix("image/" + sub + ";" + params) == "." + sub
  {
    assert "image/" + sub == "image" + "/" + sub;
    AfterLastOfTail("image", sub);
    BeforeFirstOfHead(sub, []);
    assert "image/" + sub + ";" + params == "image" + "/" + (sub + ";" + params);
    AfterLastOfTail("image", sub + ";" + params);
    BeforeFirstOfHead(sub, params);
  }

  lemma {:induction false} AfterLastOfTail(head: string, tail: string)
    requires '/' !in tail
    ensures AfterLast(head + "/" + tail, '/') == tail
  {
    var s := head + "/" + tail;
    if tail != [] {
      var init := tail[..|tail| - 1];
      assert s[..|s| - 1] == head + "/" + init;
      AfterLastOfTail(head, init);
      assert init + [tail[|tail| - 1]] == tail;
    }
  }

  lemma {:induction false} BeforeFirstOfHead(head: string, params: string)
    requires ';' !in head
    ensures BeforeFirst(head + ";" + params, ';') == head
    ensures BeforeFirst(head, ';') == head
  {
    if head != [] {
      assert (head + ";" + params)[1..] == head[1..] + ";" + params;
      BeforeFirstOfHead(head[1..], params);
    }
  }

  const UPLOAD_IMAGE_DETAIL := "براہ کرم تصویر اپلوڈ کریں"
  const UNREADABLE_MESSAGE := "تصویر سے معلومات حاصل نہیں ہو سکیں۔ براہ کرم صاف تصویر لیں اور دوبارہ کوشش کریں۔"
  const FAILURE_MESSAGE := "تجزیہ میں مسئلہ ہوا۔ براہ کرم دوبارہ کوشش کریں۔"

  /** The upload's form fields as the endpoint receives them (after FastAPI's
      conversion of `age` and `weight` to numbers). */
  datatype Upload = Upload(contentType: Option<string>, age: int, gender: string, weight: real, pregnant: string, allergies: string)

  /** The content-type check: a missing, empty or non-image type is refused. */
  predicate AcceptsContentType(contentType: Option<string>) {
    contentType.Some? && StartsWith(contentType.value, "image/")
  }

  /** The body sent in place of a result the parser could not produce. */
  function NotMedicineBody(message: string): (v: JsValue)
    ensures Prop(v, "not_medicine") == JBool(true) && Prop(v, "error_message_urdu") == JStr(message)
  {
    JObj(map["not_medicine" := JBool(true), "error_message_urdu" := JStr(message)])
  }

  /** Writing the temporary file (named with the suffix) and the model call with
      the prompt and the content type: the answer text (which may be missing), or
      `None` where reading, writing, uploading or generating raised. */
  type Gemini = (Prompt, string, string) -> Option<Option<string>>

  /** `parse_gemini_response` found nothing: Python's `None`, which is also what
      decoding the text `null` gives. */
  predicate NoResult(r: Option<JsValue>) {
    r.None? || r == Some(JNull)
  }

  /** `analyze_medicine`: 400 for a non-image upload before anything else; then
      the prompt, the model call and the parse; a result that is `None` becomes
      the "not a medicine" body with status 200, and any exception on the way
      the same shape of body with status 500. */
  function AnalyzeMedicine(u: Upload, gemini: Gemini, loads: Loads): (resp: Response)
    ensures !AcceptsContentType(u.contentType) ==> resp.status == 400
    ensures AcceptsContentType(u.contentType) ==> resp.status == 200 || resp.status == 500
    ensures resp.contentType == Some("application/json") && resp.body.Json?
    ensures resp.status == 500 ==> Prop(resp.body.value, "not_medicine") == JBool(true)
  {
    if !AcceptsContentType(u.contentType) then
      Response(400, Some("application/json"), Json(JObj(map["detail" := JStr(UPLOAD_IMAGE_DETAIL)])))
    else
      var prompt := BuildAnalysisPrompt(u.age, u.gender, u.weight, IsPregnant(u.pregnant), u.allergies);
      match gemini(prompt, Suffix(u.contentType.value), u.contentType.value)
      case None => Response(500, Some("application/json"), Json(NotMedicineBody(FAILURE_MESSAGE)))
      case Some(text) =>
        var result := ParseGeminiResponse(text, loads);
        if NoResult(result) then Response(200, Some("application/json"), Json(NotMedicineBody(UNREADABLE_MESSAGE)))
        else Response(200, Some("application/json"), Json(result.value))
  }

  /** The endpoint never returns a missing result as such: a text nothing can be
      decoded from, or one that decodes to `null`, is answered with the
      "not a medicine" body and status 200; a decoded value is returned as is. */
  lemma AnalyzeFallback(u: Upload, gemini: Gemini, loads: Loads)
    requires AcceptsContentType(u.contentType)
    requires gemini(BuildAnalysisPrompt(u.age, u.gender, u.weight, IsPregnant(u.pregnant), u.allergies),
                    Suffix(u.contentType.value), u.contentType.value).Some?
    ensures var text := gemini(BuildAnalysisPrompt(u.age, u.gender, u.weight, IsPregnant(u.pregnant), u.allergies),
                               Suffix(u.contentType.value), u.contentType.value).value;
      var resp := AnalyzeMedicine(u, gemini, loads);
      && resp.status == 200
      && (NoResult(ParseGeminiResponse(text, loads)) ==> resp.body.value == NotMedicineBody(UNREADABLE_MESSAGE))
      && (!NoResult(ParseGeminiResponse(text, loads)) ==> resp.body.value == ParseGeminiResponse(text, loads).value)
  {
  }
}
