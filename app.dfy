/** The page's decision logic around the DOM: the severity class of a status,
    which file may be analysed, the fields of the analysis request, the reading of
    the server's answer, the rendering of a report or an error, the details
    toggles, and which screen is visible. The DOM state these rules touch is the
    class `Page`; its value `PageView` is what the pure specifications speak of. */
module App {
  import opened Wrappers
  import opened Web
  import opened Strings
  import opened ProfileStore

  /** The analysis endpoint, on the page's own origin. */
  const API_URL := "/api/analyze"

  /** The largest image the page sends: 20 MiB. */
  const MAX_IMAGE_BYTES := 20 * 1024 * 1024

  /** Urdu texts the rendering falls back on. */
  const DEFAULT_ERROR := "تصویر سے دوا کی شناخت نہیں ہو سکی"
  const UNKNOWN_MEDICINE := "نامعلوم دوا"
  const NO_EXPLANATION := "معلومات دستیاب نہیں ہیں۔"
  const CONSULT_DOCTOR := "ڈاکٹر سے مشورہ کریں۔"

  /** The label of a details button, for a collapsed and an expanded section. */
  const DETAILS_CLOSED := "تفصیلات ▼"
  const DETAILS_OPEN := "تفصیلات ▲"

  /** The toasts the page raises; `ToastText` gives the Urdu message of each. */
  datatype Toast = AskAge | AskGender | ProfileSaved | ImagesOnly | ImageTooLarge | NoConnection | AnalysisFailed

  function ToastText(t: Toast): string {
    match t
    case AskAge => "براہ کرم اپنی عمر بتائیں"
    case AskGender => "براہ کرم جنس منتخب کریں"
    case ProfileSaved => "✅ معلومات محفوظ ہو گئیں"
    case ImagesOnly => "براہ کرم صرف تصویر منتخب کریں"
    case ImageTooLarge => "تصویر بہت بڑی ہے۔ چھوٹی تصویر لیں۔"
    case NoConnection => "انٹرنیٹ کنکشن نہیں ہے۔ بعد میں کوشش کریں۔"
    case AnalysisFailed => "تجزیہ میں مسئلہ ہوا۔ دوبارہ کوشش کریں۔"
  }

  // ---------------------------------------------------------------------------
  // Screens

  datatype Screen = ProfileScreen | HomeScreen | LoadingScreen | ResultsScreen

  const SCREEN_COUNT := 4

  /** The position of each screen among the page's `.screen` elements. */
  function ScreenIndex(s: Screen): (i: nat)
    ensures i < SCREEN_COUNT
  {
    match s
    case ProfileScreen => 0
    case HomeScreen => 1
    case LoadingScreen => 2
    case ResultsScreen => 3
  }

  /** The `hidden` flags `showScreen(s)` leaves: every screen hidden but `s`,
      so exactly one screen is visible. */
  function ShownOnly(s: Screen): (h: seq<bool>)
    ensures |h| == SCREEN_COUNT
    ensures forall t :: !h[ScreenIndex(t)] <==> t == s
  {
    seq(SCREEN_COUNT, i => i != ScreenIndex(s))
  }

  // ---------------------------------------------------------------------------
  // Status classes

  datatype StatusClass = StatusSafe | StatusWarning | StatusDanger

  /** The CSS class of each severity. */
  function ClassName(c: StatusClass): string {
    match c
    case StatusSafe => "status-safe"
    case StatusWarning => "status-warning"
    case StatusDanger => "status-danger"
  }

  /** `getStatusClass(status)`: two words for each severity, compared strictly
      (a string and nothing else); anything else is a warning. */
  function GetStatusClass(status: JsValue): (c: StatusClass)
    ensures c == StatusSafe <==> status == JStr("authentic") || status == JStr("safe")
    ensures c == StatusDanger <==> status == JStr("counterfeit") || status == JStr("danger")
    ensures c == StatusWarning <==>
      !(status == JStr("authentic") || status == JStr("safe") || status == JStr("counterfeit") || status == JStr("danger"))
  {
    match status
    case JStr(s) =>
      if s == "authentic" || s == "safe" then StatusSafe
      else if s == "suspicious" || s == "warning" then StatusWarning
      else if s == "counterfeit" || s == "danger" then StatusDanger
      else StatusWarning
    case _ => StatusWarning
  }

  // ---------------------------------------------------------------------------
  // Image acceptance and the analysis request

  /** A selected file: its MIME type (`""` when the browser knows none) and its size in bytes. */
  datatype ImageFile = ImageFile(mime: string, size: nat)

  datatype Rejection = NotAnImage | TooLarge

  /** The two checks of `handleImageSelected`, type first, then size. */
  function CheckImage(f: ImageFile): (r: Option<Rejection>)
    ensures r == Some(NotAnImage) <==> !StartsWith(f.mime, "image/")
    ensures r == Some(TooLarge) <==> StartsWith(f.mime, "image/") && f.size > MAX_IMAGE_BYTES
    ensures r.None? <==> StartsWith(f.mime, "image/") && f.size <= MAX_IMAGE_BYTES
  {
    if !StartsWith(f.mime, "image/") then Some(NotAnImage)
    else if f.size > MAX_IMAGE_BYTES then Some(TooLarge)
    else None
  }

  /** The size ceiling is inclusive: exactly 20 MiB passes, one byte more does not. */
  lemma SizeCeiling(mime: string)
    requires StartsWith(mime, "image/")
    ensures CheckImage(ImageFile(mime, 20 * 1024 * 1024)).None?
    ensures CheckImage(ImageFile(mime, 20 * 1024 * 1024 + 1)) == Some(TooLarge)
  {
  }

  /** The text fields of the multipart analysis request (the image is the sixth
      part). All but `pregnant` are the values `FormData.append` receives; it
      turns them into text. */
  datatype AnalysisFields = AnalysisFields(age: JsValue, gender: JsValue, weight: JsValue, pregnant: string, allergies: JsValue)

  /** The profile `analyzeImage` reads: the stored one, or `{}` when there is none. */
  function StoredOrEmpty(st: Storage): (p: JsValue)
    ensures !Nullish(p)
    ensures Truthy(GetProfile(st)) ==> p == GetProfile(st)
    ensures !Truthy(GetProfile(st)) ==> p == JObj(map[])
  {
    Or(GetProfile(st), JObj(map[]))
  }

  /** The fields `analyzeImage` appends: each profile value, or its default when the
      value is falsy (age and weight 0, gender and allergies empty); `pregnant` is
      always the text "true" or "false", by the truthiness of the stored flag. */
  function RequestFields(st: Storage): (f: AnalysisFields)
    ensures var p := StoredOrEmpty(st);
      && (Truthy(Prop(p, "age")) ==> f.age == Prop(p, "age")) && (!Truthy(Prop(p, "age")) ==> f.age == JNum(0.0))
      && (Truthy(Prop(p, "gender")) ==> f.gender == Prop(p, "gender")) && (!Truthy(Prop(p, "gender")) ==> f.gender == JStr(""))
      && (Truthy(Prop(p, "weight")) ==> f.weight == Prop(p, "weight")) && (!Truthy(Prop(p, "weight")) ==> f.weight == JNum(0.0))
      && (Truthy(Prop(p, "allergies")) ==> f.allergies == Prop(p, "allergies"))
      && (!Truthy(Prop(p, "allergies")) ==> f.allergies == JStr(""))
      && (f.pregnant == "true" <==> Truthy(Prop(p, "pregnant")))
      && (f.pregnant == "true" || f.pregnant == "false")
  {
    var p := StoredOrEmpty(st);
    AnalysisFields(Or(Prop(p, "age"), JNum(0.0)), Or(Prop(p, "gender"), JStr("")), Or(Prop(p, "weight"), JNum(0.0)),
                   if Truthy(Prop(p, "pregnant")) then "true" else "false", Or(Prop(p, "allergies"), JStr("")))
  }

  /** With no stored profile (or an unreadable one) every field takes its default. */
  lemma NoProfileFieldDefaults(st: Storage)
    requires PROFILE_KEY !in st || st[PROFILE_KEY].NotJson?
    ensures RequestFields(st) == AnalysisFields(JNum(0.0), JStr(""), JNum(0.0), "false", JStr(""))
  {
  }

  /** A saved number as the request sends it: an infinite one was stored as
      `null`, and `null || 0` is 0. */
  function SentNumber(x: real): real {
    if IsInfinite(x) then 0.0 else x
  }

  /** After a successful save the request carries the saved values; an age that
      `parseInt` could not read, and an infinite age or weight (all stored as
      `null`), are sent as 0. */
  lemma SavedProfileFields(st: Storage, form: ProfileForm)
    requires Validate(form).None?
    ensures var f := RequestFields(st[PROFILE_KEY := Json(ToJs(Normalise(form)))]);
      && f.age == JNum(SentNumber(ParseInt(JsTrim(form.age)).GetOr(0) as real))
      && f.gender == JStr(form.gender)
      && f.weight == JNum(SentNumber(WeightOf(JsTrim(form.weight))))
      && (f.pregnant == "true" <==> form.pregnant == "true")
      && f.allergies == JStr(JsTrim(form.allergies))
  {
    StoredProfileFields(st, Normalise(form));
  }

  /** The request fields of a stored record, field by field. */
  lemma StoredProfileFields(st: Storage, p: Profile)
    requires p.gender != ""
    ensures var f := RequestFields(st[PROFILE_KEY := Json(ToJs(p))]);
      && f.age == JNum(SentNumber(p.age.GetOr(0) as real)) && f.gender == JStr(p.gender)
      && f.weight == JNum(SentNumber(p.weight))
      && (f.pregnant == "true" <==> p.pregnant) && f.allergies == JStr(p.allergies)
  {
    var v := ToJs(p);
    assert GetProfile(st[PROFILE_KEY := Json(v)]) == v;
    assert StoredOrEmpty(st[PROFILE_KEY := Json(v)]) == v;
  }

  /** The promise `analyzeImage` returns: the parsed body of an ok response, or
      `None` when it rejects — the fetch failed, the status is not ok (the
      worker's offline 503 among them) or the body is not JSON. */
  function AnalysisOutcome(reply: Option<Response>): (r: Option<JsValue>)
    ensures r.Some? <==> reply.Some? && Ok(reply.value) && reply.value.body.Json?
    ensures r.Some? ==> r.value == reply.value.body.value
  {
    match reply
    case None => None
    case Some(resp) =>
      if !Ok(resp) then None
      else match resp.body
        case Json(v) => Some(v)
        case NotJson(_) => None
  }

  // ---------------------------------------------------------------------------
  // Rendering

  /** The answer is an error rather than a report. */
  predicate IsErrorBody(data: JsValue) {
    Truthy(Prop(data, "not_medicine")) || Truthy(Prop(data, "error_message_urdu"))
  }

  /** `(section && section[key]) || fallback`. */
  function SectionValue(section: JsValue, key: string, fallback: JsValue): (r: JsValue)
    ensures Truthy(section) && Truthy(Prop(section, key)) ==> r == Prop(section, key)
    ensures !Truthy(section) || !Truthy(Prop(section, key)) ==> r == fallback
  {
    Or(And(section, Prop(section, key)), fallback)
  }

  /** The items `(section && section[key]) || []` yields to `forEach`, or `None`
      when that value is truthy but not an array, where `forEach` throws. */
  function ListItems(section: JsValue, key: string): (r: Option<seq<JsValue>>)
    ensures !Truthy(SectionValue(section, key, JArr([]))) ==> r == Some([])
    ensures r.Some? <==> SectionValue(section, key, JArr([])).JArr?
  {
    match SectionValue(section, key, JArr([]))
    case JArr(items) => Some(items)
    case _ => None
  }

  /** A status card: its severity class, label, list items and details text. */
  datatype Card = Card(status: StatusClass, labelText: JsValue, items: seq<JsValue>, details: JsValue)

  /** The contents of the results view. */
  datatype Report = Report(name: JsValue, explanation: JsValue, authenticity: Card, safety: Card, dosage: JsValue)

  /** The DOM state the page's rules touch: the `hidden` flag of each screen, the
      `expanded` flag and button label of each details section, the error box,
      the report box, and what they show. `errorMessage` is the value the error box
      shows after its fixed warning-sign prefix. */
  datatype PageView = PageView(hidden: seq<bool>, expanded: seq<bool>, labels: seq<string>,
                               errorHidden: bool, contentHidden: bool, errorMessage: JsValue, report: Report)

  predicate WellShaped(v: PageView) {
    |v.hidden| == SCREEN_COUNT && |v.labels| == |v.expanded|
  }

  /** Every details button says what its section's state is. */
  predicate LabelsAgree(v: PageView) {
    |v.labels| == |v.expanded| && forall k :: 0 <= k < |v.expanded| ==> v.labels[k] == if v.expanded[k] then DETAILS_OPEN else DETAILS_CLOSED
  }

  datatype RenderOutcome = Threw | ShowedError | ShowedReport

  /** A card whose class and label are set and whose list is emptied, as before its `forEach`. */
  function CardStart(c: Card, section: JsValue, fallback: string): Card {
    c.(status := GetStatusClass(SectionValue(section, "status", JStr(fallback))),
       labelText := SectionValue(section, "label_urdu", JStr("")), items := [])
  }

  /** A card after its part of `renderResults`, and whether that part finished;
      when the list value is not an array it stops after clearing the list. */
  function FilledCard(c: Card, section: JsValue, fallback: string, key: string): (Card, bool) {
    var start := CardStart(c, section, fallback);
    match ListItems(section, key)
    case None => (start, false)
    case Some(items) => (start.(items := items, details := SectionValue(section, "details", JStr(""))), true)
  }

  /** `renderResults(data)` on the page `v`: what it returns (or that it threw)
      and the page it leaves, including the part written before a throw. */
  function Render(v: PageView, data: JsValue): (r: (RenderOutcome, PageView))
    ensures r.1.hidden == v.hidden
    ensures |r.1.expanded| == |v.expanded| && |r.1.labels| == |v.labels|
    ensures r.0 != ShowedReport ==> r.1.expanded == v.expanded && r.1.labels == v.labels
    ensures r.0 != ShowedError ==> r.1.errorMessage == v.errorMessage
  {
    if Nullish(data) then (Threw, v)
    else if IsErrorBody(data) then
      (ShowedError, v.(errorHidden := false, contentHidden := true,
                       errorMessage := Or(Prop(data, "error_message_urdu"), JStr(DEFAULT_ERROR))))
    else
      var named := v.report.(name := Or(Prop(data, "medicine_name"), JStr(UNKNOWN_MEDICINE)),
                             explanation := Or(Prop(data, "explanation_urdu"), JStr(NO_EXPLANATION)));
      var shown := v.(errorHidden := true, contentHidden := false);
      var (auth, authDone) := FilledCard(named.authenticity, Prop(data, "authenticity"), "suspicious", "reasons_urdu");
      if !authDone then (Threw, shown.(report := named.(authenticity := auth)))
      else
        var (safety, safetyDone) := FilledCard(named.safety, Prop(data, "safety"), "warning", "warnings_urdu");
        if !safetyDone then (Threw, shown.(report := named.(authenticity := auth, safety := safety)))
        else
          var dosage := SectionValue(Prop(data, "dosage"), "recommendation_urdu", JStr(CONSULT_DOCTOR));
          (ShowedReport, shown.(report := named.(authenticity := auth, safety := safety, dosage := dosage),
                                expanded := seq(|v.expanded|, _ => false),
                                labels := seq(|v.labels|, _ => DETAILS_CLOSED)))
  }

  /** Error versus report: an answer with a truthy `not_medicine` or
      `error_message_urdu` shows the error box (with the message, or the default)
      and touches nothing else; `null` throws before anything is written. */
  lemma RenderDiscriminates(v: PageView, data: JsValue)
    ensures Nullish(data) ==> Render(v, data) == (Threw, v)
    ensures Render(v, data).0 == ShowedError <==> !Nullish(data) && IsErrorBody(data)
    ensures Render(v, data).0 == ShowedError ==>
      var w := Render(v, data).1;
      && !w.errorHidden && w.contentHidden
      && w.errorMessage == (if Truthy(Prop(data, "error_message_urdu")) then Prop(data, "error_message_urdu") else JStr(DEFAULT_ERROR))
      && w.report == v.report && w.expanded == v.expanded && w.labels == v.labels && w.hidden == v.hidden
  {
  }

  /** A report is shown exactly when the answer is not an error and both lists are
      arrays or absent; it then hides the error box, fills every part with its
      value or its default, and collapses every details section. */
  lemma RenderReport(v: PageView, data: JsValue)
    ensures Render(v, data).0 == ShowedReport <==>
      && !Nullish(data) && !IsErrorBody(data)
      && ListItems(Prop(data, "authenticity"), "reasons_urdu").Some?
      && ListItems(Prop(data, "safety"), "warnings_urdu").Some?
    ensures Render(v, data).0 == ShowedReport ==>
      var w := Render(v, data).1;
      var a, s := Prop(data, "authenticity"), Prop(data, "safety");
      && w.errorHidden && !w.contentHidden && w.hidden == v.hidden && w.errorMessage == v.errorMessage
      && w.report.name == Or(Prop(data, "medicine_name"), JStr(UNKNOWN_MEDICINE))
      && w.report.explanation == Or(Prop(data, "explanation_urdu"), JStr(NO_EXPLANATION))
      && w.report.dosage == SectionValue(Prop(data, "dosage"), "recommendation_urdu", JStr(CONSULT_DOCTOR))
      && w.report.authenticity == Card(GetStatusClass(SectionValue(a, "status", JStr("suspicious"))),
                                       SectionValue(a, "label_urdu", JStr("")),
                                       ListItems(a, "reasons_urdu").value, SectionValue(a, "details", JStr("")))
      && w.report.safety == Card(GetStatusClass(SectionValue(s, "status", JStr("warning"))),
                                 SectionValue(s, "label_urdu", JStr("")),
                                 ListItems(s, "warnings_urdu").value, SectionValue(s, "details", JStr("")))
      && |w.expanded| == |v.expanded| && (forall k :: 0 <= k < |w.expanded| ==> !w.expanded[k])
      && (WellShaped(v) ==> WellShaped(w) && LabelsAgree(w))
  {
  }

  /** A section that is missing from the answer renders as a warning with no items. */
  lemma AbsentSectionsWarn(v: PageView, data: JsValue)
    requires !Nullish(data) && !IsErrorBody(data)
    requires !Truthy(Prop(data, "authenticity")) && !Truthy(Prop(data, "safety"))
    ensures Render(v, data).0 == ShowedReport
    ensures Render(v, data).1.report.authenticity == Card(StatusWarning, JStr(""), [], JStr(""))
    ensures Render(v, data).1.report.safety == Card(StatusWarning, JStr(""), [], JStr(""))
  {
    assert GetStatusClass(JStr("suspicious")) == StatusWarning;
    assert GetStatusClass(JStr("warning")) == StatusWarning;
  }

  /** `toggleDetails(btn)` for the button of section `i`; a button outside every
      section (`i` out of range) changes nothing. */
  function Toggle(v: PageView, i: int): (w: PageView)
    ensures !(0 <= i < |v.expanded|) ==> w == v
    ensures 0 <= i < |v.expanded| && |v.labels| == |v.expanded| ==>
      && |w.expanded| == |v.expanded| && |w.labels| == |v.labels| && w.expanded[i] == !v.expanded[i]
      && (forall k :: 0 <= k < |v.expanded| && k != i ==> w.expanded[k] == v.expanded[k] && w.labels[k] == v.labels[k])
      && w.labels[i] == (if w.expanded[i] then DETAILS_OPEN else DETAILS_CLOSED)
    ensures WellShaped(v) ==> WellShaped(w)
    ensures LabelsAgree(v) ==> LabelsAgree(w)
  {
    if 0 <= i < |v.expanded| && i < |v.labels| then
      var e := !v.expanded[i];
      v.(expanded := v.expanded[i := e], labels := v.labels[i := if e then DETAILS_OPEN else DETAILS_CLOSED])
    else v
  }

  /** However the sections were toggled before, a shown report leaves all of them collapsed. */
  lemma ToggledThenRendered(v: PageView, i: int, data: JsValue)
    requires WellShaped(v)
    requires Render(Toggle(v, i), data).0 == ShowedReport
    ensures var w := Render(Toggle(v, i), data).1;
      && |w.expanded| == |v.expanded| && |w.labels| == |w.expanded|
      && forall k :: 0 <= k < |w.expanded| ==> !w.expanded[k] && w.labels[k] == DETAILS_CLOSED
  {
    RenderReport(Toggle(v, i), data);
  }

  /** One card's part of `renderResults`, with its `forEach` over the list. */
  method FillCard(c: Card, section: JsValue, fallback: string, key: string) returns (card: Card, done: bool)
    ensures (card, done) == FilledCard(c, section, fallback, key)
  {
    card := CardStart(c, section, fallback);
    var list := ListItems(section, key);
    if list.None? {
      return card, false;
    }
    var items := list.value;
    ghost var start := card;
    for k := 0 to |items|
      invariant card == start.(items := items[..k])
    {
      card := card.(items := card.items + [items[k]]);
    }
    assert items[..|items|] == items;
    card := card.(details := SectionValue(section, "details", JStr("")));
    done := true;
  }

  // ---------------------------------------------------------------------------
  // Screen flow

  /** The screen `init` shows: home when the stored profile has a truthy age and
      gender, the profile form otherwise. */
  function InitialScreen(st: Storage): (s: Screen)
    ensures s == HomeScreen || s == ProfileScreen
    ensures s == HomeScreen <==>
      var p := GetProfile(st); Truthy(p) && Truthy(Prop(p, "age")) && Truthy(Prop(p, "gender"))
  {
    var p := GetProfile(st);
    if Truthy(p) && Truthy(Prop(p, "age")) && Truthy(Prop(p, "gender")) then HomeScreen else ProfileScreen
  }

  /** A first visit opens the profile form. */
  lemma FirstVisitAsksForProfile(st: Storage)
    requires PROFILE_KEY !in st
    ensures InitialScreen(st) == ProfileScreen
  {
  }

  /** After a successful save the next visit opens home exactly when `parseInt`
      read a non-zero, finite age: the guard lets "0", "abc" and a numeral too
      large for a double through, and such a profile sends the user back to the
      form. */
  lemma SavedProfileOpensHome(st: Storage, form: ProfileForm)
    requires Validate(form).None?
    ensures InitialScreen(st[PROFILE_KEY := Json(ToJs(Normalise(form)))]) == HomeScreen
      <==> ParseInt(JsTrim(form.age)).GetOr(0) != 0 && !IsInfinite(ParseInt(JsTrim(form.age)).GetOr(0) as real)
  {
    StoredProfileOpensHome(st, Normalise(form));
  }

  /** A stored record opens home exactly when its age is a non-zero, finite number. */
  lemma StoredProfileOpensHome(st: Storage, p: Profile)
    requires p.gender != ""
    ensures InitialScreen(st[PROFILE_KEY := Json(ToJs(p))]) == HomeScreen
      <==> p.age.GetOr(0) != 0 && !IsInfinite(p.age.GetOr(0) as real)
  {
    var v := ToJs(p);
    assert GetProfile(st[PROFILE_KEY := Json(v)]) == v;
  }

  /** What `handleImageSelected` produced: the request it sent, the toast it
      raised, the screens it showed in order, and the page it left. */
  datatype Selection = Selection(sent: Option<AnalysisFields>, toast: Option<Toast>, shown: seq<Screen>, page: PageView)

  /** The toast of the failure path: no connection when the browser is offline. */
  function FailureToast(online: bool): Toast {
    if online then AnalysisFailed else NoConnection
  }

  /** `handleImageSelected(file)` on page `v` with local storage `st`, for the
      network's `reply` to the analysis request and the browser's online flag
      at the time of a failure. */
  function AfterSelection(v: PageView, file: Option<ImageFile>, st: Storage, reply: Option<Response>, online: bool): (r: Selection)
    ensures file.None? ==> r.toast.None?
    ensures file.Some? && CheckImage(file.value) == Some(NotAnImage) ==> r.toast == Some(ImagesOnly)
    ensures file.Some? && CheckImage(file.value) == Some(TooLarge) ==> r.toast == Some(ImageTooLarge)
    ensures file.Some? && CheckImage(file.value).None? ==> r == AfterAccepted(v, st, reply, online)
  {
    match file
    case None => Selection(None, None, [], v)
    case Some(f) =>
      match CheckImage(f)
      case Some(NotAnImage) => Selection(None, Some(ImagesOnly), [], v)
      case Some(TooLarge) => Selection(None, Some(ImageTooLarge), [], v)
      case None => AfterAccepted(v, st, reply, online)
  }

  /** The part of `handleImageSelected` after the checks passed: the loading
      screen, the request, and what follows its outcome. */
  function AfterAccepted(v: PageView, st: Storage, reply: Option<Response>, online: bool): (r: Selection)
    ensures r.sent == Some(RequestFields(st))
    ensures |r.shown| == 2 && r.shown[0] == LoadingScreen && r.page.hidden == ShownOnly(r.shown[1])
    ensures r.shown[1] == ResultsScreen <==> r.toast.None?
  {
    var loading := v.(hidden := ShownOnly(LoadingScreen));
    var fields := RequestFields(st);
    match AnalysisOutcome(reply)
    case None =>
      Selection(Some(fields), Some(FailureToast(online)), [LoadingScreen, HomeScreen], loading.(hidden := ShownOnly(HomeScreen)))
    case Some(data) =>
      var (outcome, w) := Render(loading, data);
      if outcome == Threw then
        Selection(Some(fields), Some(FailureToast(online)), [LoadingScreen, HomeScreen], w.(hidden := ShownOnly(HomeScreen)))
      else
        Selection(Some(fields), None, [LoadingScreen, ResultsScreen], w.(hidden := ShownOnly(ResultsScreen)))
  }

  /** A missing or rejected file sends nothing and leaves the page as it was; an
      accepted one sends the profile's fields, shows the loading screen, and then
      the results exactly when the answer was read and rendered without a throw,
      home otherwise. The screen last shown is the one left visible. */
  lemma SelectionFlow(v: PageView, file: Option<ImageFile>, st: Storage, reply: Option<Response>, online: bool)
    ensures var r := AfterSelection(v, file, st, reply, online);
      (file.None? || CheckImage(file.value).Some?) ==> r.sent.None? && r.shown == [] && r.page == v
    ensures var r := AfterSelection(v, file, st, reply, online);
      file.Some? && CheckImage(file.value).None? ==>
        && r.sent == Some(RequestFields(st))
        && |r.shown| == 2 && r.shown[0] == LoadingScreen
        && r.page.hidden == ShownOnly(r.shown[1])
        && (r.shown[1] == ResultsScreen <==>
              AnalysisOutcome(reply).Some? && Render(v.(hidden := ShownOnly(LoadingScreen)), AnalysisOutcome(reply).value).0 != Threw)
        && (r.shown[1] != ResultsScreen ==> r.shown[1] == HomeScreen && r.toast == Some(FailureToast(online)))
  {
    if file.Some? && CheckImage(file.value).None? {
      AcceptedFlow(v, st, reply, online);
    }
  }

  /** After the checks pass: the profile's fields are sent, loading is shown, and
      then results or home, the latter with the failure toast. */
  lemma AcceptedFlow(v: PageView, st: Storage, reply: Option<Response>, online: bool)
    ensures var r := AfterAccepted(v, st, reply, online);
      && r.sent == Some(RequestFields(st))
      && |r.shown| == 2 && r.shown[0] == LoadingScreen
      && r.page.hidden == ShownOnly(r.shown[1])
      && (r.shown[1] == ResultsScreen <==>
            AnalysisOutcome(reply).Some? && Render(v.(hidden := ShownOnly(LoadingScreen)), AnalysisOutcome(reply).value).0 != Threw)
      && (r.shown[1] != ResultsScreen ==> r.shown[1] == HomeScreen && r.toast == Some(FailureToast(online)))
  {
  }

  /** An ok reply whose body is an error answer ends on the results screen with the
      error box open, the report hidden and no toast. */
  lemma ErrorAnswerShowsError(v: PageView, st: Storage, resp: Response, online: bool)
    requires Ok(resp) && resp.body.Json? && IsErrorBody(resp.body.value) && !Nullish(resp.body.value)
    ensures var r := AfterAccepted(v, st, Some(resp), online);
      && r.shown == [LoadingScreen, ResultsScreen] && r.toast.None?
      && !r.page.errorHidden && r.page.contentHidden
      && r.page.errorMessage == Or(Prop(resp.body.value, "error_message_urdu"), JStr(DEFAULT_ERROR))
  {
    assert AnalysisOutcome(Some(resp)) == Some(resp.body.value);
  }

  /** The DOM of the page. */
  class Page {
    var hidden: seq<bool>
    var expanded: seq<bool>
    var labels: seq<string>
    var errorHidden: bool
    var contentHidden: bool
    var errorMessage: JsValue
    var report: Report

    function View(): PageView
      reads this
    {
      PageView(hidden, expanded, labels, errorHidden, contentHidden, errorMessage, report)
    }

    ghost predicate Valid()
      reads this
    {
      WellShaped(View())
    }

    constructor (v: PageView)
      requires WellShaped(v)
      ensures Valid() && View() == v
    {
      hidden, expanded, labels := v.hidden, v.expanded, v.labels;
      errorHidden, contentHidden, errorMessage, report := v.errorHidden, v.contentHidden, v.errorMessage, v.report;
    }

    /** `showScreen(s)`: hide every screen, then reveal `s`. */
    method ShowScreen(s: Screen)
      requires Valid()
      modifies this
      ensures Valid()
      ensures View() == old(View()).(hidden := ShownOnly(s))
    {
      var h := hidden;
      for i := 0 to |h|
        invariant |h| == SCREEN_COUNT
        invariant forall k :: 0 <= k < i ==> h[k]
      {
        h := h[i := true];
      }
      h := h[ScreenIndex(s) := false];
      hidden := h;
    }

    /** `toggleDetails` on the button of section `i`. */
    method ToggleDetails(i: int)
      requires Valid()
      modifies this
      ensures Valid()
      ensures View() == Toggle(old(View()), i)
    {
      if 0 <= i < |expanded| {
        expanded := expanded[i := !expanded[i]];
        labels := labels[i := if expanded[i] then DETAILS_OPEN else DETAILS_CLOSED];
      }
    }

    /** The last loop of `renderResults`: collapse every details section. */
    method CollapseDetails()
      requires Valid()
      modifies this
      ensures Valid()
      ensures View() == old(View()).(expanded := seq(|old(expanded)|, _ => false),
                                     labels := seq(|old(labels)|, _ => DETAILS_CLOSED))
    {
      var e, l := expanded, labels;
      for i := 0 to |e|
        invariant |e| == |l| == |expanded|
        invariant forall k :: 0 <= k < i ==> !e[k] && l[k] == DETAILS_CLOSED
      {
        e, l := e[i := false], l[i := DETAILS_CLOSED];
      }
      expanded, labels := e, l;
    }

    /** `renderResults(data)`. */
    method RenderResults(data: JsValue) returns (outcome: RenderOutcome)
      requires Valid()
      modifies this
      ensures Valid()
      ensures (outcome, View()) == Render(old(View()), data)
    {
      if Nullish(data) {
        return Threw;
      }
      if IsErrorBody(data) {
        errorHidden, contentHidden := false, true;
        errorMessage := Or(Prop(data, "error_message_urdu"), JStr(DEFAULT_ERROR));
        return ShowedError;
      }
      outcome := ShowReport(data);
    }

    /** The report path of `renderResults`: the answer is not an error. */
    method ShowReport(data: JsValue) returns (outcome: RenderOutcome)
      requires Valid() && !Nullish(data) && !IsErrorBody(data)
      modifies this
      ensures Valid()
      ensures (outcome, View()) == Render(old(View()), data)
    {
      errorHidden, contentHidden := true, false;
      report := report.(name := Or(Prop(data, "medicine_name"), JStr(UNKNOWN_MEDICINE)),
                        explanation := Or(Prop(data, "explanation_urdu"), JStr(NO_EXPLANATION)));
      var auth, authDone := FillCard(report.authenticity, Prop(data, "authenticity"), "suspicious", "reasons_urdu");
      report := report.(authenticity := auth);
      if !authDone {
        return Threw;
      }
      var safety, safetyDone := FillCard(report.safety, Prop(data, "safety"), "warning", "warnings_urdu");
      report := report.(safety := safety);
      if !safetyDone {
        return Threw;
      }
      report := report.(dosage := SectionValue(Prop(data, "dosage"), "recommendation_urdu", JStr(CONSULT_DOCTOR)));
      CollapseDetails();
      outcome := ShowedReport;
    }

    /** `handleImageSelected(file)`, the analysis included. */
    method HandleImageSelected(file: Option<ImageFile>, st: Storage, reply: Option<Response>, online: bool)
      returns (sent: Option<AnalysisFields>, toast: Option<Toast>, shown: seq<Screen>)
      requires Valid()
      modifies this
      ensures Valid()
      ensures Selection(sent, toast, shown, View()) == AfterSelection(old(View()), file, st, reply, online)
    {
      sent, toast, shown := None, None, [];
      if file.None? {
        return;
      }
      var rejection := CheckImage(file.value);
      if rejection.Some? {
        toast := Some(if rejection.value == NotAnImage then ImagesOnly else ImageTooLarge);
        return;
      }
      sent, toast, shown := Analyse(st, reply, online);
    }

    /** The promise chain of `handleImageSelected` for an accepted file. */
    method Analyse(st: Storage, reply: Option<Response>, online: bool)
      returns (sent: Option<AnalysisFields>, toast: Option<Toast>, shown: seq<Screen>)
      requires Valid()
      modifies this
      ensures Valid()
      ensures Selection(sent, toast, shown, View()) == AfterAccepted(old(View()), st, reply, online)
    {
      ShowScreen(LoadingScreen);
      sent := Some(RequestFields(st));
      var answer := AnalysisOutcome(reply);
      var outcome := Threw;
      if answer.Some? {
        outcome := RenderResults(answer.value);
      }
      if outcome == Threw {
        toast, shown := Some(FailureToast(online)), [LoadingScreen, HomeScreen];
      } else {
        toast, shown := None, [LoadingScreen, ResultsScreen];
      }
      ShowScreen(shown[1]);
    }

    /** `init()`: the initial screen. */
    method Init(st: Storage)
      requires Valid()
      modifies this
      ensures Valid()
      ensures View() == old(View()).(hidden := ShownOnly(InitialScreen(st)))
    {
      var p := GetProfile(st);
      if Truthy(p) && Truthy(Prop(p, "age")) && Truthy(Prop(p, "gender")) {
        ShowScreen(HomeScreen);
      } else {
        ShowScreen(ProfileScreen);
      }
    }

    /** The save button: on a valid form, the record is written, a confirmation
        shown and the home screen opened; otherwise the reason is shown and
        neither the page's screens nor the storage change. */
    method SaveProfileClicked(ls: LocalStorage, form: ProfileForm) returns (toast: Toast)
      requires Valid()
      modifies this, ls
      ensures Valid()
      ensures Validate(form) == Some(AgeRequired) ==> toast == AskAge
      ensures Validate(form) == Some(GenderRequired) ==> toast == AskGender
      ensures Validate(form).Some? ==> View() == old(View()) && ls.items == old(ls.items)
      ensures Validate(form).None? ==>
        && toast == ProfileSaved && View() == old(View()).(hidden := ShownOnly(HomeScreen))
        && ls.items == old(ls.items)[PROFILE_KEY := Json(ToJs(Normalise(form)))]
    {
      var err := ls.SaveProfile(form);
      if err.Some? {
        return if err.value == AgeRequired then AskAge else AskGender;
      }
      ShowScreen(HomeScreen);
      toast := ProfileSaved;
    }
  }
}
