/** How the three parts meet: the page's analysis request goes through the
    worker's API strategy to the endpoint, and the page reads what comes back. */
module EndToEnd {
  import opened Wrappers
  import opened Web
  import opened ProfileStore
  import opened ServiceWorker
  import opened App
  import opened Backend

  /** The page's analysis request, on any origin, is in the worker's API class. */
  lemma AnalysisRequestIsApi(origin: Origin)
    ensures Classify(Url(origin, API_URL, "")) == Api
  {
    assert API_URL[..|API_PREFIX|] == API_PREFIX;
  }

  /** Offline, the worker answers the analysis request with its 503 body; the page
      treats every non-ok status as a failure, so it goes back home with a toast
      and never shows that body's message. */
  lemma OfflineAnalysisGoesHome(v: PageView, st: Storage, req: Request, net: Network, online: bool)
    requires Classify(req.url) == Api && net(req).None?
    ensures var r := AfterAccepted(v, st, Some(ApiResponse(req, net)), online);
      && r.shown == [LoadingScreen, HomeScreen] && r.toast == Some(FailureToast(online))
      && r.page.errorHidden == v.errorHidden && r.page.errorMessage == v.errorMessage
  {
    assert !Ok(ApiResponse(req, net));
  }

  /** The endpoint's refusals (400 for a non-image, 500 for a failed analysis)
      reach the page as failures too: home screen and a toast. */
  lemma BackendRefusalIsFailure(u: Upload, gemini: Gemini, loads: Loads, v: PageView, st: Storage, online: bool)
    requires AnalyzeMedicine(u, gemini, loads).status != 200
    ensures var r := AfterAccepted(v, st, Some(AnalyzeMedicine(u, gemini, loads)), online);
      r.shown == [LoadingScreen, HomeScreen] && r.toast == Some(FailureToast(online))
  {
    var resp := AnalyzeMedicine(u, gemini, loads);
    assert resp.status == 400 || resp.status == 500;
    assert !Ok(resp);
  }

  /** An answer nothing could be read from comes back with status 200 and the
      "not a medicine" body, which the page shows in its error box on the results
      screen, without a toast. */
  lemma UnreadableAnswerShowsError(u: Upload, gemini: Gemini, loads: Loads, v: PageView, st: Storage, online: bool)
    requires AcceptsContentType(u.contentType)
    requires var call := gemini(BuildAnalysisPrompt(u.age, u.gender, u.weight, IsPregnant(u.pregnant), u.allergies),
                                Suffix(u.contentType.value), u.contentType.value);
      call.Some? && NoResult(ParseGeminiResponse(call.value, loads))
    ensures var r := AfterAccepted(v, st, Some(AnalyzeMedicine(u, gemini, loads)), online);
      && r.shown == [LoadingScreen, ResultsScreen] && r.toast.None?
      && !r.page.errorHidden && r.page.contentHidden && r.page.errorMessage == JStr(UNREADABLE_MESSAGE)
  {
    var resp := AnalyzeMedicine(u, gemini, loads);
    assert resp.status == 200 && resp.body == Json(NotMedicineBody(UNREADABLE_MESSAGE)) by {
      AnalyzeFallback(u, gemini, loads);
    }
    NotMedicineShowsError(v, st, resp, online);
  }

  /** The page shows the endpoint's "not a medicine" answer in its error box. */
  lemma NotMedicineShowsError(v: PageView, st: Storage, resp: Response, online: bool)
    requires resp.status == 200 && resp.body == Json(NotMedicineBody(UNREADABLE_MESSAGE))
    ensures var r := AfterAccepted(v, st, Some(resp), online);
      && r.shown == [LoadingScreen, ResultsScreen] && r.toast.None?
      && !r.page.errorHidden && r.page.contentHidden && r.page.errorMessage == JStr(UNREADABLE_MESSAGE)
  {
    var body := NotMedicineBody(UNREADABLE_MESSAGE);
    assert IsErrorBody(body) && !Nullish(body);
    ErrorAnswerShowsError(v, st, resp, online);
  }

  /** The page sends the pregnancy flag as "true" or "false", and the endpoint
      reads it back as the stored flag's truthiness. */
  lemma PregnancyFlagAgrees(st: Storage)
    ensures IsPregnant(RequestFields(st).pregnant) <==> Truthy(Prop(StoredOrEmpty(st), "pregnant"))
  {
    PregnantFlagWords();
  }
}
