# Dawa Pahchan: a verified model of the offline router, the page logic and the analysis endpoint

Dawa Pahchan ("recognise the medicine") is a progressive web app. The user photographs a medicine package. The page sends the photo and the stored health profile to an analysis endpoint. The endpoint asks a vision model for an Urdu report on the medicine's authenticity, its safety for this user and its dosage. The page then shows that report, or an error. A service worker keeps the app shell usable offline.

This project models the three core parts in Dafny and proves properties of them:

- **The service worker** (`static/sw.js`): the install step pre-caches the static assets into the current cache generation, all or nothing. The activate step deletes every other generation. The fetch handler sorts each request into one of three classes:
  - API paths go to the network only, with a synthetic 503 JSON answer when offline;
  - the two Google Fonts hosts are served cache first and store ok answers;
  - everything else is served cache first, stores ok GET answers, falls back to the cached root document for a navigation, and otherwise gives a 503 text answer.
- **The page** (`static/app.js`):
  - the profile store (`getProfile`, `saveProfileToStorage` with its validation and `parseInt`/`parseFloat` normalisation);
  - the screen state machine (`showScreen`, `init`, the save button, `handleImageSelected` with its type and size checks and the analysis promise chain);
  - the request fields of `analyzeImage` and its rejection of non-ok answers;
  - `getStatusClass`, `renderResults` (including the state it leaves when it throws part way) and `toggleDetails`.
- **The endpoint** (`main.py`):
  - `parse_gemini_response`, with its three attempts: the whole text, then the fenced code block found by a regular expression, then the braced span;
  - the gender and pregnancy words of `build_analysis_prompt`;
  - the rules of `analyze_medicine`: the content-type check (400), the `pregnant` flag, the temporary file's suffix, the `None`-result fallback (200) and the exception fallback (500).

Modelling choices:

- **Browser objects.** The browser's `caches` object is the class `CacheStore.CacheStorage`. `localStorage` is the class `ProfileStore.LocalStorage`. The DOM state the page's rules touch is the class `App.Page`. Each class's value (`Store`, `Storage`, `PageView`) is what the pure specifications speak of.
- **Handlers.** Each event handler is a method that changes its object's fields. Each method is proved equal to a specification function of the old state.
- **Outside inputs.** The network, JSON text, the model call and `navigator.onLine` are parameters:
  - `Network = Request -> Option<Response>`, where `None` is a failed fetch;
  - `Body = Json(value) | NotJson(text)`;
  - `Loads = string -> Option<JsValue>` for Python's `json.loads`;
  - a `Gemini` oracle for the file handling and the model call;
  - a `bool` for `navigator.onLine`.
- **JavaScript values.** They are `Web.JsValue`, with ECMAScript truthiness, `||` and `&&` written out. Python's JSON values use the same type, with `None` as `JNull`.

Files:

- `wrappers.dfy`: `Option`.
- `web.dfy`: JavaScript values, URLs, requests and responses.
- `strings.dfy`: prefixes, the two languages' whitespace classes, trimming, searching, splitting and decimal numerals.
- `cache_storage.dfy`: the Cache API.
- `service_worker.dfy`: the worker.
- `profile.dfy`: the profile store.
- `app.dfy`: the page.
- `backend.dfy`: the endpoint.
- `end_to_end.dfy`: lemmas across the three parts.

## Model

| member | source | states |
|---|---|---|
| ServiceWorker.Classify | static/sw.js:57-101 | A request is an API request exactly when its path starts with `/api/`. It is a font request exactly when it is not an API request and its host is one of the two font hosts. Everything else is the third class. |
| ServiceWorker.ApiResponse | static/sw.js:61-77 | The network's answer is passed through unchanged. A failed fetch gives status 503 with JSON content type and `not_medicine: true`. |
| ServiceWorker.AssetRequests | static/sw.js:7-14 | The install batch is one GET request per static asset path, in order, on the worker's origin. |
| ServiceWorker.Installed | static/sw.js:19-30 | After install the current cache exists, and the cache list is the old one with the current name added once. |
| ServiceWorker.InstallIsAllOrNothing | static/sw.js:19-30 | If every asset fetch succeeded, the current cache holds an entry for every asset. If any failed, every lookup in every cache is unchanged. |
| ServiceWorker.Worker.constructor | static/sw.js:6 | A worker version has its cache name, origin and shared storage. |
| ServiceWorker.Worker.Install | static/sw.js:19-30 | Install returns success exactly when the whole batch fetched ok. It leaves `Installed` of the old store. |
| ServiceWorker.Worker.Activate | static/sw.js:35-52 | The loop deletes each listed cache whose name is not the current one. The store it leaves is `Retained`: only the current generation, with its entries unchanged. |
| ServiceWorker.Worker.HandleFont | static/sw.js:81-97 | A cache hit is returned without fetching, and the store is unchanged. On a miss the network's answer is returned, and stored exactly when it is ok. |
| ServiceWorker.Worker.HandleOther | static/sw.js:101-124 | A cache hit is returned without fetching. On a miss with an answer, the answer is returned and stored exactly when it is ok and the method is GET. On a failed fetch, a navigation gets the cached `/` and any other request gets the 503 text response, with the store unchanged. |
| ServiceWorker.FontHandled | static/sw.js:81-97 | The font strategy's whole effect, as a relation between the store before and after, the answer and whether the network was asked. |
| ServiceWorker.OtherHandled | static/sw.js:100-124 | The strategy for every other request, as the same relation, including the navigation fallback and the 503 text answer. |
| ServiceWorker.Worker.OnFetch | static/sw.js:57-125 | Each class gets its own strategy. The API class never touches the caches. |
| ServiceWorker.UpgradeLeavesOnlyNewCache | static/sw.js:6-52 | Install an older version with another cache name, then install and activate this version (`CACHE_NAME`). If this version's install succeeded, its cache is the only one left and the older one is gone. |
| CacheStore.OpenCache | static/sw.js:21 | `caches.open` creates an empty cache only when the name is new. No lookup changes. |
| CacheStore.PutEntry | static/sw.js:89-90 | `cache.put` keeps the store well formed. |
| CacheStore.PutChangesOneEntry | static/sw.js:89-90 | A put changes the entry it writes and no other. |
| CacheStore.MissThenPutIsServed | static/sw.js:102-112 | After a miss everywhere, a put of that key makes `caches.match` return the stored answer. |
| CacheStore.HitSurvivesPut | static/sw.js:83-85 | An entry `caches.match` finds is still found after any put. |
| CacheStore.MatchIn | static/sw.js:83 | `caches.match` finds nothing exactly when no cache holds the key. Otherwise it returns the entry of the first cache, in creation order, that holds it. |
| CacheStore.Match | static/sw.js:83 | On a store, `caches.match` is empty exactly when no cache holds the key, and otherwise the entry of the first cache that holds it. |
| CacheStore.CacheStorage.MatchKey | static/sw.js:102 | The same on the live cache storage: it reads the first cache, in creation order, that holds the key. |
| CacheStore.DeleteCache | static/sw.js:44 | After `caches.delete(name)` no cache of that name exists. |
| CacheStore.Without | static/sw.js:44 | A name list without `name` keeps every other name and stays duplicate-free. |
| CacheStore.Only | static/sw.js:41 | The filter keeps only the current name, and keeps it exactly when it was listed. |
| CacheStore.DeleteEach | static/sw.js:39-46 | Deleting names one after another keeps the store well formed. |
| CacheStore.DeleteEachStep | static/sw.js:39-46 | Handling one more name either skips it (the current name) or deletes it. |
| CacheStore.DeleteEachIsRetained | static/sw.js:37-46 | Running the deletes over `caches.keys()` leaves exactly `Retained`. |
| CacheStore.DeleteEachListsNamesAfter | static/sw.js:37-46 | The names the store lists after the deletes are those `NamesAfter` computes from the names alone. |
| CacheStore.DeleteEachNames | static/sw.js:37-46 | After the first i names, the names listed are the kept name (if it came up) followed by the names still to do. |
| CacheStore.DeleteEachCaches | static/sw.js:37-46 | After the first i names, exactly the caches named `keep` or named among the names still to do survive. |
| CacheStore.RetainedLeavesOnlyCurrent | static/sw.js:35-52 | After cleanup the cache list is `[current]`, or empty when it did not exist. Lookups in the current cache are unchanged, and every other cache is gone. |
| CacheStore.OnlyOfDistinct | static/sw.js:41 | On a duplicate-free list the filter gives `[current]` or `[]`. |
| CacheStore.FetchAll | static/sw.js:24 | The batch succeeds with one ok answer per request, in order. Otherwise some request failed or was not ok. |
| CacheStore.FetchAllSucceeds | static/sw.js:24 | If every request was answered ok, the batch yields exactly those answers. |
| CacheStore.FetchAllFails | static/sw.js:24 | One failed or non-ok answer fails the whole batch. |
| CacheStore.Batch | static/sw.js:24 | The entries written are keyed by exactly the batch's URLs. |
| CacheStore.AddAllResult | static/sw.js:24 | `addAll` keeps the store well formed and the cache list unchanged. |
| CacheStore.AddAllIsAllOrNothing | static/sw.js:24 | A successful `addAll` stores every request's answer. A failed one leaves the store as it was. |
| CacheStore.CacheStorage.constructor | static/sw.js:21 | The browser's cache storage starts empty. |
| CacheStore.CacheStorage.Keys | static/sw.js:37 | `caches.keys()` lists every cache once, in creation order. |
| CacheStore.CacheStorage.Open | static/sw.js:21 | The new state is `OpenCache` of the old. |
| CacheStore.CacheStorage.Put | static/sw.js:89-90 | The new state is `PutEntry` of the old. |
| CacheStore.CacheStorage.Delete | static/sw.js:44 | The new state is `DeleteCache` of the old. The result says whether the cache existed. |
| CacheStore.CacheStorage.AddAll | static/sw.js:24 | The loop fetches the whole batch before writing. The new state is `AddAllResult`, and the result says whether every fetch was ok. |
| Strings.LeadingEnd | static/app.js:29-31 | The run of whitespace from a position ends at a non-whitespace character or at the end. |
| Strings.TrailingStart | static/app.js:29-31 | The run of whitespace that ends at a position starts after a non-whitespace character or at the lower bound. |
| Strings.TrimIsInnerSpan | static/app.js:29-31 | `trim()` (and Python's `strip()`) keeps one contiguous span. It removes only whitespace around it and leaves none at either end. |
| Strings.AsciiLower | main.py:241 | Lower-casing maps exactly the ASCII capitals to small letters, position by position. |
| Strings.IndexOf | main.py:133 | The first occurrence at or after `from`, or none at all. |
| Strings.FirstIndexOfChar | main.py:141 | The first index of the character, or none at all. |
| Strings.LastIndexOfChar | main.py:141 | The last index of the character, or none at all. |
| Strings.AfterLast | main.py:244 | `split(c)[-1]` is the suffix after the last `c`, and it contains no `c`. |
| Strings.BeforeFirst | main.py:244 | `split(c)[0]` is the prefix before the first `c`, and it contains no `c`. |
| Strings.DigitPrefix | static/app.js:52 | The longest run of leading ASCII digits. |
| Strings.NatToDecimal | static/app.js:52 | The decimal numeral of a number is a nonempty string of digits. |
| Strings.DecimalValue | static/app.js:52 | Reading a numeral back gives the number. |
| ProfileStore.ParseInt | static/app.js:52 | `parseInt` is NaN exactly when no digit follows the leading whitespace and the sign. |
| ProfileStore.ParseIntReadsNumeral | static/app.js:52 | `parseInt` reads a numeral, or its negation, back whatever non-digit text follows. |
| ProfileStore.ParseFloat | static/app.js:54 | `parseFloat` is NaN exactly when there is no digit before or after a decimal point, once the leading whitespace and the sign are skipped. |
| ProfileStore.ParseFloatOfNumeral | static/app.js:54 | `parseFloat` reads a whole numeral back as that number. |
| ProfileStore.WeightOf | static/app.js:54 | `parseFloat(w) \|\| 0` is 0 for unreadable text and the parsed value otherwise. |
| ProfileStore.Validate | static/app.js:39-49 | A blank trimmed age is refused first. Then a missing gender is refused. The form passes exactly when both are present. |
| ProfileStore.Normalise | static/app.js:51-57 | The record holds the gender as selected and the trimmed allergies. `pregnant` holds exactly when "true" was selected. Age and weight are the parsed values of the trimmed inputs. |
| ProfileStore.ToJs | static/app.js:59 | The stored object has exactly the five fields, with the record's values. `JSON.stringify` writes a NaN age, and an age or weight too large for a double (an infinity in the page), as `null`. |
| ProfileStore.GetProfile | static/app.js:19-26 | `null` for a missing key or text that is not JSON, the parsed value otherwise. It never throws. |
| ProfileStore.SaveThenLoad | static/app.js:19-61 | Reading right after a successful save gives back the saved values. |
| ProfileStore.LocalStorage.constructor | static/app.js:21 | Local storage with its items. |
| ProfileStore.LocalStorage.SaveProfile | static/app.js:28-61 | On a refused form, the reason is returned and storage is unchanged. Otherwise there is one write of the whole normalised record under the profile key. |
| App.ScreenIndex | static/app.js:94 | Each screen has its own position among the four `.screen` elements. |
| App.ShownOnly | static/app.js:93-102 | After `showScreen(s)` exactly one screen is visible, and it is `s`. |
| App.GetStatusClass | static/app.js:163-177 | "authentic" and "safe" are safe. "counterfeit" and "danger" are danger. Every other value, a non-string included, is a warning. |
| App.CheckImage | static/app.js:287-297 | A non-image type is refused first, then a size over 20 MiB. Any other file is accepted. |
| App.SizeCeiling | static/app.js:294 | Exactly 20 MiB is accepted, and one byte more is refused. |
| App.StoredOrEmpty | static/app.js:138 | The stored profile if truthy, `{}` otherwise. Never nullish. |
| App.RequestFields | static/app.js:142-146 | Each field is the profile value, or its default when falsy: 0, "", 0 and "". `pregnant` is "true" exactly when the stored flag is truthy, and "false" otherwise. |
| App.NoProfileFieldDefaults | static/app.js:138-146 | With no readable profile every field takes its default. |
| App.SavedProfileFields | static/app.js:28-61 | After a save the request carries the saved values. An unreadable age, and an age or weight too large for a double, are sent as 0. |
| App.StoredProfileFields | static/app.js:138-146 | A stored record's fields, one by one, as sent. An infinite age or weight, stored as `null`, is sent as 0. |
| App.AnalysisOutcome | static/app.js:148-156 | The promise resolves exactly for an ok answer with a JSON body, and then to that body. A failed fetch, a non-ok status or a non-JSON body rejects. |
| App.SectionValue | static/app.js:210 | `(section && section[key]) \|\| fallback` is the property when both are truthy, the fallback otherwise. |
| App.ListItems | static/app.js:218-219 | An absent or falsy list is empty. There are items exactly when the value is an array; any other truthy value makes `forEach` throw. |
| App.Render | static/app.js:183-258 | `renderResults` never changes which screen is visible and keeps the number of details sections. Only a shown report touches the sections and their labels; an error or a throw leaves them as they were. Only the error path writes the error message. |
| App.RenderDiscriminates | static/app.js:183-194 | A nullish answer throws before writing anything. An error is shown exactly for a truthy `not_medicine` or `error_message_urdu`. The error box then gets the message, or the default, and nothing else changes. |
| App.RenderReport | static/app.js:183-258 | A report is shown exactly when the answer is not an error and both lists are arrays or absent. Every part is filled with its value or its default, and every details section is collapsed with its label. |
| App.AbsentSectionsWarn | static/app.js:210-246 | A missing authenticity or safety section renders as a warning card with no items. |
| App.Toggle | static/app.js:264-271 | The one section flips and its label follows. Others are unchanged. A button outside every section changes nothing. Labels that agree stay in agreement. |
| App.ToggledThenRendered | static/app.js:252-271 | However the sections were toggled, a shown report leaves all of them collapsed. |
| App.FillCard | static/app.js:208-226 | The card's class, label, list items (the `forEach` loop) and details are as `FilledCard` says. It stops after clearing the list when the list is not an array. |
| App.InitialScreen | static/app.js:461-468 | Home exactly when the stored profile and its age and gender are truthy, the profile form otherwise. |
| App.FirstVisitAsksForProfile | static/app.js:461-468 | A first visit opens the profile form. |
| App.SavedProfileOpensHome | static/app.js:28-61 | After a save, the next start opens home exactly when `parseInt` read a non-zero age that is finite as a double. |
| App.StoredProfileOpensHome | static/app.js:461-468 | A stored record opens home exactly when its age is a non-zero number that is finite as a double. |
| App.SelectionFlow | static/app.js:284-328 | A missing or refused file sends nothing, shows nothing and leaves the page. An accepted one sends the profile fields and shows loading, then results exactly when the answer was read and rendered without a throw, and home with a toast otherwise. It never stays on loading. |
| App.AfterSelection | static/app.js:284-297 | A missing file raises no toast. A non-image raises the images-only toast and a file over the limit the size toast. An accepted file continues as `AfterAccepted`. |
| App.AfterAccepted | static/app.js:299-327 | The profile fields are sent, loading is shown, then one more screen, which stays visible. That screen is results exactly when no toast was raised. |
| App.AcceptedFlow | static/app.js:307-327 | Once a file passes the checks, the profile fields are sent and loading is shown. Results follow exactly when the answer was read and rendered without a throw, and home with the failure toast otherwise. |
| App.ErrorAnswerShowsError | static/app.js:183-194 | An ok reply carrying an error answer ends on the results screen with the error box open and the report hidden, and raises no toast. |
| App.Page.constructor | static/app.js:6 | The page's DOM state. |
| App.Page.ShowScreen | static/app.js:93-102 | The loop hides every screen, then reveals `s`. Only the screens' flags change. |
| App.Page.ToggleDetails | static/app.js:264-271 | The new state is `Toggle` of the old. |
| App.Page.CollapseDetails | static/app.js:252-257 | The loop collapses every section and resets every label. |
| App.Page.RenderResults | static/app.js:183-258 | The outcome and the new page are `Render` of the old page. |
| App.Page.ShowReport | static/app.js:196-258 | The report path of `Render`. |
| App.Page.HandleImageSelected | static/app.js:284-328 | The request, toast, screens shown and new page are `AfterSelection`. |
| App.Page.Analyse | static/app.js:299-327 | The accepted-file path as `AfterAccepted` says. |
| App.Page.Init | static/app.js:461-468 | Shows `InitialScreen` of the stored profile. |
| App.Page.SaveProfileClicked | static/app.js:363-368 | A refused form gives its toast and changes neither page nor storage. A valid one writes the record, confirms, and opens home. |
| Backend.FindFenceIsLeftmost | main.py:133 | A match the search finds is the pattern's leftmost one. It is the first fence, the greedy optional `json` tag, the longest whitespace run, and the group up to the first fence after it. |
| Backend.LeadingSpaces | main.py:133 | `\s*` takes the whole run of Python whitespace and stops at a non-space. |
| Backend.FenceAbsentIff | main.py:133-134 | The pattern has no match exactly when no two fences lie three or more characters apart. |
| Backend.NoFenceBeforeGroup | main.py:133 | No fence starts inside the tag or the whitespace before the group. |
| Backend.FencedGroup | main.py:133-136 | There is a group exactly when two fences lie three or more characters apart. It is the matched span. |
| Backend.FindBraces | main.py:141 | The braced span runs from the first `{` to the last `}`. It is absent exactly when no `{` comes before a `}`. |
| Backend.BracedSpan | main.py:141-144 | The span starts with `{` and ends with `}`. |
| Backend.BracedObjectFound | main.py:141-144 | An object with prose around it, with no `{` before and no `}` after, is the braced span. |
| Backend.ParseGeminiResponse | main.py:121-148 | `None` for a missing or empty text. The whole text's decoding when it decodes, even when that decoding is `None` (the text `null`). |
| Backend.Attempts | main.py:126-148 | The whole text's decoding wins when there is one. Any result is the decoding of one of the three candidates. |
| Backend.FirstDecodedIsFirst | main.py:121-148 | The first-success reference is `None` exactly when no candidate decodes. Otherwise it is the decoding of a candidate whose predecessors all failed. |
| Backend.ParseIsFirstDecoded | main.py:121-148 | The three attempts are the first success over the whole text, the stripped fenced group and the braced span, in that order. |
| Backend.AttemptsAreFirstDecoded | main.py:126-148 | The fallback chain equals the first success over its candidates, whatever the searches found. |
| Backend.FencedAnswerIsRead | main.py:132-138 | An answer in a fenced block, with or without `json`, and with or without whitespace such as a newline before the group, is the captured group. It is what the parser returns when the whole text fails and the block decodes. |
| Backend.GroupIsTriedSecond | main.py:126-138 | When the whole text does not decode and the stripped fenced group does, the parser returns the group's decoding. |
| Backend.FencedGroupOfLayout | main.py:133-135 | With a backtick-free prefix and group, the captured group is exactly the text between the whitespace after the tag and the closing fence. The group must not start with whitespace. When no tag and no whitespace precede it, it must not start with `j`. |
| Backend.FencedLayout | main.py:133 | Where the prefix, fences, tag, whitespace run and group of such a text lie in it. |
| Backend.FencesOfLayout | main.py:133 | Where the prefix, the two fences and the tag of such a text lie. |
| Backend.GroupOfLayout | main.py:133 | Where the whitespace run and the group lie, and that the character after a bare fence is not `j`. |
| Backend.FencedBlockFound | main.py:133 | On such a text the search finds the first fence, the start after the tag and the whitespace, and the closing fence, and the group is the text between them. |
| Backend.TagEndOf | main.py:133 | The optional tag is taken when `json` follows the fence, and not when the next character is not `j`. |
| Backend.LeadingSpacesOfRun | main.py:133 | `\s*` takes exactly a whitespace run that ends at a non-space. |
| Backend.FindFenceOf | main.py:133 | Once the opening fence, the tag and the whitespace run are known, the search gives the match ending at the next fence. |
| Backend.FenceAt | main.py:133 | The search from a point with no backtick before the next fence finds that fence. |
| Backend.IndexOfFirst | main.py:133 | An occurrence with none before it is the one the search finds. |
| Backend.BuildAnalysisPrompt | main.py:37-50 | "Man" exactly for `male`, "woman" for every other gender. "Yes" exactly when pregnant. The allergies, or "None reported" when empty. The other values are interpolated as given. |
| Backend.IsPregnant | main.py:241 | True exactly when the lower-cased text is "true", "1" or "yes". |
| Backend.PregnantFlagWords | main.py:241 | "true", "TRUE" and "Yes" read as pregnant; "false" and "" do not. |
| Backend.Suffix | main.py:244 | The suffix starts with a dot, and the rest contains neither `/` nor `;`. |
| Backend.SuffixOfSubtype | main.py:244 | `image/<sub>` and `image/<sub>;<params>` both give `.<sub>`. |
| Backend.AfterLastOfTail | main.py:244 | The part after the last `/` is the text after the final slash. |
| Backend.BeforeFirstOfHead | main.py:244 | The part before the first `;` is the text before it. |
| Backend.NotMedicineBody | main.py:265-268 | The fallback body has `not_medicine: true` and the given message. |
| Backend.AnalyzeMedicine | main.py:218-280 | A missing or non-image content type gives 400 before anything else. Otherwise the status is 200 or 500, the body is JSON, and a 500 carries `not_medicine: true`. |
| Backend.AnalyzeFallback | main.py:262-270 | When the model answered, the status is 200. A `None` result becomes the "not a medicine" body; a decoded value is returned as is. |
| EndToEnd.OfflineAnalysisGoesHome | static/sw.js:61-77 | When the fetch fails, the worker's 503 makes the page go home with its failure toast (no connection when the browser is offline, the generic failure otherwise). The worker's offline message is never shown. |
| EndToEnd.AnalysisRequestIsApi | static/app.js:13 | The page's `/api/analyze` request is in the worker's API class, on any origin. |
| EndToEnd.BackendRefusalIsFailure | main.py:236-238 | The endpoint's 400 and 500 reach the page as failures: home screen and a toast. |
| EndToEnd.UnreadableAnswerShowsError | main.py:262-268 | An unreadable model answer is shown in the page's error box on the results screen, without a toast. |
| EndToEnd.NotMedicineShowsError | main.py:265-268 | The endpoint's 200 "not a medicine" answer ends in the page's error box on the results screen, with its message and no toast. |
| EndToEnd.PregnancyFlagAgrees | static/app.js:145 | The endpoint's `pregnant` flag is exactly the truthiness of the stored flag. |

## Behaviour worth knowing

The model follows the code in each case:

- The page's save guard accepts any non-blank age text: "abc", "0" and "-5" all pass. An unreadable age is stored as `null`. An age of 0 or NaN sends the user back to the profile form at the next start (`App.SavedProfileOpensHome`). A negative age opens home.
- `parseFloat` keeps a negative weight.
- Every gender other than `male` (empty or "other") is called "woman" in the prompt (`Backend.BuildAnalysisPrompt`).
- A model answer that is the text `null` decodes to `None` in the first attempt. The parser returns it without trying the other two attempts, and the endpoint then answers with the "not a medicine" body (`Backend.NoResult`).
- The worker's offline JSON answer has status 503. The page rejects every non-ok status, so its message is never displayed. The page shows its own failure toast instead: "no connection" only when `navigator.onLine` is false, the generic failure toast otherwise, for example when the server is down (`EndToEnd.OfflineAnalysisGoesHome`).
- Only a shown report collapses the details sections. The error path of `renderResults` returns before the collapse loop, so sections expanded earlier stay expanded behind the error view (`App.Render`, `App.RenderDiscriminates`).

## Left out

- I/O and asynchrony: promises, `event.waitUntil` and `respondWith` become sequential method calls. Interleavings of concurrent fetch events and concurrent analyses are not modelled.
- The Cache API's refusal to store non-GET requests and 206 answers, the `Vary` header, and a rejected `caches.match` are not modelled. A cache is keyed by URL alone.
- ServiceWorker.OtherHandled: in the browser `caches.match` never matches a non-GET request, so a POST outside `/api/` always goes to the network. The model serves the cached entry for the URL whatever the method.
- `self.skipWaiting()`, `self.clients.claim()`, service worker registration and the browser's install/activate lifecycle are left out. `UpgradeLeavesOnlyNewCache` activates only after a successful install.
- The logging calls are left out.
- ProfileStore.ParseFloat: exponents, `Infinity` and hexadecimal forms are not read. It handles digits with an optional fraction.
- ProfileStore.ToJs: ages and weights are exact integers and reals, not doubles. Overflow to an infinity (a magnitude of at least 2^1024 - 2^970) is modelled, and such a value is stored as `null`. Rounding of finite values is not: an integer above 2^53 or a decimal fraction keeps its exact value, and a weight so small that it rounds to 0 is kept rather than replaced by 0. ECMAScript also lets `parseInt` drop significant digits after the twentieth, which is not modelled.
- JSON text itself is abstracted.
  - On the page, a body is JSON or it is not; `JSON.parse` and `JSON.stringify` are not modelled character by character.
  - On the endpoint, `json.loads` is the parameter `loads`.
  - Backend.ParseGeminiResponse: `loads` returning `None` stands for `JSONDecodeError` and `TypeError`, the two exceptions the parser catches. Any other exception `json.loads` raises, such as `RecursionError` on deeply nested text, escapes the parser and becomes a 500 in the endpoint. The model instead goes on to the next candidate.
  - Python's `json.loads` also accepts `NaN` and `Infinity`. A result holding one makes the JSON response raise while rendering (status 500); `JsValue` numbers cannot hold them.
- FormData's and `textContent`'s conversion of values to text is left out. The request fields and the page's texts are kept as `JsValue`s. The error box's fixed warning-sign prefix is not part of `errorMessage`.
- Not modelled:
  - the preview image;
  - `URL.createObjectURL`;
  - `window.scrollTo`;
  - the toast element's timing and animation;
  - the keyboard handler;
  - the install prompt;
  - the `online`/`offline` toasts;
  - the camera trigger.
- `loadProfileIntoForm` and the gender/pregnancy button listeners are not modelled. The profile form is taken as read on save: the input texts and the selected buttons' values.
- A details section without a button is not modelled: every section has one.
- Backend.IsPregnant: Python's `str.lower()` is modelled on ASCII letters only. No other character lowers to the ASCII letters of "true" or "yes", so the comparison is exact.
- FastAPI's conversion of the `age` and `weight` form fields to numbers is not modelled, and neither is its 422 answer for text that does not convert. `Upload` holds the converted values.
- The `uuid` file name, writing and deleting the temporary file, uploading to and deleting from the model service, and the JSON-mode retry of `generate_content` are left out. Together with the model call they are the `Gemini` oracle, whose `None` stands for any exception on that path.
- The prompt's fixed instruction text is left out: only the interpolated values are modelled.
- The routes that serve static files (`/`, `/manifest.json`, `/sw.js`, `/static`) are left out. They are file serving, not logic.
