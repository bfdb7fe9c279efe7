# AI Tools landing page scripts — a Dafny model

This project models the logic in two browser scripts of the AI Tools / SaaS
landing page. Dafny proves what each part of the model promises.

From `assets/js/ajax.js` it models:

- the `AJAXUtils` transport:
  - how `request` builds the `fetch` call from a verb, a URL, data and options (method, headers, body and query string);
  - how the returned promise settles;
  - the verb helpers;
  - `setHeaders`;
  - how `uploadFile` settles.
- the `APIService` endpoint table and its sixteen typed calls;
- the `FormHandler` validator: `validateField`, `validateForm`, `isValidEmail` and `isValidPhone`;
- the `RealTimeHandler`: its reconnect counter, its handler map and its socket calls.

From `assets/js/main.js` it models:

- `utils.formatNumber` and the pricing calculator;
- the stored colour theme and its toggle;
- the testimonial carousel;
- the sticky header;
- the search-box threshold;
- the modal dialogs and the Escape key.

Layout, one module per file:

- `optional.dfy` (`Optional`): an option type.
- `js_string.dfy` (`JsString`): the ECMAScript string and number built-ins the scripts rely on:
  - `trim` and the white-space set of `\s`;
  - ASCII case mapping;
  - `indexOf`;
  - `replace` with a string pattern, including the `$` substitution patterns;
  - `parseInt` without a radix;
  - integer-to-string conversion.
- `js_value.dfy` (`JsValues`): JSON-like values and their truthiness.
- `ajax.dfy` (`Ajax`): the transport, as class `AjaxClient`.
- `api.dfy` (`Api`): the endpoint table, `Route`, and class `ApiService`.
- `forms.dfy` (`Forms`): the validator.
- `realtime.dfy` (`Realtime`): class `RealTimeHandler`.
- `format.dfy` (`Format`): `formatNumber`.
- `pricing.dfy` (`Pricing`): `calculatePrice`.
- `page.dfy` (`Page`): the page state: theme, carousel, header, search and modals.

Browser and library calls are replaced as follows:

- The network's answer is a parameter: a `Reply` for `fetch`, an `XhrEvent` for an upload.
- `JSON.stringify`, `URLSearchParams#toString` and `JSON.parse` are opaque functions carried in a `Codec`.
- socket.io and timers are recorded as `Effect`s.
- DOM classes are fields or array cells.
- `localStorage` is an `Option<string>` field.

Behaviour of the code the model keeps:

- `getDashboardAnalytics()` does not send `?period=30d`. `get` passes `null` data, so the period stays in the config's `params`, which `fetch` ignores (`Api.DefaultAnalytics`).
- When a caller gives `options.headers`, those headers replace the default headers instead of being merged with them. The spread `...options` comes after the merged `headers` (`Ajax.AjaxClient.Request`).
- `options.method` likewise overrides the upper-cased verb.
- A second `on` for the same event does not replace the first handler on a connected socket: the table keeps only the second, but `socket.on` adds a listener each time, so both are called (`Realtime.SubscribeTwice`).

## Model

| member | source | states |
|---|---|---|
| JsString.Trim | assets/js/ajax.js:368 | the trimmed value is empty exactly when the value is all white space, and otherwise begins and ends with a non-space character |
| JsString.TrimKeepsStretch | assets/js/ajax.js:368 | `trim` cuts nothing but white space: the value is some white space, then the trimmed value, then some white space |
| JsString.RemoveSpaces | assets/js/ajax.js:449 | the phone value with `\s` removed contains no white space and is no longer than the input |
| JsString.RemoveSpacesChar | assets/js/ajax.js:449 | a single character is dropped exactly when it is white space and kept otherwise; with `RemoveSpacesConcat` this fixes the result as the non-space characters in order |
| JsString.RemoveSpacesConcat | assets/js/ajax.js:449 | removing white space distributes over concatenation |
| JsString.ToUpperCase | assets/js/ajax.js:71 | `toUpperCase` on ASCII letters (a definition; `UpperCaseIsUpper`, `CaseRoundTrip` and `CaseConcat` state its properties) |
| JsString.UpperCaseIsUpper | assets/js/ajax.js:71 | an upper-cased verb has no lower-case letter left, and upper-casing it again changes nothing |
| JsString.ToLowerCase | assets/js/main.js:419 | `toLowerCase` on ASCII letters (a definition; `LowerCaseIsLower`, `CaseRoundTrip` and `CaseConcat` state its properties) |
| JsString.LowerCaseIsLower | assets/js/main.js:419 | a lower-cased query has no upper-case letter left, and lower-casing it again changes nothing |
| JsString.CaseRoundTrip | assets/js/main.js:419 | case mapping forgets only the case: lower-casing after upper-casing is lower-casing, and the reverse, so queries that differ only in case are searched alike |
| JsString.CaseConcat | assets/js/main.js:419 | both case mappings distribute over concatenation |
| JsString.IndexOf | assets/js/ajax.js:239 | a position found is one where the pattern occurs |
| JsString.IndexOfIsFirst | assets/js/ajax.js:239 | the position found is the first occurrence, and `None` comes only when the pattern occurs nowhere |
| JsString.IndexOfFirst | assets/js/ajax.js:239 | an occurrence with none before it is the position `indexOf` finds |
| JsString.Includes | assets/js/ajax.js:89 | `includes` holds exactly when `indexOf` finds the pattern (a definition; its meaning comes from `IndexOf`, `IndexOfIsFirst` and `IndexOfFirst`) |
| JsString.Replace | assets/js/ajax.js:239 | `replace` with a string pattern (a definition; `ReplaceFirst`, `ReplaceWithMatch` and `Api.DollarIdKeepsToken` state its properties) |
| JsString.Substitute | assets/js/ajax.js:239 | GetSubstitution for a string pattern: `$$`, `$&`, `` $` `` and `$'` are expanded, every other character is copied (a definition; `SubstituteLiteral` and `SubstituteMatch` state its cases) |
| JsString.SubstituteMatch | assets/js/ajax.js:239 | `$&` expands to the matched text |
| JsString.SubstituteLiteral | assets/js/ajax.js:239 | a replacement without `$` is inserted verbatim |
| JsString.ReplaceFirst | assets/js/ajax.js:239 | with a `$`-free replacement only the first occurrence is replaced, and the text around it is kept |
| JsString.ReplaceWithMatch | assets/js/ajax.js:239 | replacing with `$&` gives the string back unchanged |
| JsString.DigitPrefix | assets/js/main.js:401 | `parseInt` reads the longest prefix of digits of the radix, and the character after it is not such a digit |
| JsString.ParseUnsignedDecimal | assets/js/main.js:401 | a decimal numeral without a leading zero is read whole in base 10 |
| JsString.NatToString | assets/js/main.js:405 | the decimal form of a natural number is a non-empty digit string without a leading zero |
| JsString.IntToString | assets/js/main.js:405 | the decimal form of an integer starts with `-` exactly when the integer is negative |
| JsString.DecimalRoundTrip | assets/js/main.js:405 | the digits of `String(n)` denote `n` |
| JsString.ParseInt | assets/js/main.js:401 | `parseInt` without a radix: leading white space and one sign are skipped, a `0x`/`0X` prefix selects base 16, the longest digit prefix is read, and no digit gives `NaN` (a definition; the lemmas below state what it reads) |
| JsString.ParseIntDigitStart | assets/js/main.js:401 | a string that starts with a digit has no white space or sign for `parseInt` to skip |
| JsString.ParseIntNumeral | assets/js/main.js:401 | `parseInt` reads a plain decimal numeral as its value |
| JsString.ParseIntNatToString | assets/js/main.js:401 | `parseInt(String(n)) == n` for every natural `n` |
| JsString.ParseIntMinus | assets/js/main.js:401 | after a leading `-`, `parseInt` reads the rest as a magnitude and negates it |
| JsString.ParseIntNegative | assets/js/main.js:401 | `parseInt(String(i)) == i` for every negative integer `i` |
| JsString.ParseIntIntToString | assets/js/main.js:401 | `parseInt(String(i)) == i` for every integer `i` |
| JsValues.Truthy | assets/js/ajax.js:77 | `undefined`, `null`, `false`, `0` and the empty string are falsy; every other value, arrays and objects included, is truthy (a definition) |
| Ajax.Settle | assets/js/ajax.js:92-108 | a network failure rejects; a non-ok status rejects with `HTTP error! status: <status>`; only an ok response resolves, as parsed JSON exactly when the content type includes `application/json`, else as raw text; an ok JSON response fails only when its body does not parse |
| Ajax.SettleUpload | assets/js/ajax.js:128-143 | an upload resolves exactly on a 2xx load, as parsed JSON or else the raw text; any other status rejects with `Upload failed: <status>`; a transport error rejects with `Upload failed`; abort and timeout leave the promise pending |
| Ajax.StatusMessageCarriesStatus | assets/js/ajax.js:95-97 | the rejection message begins with the fixed prefix, and the rest reads back as the status |
| Ajax.StatusMessageInjective | assets/js/ajax.js:95-97 | different statuses give different rejection messages |
| Ajax.UploadAndRequestDiffer | assets/js/ajax.js:128-135 | on a 2xx answer, an unparsable body that claims JSON makes `request` reject but the upload resolve with the text; parsable JSON without a JSON content type is raw text for `request` but parsed for the upload |
| Ajax.AjaxClient.constructor | assets/js/ajax.js:9-15 | the base URL is the origin, and the defaults are `Content-Type: application/json` and `X-Requested-With: XMLHttpRequest` |
| Ajax.AjaxClient.SetBaseUrl | assets/js/ajax.js:20-22 | the base URL is replaced and the headers are kept |
| Ajax.AjaxClient.SetHeaders | assets/js/ajax.js:27-29 | the given headers are merged over the defaults: given names take the new values, other names keep theirs |
| Ajax.AjaxClient.Request | assets/js/ajax.js:69-109 | the caller's method and headers override the built ones; a truthy payload of POST, PUT or PATCH becomes the body (a FormData body drops `Content-Type`), and otherwise `options.body` is kept; a truthy payload of GET goes into the query string after `?` or `&`; the URL is the base URL plus the path; the outcome is `Settle` |
| Ajax.AjaxClient.Get | assets/js/ajax.js:34-36 | GET never gets a query string and sends only `options.body`, with the caller's headers or else the defaults |
| Ajax.AjaxClient.Post | assets/js/ajax.js:41-43 | with no method override, POST goes to the base URL plus the path and encodes a truthy payload as the body (a FormData body drops `Content-Type`); a falsy payload leaves `options.body` as the body |
| Ajax.AjaxClient.Put | assets/js/ajax.js:48-50 | with no method override, PUT goes to the base URL plus the path and encodes a truthy payload as the body (a FormData body drops `Content-Type`); a falsy payload leaves `options.body` as the body |
| Ajax.AjaxClient.Delete | assets/js/ajax.js:55-57 | DELETE never gets a query string and sends only `options.body`, with the caller's headers or else the defaults |
| Ajax.AjaxClient.Patch | assets/js/ajax.js:62-64 | with no method override, PATCH goes to the base URL plus the path and encodes a truthy payload as the body (a FormData body drops `Content-Type`); a falsy payload leaves `options.body` as the body |
| Ajax.AjaxClient.UploadFile | assets/js/ajax.js:114-154 | the file is POSTed as FormData field `file` to the base URL plus the path, with only the caller's headers; the outcome is `SettleUpload` |
| Api.Route | assets/js/ajax.js:196-274 | every typed call carries plain data; reads and deletes carry none; no call sets a method, headers or body; only GETs have `params`; only `uploadAvatar` goes through the upload |
| Api.IdTokenPosition | assets/js/ajax.js:178-179 | `:id` first occurs at position 11 of the tool path |
| Api.ToolPath | assets/js/ajax.js:239 | an id without `$` replaces `:id`, giving `/api/tools/<id>` |
| Api.UpdateToolCall | assets/js/ajax.js:238-241 | `updateTool` with an id without `$` PUTs its data to `/api/tools/<id>` |
| Api.DeleteToolCall | assets/js/ajax.js:243-246 | `deleteTool` with an id without `$` DELETEs `/api/tools/<id>` without data |
| Api.DefaultTools | assets/js/ajax.js:230-231 | `getTools()` with no argument GETs `/api/tools` with an empty `params` object and no data |
| Api.DollarIdKeepsToken | assets/js/ajax.js:239 | an id of `$&` is expanded by `replace`, so the request goes to the literal `/api/tools/:id` |
| Api.ApiService.constructor | assets/js/ajax.js:161-162 | the service owns a fresh transport on the page origin, with the initial headers |
| Api.ApiService.Invoke | assets/js/ajax.js:196-274 | each typed call goes to the base URL plus its route's path, with its verb, its params and the default headers, and with a body exactly for a truthy payload; the avatar upload posts the file with no headers |
| Api.DefaultAnalytics | assets/js/ajax.js:270-274 | `getDashboardAnalytics()` GETs the bare analytics path, and the `30d` period stays in `params` only |
| Forms.IsValidEmail | assets/js/ajax.js:442-445 | the direct check: the first `@` is not at the start, the value has no white space and no second `@`, and a `.` sits strictly inside the part after the `@` (a definition; the next three rows relate it to the regular expression) |
| Forms.AcceptedEmailMatchesPattern | assets/js/ajax.js:442-445 | every address the direct check accepts matches `^[^\s@]+@[^\s@]+\.[^\s@]+$` |
| Forms.PatternEmailAccepted | assets/js/ajax.js:442-445 | every address matching the pattern passes the direct check |
| Forms.EmailCheckMatchesPattern | assets/js/ajax.js:442-445 | `isValidEmail` accepts exactly the strings the regular expression matches |
| Forms.PhoneShape | assets/js/ajax.js:449 | `^[\+]?[1-9][\d]{0,15}$`: an optional `+`, a digit 1-9, then up to fifteen digits (a definition) |
| Forms.IsValidPhone | assets/js/ajax.js:447-450 | a phone number is valid when, with its white space removed, it has `PhoneShape` (a definition; `PhoneIgnoresSpace` and `PhoneLength` state its properties) |
| Forms.PhoneIgnoresSpace | assets/js/ajax.js:447-450 | white space inserted anywhere in a phone number leaves the verdict unchanged |
| Forms.PhoneLength | assets/js/ajax.js:447-450 | a valid phone number has 1 to 17 characters once spaces are removed, all digits after the first |
| Forms.Complaint | assets/js/ajax.js:366-401 | the message a field gets, or none, read from its trimmed value, its type and whether it is required (a definition; `RulesExclusive` and `OneRuleFires` state its cases) |
| Forms.RulesExclusive | assets/js/ajax.js:370-392 | the four rule guards of `validateField` exclude one another, so at most one rule fires for a field |
| Forms.OneRuleFires | assets/js/ajax.js:366-401 | the overwriting order does not matter: the message a field gets is the message of the one rule that fires, and there is none exactly when no rule fires |
| Forms.ValidateField | assets/js/ajax.js:366-401 | the field is valid exactly when no message is set, and the message is the one `Complaint` gives |
| Forms.ShownAllAt | assets/js/ajax.js:353-364 | after the pass over the fields, each required field shows its own message and no optional field shows one |
| Forms.AllRequiredPassAt | assets/js/ajax.js:353-364 | the running verdict is true exactly when every required field passes |
| Forms.ValidateForm | assets/js/ajax.js:353-364 | every required field is validated, without stopping at the first failure, and gets its message; the form is valid exactly when every required field is |
| Realtime.NextAttempts | assets/js/ajax.js:490-497 | a drop never lowers the counter, raises it by at most one, and never takes it past five; `DropEffectsGrow` and `RetriesAreBounded` state what repeated drops do |
| Realtime.RetryAfterDrop | assets/js/ajax.js:490-497 | a drop schedules at most one retry, exactly when the counter was below five, and its delay lies between 1000 and 5000 ms |
| Realtime.DropEffects | assets/js/ajax.js:480-497 | `k` drops in a row ask for the retries of `RetryAfterDrop`, one drop after another, as `OnDisconnect` schedules them (a definition) |
| Realtime.DropEffectsGrow | assets/js/ajax.js:490-497 | from counter `a`, `k` drops schedule `min(k, 5 − a)` retries, the `i`-th after `1000 × (a + i + 1)` ms, and the counter never passes five |
| Realtime.RetriesAreBounded | assets/js/ajax.js:490-497 | from a counter of zero, drops in a row retry at most five times, after 1000, 2000, 3000, 4000 and 5000 ms |
| Realtime.RealTimeHandler.constructor | assets/js/ajax.js:457-462 | no socket, no handlers, counter zero |
| Realtime.RealTimeHandler.Connect | assets/js/ajax.js:464-472 | without the socket library nothing changes; otherwise a new socket is opened, and earlier handlers and the counter are left as they were |
| Realtime.RealTimeHandler.OnConnect | assets/js/ajax.js:464-478 | a successful connect, which only an opened socket reports, resets the counter to zero |
| Realtime.RealTimeHandler.OnDisconnect | assets/js/ajax.js:480-497 | a drop advances the counter and schedules the retry of `RetryAfterDrop`, keeping the counter within five |
| Realtime.RealTimeHandler.On | assets/js/ajax.js:499-504 | the handler replaces any earlier one for the event, other entries are kept, and it is attached only when a socket exists |
| Realtime.RealTimeHandler.Emit | assets/js/ajax.js:506-510 | the event is sent only when a socket exists |
| Realtime.RealTimeHandler.Disconnect | assets/js/ajax.js:512-516 | the socket is closed only if there is one, and the reference to it is kept |
| Realtime.SixDrops | assets/js/ajax.js:490-497 | six drops in a row after connecting schedule exactly five retries: 1000, 2000, 3000, 4000 and 5000 ms |
| Realtime.DropReconnectDrop | assets/js/ajax.js:475-497 | a successful connect between drops starts the delays again from 1000 ms |
| Realtime.SubscribeTwice | assets/js/ajax.js:499-504 | subscribing two handlers to one event of a connected handler keeps only the second in the table but attaches both to the socket |
| Format.DigitRunIsRun | assets/js/main.js:375 | the run of digits at a position is made of digits and is followed by the end or by a non-digit |
| Format.GroupsAheadIsRun | assets/js/main.js:375 | the look-ahead `(?=(\d{3})+(?!\d))` holds exactly where the run of digits ahead is a positive multiple of three |
| Format.DigitRunExact | assets/js/main.js:375 | `k` digits followed by the end or by a non-digit make a run of exactly `k` |
| Format.CommaInDigits | assets/js/main.js:375 | in a digit string, a comma goes exactly at the inner positions followed by a multiple of three digits |
| Format.InsertCommas | assets/js/main.js:375 | the global replace: the characters scanned, with a comma at each position the pattern matches (a definition; `InsertCommasGroups` states what it gives on digit strings) |
| Format.ScanShort | assets/js/main.js:375 | a numeral of at most three digits gets no comma |
| Format.ScanComma | assets/js/main.js:375 | at a digit followed by a positive multiple of three digits the scan emits a comma before it |
| Format.ScanPlain | assets/js/main.js:375 | at any other digit the scan emits the digit alone |
| Format.ScanLastThree | assets/js/main.js:375 | in a numeral longer than three digits, the last three come after one comma |
| Format.ScanPrefix | assets/js/main.js:375 | the commas before the last three digits are the ones the shorter numeral would get |
| Format.ScanLastGroup | assets/js/main.js:375 | in a numeral longer than three digits, the last three digits come after a comma and get none of their own |
| Format.InsertCommasGroups | assets/js/main.js:375 | on a digit string, the global replace groups the digits in threes from the right |
| Format.GroupDigits | assets/js/main.js:374-376 | taking the commas out of the grouping gives back the digits in order |
| Format.CommasEveryFourthExtend | assets/js/main.js:374-376 | appending a comma and a group of three digits keeps commas at exactly every fourth position from the right |
| Format.GroupCommas | assets/js/main.js:374-376 | the grouping adds one comma per full group after the first digit and puts commas at exactly every fourth position from the right, so the first group has 1 to 3 digits |
| Format.FormatNumberIsGroup | assets/js/main.js:374-376 | `formatNumber` of a non-negative integer is the grouping of its digits |
| Format.FormatNumber | assets/js/main.js:374-376 | `num.toString()` with the commas of the replace inserted (a definition; the rows around it state its results) |
| Format.FormatNumberGroups | assets/js/main.js:374-376 | for `n ≥ 0` the output, without its commas, is `String(n)`; commas sit at exactly every fourth position from the right; the first group has 1 to 3 digits |
| Format.FormatNumberSmall | assets/js/main.js:374-376 | a number below 1000 is printed unchanged |
| Format.CommaInSigned | assets/js/main.js:375 | in `-` followed by digits, no comma goes before or right after the sign |
| Format.ScanSigned | assets/js/main.js:375 | scanning a signed numeral gives the sign followed by the scan of its digits |
| Format.FormatNumberNegative | assets/js/main.js:374-376 | a negative number is printed as `-` followed by the formatted magnitude |
| Pricing.Users | assets/js/main.js:401 | the user count is never zero: it is what `parseInt` reads, or 1 when that is `NaN` or 0 |
| Pricing.CountChecked | assets/js/main.js:402 | the count is the number of checked boxes, so never more than there are boxes |
| Pricing.CountAppend | assets/js/main.js:402 | the feature count is additive over the checkbox list |
| Pricing.Total | assets/js/main.js:400-404 | the total is 99 plus 10 per user plus 25 per checked feature (a definition; `TotalOfNumeral` and `TotalWithoutUsers` state its values) |
| Pricing.PriceText | assets/js/main.js:405 | the text is `$`, the total, then `/month` (a definition; `PriceTextShowsTotal` states that the amount reads back) |
| Pricing.TotalOfNumeral | assets/js/main.js:400-404 | for a typed numeral `n` the total is `99 + 10·max(n, 1) + 25·features`, and one more checked feature adds 25 |
| Pricing.TotalWithoutUsers | assets/js/main.js:401-404 | an unreadable user field prices one user, the same as typing `0` |
| Pricing.PriceTextShowsTotal | assets/js/main.js:405 | the text is `$`, then an amount that `parseInt` reads back as the total, then `/month` |
| Page.StartTheme | assets/js/main.js:81-82 | the page starts dark exactly when the stored preference is `dark`; missing or empty gives light |
| Page.StoredThemeSurvivesReload | assets/js/main.js:81-98 | a page load after a stored theme starts with that theme |
| Page.ThemeSwitch.constructor | assets/js/main.js:80-85 | the body class and the toggle both follow the stored preference |
| Page.ThemeSwitch.Click | assets/js/main.js:89-101 | a click flips the theme and the toggle together and stores the new theme, which a reload restores |
| Page.ClickTwice | assets/js/main.js:89-101 | two clicks give back the theme and the toggle, and store the theme the page had |
| Page.RotateIsModular | assets/js/main.js:200-204 | after `k` ticks from card `i` of `n` the carousel shows card `(i + k) mod n` |
| Page.Rotate | assets/js/main.js:202 | the index after `k` ticks is always a valid card index (below `n`) once a tick has happened or the start was valid |
| Page.RotationPeriod | assets/js/main.js:200-204 | every `n` ticks the carousel is back at the same card |
| Page.Carousel.constructor | assets/js/main.js:195-197 | the carousel starts at index 0 over the given cards |
| Page.Carousel.Tick | assets/js/main.js:200-204 | with no cards the tick throws and changes nothing; otherwise exactly the old card loses `active`, the index becomes `(i + 1) mod n`, the new card gains `active`, and if only the current card was active that stays true |
| Page.StickyHeader.constructor | assets/js/main.js:30 | the header starts as the markup gives it, present or missing |
| Page.StickyHeader.OnScroll | assets/js/main.js:30-42 | the header carries `scrolled` exactly when `scrollY > 100`; a page without `.header` throws on every scroll and keeps its state |
| Page.SearchPanel.constructor | assets/js/main.js:413-416 | the panel starts as the markup gives it, with nothing searched |
| Page.SearchPanel.Callback | assets/js/main.js:418-429 | with no receiver the callback throws and changes nothing; on the search box, a value shorter than two characters hides the panel and searches nothing, and any other is searched lower-cased with `No results found` shown |
| Page.SearchPanel.OnInput | assets/js/main.js:350-353 | as wired through `utils.debounce`, the callback runs with no receiver, so every input throws and leaves the panel and the searches as they were |
| Page.SearchPanel.OnInputBound | assets/js/main.js:418-429 | with the callback run on the search box: below two characters the panel is hidden and nothing searched; otherwise the lower-cased value is searched and `No results found` shown |
| Page.TypedQueryNeverShown | assets/js/main.js:350-353 | typing `ai` leaves the wired panel hidden, while the bound callback shows it |
| Page.SearchPanel.DisplayResults | assets/js/main.js:436-445 | the panel is shown, with a "no results" note for an empty list and otherwise `ResultItems`, one `search-result-item` div per result in order; `SearchContent` (main.js:431-434) finds nothing for any query, so the note is what a search shows |
| Page.Modals.constructor | assets/js/main.js:285-288 | the modals, the body lock and the other elements start as the markup gives them; `initModals` only looks them up |
| Page.Modals.Open | assets/js/main.js:291-301 | a trigger naming a `.modal` shows it and locks the body; one naming any other element gives that element `show` and locks the body too; an id naming nothing changes nothing |
| Page.Modals.Close | assets/js/main.js:304-312 | closing inside a modal hides it and unlocks the body, even with another modal still shown; otherwise nothing changes |
| Page.Modals.OnKeyDown | assets/js/main.js:315-322 | Escape hides every modal and unlocks the body whenever there is at least one modal; other keys change nothing |
| Page.OtherElementStaysLocked | assets/js/main.js:291-322 | after a trigger names a non-modal element on a page without `.modal` elements, Escape leaves the body locked |

## Left out

- `assets/js/plugins.js`: it configures third-party libraries and has no logic of its own. Its `formatFileSize` uses floating point. It is not part of this model.
- Floating point:
  - the upload progress percentage and `onProgress`;
  - the counter animation;
  - tooltip positions;
  - fractional scroll offsets (`scrollY` is an integer here).
- Numbers are integers. `formatNumber` of a fraction, or of a value of `1e21` or more (printed in exponent form), is not modelled.
- Format.FormatNumber: the source formats an IEEE double, which prints at or above 2^53 as its shortest round-trip digits (2^60 prints as `1152921504606847000`). The model prints the exact integer (`1152921504606846976`), so it and `Format.FormatNumberGroups` can differ from the source at or above 2^53 in magnitude.
- Strings: string lengths count characters, not UTF-16 code units (the password length, the search threshold).
- JsString.ToLowerCase: maps ASCII letters only. Other letters of a query are kept as typed, where `"É".toLowerCase()` gives `"é"`.
- JsString.ToUpperCase: maps ASCII letters only. It is exact for the verbs the helpers pass to `request` (`GET`, `POST`, `PUT`, `DELETE`, `PATCH`), which are ASCII.
- Timers: `setTimeout` and `setInterval`, the debounce on the search box, `throttle`, the simulated contact-form submit, and when a scheduled retry fires. A retry is recorded as an `Effect` carrying its delay.
- Browser APIs and DOM plumbing:
  - `fetch` and `XMLHttpRequest` are not executed; their answers are parameters;
  - the header combining of `setRequestHeader` is not modelled;
  - `showNotification`, `showFieldError`, `clearFieldError` and `handleSubmit`;
  - smooth scrolling, the mobile menu, animations, the preloader and tooltips;
  - the `blur` and `input` listener wiring.
- `utils.generateId` uses `Math.random`.
- Console output: the `console.error` and `console.log` calls of `request`, `connect` and the socket listeners (ajax.js:106, 466, 476, 481, 486) write to the console only and are not modelled.
- Pricing.PriceTextShowsTotal: the count `parseInt` reads and the total are IEEE doubles. A count above 2^53 is rounded, and a total of 1e21 or more prints in exponent form, where reading the amount back fails. The model uses unbounded integers.
- Ajax.AjaxClient.Request: `delete config.headers['Content-Type']` removes the header from the caller's own `options.headers` object when that object is used as is. The model removes it from the sent headers only, not from the caller's object.
- Realtime.RealTimeHandler.Connect: a repeated `connect` leaves the earlier socket open in the library. The model keeps only the latest socket.
- Ajax.AjaxClient.Request: an `options` object that carries `headers` or `method` explicitly set to `undefined` overwrites the built headers or verb in the spread, so `fetch` would send no headers or a GET. The model's `Option` fields treat such a property as absent and keep the defaults. No caller in these scripts passes one.
- Realtime.RealTimeHandler.Disconnect: whether the socket library fires its own `disconnect` event after a client-side close (which would start `handleReconnect`) is library behaviour. In the model it is a separate `OnDisconnect` call.
- Page.Carousel.Tick: the interval keeps firing after a throw. Each tick is modelled on its own.
- JSON serialisation, `URLSearchParams` encoding and JSON parsing are opaque functions. Their own formats are not modelled.

## Findings

| source | as written | input that shows it | evidently intended | confidence | as-written member | corrected member |
|---|---|---|---|---|---|---|
| assets/js/main.js:350-353, 418-419 | `utils.debounce` calls the input callback as `func(...args)`, with no receiver, so `this.value` is `undefined` and `this.value.toLowerCase()` throws | any input event, e.g. typing `ai`: the panel is never shown or hidden | the callback runs on the search box (`func.apply(this, args)`), hiding the panel below two characters and searching otherwise | not executed | Page.SearchPanel.OnInput (with Page.TypedQueryNeverShown) | Page.SearchPanel.OnInputBound |
