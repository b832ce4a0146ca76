# YouTube download page: the submission workflow

A model of the one page of the psytube front end (`src/app/page.tsx`). The
page holds six state variables (`url`, `link`, `isLoading`, `error`,
`quality`, `format`). When the form is submitted it clears the previous link
and error, rejects an empty URL and then a URL that fails the YouTube
pattern without contacting the backend, and otherwise POSTs
`{url, quality, format}` to `<backend>/download` with a 30000 ms timeout. The
page then shows the returned `download_url`, or exactly one error message
chosen by the catch block: a server response first, then a request that got
no response, then anything else. `isLoading` is cleared on every path.

Modules:

- `Validator` (validator.dfy): the anchored pattern
  `^(https?\:\/\/)?(www\.youtube\.com|youtu\.?be)\/.+$` matched by hand, and
  a grammar that states the accepted strings as
  scheme + host + "/" + path. A lemma proves that the two accept the same
  strings. Lemmas also fix concrete inputs on either side of the pattern.
- `Decimal` (decimal.dfy): how a whole-number status is written into the
  message, with a parser and a round-trip lemma.
- `Classifier` (classifier.dfy): the shape of a rejected request, the
  ordered tests that turn it into an `Outcome`, and the message each outcome
  shows. A parser reads the failure back from the message, which proves that
  different failures never share a message once the `Unknown error` fallback
  is applied (a missing detail, an empty one and the literal detail
  `Unknown error` show the same text).
- `Page` (page.dfy): the state as a value (`PageState`), the request a
  submission sends (`RequestFor`), the state it leaves behind (`Submitted`),
  and the `HomePage` class whose `Submit` method runs the handler step by step
  and is proved against those two functions.
- `Strings`, `Wrappers` (strings.dfy, wrappers.dfy): prefix and search
  helpers, and `Option`.

Three behaviours of the code that a reader might expect to be otherwise:

- The emptiness test is `!url` with no trimming. A URL made of spaces skips
  the "Please enter a YouTube URL" message and gets "Please enter a valid
  YouTube URL" from the validator (`BlankUrlIsInvalidNotMissing`).
- The handler does not itself ignore a second submission while one is in
  flight. Only the disabled submit button prevents it, so `Submit` requires
  `!isLoading`.
- There is no lifecycle-phase variable. The phase is carried by the `isLoading`,
  `link` and `error` flags. `Settled` states the combination that holds
  between events: the constructor establishes it, and every setter and
  `Submit` leave it true.

The URL input carries the HTML `required` attribute
(src/app/page.tsx:82), so a browser normally blocks an empty submission
before the handler runs. The handler's own empty-URL branch is modelled
anyway.

## Model

| member | source | states |
|---|---|---|
| Validator.ValidatorIsPattern | src/app/page.tsx:18-21 | the validator accepts a string exactly when it is an optional `http://` or `https://`, then `www.youtube.com`, `youtube` or `youtu.be`, then `/`, then at least one character none of which is `\n`, `\r`, U+2028 or U+2029 |
| Validator.ValidatorSound | src/app/page.tsx:18-21 | every string the hand-coded matcher accepts splits into scheme, host, `/` and path as the grammar requires |
| Validator.ValidatorComplete | src/app/page.tsx:18-21 | every string of the grammar is accepted by the matcher |
| Validator.AcceptExamples | src/app/page.tsx:18-21 | `https://www.youtube.com/watch?v=abc123`, the bare-host `youtube/x` and `http://youtu.be/x` are accepted |
| Validator.RejectsYoutubeDotCom | src/app/page.tsx:19 | `https://youtube.com/x` is rejected, because `youtube` must be followed by `/` |
| Validator.RejectsOtherStarts | src/app/page.tsx:19 | `m.youtube.com/x`, `not a url`, a single space and the empty string are rejected |
| Validator.RejectsOtherHost | src/app/page.tsx:19 | `http://example.com/x` is rejected |
| Validator.RejectsBadPath | src/app/page.tsx:19 | a host with an empty path (`youtube/`) or a path containing a line feed is rejected |
| Decimal.NatToDecimal | src/app/page.tsx:55 | a status is written as at least one decimal digit, with no leading zero |
| Decimal.IntToDecimal | src/app/page.tsx:55 | a whole number is written as digits with a leading `-` exactly when it is negative, and contains no space |
| Decimal.NatRoundTrip | src/app/page.tsx:55 | reading the written digits back gives the number |
| Decimal.IntRoundTrip | src/app/page.tsx:55 | parsing the written status gives the status back |
| Decimal.IntToDecimalInjective | src/app/page.tsx:55 | different statuses are written differently |
| Classifier.Interpret | src/app/page.tsx:53-65 | a rejection with a response is a server error, whatever else it carries; without one, a sent request is "no response"; otherwise it is another error with its message; never a success |
| Classifier.ShownDetail | src/app/page.tsx:56 | the shown detail is never empty: it is the server's detail when that is present and non-empty, else `Unknown error` |
| Classifier.Classify | src/app/page.tsx:50-65 | a success shows exactly its download URL; every failure shows a non-empty message and no link |
| Classifier.MessageDeterminesFailure | src/app/page.tsx:53-65 | each failure's message parses back to that failure (status, shown detail, or message), so the message says which branch was taken |
| Classifier.FailureMessagesDistinct | src/app/page.tsx:53-65 | two failures with the same message are the same failure once the detail fallback is applied |
| Classifier.ServerMessageParses | src/app/page.tsx:54-58 | a server-error message `Server error: <status> - <detail>` parses back to that status and detail |
| Classifier.ServerErrorWithDetail | src/app/page.tsx:54-58 | status 500 with detail `conversion failed` shows `Server error: 500 - conversion failed` |
| Classifier.ServerErrorWithoutDetail | src/app/page.tsx:56 | status 500 with no detail, or an empty one, shows `Server error: 500 - Unknown error` |
| Page.RequestFor | src/app/page.tsx:29-49 | a request is sent exactly when the URL is non-empty and valid; it goes to the backend's `/download` with a 30000 ms timeout and carries exactly the current url, quality and format |
| Page.Submitted | src/app/page.tsx:23-69 | after a submission nothing is loading and the link and error are never both set; url, quality and format are unchanged; an empty URL shows the missing-URL message, an invalid one the invalid-URL message, and a sent request shows the classifier's link or message |
| Page.HomePage.constructor | src/app/page.tsx:7-12 | the page starts settled, with an empty url, link and error, not loading, quality `192` and format `mp3` |
| Page.HomePage.SetUrl | src/app/page.tsx:81 | typing in the URL box changes only `url`, and the page stays settled |
| Page.HomePage.SetFormat | src/app/page.tsx:94 | choosing one of the two formats, `mp3` or `mp4`, changes only `format`, and the page stays settled |
| Page.HomePage.SetQuality | src/app/page.tsx:115 | choosing one of the qualities `128`, `192` or `320` changes only `quality`, and the page stays settled |
| Page.HomePage.Submit | src/app/page.tsx:23-69 | run step by step (clear, two early exits, build the payload, settle, clear `isLoading`), the handler returns the request `RequestFor` describes and leaves the state `Submitted` describes |
| Page.EmptyUrlSendsNothing | src/app/page.tsx:29-33 | an empty URL sends nothing and leaves error = `Please enter a YouTube URL`, an empty link and nothing loading, the rest unchanged |
| Page.InvalidUrlSendsNothing | src/app/page.tsx:35-39 | a non-empty URL the validator rejects sends nothing and leaves error = `Please enter a valid YouTube URL`, an empty link and nothing loading |
| Page.BlankUrlIsInvalidNotMissing | src/app/page.tsx:29-39 | every non-empty URL made only of spaces, tabs and line breaks is not treated as missing: it sends nothing and gets the invalid-URL message |
| Page.SuccessShowsLink | src/app/page.tsx:25-50 | a successful request shows its download URL and an empty error |
| Page.FailureShowsMessage | src/app/page.tsx:51-65 | a failed request shows no link and a non-empty error that parses back to the failure |
| Page.SubmissionForgetsPreviousResult | src/app/page.tsx:25-27 | the result of a submission does not depend on the previous link, error or loading flag |
| Page.ResubmitIsIndependent | src/app/page.tsx:25-27 | submitting again after a settled submission sends the same request and ends in the same state as submitting once |
| Page.QualitySentWithVideo | src/app/page.tsx:47 | the quality is sent with the request even when the format is `mp4` |
| Page.SuccessfulDownloadExample | src/app/page.tsx:45-50 | a valid URL with mp3 at 192 sends that payload to `/download` with a 30000 ms timeout, and a returned link is shown with no error |
| Page.NoResponseShowsConnectionMessage | src/app/page.tsx:59-62 | for every valid URL, a request that gets no response (a timeout among them) shows `No response received from server. Please check your connection.` and no link |

## Left out

- The rendered markup, styling and conditional display (src/app/page.tsx:71-152) are presentation only. The change handlers of the inputs are kept as the setters `SetUrl`, `SetFormat` and `SetQuality`.
- The HTTP call itself (`axios.post`), its transport and the timer behind the timeout are not modelled. What the request settles to is the `Outcome` input of `Submit`, and the timeout is recorded as the value 30000 in the sent `Request`.
- The backend base URL comes from the environment at runtime. Here it is a constant string given to the `HomePage` constructor. The startup log of that URL and the console logging of the request and of errors are not modelled.
- React's asynchronous state updates and the `await` suspension point are not modelled. `Submit` is one atomic step, and the in-flight state (loading, no link, no error) exists only inside it.
- `e.preventDefault()` is not modelled. It only stops the browser's own form submission.
- Classifier.Interpret: a `detail` in the server's error body that is not a string (for instance a list of validation errors) is not modelled. JavaScript would write it into the message with its own string conversion. The model's detail is an optional string.
- Classifier.Interpret: an error response whose `data` is missing is not modelled. The catch block would then throw while building the message. The model assumes the response always carries a body, possibly without `detail`.
- Page.Submitted: a success response without `download_url` is not modelled. JavaScript would set `link` to `undefined`. The model's success always carries a string.
- Validator.ValidatorIsPattern: JavaScript matches `.` against UTF-16 code units, while the model's characters are Unicode scalar values. `.+` accepts the same non-empty strings either way, since surrogates are never line terminators.
- Decimal.IntToDecimal: statuses are whole numbers. JavaScript's rendering of fractional or very large numbers (exponent notation) is not modelled.
