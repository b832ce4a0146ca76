/**
 * The page's state and its submit handler. The handler clears the previous
 * link and error, refuses an empty or malformed URL without sending
 * anything, and otherwise sends {url, quality, format} with a 30000 ms
 * timeout and shows what the request settles to. The network answer is an
 * input (`Outcome`); the handler returns the request it sends, if any.
 */
module Page {
  import opened Wrappers
  import opened Validator
  import opened Classifier

  const EmptyUrlMessage := "Please enter a YouTube URL"
  const InvalidUrlMessage := "Please enter a valid YouTube URL"
  const DownloadPath := "/download"
  const TimeoutMs: nat := 30000

  /** The request body. */
  datatype Payload = Payload(url: string, quality: string, format: string)

  /** The POST the handler sends: the backend's download endpoint, the body and the timeout. */
  datatype Request = Request(endpoint: string, body: Payload, timeoutMs: nat)

  /** The page's six state variables. */
  datatype PageState = PageState(
    url: string, link: string, isLoading: bool, error: string, quality: string, format: string)

  const InitialState := PageState("", "", false, "", "192", "mp3")

  /** The page between two events: nothing in flight, and never a link beside an error. */
  predicate Settled(s: PageState) {
    !s.isLoading && (s.link == "" || s.error == "")
  }

  /** The request a submission of `s` sends, if the URL passes both input checks. */
  function RequestFor(backend: string, s: PageState): (r: Option<Request>)
    ensures r.Some? <==> s.url != "" && IsYouTubeUrl(s.url)
    ensures r.Some? ==> r.value.body == Payload(s.url, s.quality, s.format)
    ensures r.Some? ==> r.value.endpoint == backend + DownloadPath && r.value.timeoutMs == 30000
  {
    if s.url == "" || !IsYouTubeUrl(s.url) then None
    else Some(Request(backend + DownloadPath, Payload(s.url, s.quality, s.format), TimeoutMs))
  }

  /** The state a submission of `s` leaves behind when the request settles to `o`. */
  function Submitted(s: PageState, o: Outcome): (t: PageState)
    ensures Settled(t)
    ensures t.url == s.url && t.quality == s.quality && t.format == s.format
    ensures s.url == "" ==> t.error == EmptyUrlMessage && t.link == ""
    ensures s.url != "" && !IsYouTubeUrl(s.url) ==> t.error == InvalidUrlMessage && t.link == ""
    ensures s.url != "" && IsYouTubeUrl(s.url) ==>
      match Classify(o)
      case ShowLink(l) => t.link == l && t.error == ""
      case ShowError(m) => t.error == m && t.link == ""
  {
    var cleared := s.(link := "", error := "", isLoading := false);
    if s.url == "" then cleared.(error := EmptyUrlMessage)
    else if !IsYouTubeUrl(s.url) then cleared.(error := InvalidUrlMessage)
    else match Classify(o)
      case ShowLink(l) => cleared.(link := l)
      case ShowError(m) => cleared.(error := m)
  }

  class HomePage {
    /** The backend's base URL, fixed for the page's lifetime. */
    const backend: string
    var url: string
    var link: string
    var isLoading: bool
    var error: string
    var quality: string
    var format: string

    function State(): PageState
      reads this
    {
      PageState(url, link, isLoading, error, quality, format)
    }

    constructor (backend: string)
      ensures this.backend == backend && State() == InitialState && Settled(State())
    {
      this.backend := backend;
      url, link, isLoading, error := "", "", false, "";
      quality, format := "192", "mp3";
    }

    /** The URL box's change handler. */
    method SetUrl(u: string)
      requires Settled(State())
      modifies this`url
      ensures State() == old(State()).(url := u) && Settled(State())
    {
      url := u;
    }

    /** The format radio buttons' change handler; the two buttons set "mp3" and "mp4". */
    method SetFormat(f: string)
      requires Settled(State())
      requires f == "mp3" || f == "mp4"
      modifies this`format
      ensures State() == old(State()).(format := f) && Settled(State())
    {
      format := f;
    }

    /** The quality selector's change handler; its selectable options are 128, 192 and 320 kbps. */
    method SetQuality(q: string)
      requires Settled(State())
      requires q == "128" || q == "192" || q == "320"
      modifies this`quality
      ensures State() == old(State()).(quality := q) && Settled(State())
    {
      quality := q;
    }

    /**
     * The form's submit handler; `o` is what the request settles to and is
     * ignored when no request is sent. The submit button is disabled while a
     * request is in flight.
     */
    method Submit(o: Outcome) returns (request: Option<Request>)
      requires !isLoading
      modifies this`link, this`isLoading, this`error
      ensures request == RequestFor(backend, old(State()))
      ensures State() == Submitted(old(State()), o)
    {
      link := "";
      isLoading := true;
      error := "";

      if url == "" {
        error := EmptyUrlMessage;
        isLoading := false;
        return None;
      }

      if !IsYouTubeUrl(url) {
        error := InvalidUrlMessage;
        isLoading := false;
        return None;
      }

      request := Some(Request(backend + DownloadPath, Payload(url, quality, format), TimeoutMs));
      // While the request is in flight the page shows neither a link nor an error.
      assert isLoading && link == "" && error == "";
      match Classify(o) {
        case ShowLink(l) =>
          link := l;
        case ShowError(m) =>
          error := m;
      }
      isLoading := false;
    }
  }

  // Properties of a submission.

  /** An empty URL is reported as missing and sends nothing. */
  lemma EmptyUrlSendsNothing(backend: string, s: PageState, o: Outcome)
    requires s.url == ""
    ensures RequestFor(backend, s) == None
    ensures Submitted(s, o) == s.(link := "", error := EmptyUrlMessage, isLoading := false)
  {
  }

  /** A non-empty URL the validator rejects is reported as invalid and sends nothing. */
  lemma InvalidUrlSendsNothing(backend: string, s: PageState, o: Outcome)
    requires s.url != "" && !IsYouTubeUrl(s.url)
    ensures RequestFor(backend, s) == None
    ensures Submitted(s, o) == s.(link := "", error := InvalidUrlMessage, isLoading := false)
  {
  }

  /** The emptiness test does not trim: a URL of blanks gets the invalid-URL message, not the missing-URL one. */
  lemma BlankUrlIsInvalidNotMissing(backend: string, s: PageState, o: Outcome)
    requires s.url != ""
    requires forall k :: 0 <= k < |s.url| ==> s.url[k] in {' ', '\t', '\n', '\r'}
    ensures RequestFor(backend, s) == None
    ensures Submitted(s, o).error == InvalidUrlMessage
  {
    RejectsStart(s.url);
  }

  /** A successful request shows its download link and no error. */
  lemma SuccessShowsLink(s: PageState, downloadUrl: string)
    requires s.url != "" && IsYouTubeUrl(s.url)
    ensures Submitted(s, Success(downloadUrl)).link == downloadUrl
    ensures Submitted(s, Success(downloadUrl)).error == ""
  {
  }

  /** A failed request shows a non-empty message that names the failure, and no link. */
  lemma FailureShowsMessage(s: PageState, o: Outcome)
    requires s.url != "" && IsYouTubeUrl(s.url) && !o.Success?
    ensures Submitted(s, o).link == ""
    ensures Submitted(s, o).error != ""
    ensures ParseFailure(Submitted(s, o).error) == Some(FailureOf(o))
  {
    MessageDeterminesFailure(o);
  }

  /** The result depends only on the form's inputs and the outcome, not on the previous link or error. */
  lemma SubmissionForgetsPreviousResult(s1: PageState, s2: PageState, o: Outcome)
    requires s1.url == s2.url && s1.quality == s2.quality && s1.format == s2.format
    ensures Submitted(s1, o) == Submitted(s2, o)
  {
  }

  /** Submitting again after a submission has settled is the same as submitting once. */
  lemma {:induction false} ResubmitIsIndependent(backend: string, s: PageState, o1: Outcome, o2: Outcome)
    ensures Submitted(Submitted(s, o1), o2) == Submitted(s, o2)
    ensures RequestFor(backend, Submitted(s, o1)) == RequestFor(backend, s)
  {
    SubmissionForgetsPreviousResult(Submitted(s, o1), s, o2);
  }

  /** The quality is sent with every request, also when the format is video. */
  lemma QualitySentWithVideo(backend: string, s: PageState)
    requires s.format == "mp4" && s.url != "" && IsYouTubeUrl(s.url)
    ensures RequestFor(backend, s).Some? && RequestFor(backend, s).value.body.quality == s.quality
  {
  }

  /** A valid URL with mp3 at 192 kbps, answered with a link. */
  lemma SuccessfulDownloadExample(backend: string)
    ensures
      var s := InitialState.(url := "https://www.youtube.com/watch?v=abc123");
      && RequestFor(backend, s) == Some(Request(backend + "/download",
           Payload("https://www.youtube.com/watch?v=abc123", "192", "mp3"), 30000))
      && Submitted(s, Success("https://cdn/x.mp3")).link == "https://cdn/x.mp3"
      && Submitted(s, Success("https://cdn/x.mp3")).error == ""
  {
    AcceptExamples();
  }

  /** A valid URL whose request gets no response, a timeout among them, shows the connection message and no link. */
  lemma NoResponseShowsConnectionMessage(s: PageState)
    requires s.url != "" && IsYouTubeUrl(s.url)
    ensures Submitted(s, NoResponse).error == NoResponseMessage
    ensures Submitted(s, NoResponse).link == ""
  {
  }
}
