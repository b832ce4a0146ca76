/**
 * What the page shows once the download request settles: the link on
 * success, or exactly one error message chosen by the catch block's
 * ordered checks (a response first, then a request that got no answer,
 * then anything else).
 */
module Classifier {
  import opened Wrappers
  import opened Strings
  import opened Decimal

  /** How the request ended, as the network layer reports it. */
  datatype Outcome =
    | Success(downloadUrl: string)
    | ServerError(status: int, detail: Option<string>)
    | NoResponse
    | Other(message: string)

  /** The server's answer carried by a rejected request: its status and the `detail` of its body. */
  datatype ErrorResponse = ErrorResponse(status: int, detail: Option<string>)

  /** The parts of a rejected request that the catch block looks at. */
  datatype Rejection = Rejection(response: Option<ErrorResponse>, requestSent: bool, message: string)

  /** What the page shows afterwards. */
  datatype Display = ShowLink(link: string) | ShowError(message: string)

  const ServerErrorPrefix := "Server error: "
  const DetailSeparator := " - "
  const UnknownDetail := "Unknown error"
  // Written as two literals so the verifier can see its characters.
  const NoResponseMessage := "No response received from server." + " Please check your connection."
  const OtherErrorPrefix := "Error: "

  /** The order of the catch block's tests: a response wins over a sent request. */
  function Interpret(e: Rejection): (o: Outcome)
    ensures !o.Success?
    ensures o.ServerError? <==> e.response.Some?
    ensures o.ServerError? ==> o.status == e.response.value.status && o.detail == e.response.value.detail
    ensures o.NoResponse? <==> e.response.None? && e.requestSent
    ensures o.Other? <==> e.response.None? && !e.requestSent
    ensures o.Other? ==> o.message == e.message
  {
    if e.response.Some? then ServerError(e.response.value.status, e.response.value.detail)
    else if e.requestSent then NoResponse
    else Other(e.message)
  }

  /** `detail || "Unknown error"`: a missing or empty detail falls back to the generic text. */
  function ShownDetail(detail: Option<string>): (shown: string)
    ensures shown != ""
    ensures shown == UnknownDetail || detail == Some(shown)
    ensures detail.Some? && detail.value != "" ==> shown == detail.value
  {
    match detail
    case Some(d) => if d != "" then d else UnknownDetail
    case None => UnknownDetail
  }

  /** The catch block's message choice, and the link on success. */
  function Classify(o: Outcome): (r: Display)
    ensures r.ShowLink? <==> o.Success?
    ensures r.ShowLink? ==> r.link == o.downloadUrl
    ensures r.ShowError? ==> r.message != ""
  {
    match o
    case Success(url) => ShowLink(url)
    case ServerError(status, detail) =>
      ShowError(ServerErrorPrefix + IntToDecimal(status) + DetailSeparator + ShownDetail(detail))
    case NoResponse => ShowError(NoResponseMessage)
    case Other(message) => ShowError(OtherErrorPrefix + message)
  }

  // Reading a failure back from its message.

  /** A failure as its message shows it: the server's detail only after the fallback is applied. */
  datatype Failure =
    | ServerFailure(status: int, shownDetail: string)
    | ConnectionFailure
    | OtherFailure(message: string)

  function FailureOf(o: Outcome): Failure
    requires !o.Success?
  {
    match o
    case ServerError(status, detail) => ServerFailure(status, ShownDetail(detail))
    case NoResponse => ConnectionFailure
    case Other(message) => OtherFailure(message)
  }

  /** Parses an error message of the three shapes the catch block writes. */
  function ParseFailure(m: string): Option<Failure> {
    if m == NoResponseMessage then Some(ConnectionFailure)
    else if HasPrefix(m, OtherErrorPrefix) then Some(OtherFailure(m[|OtherErrorPrefix|..]))
    else if HasPrefix(m, ServerErrorPrefix) then ParseServerFailure(m[|ServerErrorPrefix|..])
    else None
  }

  /** Parses "<status> - <detail>": the status runs up to the first space. */
  function ParseServerFailure(rest: string): Option<Failure> {
    var i := IndexOf(rest, ' ');
    if HasPrefix(rest[i..], DetailSeparator) then
      match ParseInt(rest[..i])
      case Some(status) => Some(ServerFailure(status, rest[i + |DetailSeparator|..]))
      case None => None
    else None
  }

  lemma NoResponseMessageStart()
    ensures NoResponseMessage[0] == 'N'
  {
    assert NoResponseMessage[0] == "No response received from server."[0];
  }

  lemma ServerRestParses(status: int, shown: string)
    ensures ParseServerFailure(IntToDecimal(status) + DetailSeparator + shown) == Some(ServerFailure(status, shown))
  {
    var digits := IntToDecimal(status);
    var tail := DetailSeparator + shown;
    var rest := digits + tail;
    assert rest == digits + DetailSeparator + shown;
    IndexOfJoin(digits, tail, ' ');
    assert rest[..|digits|] == digits;
    assert rest[|digits|..] == tail;
    PrefixOfJoin(DetailSeparator, shown);
    assert rest[|digits| + |DetailSeparator|..] == shown;
    IntRoundTrip(status);
  }

  lemma ServerMessageParses(status: int, shown: string)
    ensures ParseFailure(ServerErrorPrefix + IntToDecimal(status) + DetailSeparator + shown)
         == Some(ServerFailure(status, shown))
  {
    var rest := IntToDecimal(status) + DetailSeparator + shown;
    var m := ServerErrorPrefix + rest;
    assert m == ServerErrorPrefix + IntToDecimal(status) + DetailSeparator + shown;
    assert m[0] == ServerErrorPrefix[0] == 'S';
    assert m != NoResponseMessage by { NoResponseMessageStart(); }
    assert !HasPrefix(m, OtherErrorPrefix) by { assert m[0] != OtherErrorPrefix[0]; }
    PrefixOfJoin(ServerErrorPrefix, rest);
    ServerRestParses(status, shown);
  }

  /** Each failure's message names the failure: reading it back recovers the outcome, detail fallback applied. */
  lemma MessageDeterminesFailure(o: Outcome)
    requires !o.Success?
    ensures ParseFailure(Classify(o).message) == Some(FailureOf(o))
  {
    match o
    case ServerError(status, detail) =>
      ServerMessageParses(status, ShownDetail(detail));
    case NoResponse =>
    case Other(message) =>
      var m := OtherErrorPrefix + message;
      assert m[0] == OtherErrorPrefix[0] == 'E';
      assert m != NoResponseMessage by { NoResponseMessageStart(); }
      PrefixOfJoin(OtherErrorPrefix, message);
  }

  /** Two failures produce the same message only when they are the same failure. */
  lemma FailureMessagesDistinct(o1: Outcome, o2: Outcome)
    requires !o1.Success? && !o2.Success?
    requires Classify(o1) == Classify(o2)
    ensures FailureOf(o1) == FailureOf(o2)
  {
    MessageDeterminesFailure(o1);
    MessageDeterminesFailure(o2);
  }

  lemma Status500()
    ensures IntToDecimal(500) == "500"
  {
    assert DigitChar(5) == '5' && DigitChar(0) == '0';
    assert NatToDecimal(50) == NatToDecimal(5) + ['0'];
    assert NatToDecimal(500) == NatToDecimal(50) + ['0'];
  }

  /** The message for a failing server that explains itself. */
  lemma ServerErrorWithDetail()
    ensures Classify(ServerError(500, Some("conversion failed"))) == ShowError("Server error: 500 - conversion failed")
  {
    Status500();
  }

  /** The message for a failing server whose body has no detail, or an empty one. */
  lemma ServerErrorWithoutDetail()
    ensures Classify(ServerError(500, None)) == ShowError("Server error: 500 - Unknown error")
    ensures Classify(ServerError(500, Some(""))) == ShowError("Server error: 500 - Unknown error")
  {
    Status500();
  }
}
