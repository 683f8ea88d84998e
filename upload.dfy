/** The single POST of the recording to the analysis service and what its
    answer turns into: the status line the user sees and the analysis data
    the results page receives. */
module Upload {
  import opened Text
  import opened Media
  import opened JsonValue

  /** One multipart form submission: the field name, the file and its name. */
  datatype Request = Request(field: string, file: Blob, filename: string)

  /** An HTTP response: its status code, its body text, and what parsing the
      body as JSON gives (the parsed document or the parser's error). */
  datatype Response = Response(statusCode: nat, body: string, parsed: Result<Json>)

  /** What `fetch` settles to: a response, or a rejection such as a network
      failure. */
  datatype FetchOutcome = Rejected(message: string) | Received(response: Response)

  /** `Response.ok`: the status code lies in 200..299. */
  predicate IsOk(r: Response)
  {
    200 <= r.statusCode <= 299
  }

  const UploadingStatus: string := "Uploading..."
  // Two literals, so that the verifier can read the message's characters.
  const CompletedStatus: string := "Analysis completed! " + "Redirecting to results..."
  const UploadErrorPrefix: string := "Error: "

  /** The message of the error thrown for a non-2xx response. */
  function RejectionMessage(r: Response): string
  {
    "Upload failed: " + Decimal(r.statusCode) + " " + r.body
  }

  /** How the `try` block of `uploadBlob` ends: with the parsed analysis
      document, or with the error thrown on the way (the rejection of
      `fetch`, "Upload failed: <status> <body>" for a non-2xx status, or the
      error of parsing the body as JSON). */
  function Attempt(o: FetchOutcome): (r: Result<Json>)
    ensures r.Ok? <==> o.Received? && IsOk(o.response) && o.response.parsed.Ok?
    ensures r.Ok? ==> r.value == o.response.parsed.value
    ensures o.Received? && !IsOk(o.response) ==> r == Err(RejectionMessage(o.response))
  {
    match o
    case Rejected(m) => Err(m)
    case Received(r) =>
      if !IsOk(r) then Err(RejectionMessage(r))
      else r.parsed
  }

  /** The last status `uploadBlob` sets: the completion message, or, from
      its own `catch`, "Error: " followed by the error's message. */
  function FinalStatus(o: FetchOutcome): string
  {
    match Attempt(o)
    case Ok(_) => CompletedStatus
    case Err(m) => UploadErrorPrefix + m
  }

  /** The completion message is shown exactly when the upload delivered an
      analysis document. */
  lemma CompletedIffAnalysis(o: FetchOutcome)
    ensures FinalStatus(o) == CompletedStatus <==> Attempt(o).Ok?
  {
    if Attempt(o).Err? {
      var s := FinalStatus(o);
      assert s == UploadErrorPrefix + Attempt(o).message;
      assert s[0] == 'E';
      assert CompletedStatus[0] == 'A';
    }
  }

  /** Every failed upload reports "Error: " and never the prefix the
      conversion pipeline uses for its own failures. */
  lemma FailureUsesUploadPrefix(o: FetchOutcome)
    requires Attempt(o).Err?
    ensures UploadErrorPrefix <= FinalStatus(o)
    ensures !("Conversion/Upload error: " <= FinalStatus(o))
  {
    assert FinalStatus(o)[0] == 'E';
  }

  /** A non-2xx response is reported with its status code and its body text,
      verbatim and in that order, after the fixed words. */
  lemma RejectionReportsStatusAndBody(r: Response)
    requires !IsOk(r)
    ensures var s := FinalStatus(Received(r));
            var head := UploadErrorPrefix + "Upload failed: ";
            var code := Decimal(r.statusCode);
            && |s| == |head| + |code| + 1 + |r.body|
            && s[..|head|] == head
            && s[|head|..|head| + |code|] == code
            && s[|head| + |code|] == ' '
            && s[|head| + |code| + 1..] == r.body
  {
    var head := UploadErrorPrefix + "Upload failed: ";
    var code := Decimal(r.statusCode);
    assert Attempt(Received(r)) == Err(RejectionMessage(r));
    assert FinalStatus(Received(r)) == head + code + " " + r.body;
    FourPartSlices(head, code, " ", r.body);
  }

  lemma FourPartSlices(a: string, b: string, c: string, d: string)
    ensures var s := a + b + c + d;
            && s[..|a|] == a && s[|a|..|a| + |b|] == b
            && s[|a| + |b|..|a| + |b| + |c|] == c && s[|a| + |b| + |c|..] == d
  {
  }

  lemma DecimalFiveHundred()
    ensures Decimal(500) == "500"
  {
    assert Decimal(5) == "5";
    assert Decimal(50) == "50";
  }

  /** A 500 answer with body "server error" ends as
      "Error: Upload failed: 500 server error". */
  lemma ServerErrorExample(parsed: Result<Json>)
    ensures FinalStatus(Received(Response(500, "server error", parsed)))
         == "Error: " + "Upload failed: " + "500" + " " + "server error"
  {
    DecimalFiveHundred();
  }
}
