/** The classification view of the browser client (Predict.tsx): the
    selected image, its preview URL, the pending flag, and the prediction or
    error shown. Each handler is a pure function from the view's state to
    the next one; the network answer to a prediction request arrives as an
    event of its own, so anything the user does in between is interleaved
    exactly as the browser's event loop would. */
module PredictView {
  import opened Options
  import Api

  /** A file the browser hands over: its name and declared MIME type. */
  datatype File = File(name: string, mimeType: string)

  /** A URL from `URL.createObjectURL`: the serial-th one this view created.
      The view never calls `URL.revokeObjectURL`. */
  datatype ObjectUrl = ObjectUrl(serial: nat)

  const PredictionFailed := "Failed to get prediction. Ensure the backend is running."

  /** The view's state. The last two fields are bookkeeping of the browser
      around the view: how many object URLs it has created (all still alive)
      and how many prediction requests are awaiting their answer. */
  datatype State = State(
    file: Option<File>,
    preview: Option<ObjectUrl>,
    loading: bool,
    result: Option<Api.Prediction>,
    error: Option<string>,
    urlsCreated: nat,
    inFlight: nat)

  const Initial := State(None, None, false, None, None, 0, 0)

  /** `file.type.startsWith("image/")` */
  predicate IsImage(f: File) {
    StartsWith(f.mimeType, "image/")
  }

  /** `r` is `s` after selecting `f`: `f` is the file, its preview is a URL
      never created before, any shown prediction or error is gone, and the
      pending flag and outstanding requests are as they were. */
  predicate Selected(s: State, r: State, f: File) {
    && r.file == Some(f)
    && r.preview.Some? && r.preview.value.serial >= s.urlsCreated
    && r.urlsCreated == s.urlsCreated + 1
    && r.result.None? && r.error.None?
    && r.loading == s.loading && r.inFlight == s.inFlight
  }

  function Select(s: State, f: File): (r: State)
    ensures Selected(s, r, f)
  {
    s.(file := Some(f), preview := Some(ObjectUrl(s.urlsCreated)), urlsCreated := s.urlsCreated + 1,
       result := None, error := None)
  }

  /** `handleFileChange`: the picker's first file, if any, is selected,
      whatever its MIME type; an empty or missing selection changes nothing. */
  function FileChange(s: State, chosen: seq<File>): (r: State)
    ensures |chosen| == 0 ==> r == s
    ensures |chosen| > 0 ==> Selected(s, r, chosen[0])
  {
    if |chosen| > 0 then Select(s, chosen[0]) else s
  }

  /** The picker takes a file the drop zone refuses. */
  lemma PickerSkipsMimeCheck(s: State)
    ensures var f := File("notes.txt", "text/plain");
      !IsImage(f) && FileChange(s, [f]).file == Some(f) && Drop(s, [f]) == s
  {
    var f := File("notes.txt", "text/plain");
    assert f.mimeType[..6][0] != "image/"[0];
  }

  /** `handleDrop`: the first dropped file is selected only when its declared
      type starts with "image/"; otherwise nothing changes. */
  function Drop(s: State, dropped: seq<File>): (r: State)
    ensures |dropped| > 0 && IsImage(dropped[0]) ==> Selected(s, r, dropped[0])
    ensures !(|dropped| > 0 && IsImage(dropped[0])) ==> r == s
  {
    if |dropped| > 0 && IsImage(dropped[0]) then Select(s, dropped[0]) else s
  }

  /** A handler's new state and the request it sent, if any. */
  datatype Reaction = Reaction(next: State, sent: Option<File>)

  /** The synchronous part of `handlePredict`, up to the awaited post. */
  function PredictStart(s: State): (r: Reaction)
    // Without a file nothing happens.
    ensures s.file.None? ==> r == Reaction(s, None)
    // Otherwise one request carrying the file goes out, the view shows it
    // is pending and drops any old error; file, preview and shown result stay.
    ensures s.file.Some? ==>
      && r.sent == s.file
      && r.next.loading && r.next.error.None?
      && r.next.inFlight == s.inFlight + 1
      && r.next.file == s.file && r.next.preview == s.preview && r.next.result == s.result
      && r.next.urlsCreated == s.urlsCreated
  {
    if s.file.None? then Reaction(s, None)
    else Reaction(s.(loading := true, error := None, inFlight := s.inFlight + 1), s.file)
  }

  /** How the awaited post ended: the reply's body, or a thrown error (no
      connection, a non-2xx status, ...). */
  datatype Response = Answered(body: Api.Prediction) | Rejected

  /** The rest of `handlePredict`, run when the answer arrives: it lands in
      whatever state the view is in by then. */
  function Resolve(s: State, response: Response): (r: State)
    requires s.inFlight > 0
    ensures !r.loading && r.inFlight == s.inFlight - 1
    ensures response.Answered? ==> r.result == Some(response.body) && r.error == s.error
    ensures response.Rejected? ==> r.error == Some(PredictionFailed) && r.result == s.result
    ensures r.file == s.file && r.preview == s.preview && r.urlsCreated == s.urlsCreated
  {
    match response
    case Answered(body) => s.(result := Some(body), loading := false, inFlight := s.inFlight - 1)
    case Rejected => s.(error := Some(PredictionFailed), loading := false, inFlight := s.inFlight - 1)
  }

  /** `clearSelection`: file, preview, result and error become null; the
      pending flag and any outstanding request are left alone. */
  function ClearSelection(s: State): (r: State)
    ensures r.file.None? && r.preview.None? && r.result.None? && r.error.None?
    ensures r.loading == s.loading && r.inFlight == s.inFlight && r.urlsCreated == s.urlsCreated
  {
    s.(file := None, preview := None, result := None, error := None)
  }

  lemma ClearSelectionIdempotent(s: State)
    ensures ClearSelection(ClearSelection(s)) == ClearSelection(s)
  {
  }

  datatype Event =
    | Pick(chosen: seq<File>)
    | DropFiles(dropped: seq<File>)
    | Analyze
    | Respond(response: Response)
    | Clear

  /** An answer can only arrive for a request that was sent. */
  predicate Possible(s: State, e: Event) {
    e.Respond? ==> s.inFlight > 0
  }

  /** The Analyze button is rendered only while there is a preview and no
      result, and it is disabled while a prediction is pending. */
  predicate AnalyzeEnabled(s: State) {
    s.preview.Some? && s.result.None? && !s.loading
  }

  function Step(s: State, e: Event): (r: Reaction)
    requires Possible(s, e)
    // Only Analyze with a file selected sends a request.
    ensures r.sent.Some? <==> e.Analyze? && s.file.Some?
    ensures r.next.inFlight == s.inFlight + (if r.sent.Some? then 1 else 0) - (if e.Respond? then 1 else 0)
    // Object URLs are only ever created, never released.
    ensures r.next.urlsCreated >= s.urlsCreated
    // A file and its preview are set and cleared together.
    ensures (s.file.Some? <==> s.preview.Some?) ==> (r.next.file.Some? <==> r.next.preview.Some?)
  {
    match e
    case Pick(chosen) => Reaction(FileChange(s, chosen), None)
    case DropFiles(dropped) => Reaction(Drop(s, dropped), None)
    case Analyze => PredictStart(s)
    case Respond(response) => Reaction(Resolve(s, response), None)
    case Clear => Reaction(ClearSelection(s), None)
  }

  /** Runs of events the browser can produce: every answer answers a sent
      request, and Analyze fires only through its button. The picker, the
      drop zone and the clear button are allowed in every state, which
      includes every run the rendered view permits. */
  predicate Admissible(s: State, es: seq<Event>)
    decreases |es|
  {
    |es| == 0 ||
      (&& Possible(s, es[0])
       && (es[0].Analyze? ==> AnalyzeEnabled(s))
       && Admissible(Step(s, es[0]).next, es[1..]))
  }

  function Run(s: State, es: seq<Event>): State
    requires Admissible(s, es)
    decreases |es|
  {
    if |es| == 0 then s else Run(Step(s, es[0]).next, es[1..])
  }

  /** What holds in every state the view can reach. */
  predicate Good(s: State) {
    && (s.file.Some? <==> s.preview.Some?)
    && (s.preview.Some? ==> s.preview.value.serial < s.urlsCreated)
    && s.inFlight <= 1
    && (s.loading <==> s.inFlight == 1)
    && (s.inFlight == 1 ==> s.result.None? && s.error.None?)
    && !(s.result.Some? && s.error.Some?)
    && (s.error.Some? ==> s.error.value == PredictionFailed)
  }

  lemma StepKeepsGood(s: State, e: Event)
    requires Good(s) && Possible(s, e) && (e.Analyze? ==> AnalyzeEnabled(s))
    ensures Good(Step(s, e).next)
  {
  }

  lemma {:induction false} RunKeepsGood(s: State, es: seq<Event>)
    requires Good(s) && Admissible(s, es)
    ensures Good(Run(s, es))
    decreases |es|
  {
    if |es| > 0 {
      StepKeepsGood(s, es[0]);
      RunKeepsGood(Step(s, es[0]).next, es[1..]);
    }
  }

  /** In every reachable state at most one prediction request is awaiting
      its answer, exactly while the view shows it is pending; a result and
      an error are never shown together; and a preview is shown exactly when
      a file is selected. */
  lemma Reachable(es: seq<Event>)
    requires Admissible(Initial, es)
    ensures var s := Run(Initial, es);
      && s.inFlight <= 1
      && (s.loading <==> s.inFlight == 1)
      && !(s.result.Some? && s.error.Some?)
      && (s.file.Some? <==> s.preview.Some?)
  {
    RunKeepsGood(Initial, es);
  }

  /** What the Analyze button's guard buys in every state the view can
      reach: while a request is pending the button cannot be clicked, and a
      click on the enabled button sends exactly one request for the selected
      file while none is outstanding. */
  lemma AnalyzeGuard(s: State)
    requires Good(s)
    ensures s.inFlight > 0 ==> !AnalyzeEnabled(s)
    ensures AnalyzeEnabled(s) ==> s.inFlight == 0 && s.file.Some? && PredictStart(s).sent == s.file
  {
  }

  /** No run releases an object URL: the count of URLs created only grows. */
  lemma {:induction false} RunNeverRevokes(s: State, es: seq<Event>)
    requires Admissible(s, es)
    ensures Run(s, es).urlsCreated >= s.urlsCreated
    decreases |es|
  {
    if |es| > 0 {
      RunNeverRevokes(Step(s, es[0]).next, es[1..]);
    }
  }

  /** Select a, clear, select b: two URLs have been created and neither is
      released, although only b's preview is shown. */
  lemma PreviewsAccumulate(a: File, b: File)
    ensures var es := [Pick([a]), Clear, Pick([b])];
      Admissible(Initial, es) &&
      var s := Run(Initial, es);
      s.urlsCreated == 2 && s.preview == Some(ObjectUrl(1)) && s.file == Some(b)
  {
    var es := [Pick([a]), Clear, Pick([b])];
    var s1 := FileChange(Initial, [a]);
    var s2 := ClearSelection(s1);
    var s3 := FileChange(s2, [b]);
    assert Admissible(s3, es[3..]) && Run(s3, es[3..]) == s3;
    assert es[2..][1..] == es[3..];
    assert Admissible(s2, es[2..]) && Run(s2, es[2..]) == s3;
    assert es[1..][1..] == es[2..];
    assert Admissible(s1, es[1..]) && Run(s1, es[1..]) == s3;
    assert Admissible(Initial, es) && Run(Initial, es) == s3;
  }

  /** The handler does not guard itself: without the button's guard a
      second Analyze sends a second request while the first is pending. */
  lemma HandlerAloneAllowsTwoRequests(f: File)
    ensures var s1 := PredictStart(Select(Initial, f)).next;
      s1.loading && PredictStart(s1).sent == Some(f) && PredictStart(s1).next.inFlight == 2
  {
  }

  /** No stale answer is discarded: select a, ask for a prediction, clear,
      select b; the answer about a then shows as the result next to b. */
  lemma StaleAnswerLands(a: File, b: File, answer: Api.Prediction)
    ensures var es := [Pick([a]), Analyze, Clear, Pick([b]), Respond(Answered(answer))];
      Admissible(Initial, es) &&
      var s := Run(Initial, es);
      s.file == Some(b) && s.result == Some(answer)
  {
    var es := [Pick([a]), Analyze, Clear, Pick([b]), Respond(Answered(answer))];
    var s1 := FileChange(Initial, [a]);
    var s2 := PredictStart(s1).next;
    var s3 := ClearSelection(s2);
    var s4 := FileChange(s3, [b]);
    var s5 := Resolve(s4, Answered(answer));
    assert Admissible(s5, es[5..]) && Run(s5, es[5..]) == s5;
    assert es[4..][1..] == es[5..];
    assert Admissible(s4, es[4..]) && Run(s4, es[4..]) == s5;
    assert es[3..][1..] == es[4..];
    assert Admissible(s3, es[3..]) && Run(s3, es[3..]) == s5;
    assert es[2..][1..] == es[3..];
    assert Admissible(s2, es[2..]) && Run(s2, es[2..]) == s5;
    assert es[1..][1..] == es[2..];
    assert Admissible(s1, es[1..]) && Run(s1, es[1..]) == s5;
    assert Admissible(Initial, es) && Run(Initial, es) == s5;
  }
}
