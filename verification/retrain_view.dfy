/** The training-data view of the browser client (Retrain.tsx): the files
    chosen for upload, the chosen category, the upload status line and the
    retraining flag. Answers to upload and retrain requests, and the
    2000 ms timer that clears the flag, arrive as events of their own. */
module RetrainView {
  import opened Options
  import opened Waste
  import Numerals

  /** A file the browser hands over; only its identity matters here. */
  datatype File = File(name: string)

  /** What an outstanding upload's handler captured when it was submitted:
      the number of files and the category. */
  datatype Batch = Batch(count: nat, category: Category)

  /** The view's state. The last three fields are bookkeeping of the browser
      around the view: the uploads still awaiting an answer (in the order
      they were sent), the retrain requests awaiting one, and the timers
      scheduled but not yet fired. */
  datatype State = State(
    files: Option<seq<File>>,
    category: Category,
    uploadStatus: Option<string>,
    isRetraining: bool,
    uploads: seq<Batch>,
    retrains: nat,
    timers: nat)

  const Initial := State(None, Recyclable, None, false, [], 0, 0)

  const Uploading := "Uploading..."
  const UploadFailed := "Upload failed."
  const UploadedPrefix := "Successfully uploaded "
  const UploadedMiddle := " images to "

  function UploadedMessage(b: Batch): (msg: string)
    ensures StartsWith(msg, UploadedPrefix)
  {
    UploadedPrefix + Numerals.Decimal(b.count) + UploadedMiddle + Name(b.category)
  }

  /** Reads a success status line back into the batch it reports. */
  function ReadUploaded(msg: string): Option<Batch> {
    if !StartsWith(msg, UploadedPrefix) then None
    else match Numerals.ReadCount(msg[|UploadedPrefix|..])
      case None => None
      case Some((count, rest)) =>
        if !StartsWith(rest, UploadedMiddle) then None
        else match Parse(rest[|UploadedMiddle|..])
          case None => None
          case Some(c) => Some(Batch(count, c))
  }

  /** Reading back the part after the prefix: the count, then the category. */
  lemma ReadUploadedRest(count: nat, c: Category, rest: string)
    requires rest == Numerals.Decimal(count) + (UploadedMiddle + Name(c))
    ensures Numerals.ReadCount(rest) == Some((count, UploadedMiddle + Name(c)))
    ensures Parse((UploadedMiddle + Name(c))[|UploadedMiddle|..]) == Some(c)
    ensures StartsWith(UploadedMiddle + Name(c), UploadedMiddle)
  {
    var tail := UploadedMiddle + Name(c);
    assert tail[0] == ' ';
    Numerals.ReadCountOfDecimal(count, tail);
    assert tail[..|UploadedMiddle|] == UploadedMiddle;
    assert tail[|UploadedMiddle|..] == Name(c);
    ParseName(c);
  }

  /** The success line determines the batch: its count and category can be
      read back from it, so different batches give different lines. */
  lemma ReadUploadedMessage(b: Batch)
    ensures ReadUploaded(UploadedMessage(b)) == Some(b)
  {
    var rest := Numerals.Decimal(b.count) + (UploadedMiddle + Name(b.category));
    var msg := UploadedMessage(b);
    assert msg == UploadedPrefix + rest;
    assert msg[|UploadedPrefix|..] == rest;
    ReadUploadedRest(b.count, b.category, rest);
  }

  lemma UploadedMessageInjective(a: Batch, b: Batch)
    requires UploadedMessage(a) == UploadedMessage(b)
    ensures a == b
  {
    ReadUploadedMessage(a);
    ReadUploadedMessage(b);
  }

  /** One part of the multipart body: its field name and file. */
  datatype Part = Part(field: string, file: File)

  datatype Request =
    | UploadRequest(parts: seq<Part>, category: string)
    | RetrainRequest

  function FormParts(files: seq<File>): (parts: seq<Part>)
    ensures |parts| == |files|
    ensures forall i :: 0 <= i < |files| ==> parts[i] == Part("files", files[i])
    decreases |files|
  {
    if |files| == 0 then [] else [Part("files", files[0])] + FormParts(files[1..])
  }

  /** A handler's new state and the request it sent, if any. */
  datatype Reaction = Reaction(next: State, sent: Option<Request>)

  /** The file input's change handler: the new selection replaces the old. */
  function ChooseFiles(s: State, chosen: Option<seq<File>>): (r: State)
    ensures r.files == chosen
    ensures r.category == s.category && r.uploadStatus == s.uploadStatus && r.uploads == s.uploads
    ensures r.isRetraining == s.isRetraining && r.retrains == s.retrains && r.timers == s.timers
  {
    s.(files := chosen)
  }

  /** The two category buttons. */
  function PickCategory(s: State, c: Category): (r: State)
    ensures r.category == c
    ensures r.files == s.files && r.uploadStatus == s.uploadStatus && r.uploads == s.uploads
    ensures r.isRetraining == s.isRetraining && r.retrains == s.retrains && r.timers == s.timers
  {
    s.(category := c)
  }

  /** The synchronous part of `handleUpload`, up to the awaited post. */
  function UploadStart(s: State): (r: Reaction)
    // With no files, or an empty list, no request is sent and nothing changes.
    ensures s.files.None? || |s.files.value| == 0 ==> r == Reaction(s, None)
    // Otherwise one request goes out carrying one "files" part per file, in
    // order, and the current category; the status says it is uploading.
    ensures s.files.Some? && |s.files.value| > 0 ==>
      && r.sent.Some? && r.sent.value.UploadRequest?
      && |r.sent.value.parts| == |s.files.value|
      && (forall i :: 0 <= i < |s.files.value| ==>
            r.sent.value.parts[i].field == "files" && r.sent.value.parts[i].file == s.files.value[i])
      && r.sent.value.category == Name(s.category)
      && r.next == s.(uploadStatus := Some(Uploading),
                      uploads := s.uploads + [Batch(|s.files.value|, s.category)])
  {
    if s.files.None? || |s.files.value| == 0 then Reaction(s, None)
    else
      var files := s.files.value;
      Reaction(s.(uploadStatus := Some(Uploading), uploads := s.uploads + [Batch(|files|, s.category)]),
               Some(UploadRequest(FormParts(files), Name(s.category))))
  }

  /** The rest of `handleUpload`, run when the k-th outstanding upload is
      answered. Success reports the count and category captured when the
      upload was sent, not the current ones, and forgets the chosen files;
      failure keeps them for a retry. */
  function UploadSettled(s: State, k: nat, succeeded: bool): (r: State)
    requires k < |s.uploads|
    ensures succeeded ==> r.uploadStatus == Some(UploadedMessage(s.uploads[k])) && r.files.None?
    ensures !succeeded ==> r.uploadStatus == Some(UploadFailed) && r.files == s.files
    ensures r.uploads == s.uploads[..k] + s.uploads[k + 1..]
    ensures r.category == s.category && r.isRetraining == s.isRetraining
    ensures r.retrains == s.retrains && r.timers == s.timers
  {
    var rest := s.uploads[..k] + s.uploads[k + 1..];
    if succeeded then s.(uploadStatus := Some(UploadedMessage(s.uploads[k])), files := None, uploads := rest)
    else s.(uploadStatus := Some(UploadFailed), uploads := rest)
  }

  /** The synchronous part of `handleRetrain`: the flag goes up before the
      request is sent. */
  function RetrainStart(s: State): (r: Reaction)
    ensures r.next.isRetraining && r.sent == Some(RetrainRequest)
    ensures r.next.retrains == s.retrains + 1 && r.next.timers == s.timers
    ensures r.next.files == s.files && r.next.category == s.category
    ensures r.next.uploadStatus == s.uploadStatus && r.next.uploads == s.uploads
  {
    Reaction(s.(isRetraining := true, retrains := s.retrains + 1), Some(RetrainRequest))
  }

  /** The rest of `handleRetrain`. An acknowledgment only schedules the
      timer, leaving the flag as it is; a failure lowers the flag at once. */
  function RetrainSettled(s: State, acknowledged: bool): (r: State)
    requires s.retrains > 0
    ensures r.retrains == s.retrains - 1
    ensures acknowledged ==> r.isRetraining == s.isRetraining && r.timers == s.timers + 1
    ensures !acknowledged ==> !r.isRetraining && r.timers == s.timers
    ensures r.files == s.files && r.category == s.category
    ensures r.uploadStatus == s.uploadStatus && r.uploads == s.uploads
  {
    if acknowledged then s.(retrains := s.retrains - 1, timers := s.timers + 1)
    else s.(retrains := s.retrains - 1, isRetraining := false)
  }

  /** The 2000 ms timer fires and lowers the flag. */
  function TimerFired(s: State): (r: State)
    requires s.timers > 0
    ensures !r.isRetraining && r.timers == s.timers - 1 && r.retrains == s.retrains
    ensures r.files == s.files && r.category == s.category
    ensures r.uploadStatus == s.uploadStatus && r.uploads == s.uploads
  {
    s.(isRetraining := false, timers := s.timers - 1)
  }

  datatype Event =
    | Choose(chosen: Option<seq<File>>)
    | ChooseCategory(c: Category)
    | Upload
    | UploadAnswered(k: nat, succeeded: bool)
    | Retrain
    | RetrainAnswered(acknowledged: bool)
    | Timer

  /** Answers answer requests that were sent; a timer fires only once scheduled. */
  predicate Possible(s: State, e: Event) {
    match e
    case UploadAnswered(k, _) => k < |s.uploads|
    case RetrainAnswered(_) => s.retrains > 0
    case Timer => s.timers > 0
    case _ => true
  }

  /** The buttons' guards: Upload is disabled while no file list is chosen
      (an empty list still enables it), Start Retraining while the flag is up. */
  predicate Enabled(s: State, e: Event) {
    match e
    case Upload => s.files.Some?
    case Retrain => !s.isRetraining
    case _ => true
  }

  function Step(s: State, e: Event): (r: Reaction)
    requires Possible(s, e)
    // Only the two category buttons change the category.
    ensures !e.ChooseCategory? ==> r.next.category == s.category
    // Only the retrain button raises the flag, and only the timer or a
    // failed retrain request lowers it.
    ensures !s.isRetraining && r.next.isRetraining ==> e.Retrain?
    ensures s.isRetraining && !r.next.isRetraining ==> e == Timer || e == RetrainAnswered(false)
    // Requests are sent only by the two action buttons.
    ensures r.sent == Some(RetrainRequest) <==> e.Retrain?
    ensures r.sent.Some? && r.sent.value.UploadRequest? ==> e.Upload?
    // Only upload events touch the status line and the outstanding uploads,
    // and only choosing files or a successful upload touches the files.
    ensures !e.Upload? && !e.UploadAnswered? ==> r.next.uploadStatus == s.uploadStatus && r.next.uploads == s.uploads
    ensures !e.Choose? && !e.UploadAnswered? ==> r.next.files == s.files
  {
    match e
    case Choose(chosen) => Reaction(ChooseFiles(s, chosen), None)
    case ChooseCategory(c) => Reaction(PickCategory(s, c), None)
    case Upload => UploadStart(s)
    case UploadAnswered(k, succeeded) => Reaction(UploadSettled(s, k, succeeded), None)
    case Retrain => RetrainStart(s)
    case RetrainAnswered(acknowledged) => Reaction(RetrainSettled(s, acknowledged), None)
    case Timer => Reaction(TimerFired(s), None)
  }

  predicate Admissible(s: State, es: seq<Event>)
    decreases |es|
  {
    |es| == 0 || (Possible(s, es[0]) && Enabled(s, es[0]) && Admissible(Step(s, es[0]).next, es[1..]))
  }

  function Run(s: State, es: seq<Event>): State
    requires Admissible(s, es)
    decreases |es|
  {
    if |es| == 0 then s else Run(Step(s, es[0]).next, es[1..])
  }

  /** The category the last category button in `es` picked, else `current`. */
  function LastPicked(es: seq<Event>, current: Category): Category
    decreases |es|
  {
    if |es| == 0 then current
    else LastPicked(es[1..], if es[0].ChooseCategory? then es[0].c else current)
  }

  /** The category is the one last picked with its buttons, Recyclable before
      any is pressed; nothing else changes it. */
  lemma {:induction false} CategoryIsLastPicked(s: State, es: seq<Event>)
    requires Admissible(s, es)
    ensures Run(s, es).category == LastPicked(es, s.category)
    decreases |es|
  {
    if |es| > 0 {
      CategoryIsLastPicked(Step(s, es[0]).next, es[1..]);
    }
  }

  /** The retraining flag is up exactly while one retrain is outstanding:
      its request awaits an answer, or it was acknowledged and its timer has
      not fired yet. */
  predicate RetrainGood(s: State) {
    s.retrains + s.timers <= 1 && (s.isRetraining <==> s.retrains + s.timers == 1)
  }

  lemma {:induction false} RunKeepsRetrainGood(s: State, es: seq<Event>)
    requires RetrainGood(s) && Admissible(s, es)
    ensures RetrainGood(Run(s, es))
    decreases |es|
  {
    if |es| > 0 {
      var e := es[0];
      var t := Step(s, e).next;
      match e {
        case Retrain => assert !s.isRetraining;
        case RetrainAnswered(_) => assert s.retrains == 1;
        case Timer => assert s.timers == 1;
        case _ =>
      }
      assert RetrainGood(t);
      RunKeepsRetrainGood(t, es[1..]);
    }
  }

  /** Because its button is disabled while the flag is up, the view never
      has two retrains outstanding, and never sends a retrain request while
      one is outstanding. */
  lemma AtMostOneRetrain(es: seq<Event>, e: Event)
    requires Admissible(Initial, es)
    ensures var s := Run(Initial, es);
      && s.retrains + s.timers <= 1
      && (s.isRetraining <==> s.retrains + s.timers == 1)
      && (Admissible(s, [e]) && Step(s, e).sent == Some(RetrainRequest) ==> s.retrains + s.timers == 0)
  {
    RunKeepsRetrainGood(Initial, es);
  }

  /** What the two buttons' guards buy in every state the view can reach:
      Start Retraining is clickable exactly when no retrain is outstanding,
      and a click on an enabled Upload button sends the chosen files unless
      the chosen list is empty. */
  lemma EnabledGuards(s: State)
    requires RetrainGood(s)
    ensures Enabled(s, Retrain) <==> s.retrains + s.timers == 0
    ensures Enabled(s, Upload) ==> (UploadStart(s).sent.Some? <==> |s.files.value| > 0)
    ensures !Enabled(s, Upload) ==> UploadStart(s).sent.None?
  {
  }

  /** A retrain request that fails lowers the flag and shows nothing: the
      status line is exactly what it was before the click. */
  lemma RetrainFailureIsSilent(status: Option<string>)
    ensures var s := Initial.(uploadStatus := status);
      var es := [Retrain, RetrainAnswered(false)];
      Admissible(s, es) &&
      var t := Run(s, es);
      !t.isRetraining && t.uploadStatus == status && t.retrains + t.timers == 0
  {
    var s := Initial.(uploadStatus := status);
    var es := [Retrain, RetrainAnswered(false)];
    var s1 := RetrainStart(s).next;
    var s2 := RetrainSettled(s1, false);
    assert Admissible(s2, es[2..]) && Run(s2, es[2..]) == s2;
    assert es[1..][1..] == es[2..];
    assert Admissible(s1, es[1..]) && Run(s1, es[1..]) == s2;
    assert Admissible(s, es) && Run(s, es) == s2;
  }

  /** Without the button's guard the handler itself would happily send a
      second retrain request while the first is pending. */
  lemma HandlerAloneAllowsTwoRetrains()
    ensures var s := RetrainStart(RetrainStart(Initial).next).next;
      s.isRetraining && s.retrains == 2
  {
  }

  /** Scenario: three files, category Organic, then the user switches to
      Recyclable while the upload is in flight. The success line still
      reports the three files and Organic, and the files are forgotten. */
  lemma SuccessReportsSubmittedBatch(a: File, b: File, c: File)
    ensures var es := [Choose(Some([a, b, c])), ChooseCategory(Organic), Upload,
                       ChooseCategory(Recyclable), UploadAnswered(0, true)];
      Admissible(Initial, es) &&
      var s := Run(Initial, es);
      && s.uploadStatus == Some("Successfully uploaded 3 images to Organic")
      && s.category == Recyclable
      && s.files.None?
  {
    var es := [Choose(Some([a, b, c])), ChooseCategory(Organic), Upload,
               ChooseCategory(Recyclable), UploadAnswered(0, true)];
    var s1 := ChooseFiles(Initial, Some([a, b, c]));
    var s2 := PickCategory(s1, Organic);
    var s3 := UploadStart(s2).next;
    var s4 := PickCategory(s3, Recyclable);
    var s5 := UploadSettled(s4, 0, true);
    assert Numerals.Decimal(3) == "3";
    assert UploadedMessage(Batch(3, Organic)) == "Successfully uploaded 3 images to Organic";
    assert Admissible(s5, es[5..]) && Run(s5, es[5..]) == s5;
    assert es[4..][1..] == es[5..];
    assert Admissible(s4, es[4..]) && Run(s4, es[4..]) == s5;
    assert es[3..][1..] == es[4..];
    assert Admissible(s3, es[3..]) && Run(s3, es[3..]) == s5;
    assert es[2..][1..] == es[3..];
    assert Admissible(s2, es[2..]) && Run(s2, es[2..]) == s5;
    assert es[1..][1..] == es[2..];
    assert Admissible(s1, es[1..]) && Run(s1, es[1..]) == s5;
    assert Admissible(Initial, es) && Run(Initial, es) == s5;
  }

  /** The Upload button stays enabled while an upload is in flight, so a
      second click sends the same files again; when the first answer comes
      back the status line reports success although the second upload is
      still outstanding. */
  lemma DoubleUploadStatus(a: File)
    ensures var es := [Choose(Some([a])), Upload, Upload, UploadAnswered(0, true)];
      Admissible(Initial, es) &&
      var s := Run(Initial, es);
      |s.uploads| == 1 && s.uploadStatus != Some(Uploading)
  {
    var es := [Choose(Some([a])), Upload, Upload, UploadAnswered(0, true)];
    var s1 := ChooseFiles(Initial, Some([a]));
    var s2 := UploadStart(s1).next;
    var s3 := UploadStart(s2).next;
    var s4 := UploadSettled(s3, 0, true);
    assert s4.uploadStatus.value[0] == 'S';
    assert Admissible(s4, es[4..]) && Run(s4, es[4..]) == s4;
    assert es[3..][1..] == es[4..];
    assert Admissible(s3, es[3..]) && Run(s3, es[3..]) == s4;
    assert es[2..][1..] == es[3..];
    assert Admissible(s2, es[2..]) && Run(s2, es[2..]) == s4;
    assert es[1..][1..] == es[2..];
    assert Admissible(s1, es[1..]) && Run(s1, es[1..]) == s4;
    assert Admissible(Initial, es) && Run(Initial, es) == s4;
  }
}
