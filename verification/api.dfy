/** The decision rules of the classification service (src/app.py): turning a
    model score into a label and confidence, the category whitelist and
    saved paths of an upload, and the reply to a retrain request. Image
    decoding and the network itself are foreign and enter as parameters. */
module Api {
  import opened Options
  import opened Waste
  import Numerals

  /** An HTTPException: a status code and its detail text. */
  datatype HttpError = HttpError(status: nat, detail: string)

  /** What an endpoint answers: a JSON body, or a raised HTTPException. */
  datatype Reply<+T> = Ok(body: T) | Raised(error: HttpError)

  const ModelNotLoaded := HttpError(503, "Model not loaded")
  const InvalidCategory := HttpError(400, "Invalid category. Must be 'Organic' or 'Recyclable'")

  /** The directory uploads are saved under (`TRAIN_DIR`). */
  const TrainDir := "data/train"

  function Max(a: real, b: real): real {
    if a >= b then a else b
  }

  /** The label and confidence the service reports for a raw model score. */
  datatype Verdict = Verdict(labelName: string, confidence: real)

  /** Scores strictly above one half mean Recyclable, everything else
      (one half included) Organic; the confidence is the probability of the
      reported label, that is the larger of the score and its complement. */
  function Classify(score: real): (v: Verdict)
    ensures v.labelName == "Recyclable" <==> score > 0.5
    ensures v.labelName == "Organic" <==> score <= 0.5
    ensures v.confidence == Max(score, 1.0 - score)
    ensures 0.0 <= score <= 1.0 ==> 0.5 <= v.confidence <= 1.0
  {
    var name := if score > 0.5 then "Recyclable" else "Organic";
    var confidence := if score > 0.5 then score else 1.0 - score;
    Verdict(name, confidence)
  }

  /** The body of a successful `/predict` reply. */
  datatype Prediction = Prediction(filename: string, labelName: string, confidence: real, rawScore: real)

  /** `/predict`. `loaded` says whether a model instance exists; `inference`
      is what reading, decoding, resizing and running the model on the
      uploaded file produced: a score, or the text of the exception raised. */
  function Predict(loaded: bool, filename: string, inference: Result<real>): (r: Reply<Prediction>)
    // Without a model the file is never looked at: the answer is 503 whatever it holds.
    ensures !loaded ==> r == Raised(ModelNotLoaded)
    // Any failure while decoding or predicting becomes a 500 carrying its text.
    ensures loaded && inference.Failure? ==> r == Raised(HttpError(500, inference.message))
    ensures loaded && inference.Success? ==>
      && r.Ok?
      && r.body.filename == filename
      && r.body.rawScore == inference.value
      && Verdict(r.body.labelName, r.body.confidence) == Classify(inference.value)
  {
    if !loaded then Raised(ModelNotLoaded)
    else match inference
      case Failure(message) => Raised(HttpError(500, message))
      case Success(score) =>
        var v := Classify(score);
        Ok(Prediction(filename, v.labelName, v.confidence, score))
  }

  /** A file part of an upload; its bytes are copied verbatim and are not modelled. */
  datatype Upload = Upload(filename: string)

  /** The body of a successful `/upload` reply. */
  datatype Stored = Stored(message: string, files: seq<string>)

  /** An endpoint's effect on the disk (the files it wrote, in order) and its reply. */
  datatype Effect<+T> = Effect(written: seq<string>, reply: Reply<T>)

  /** Where an uploaded file of the given category is saved. */
  function SavedPath(category: string, filename: string): (p: string)
    ensures StartsWith(p, TrainDir + "/" + category + "/upload_")
    ensures EndsWith(p, filename)
  {
    var p := TrainDir + "/" + category + "/upload_" + filename;
    assert p == (TrainDir + "/" + category + "/upload_") + filename;
    p
  }

  /** A saved path determines both the category folder and the uploaded
      file's name: files of different categories or names never collide. */
  lemma SavedPathInjective(c1: Category, c2: Category, f1: string, f2: string)
    requires SavedPath(Name(c1), f1) == SavedPath(Name(c2), f2)
    ensures c1 == c2 && f1 == f2
  {
    var p := SavedPath(Name(c1), f1);
    var dir := |TrainDir + "/"|;
    var prefix1 := TrainDir + "/" + Name(c1) + "/upload_";
    var prefix2 := TrainDir + "/" + Name(c2) + "/upload_";
    assert prefix1[dir] == p[dir] == prefix2[dir];
    assert prefix1[dir] == Name(c1)[0] && prefix2[dir] == Name(c2)[0];
    assert p == prefix1 + f1 && p == prefix2 + f2;
    assert f1 == p[|prefix1|..] == f2;
  }

  function UploadMessage(count: nat, category: string): (m: string)
    ensures StartsWith(m, "Uploaded ") && EndsWith(m, " files to " + category)
  {
    var m := "Uploaded " + Numerals.Decimal(count) + " files to " + category;
    assert m == ("Uploaded " + Numerals.Decimal(count)) + (" files to " + category);
    m
  }

  /** The upload reply's message can be read back: after "Uploaded " comes
      the count, then the category it was saved under. */
  lemma UploadMessageReadsBack(count: nat, category: string)
    ensures var m := UploadMessage(count, category);
      StartsWith(m, "Uploaded ")
      && Numerals.ReadCount(m[|"Uploaded "|..]) == Some((count, " files to " + category))
  {
    var digits := Numerals.Decimal(count);
    var tail := " files to " + category;
    var m := UploadMessage(count, category);
    assert m == "Uploaded " + (digits + tail);
    assert m[|"Uploaded "|..] == digits + tail;
    assert tail[0] == ' ';
    Numerals.ReadCountOfDecimal(count, tail);
  }

  /** The files saved for an accepted batch: one path per file, in order. */
  function SavedPaths(category: string, files: seq<Upload>): (paths: seq<string>)
    ensures |paths| == |files|
    ensures forall i :: 0 <= i < |files| ==> paths[i] == SavedPath(category, files[i].filename)
    decreases |files|
  {
    if |files| == 0 then []
    else [SavedPath(category, files[0].filename)] + SavedPaths(category, files[1..])
  }

  /** `/upload`. `category` is the query parameter, None when it is absent
      (the handler's default is "Recyclable"). */
  function UploadData(files: seq<Upload>, category: Option<string>): (r: Effect<Stored>)
    // A category outside the whitelist is refused with 400 before anything is written.
    ensures r.reply.Raised? <==> category.Some? && Parse(category.value).None?
    ensures r.reply.Raised? ==> r.reply.error == InvalidCategory && r.written == []
    // Otherwise every file is written, in order, under the category's folder,
    // the reply lists exactly the written paths and reports their count.
    ensures r.reply.Ok? ==>
      var c := if category.Some? then category.value else Name(Recyclable);
      && Parse(c).Some?
      && r.written == r.reply.body.files
      && |r.written| == |files|
      && (forall i :: 0 <= i < |files| ==> r.written[i] == SavedPath(c, files[i].filename))
      && r.reply.body.message == UploadMessage(|files|, c)
  {
    var c := if category.Some? then category.value else "Recyclable";
    if c != "Organic" && c != "Recyclable" then Effect([], Raised(InvalidCategory))
    else
      var saved := SavedPaths(c, files);
      Effect(saved, Ok(Stored(UploadMessage(|saved|, c), saved)))
  }

  /** Two uploads with the same filename in one category share a path: the
      later one overwrites the earlier, although both are counted. */
  lemma SameNameSamePath(c: Category, files: seq<Upload>, i: nat, j: nat)
    requires i < j < |files| && files[i].filename == files[j].filename
    ensures var r := UploadData(files, Some(Name(c)));
      r.reply.Ok? && r.written[i] == r.written[j] && |r.written| == |files|
  {
  }

  /** The work `/retrain` schedules in the background. */
  datatype Task = RunRetraining

  const RetrainStarted := "Retraining started in background"

  /** `/retrain`: appends one retraining task to the background queue and
      answers at once with a fixed message; the reply says nothing about how
      the retraining will end. */
  function Retrain(queue: seq<Task>): (r: (seq<Task>, Reply<string>))
    ensures |r.0| == |queue| + 1 && r.0[..|queue|] == queue && r.0[|queue|] == RunRetraining
    ensures r.1 == Ok(RetrainStarted)
  {
    (queue + [RunRetraining], Ok(RetrainStarted))
  }
}
