/** How the browser views and the service fit together over HTTP: what the
    client sends is what the service's decision rules receive, and what the
    service answers is what the client shows. */
module Wiring {
  import opened Options
  import opened Waste
  import Api
  import PredictView
  import RetrainView

  /** The service's view of the files of an upload request. */
  function Received(parts: seq<RetrainView.Part>): (files: seq<Api.Upload>)
    ensures |files| == |parts|
    ensures forall i :: 0 <= i < |parts| ==> files[i] == Api.Upload(parts[i].file.name)
    decreases |parts|
  {
    if |parts| == 0 then [] else [Api.Upload(parts[0].file.name)] + Received(parts[1..])
  }

  /** An upload the view sends always names a whitelisted category, so the
      service saves every file, one path per file in order, and both sides
      count the same number of files: the batch the view will report on
      success has exactly as many files as the service wrote. */
  lemma UploadAccepted(s: RetrainView.State)
    requires s.files.Some? && |s.files.value| > 0
    ensures var r := RetrainView.UploadStart(s);
      && r.sent.Some? && r.sent.value.UploadRequest?
      && var e := Api.UploadData(Received(r.sent.value.parts), Some(r.sent.value.category));
      && e.reply.Ok?
      && |e.written| == |s.files.value| == r.next.uploads[|r.next.uploads| - 1].count
      && (forall i :: 0 <= i < |s.files.value| ==>
            e.written[i] == Api.SavedPath(Name(s.category), s.files.value[i].name))
      && r.next.uploads[|r.next.uploads| - 1].category == s.category
  {
    ParseName(s.category);
  }

  /** A prediction the service computes from a score in [0, 1], once it
      reaches the view, shows a confidence in [0.5, 1] and the label
      Recyclable exactly when the score is above one half. */
  lemma ShownPrediction(s: PredictView.State, filename: string, score: real)
    requires s.inFlight > 0
    requires 0.0 <= score <= 1.0
    ensures var reply := Api.Predict(true, filename, Success(score));
      && reply.Ok?
      && var shown := PredictView.Resolve(s, PredictView.Answered(reply.body));
      && shown.result.Some?
      && 0.5 <= shown.result.value.confidence <= 1.0
      && (shown.result.value.labelName == "Recyclable" <==> score > 0.5)
      && !shown.loading
  {
  }
}
