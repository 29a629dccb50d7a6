# EcoSort in Dafny

EcoSort sorts waste images into two categories, Organic and Recyclable. It
has three parts:

- a FastAPI service, `src/app.py`, that
  - classifies an uploaded image with a Keras model,
  - stores user-labelled images for retraining,
  - schedules retraining in the background;
- two dataset scripts that fill `data/train` and `data/test` 80/20 from public datasets:
  - `src/organize_data.py` from a zip archive of class folders;
  - `src/data_loader.py` from a Hugging Face dataset;
- a React client. Two of its views are modelled here:
  - `Predict.tsx` picks or drops an image, previews it and asks for a prediction;
  - `Retrain.tsx` uploads labelled images and starts retraining.

This project models the decision logic of those parts. Each part is a set of
pure functions over immutable data, and the lemmas prove what the logic
promises.

Modules:

- `Options`: `Option`, `Result`, and prefix and suffix tests on strings.
- `Waste`: the two categories, how they are spelled, and the category
  whitelist (`Parse`). Also the two splits, train and test.
- `Numerals`: rendering counts in decimal (`str(n)`, `${n}`) and reading
  them back. Also rendering bytes in hex (`bytes.hex()`).
- `Splits`: the 80/20 rule `int(n * 0.8)` in two forms:
  - slicing a list at the split index;
  - routing each item by its index.

  A lemma proves the two forms agree.
- `Api`: `/predict`, `/upload` and `/retrain` of the service.
  - Model inference is a parameter: either a score or the text of the exception it raised.
  - Disk writes and the background queue are returned as data.
- `PredictView`, `RetrainView`: each client view is a state record with one
  function per event handler.
  - The answer to an HTTP request and the firing of a `setTimeout` arrive
    as events of their own, so a run interleaves them with user actions as
    the browser's event loop does.
  - `Admissible` says which runs are possible:
    - an answer only answers a request that was sent;
    - a timer fires only after it was scheduled;
    - a disabled button cannot be clicked.
  - The state keeps bookkeeping the browser holds outside the view:
    - requests still in flight;
    - the batch each pending upload captured;
    - timers that were scheduled but have not fired;
    - object URLs created so far.
- `DataDir`: the data directory as a map from top-level folder to
  subfolder to file names. It models `rmtree`, `mkdir(parents=True,
  exist_ok=True)`, and both scripts' `setup_directories`.
- `OrganizeData`, `DataLoader`: the two dataset scripts. Each takes its
  input as a parameter:
  - the extracted class folders, and for each one the order `random.shuffle` left it in;
  - the dataset rows, each with the random bytes of its file name.

  Each returns the copies or saves it makes.
- `Wiring`: client and service together.
  - What the upload view sends is accepted and stored file by file.
  - A prediction the service computes reaches the view with a confidence
    between 0.5 and 1.

## Model

| member | source | states |
|---|---|---|
| Waste.Parse | src/app.py:101 | The category whitelist: it accepts exactly "Organic" and "Recyclable", each read as the category it spells; any other string names no category |
| Waste.ParseName | src/app.py:101 | Every category's spelling passes the whitelist and reads back as that category |
| Numerals.ValueOfDecimal | src/app.py:114 | The rendered count in a message denotes the count it was rendered from |
| Numerals.DecimalInjective | src/app.py:114 | Different counts render as different numerals |
| Numerals.ReadCountOfDecimal | frontend/src/components/Retrain.tsx:31 | A rendered count followed by text that does not start with a digit reads back as that count and that text |
| Numerals.Hex | src/data_loader.py:57 | `os.urandom(k).hex()` yields exactly two lower-case hex digits per byte |
| Numerals.Decimal | src/app.py:114 | `str(n)` and `${n}`: a non-empty run of decimal digits with no leading zero (see ValueOfDecimal for the value it denotes) |
| Splits.TrainCount | src/organize_data.py:69 | `int(n * 0.8)` is the largest k with 5k <= 4n, so never more than n |
| Splits.Partition | src/organize_data.py:69-71 | The train slice followed by the test slice is the whole list; the train slice holds the first `int(0.8 n)` items |
| Splits.Route | src/data_loader.py:89 | Item i goes to train exactly when i < `int(0.8 n)` |
| Splits.RouteAgreesWithPartition | src/data_loader.py:79-89 | Routing by index sends exactly the train slice to train and the test slice to test, each in the original order, so both scripts split the same way |
| Api.Classify | src/app.py:83-84 | The label is Recyclable exactly when the score is above 0.5, Organic otherwise (0.5 included); confidence is the larger of score and 1 - score, so it lies in [0.5, 1] for a score in [0, 1] |
| Api.Predict | src/app.py:59-93 | Without a model the answer is 503 "Model not loaded", whatever the file; any decoding or inference failure is 500 with the exception's text; otherwise the body carries the filename, the raw score and the score's verdict |
| Api.SavedPaths | src/app.py:107-112 | One saved path per uploaded file, in order, each `data/train/<category>/upload_<filename>` |
| Api.SavedPath | src/app.py:104-109 | A saved path lies under `data/train/<category>/` with the prefix `upload_` and ends with the uploaded file's name |
| Api.SavedPathInjective | src/app.py:104-109 | A saved path determines its category and file name: files of different categories or different names never share a path |
| Api.UploadMessage | src/app.py:114 | The upload message starts with "Uploaded " and ends with " files to " and the category (UploadMessageReadsBack recovers the count in between) |
| Api.UploadData | src/app.py:95-114 | The upload is refused with 400 exactly when a category is given and it is not whitelisted, and then nothing is written; a missing category means Recyclable; otherwise every file is written in order under its category, the reply lists exactly the written paths, and the message reports their number and the category |
| Api.UploadMessageReadsBack | src/app.py:114 | The upload message, after "Uploaded ", reads back as the count of saved files followed by " files to " and the category |
| Api.SameNameSamePath | src/app.py:108-112 | Two files with the same filename in one upload get the same path, so the later overwrites the earlier, though both are counted |
| Api.Retrain | src/app.py:126-129 | `/retrain` enqueues exactly one retraining task after the queued ones and answers at once with the fixed "started" message, whatever the retraining's outcome |
| PredictView.FileChange | frontend/src/components/Predict.tsx:16-24 | The picker's first file becomes the selection, with a new preview URL and no result or error shown, whatever its type; an empty selection changes nothing |
| PredictView.Drop | frontend/src/components/Predict.tsx:26-35 | A drop selects its first file only when its declared type starts with "image/"; any other drop changes nothing |
| PredictView.PickerSkipsMimeCheck | frontend/src/components/Predict.tsx:16-35 | A text file the drop zone refuses is selected by the picker |
| PredictView.PredictStart | frontend/src/components/Predict.tsx:37-44 | Without a file nothing happens and nothing is sent; with one, exactly one request carrying that file is sent, the view becomes pending and the old error is cleared |
| PredictView.Resolve | frontend/src/components/Predict.tsx:57-63 | A reply shows its body as the result; a failure shows the fixed error; either way the view stops pending and the selection is untouched |
| PredictView.ClearSelection | frontend/src/components/Predict.tsx:66-74 | File, preview, result and error are cleared; the pending flag and any request in flight are left alone |
| PredictView.ClearSelectionIdempotent | frontend/src/components/Predict.tsx:66-70 | Clearing twice is the same as clearing once |
| PredictView.Step | frontend/src/components/Predict.tsx:16-74 | A request is sent exactly on Analyze with a file selected; the number of requests in flight changes only by that and by answers; object URLs are only ever created; file and preview are set and cleared together |
| PredictView.StepKeepsGood | frontend/src/components/Predict.tsx:88-132 | With the Analyze button's guard, every event keeps the view's invariant: file and preview together, at most one request in flight exactly while pending, result and error never both shown |
| PredictView.RunKeepsGood | frontend/src/components/Predict.tsx:88-132 | The invariant holds after every admissible run from a state that satisfies it |
| PredictView.Reachable | frontend/src/components/Predict.tsx:88-132 | In every reachable state at most one prediction request is in flight, exactly while the view is pending, a result and an error are never shown together, and a preview is shown exactly when a file is selected |
| PredictView.AnalyzeEnabled | frontend/src/components/Predict.tsx:88-132 | The Analyze button exists only while a preview is shown and no result is, and is disabled while a prediction is pending |
| PredictView.AnalyzeGuard | frontend/src/components/Predict.tsx:88-132 | In every reachable state the button cannot be clicked while a request is pending, and a click on the enabled button sends exactly one request for the selected file while none is outstanding |
| PredictView.RunNeverRevokes | frontend/src/components/Predict.tsx:20 | No run of the view releases an object URL: the number created only grows |
| PredictView.PreviewsAccumulate | frontend/src/components/Predict.tsx:20 | Selecting, clearing and selecting again leaves two created URLs, neither released, while only the second preview is shown |
| PredictView.HandlerAloneAllowsTwoRequests | frontend/src/components/Predict.tsx:37-41 | The handler has no pending guard of its own: a second call while pending sends a second request |
| PredictView.StaleAnswerLands | frontend/src/components/Predict.tsx:57 | An answer about an image the user has since replaced is shown as the result next to the new image |
| RetrainView.ReadUploadedMessage | frontend/src/components/Retrain.tsx:30-32 | The success status line reads back as the count and category it reports |
| RetrainView.UploadedMessageInjective | frontend/src/components/Retrain.tsx:30-32 | Different batches give different success lines |
| RetrainView.FormParts | frontend/src/components/Retrain.tsx:16-19 | The form carries one "files" part per chosen file, in order |
| RetrainView.UploadedMessage | frontend/src/components/Retrain.tsx:31 | The success line starts with "Successfully uploaded " (ReadUploadedMessage recovers the count and category that follow) |
| RetrainView.ChooseFiles | frontend/src/components/Retrain.tsx:93 | A new selection replaces the chosen files; category, status line, outstanding uploads and retraining state are unchanged |
| RetrainView.PickCategory | frontend/src/components/Retrain.tsx:68-78 | A category button sets the category; files, status line, outstanding uploads and retraining state are unchanged |
| RetrainView.UploadStart | frontend/src/components/Retrain.tsx:13-29 | With no files or an empty list nothing changes and nothing is sent; otherwise one request goes out with every file in order and the current category, and the status shows "Uploading..." |
| RetrainView.UploadSettled | frontend/src/components/Retrain.tsx:30-37 | Success reports the count and category captured when that upload was sent and forgets the chosen files; failure shows "Upload failed." and keeps them; category and retraining state are untouched |
| RetrainView.RetrainStart | frontend/src/components/Retrain.tsx:40-43 | The retraining flag goes up and one retrain request is sent; uploads and selection are untouched |
| RetrainView.RetrainSettled | frontend/src/components/Retrain.tsx:43-49 | An acknowledged request schedules one timer and leaves the flag up; a failed one lowers the flag at once and shows no message |
| RetrainView.TimerFired | frontend/src/components/Retrain.tsx:45 | The timer lowers the flag and changes nothing else the view shows: files, category, status line and outstanding uploads stay |
| RetrainView.Step | frontend/src/components/Retrain.tsx:13-50 | Only the category buttons change the category; only the retrain button raises the flag and only the timer or a failed retrain lowers it; retrain requests are sent exactly on the retrain button, upload requests only on the upload button; only upload events change the status line and the outstanding uploads, and only choosing files or an upload's answer changes the chosen files |
| RetrainView.CategoryIsLastPicked | frontend/src/components/Retrain.tsx:9-11 | After any run the category is the one picked last, or the initial one when none was picked |
| RetrainView.RunKeepsRetrainGood | frontend/src/components/Retrain.tsx:40-50 | With the retrain button's guard, the flag is up exactly while one retrain is outstanding (request in flight or timer pending) and there is never more than one |
| RetrainView.AtMostOneRetrain | frontend/src/components/Retrain.tsx:160-162 | From the initial view no run has two retrains outstanding, and a retrain request is only sent when none is |
| RetrainView.HandlerAloneAllowsTwoRetrains | frontend/src/components/Retrain.tsx:40-43 | The handler has no guard of its own: called twice it sends two requests |
| RetrainView.SuccessReportsSubmittedBatch | frontend/src/components/Retrain.tsx:30-33 | Switching the category while an upload is in flight does not change the success line: it names the category captured at submission |
| RetrainView.DoubleUploadStatus | frontend/src/components/Retrain.tsx:104-110 | The upload button stays enabled while an upload is in flight; after a double click the first answer replaces "Uploading..." although the second upload is still outstanding |
| RetrainView.Enabled | frontend/src/components/Retrain.tsx:104-110 | Upload is disabled while no file list is chosen (an empty list still enables it); Start Retraining is disabled while the flag is up (Retrain.tsx:162) |
| RetrainView.EnabledGuards | frontend/src/components/Retrain.tsx:160-162 | In every state where the flag tracks the outstanding retrain, Start Retraining is clickable exactly when none is outstanding, and an enabled Upload button sends a request exactly when the chosen list is non-empty |
| RetrainView.RetrainFailureIsSilent | frontend/src/components/Retrain.tsx:46-49 | A retrain request that fails lowers the flag and leaves the status line exactly as it was: no message is shown |
| DataDir.RemoveTree | src/organize_data.py:27-30 | `rmtree` removes the folder and leaves every other top-level entry as it was |
| DataDir.MakeDir | src/organize_data.py:33 | `mkdir(exist_ok=True)` keeps an existing folder's files, creates a missing one empty, and touches nothing else |
| DataDir.MakeCategoryDirs | src/organize_data.py:32-34 | The setup loop adds each category folder under train and under test, keeping what was there, and touches no other top-level entry |
| DataDir.ResetSplits | src/organize_data.py:26-34 | Afterwards train and test each hold exactly an empty Organic and an empty Recyclable folder; every other entry of the data directory is unchanged |
| DataDir.ResetDataDir | src/data_loader.py:40-46 | Afterwards the data directory holds only train and test, each with exactly the two empty category folders |
| OrganizeData.ClassMapping | src/organize_data.py:17-24 | "trash" maps to Organic; cardboard, glass, metal, paper and plastic map to Recyclable; every other class is unmapped |
| OrganizeData.Jpgs | src/organize_data.py:65 | The images of a class are exactly its file names ending in ".jpg", each as often as it is listed |
| OrganizeData.ClassCopies | src/organize_data.py:65-79 | Each image of a class in shuffled order is copied once, keeping its name and the class's category; the j-th goes to train exactly when j < `int(0.8 n)` |
| OrganizeData.EntryCopies | src/organize_data.py:54-63 | A non-folder or an unmapped class contributes no copies; a mapped class contributes its class copies |
| OrganizeData.PlanFollowsMapping | src/organize_data.py:54-79 | Every copy goes to the category its class maps to |
| OrganizeData.PlanSize | src/organize_data.py:52-79 | As many copies are made as there are .jpg images in mapped class folders, whatever order the shuffle chose |
| OrganizeData.CopyEach | src/organize_data.py:73-79 | One copy loop: every name, in order, is copied to the given split and category, and the count grows by one per copy |
| OrganizeData.CopyClass | src/organize_data.py:68-79 | A mapped class's images in shuffled order are copied train slice first, then test slice, and the count grows by one per copy |
| OrganizeData.CopyEntry | src/organize_data.py:55-79 | A loop round copies nothing for a non-folder or an unmapped class and the class's copies otherwise |
| OrganizeData.Copies | src/organize_data.py:52-79 | The class-folder loop makes exactly the planned copies in folder order, and `total_moved` counts them |
| OrganizeData.Organize | src/organize_data.py:36-85 | A missing extracted folder returns before resetting train and test, leaving the directory as it was; otherwise train and test are reset, every image of every mapped class is copied in loop order, `total_moved` equals the number of copies and of such images, the `temp_extract` folder is removed, and every other entry is kept |
| DataLoader.ClassMapping | src/data_loader.py:30-38 | "compost" and "trash" map to Organic; the five recyclable classes map to Recyclable; every other label is unmapped |
| DataLoader.MappingsAgreeExceptCompost | src/data_loader.py:30-38 | The two scripts' class mappings agree on every name except "compost", which only the downloader knows |
| DataLoader.FileName | src/data_loader.py:57 | A saved file's name starts with its label and "_" and ends in ".jpg" |
| DataLoader.SaveImage | src/data_loader.py:48-63 | An unmapped label saves nothing; otherwise the image is saved under its label's category, in train exactly when the split is "train", with a name of that label |
| DataLoader.Ingest | src/data_loader.py:65-91 | After the reset, item i is saved exactly when its label is mapped, under that category, in train exactly when i < `int(0.8 n)`, and under the file name its own label, image name and random bytes give |
| DataLoader.SplitsLikeSlicing | src/data_loader.py:79-89 | What train receives comes from the first `int(0.8 n)` items and what test receives from the rest, in item order, as slicing the list would give |
| Wiring.Received | src/app.py:96 | The service sees one upload per multipart part, in order, with the part's file name |
| Wiring.UploadAccepted | src/app.py:101-114 | A non-empty upload the view sends always names a whitelisted category; the service writes one path per file, in order, under that category, and the count the view will report equals the number of files written |
| Wiring.ShownPrediction | src/app.py:83-91 | A prediction for a score in [0, 1], once shown, has a confidence in [0.5, 1] and the label Recyclable exactly when the score is above 0.5, and the view stops pending |

## Behaviour a user might not expect

The model follows the code, including these behaviours:

- The file picker does not check the MIME type; only the drop zone does. The input's `accept="image/*"` only filters the browser's dialog.
- Preview URLs are never revoked.
- An answer that arrives after the selection changed is still shown.
- A failed retrain request shows no message; it only lowers the flag.
- The Upload button stays enabled while an upload is pending.

Lemmas exhibit each of them: PredictView.PickerSkipsMimeCheck,
PredictView.RunNeverRevokes with PredictView.PreviewsAccumulate,
PredictView.StaleAnswerLands, RetrainView.RetrainFailureIsSilent and
RetrainView.DoubleUploadStatus.

## Left out

- Rendering: JSX markup, icons and styling are not modelled. This includes `toFixed` formatting of the confidence and the red/green colour of the status line. The status line shows only when set.
- The HTTP transport is not modelled: axios, multipart encoding, CORS, and FastAPI's 422 validation of a missing `files` part. A request's answer is an event that carries either a body or a failure.
- `URL.createObjectURL` is a fresh serial number. Blob memory is not modelled.
- `fileInputRef.current.value = ""` in `clearSelection` resets a DOM element. It has no state in the model.
- `console.error` logging and every `print` of the scripts are left out.
- React's batching of state updates is not modelled: each handler's updates apply together, when the handler runs.
- Switching tabs unmounts a view (frontend/src/App.tsx:92-94). That resets its state and drops the updates of answers that arrive later. It is not modelled: the runs cover one mounted view.
- PredictView.Admissible allows the picker, the drop zone and the clear button in every state. The rendered view shows some of them only with or without a preview, so the invariants are proved over a superset of the real runs.
- Image decoding, resizing and the Keras model are foreign. `/predict` takes their outcome as a parameter. The service's startup, `read_root`, `load_model_instance` and the training pipeline behind `run_retraining` are not modelled. `/retrain` only enqueues the retraining job.
- Api.Classify: scores are exact reals. IEEE rounding and NaN are not modelled. A NaN score would give Organic with a NaN confidence.
- Api.UploadData: saved paths are plain string concatenation. `pathlib` normalisation of file names holding "/" or ".." is not modelled, and neither is a part without a filename. File contents are not modelled.
- Api.SavedPath: the path is plain string concatenation; `pathlib` would normalise a file name such as `a//b` to `a/b`, so the saved path of such a name differs from the model's.
- Api.SavedPathInjective: holds for string concatenation only; under `pathlib` normalisation two different file names (`a//b` and `a/b`) share a saved path.
- Api.UploadData: once the category passes, every file is written and the reply is Ok. `open(file_path, "wb")` or the copy failing part-way (src/app.py:110-111) would raise a 500 after earlier files were written; that error path is not modelled, because the disk is not.
- Splits.TrainCount: `int(n * 0.8)` is modelled as the exact integer `(4n) / 5`. The floating-point product agrees with it for dataset sizes far beyond any real dataset. Rounding for astronomically large n is not modelled.
- The randomness of `random.shuffle` is not modelled. The order it leaves each class in is an input, required only to be a permutation of that class's images. `os.urandom(4)` is likewise an input per row; the model accepts any bytes there, where the source always draws four.
- Unzipping the archive, downloading the dataset, `int2str` on labels, and the PIL conversion and save are not modelled; their inputs or outcomes are parameters. The tree `Organize` receives already holds the extracted `temp_extract` folder, and its removal at the end is modelled only as removing that entry.
- Copies and saves are returned as a list of what goes where. They are not applied to the directory tree, so two images with the same name in different class folders of one category count twice while the file exists once. Api.SameNameSamePath shows the same effect for uploads.
- The scripts resolve `DATA_DIR` against different roots. The model has one data directory per script run.
- The load-test script, the dashboard view and the app shell are outside the modelled core.
