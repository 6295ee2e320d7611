# Nazar toxic-comment classifier: a Dafny model of its logic

Nazar is a Streamlit web page that classifies Arabic comments as toxic or
clean with a fine-tuned DistilBERT model. The user either types one comment
or uploads a CSV file with a `comment_text` column. Results carry a label and
a confidence. Single classifications go into a session history, and uploaded
batches are kept per file name until the session is reset. Almost all of
`app.py` is page markup. This project models the parts that are logic:

- `text.dfy` (module `Text`): Python's `str.isspace` and `str.strip()`. The
  single-comment form uses them to reject a blank comment. `Strip` scans
  forward and backward past whitespace, as CPython does. `CheckBlank`
  evaluates the guard, and `IsBlank` (all whitespace) is what it means.
- `background.dfy` (module `BackgroundRemoval`): the per-pixel rule of
  `remove_background`, which clears white and light-gray pixels to transparent
  white. It holds the pixel loop as a method, the rule as a function, and
  lemmas for each case, for idempotence and for how the threshold acts.
- `classifier.dfy` (module `Classifier`): the argmax over the model's
  two-class probabilities, the mapping to a label and a confidence, and the
  loop over an uploaded file's comments. The model is a parameter
  `string -> Distribution`. A `Distribution` is the softmax row `probs[0]`:
  two non-negative probabilities, clean and toxic, that sum to one. Class
  index 1 is toxic; any other index reads as clean. The confidence is always
  the toxic-class probability. So it lies in [0, 1], and it is above one half
  exactly for a Toxic verdict.
- `session.dfy` (module `Session`): the session state as a class. `history`
  is a sequence of entries and `uploadedResults` is a map from file name to a
  batch. It has the four actions that change them: submit a comment, store a
  batch, upload a file, reset. `Valid()` states that no blank comment is ever
  in the history.

Modelling choices:

- The source computes `whiteness = (r + g + b) / 3` as a Python float and
  compares it with an integer threshold. The model computes the mean as an
  exact real. `BackgroundRemoval.WhitenessAbove` proves the comparison is the
  same as `r + g + b > 3 * t`. For sums up to 765, float division by 3 is
  correctly rounded and so gives the same answer.
- The label field of a result is called `verdict`, because `label` is a Dafny
  keyword. `Label.Name()` gives the strings `"Toxic"` and `"Clean"` that the
  page shows and exports.
- A parsed CSV file is a `Table`: a map from column name to that column's
  cells in row order, each cell being its text after pandas' `astype(str)`
  conversion (so a missing cell is the text `"nan"`, not `""`).
  `df["comment_text"].astype(str).tolist()` is then the lookup
  `table[CommentColumn]`.
- The timestamp of a history entry is a parameter, because it comes from the
  clock.
- The constructor of `SessionState` models the first-run initialisation of
  `history` and `uploaded_results` (app.py:89-90, app.py:102-103).
- The source converts the image to RGBA first, so its loop only ever sees
  4-channel pixels. The model keeps the loop's 3-channel branch anyway, since
  the loop handles it.

## Model

| member | source | states |
|---|---|---|
| `Text.SkipForward` | app.py:2144 | the forward scan of `strip()` stops at the first character that is not whitespace, having passed only whitespace |
| `Text.SkipBackward` | app.py:2144 | the backward scan of `strip()` stops just past the last character that is not whitespace, having passed only whitespace |
| `Text.Strip` | app.py:2144 | `strip()` returns a contiguous piece of the comment with only whitespace around it and none at either end; it is empty exactly when every character is whitespace |
| `Text.CheckBlank` | app.py:2144-2145 | the blank-comment guard `comment.strip() == ""` fires exactly when the comment is all whitespace, the empty comment included |
| `BackgroundRemoval.Recolor` | app.py:50-65 | every output pixel has four channels |
| `BackgroundRemoval.Recolored` | app.py:48-65 | exactly one output pixel per input pixel, in the same order, each given by the per-pixel rule |
| `BackgroundRemoval.WhitenessAbove` | app.py:53-56 | the exact mean test `(r+g+b)/3 > t` is the integer test `r+g+b > 3*t` (the source's float test agrees, see Modelling choices) |
| `BackgroundRemoval.WhiteBecomesTransparent` | app.py:56-57 | a pixel with `r+g+b > 3*threshold` becomes `(255,255,255,0)` |
| `BackgroundRemoval.LightGrayBecomesTransparent` | app.py:59-60 | a pixel whose pairwise channel differences are all below 20 becomes `(255,255,255,0)` when `r+g+b > 3*(threshold-40)`, even if it fails the first test |
| `BackgroundRemoval.OtherPixelsKeepColour` | app.py:61-65 | any other pixel keeps its RGB channels; a 4-channel pixel is copied unchanged and a 3-channel pixel gains alpha 255 |
| `BackgroundRemoval.RecolorCases` | app.py:56-65 | all three branches at once: a cleared pixel becomes transparent white, any other pixel is kept with opacity added where it had none |
| `BackgroundRemoval.RecolorIdempotent` | app.py:56-65 | applying the rule to its own output changes nothing |
| `BackgroundRemoval.RecoloredIdempotent` | app.py:48-67 | removing the background from already processed pixel data gives the same data again |
| `BackgroundRemoval.LowerThresholdClearsMore` | app.py:34 | any pixel cleared at some threshold is also cleared at every lower threshold |
| `BackgroundRemoval.RemoveBackground` | app.py:44-67 | the loop over `getdata()` builds exactly the pixel data of `Recolored`: one four-channel pixel per input pixel, in order |
| `Classifier.Label.Name` | app.py:2154 | labels are shown as "Toxic" or "Clean", and "Toxic" exactly for the toxic label |
| `Classifier.Argmax` | app.py:2151 | `torch.argmax` over the two classes picks a class of maximal probability, and class 0 (clean) when the two are equal |
| `Classifier.LabelOf` | app.py:2154 | the label is Toxic exactly when the predicted index is 1 |
| `Classifier.Classify` | app.py:2150-2154 | the result keeps the comment verbatim; its label is Toxic iff the argmax index is 1 and Clean otherwise; its confidence is the toxic-class probability `probs[0][1]`, which lies in [0, 1] and is above 1/2 exactly for a Toxic verdict |
| `Classifier.CleanReportsToxicProbability` | app.py:2151-2154 | when the toxic probability does not exceed the clean one, the verdict is Clean and the confidence is still the toxic probability, `1 - P(clean)`, at most 1/2 |
| `Classifier.ClassifyDependsOnToxicProbability` | app.py:2151-2154 | two models that give a text the same toxic-class probability give it the same result, verdict included |
| `Classifier.ClassifyBatch` | app.py:2410-2420 | one result per uploaded comment, in input order, each the single-comment classification of that comment and carrying its text verbatim |
| `Session.SessionState.constructor` | app.py:89-103 | a new session has an empty history and no uploaded results |
| `Session.SessionState.SubmitComment` | app.py:2143-2365 | a blank comment raises the warning and leaves the history unchanged; any other comment appends exactly one entry (timestamp and classification) at the end; uploaded results are untouched; no blank comment enters the history |
| `Session.SessionState.StoreBatch` | app.py:2423 | storing a batch under a file name replaces any earlier batch of that name and leaves every other file's batch and the history unchanged |
| `Session.SessionState.UploadCsv` | app.py:2406-2423 | a file without `comment_text` is rejected with the stored batches unchanged; otherwise its comments are classified in order and the batch is stored under the file name |
| `Session.SessionState.Reset` | app.py:2731-2754 | the reset is offered only while the history is non-empty; after it the history and the uploaded results are both empty |

## Left out

- The model and tokenizer loading, tokenization, the forward pass and the softmax (app.py:23-26, app.py:2147-2150). These are library calls over floats. The model is the parameter `model: string -> Distribution`, whose two probabilities are non-negative and sum to exactly one. Float rounding in the softmax, where the two entries may not sum to exactly one, is not modelled. The model parameter's total, deterministic result also stands for the source's lack of a per-row failure path. An exception part-way through a batch, which aborts the whole upload, is not modelled.
- `round(confidence, 2)` on stored confidences, the percentage bar `int(confidence*100)` and the High/Medium/Low buckets (app.py:2364, app.py:2420, app.py:2170-2178). These are float formatting. Stored records keep the unrounded toxic probability.
- Image opening, RGBA conversion, `putdata`, PNG saving, base64 encoding and the fallback to plain encoding on an exception (app.py:29-31, app.py:37-42, app.py:67-78). These are PIL and file I/O. `RemoveBackground` takes the decoded pixel data and returns the data passed to `putdata`.
- CSV parsing and export with pandas, the 1-based export index, and the search filter, which uses pandas regex matching (app.py:2406, app.py:2452, app.py:2543-2545, app.py:2749). These are foreign library calls. An uploaded file enters the model already parsed into a `Table`.
- The clock value `datetime.now()` (app.py:2361), which is nondeterministic. It is a `timestamp` parameter.
- The insertion order of `uploaded_results`, a Python dict, which the results tab follows when it lists the batches (app.py:2761); a re-uploaded file keeps its old place. `uploadedResults` is a Dafny map, which has no order. Only rendering depends on it.
- All rendering, CSS/JS/HTML strings, the icons and result classes derived from the label, tab navigation, pie charts and download buttons. These are UI.
- placeholder_logo.py, which only draws a picture with PIL. It is not part of this model.
