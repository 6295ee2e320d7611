/** The per-session state: the list of single-comment classifications and the
    uploaded batches keyed by file name, with the four actions that change
    them (classify one comment, store a batch, upload a file, reset the
    session). */
module Session {
  import opened Text
  import opened Classifier

  /** The column an uploaded file must have. */
  const CommentColumn: string := "comment_text"

  /** One history row: the time it was made (formatted by the caller) and the
      classification of the comment. */
  datatype HistoryEntry = HistoryEntry(timestamp: string, result: ClassificationResult)

  /** What submitting a single comment does: warn about a blank comment, or
      record the new entry. */
  datatype SubmitOutcome = BlankWarning | Recorded(entry: HistoryEntry)

  /** What uploading a file does: reject it when the comment column is
      missing, or classify its comments. */
  datatype UploadOutcome =
    | MissingCommentColumn
    | Uploaded(results: seq<ClassificationResult>)

  /** An uploaded file after parsing: its columns by name, each column's cells
      as text in row order. */
  type Table = map<string, seq<string>>

  class SessionState {
    var history: seq<HistoryEntry>
    var uploadedResults: map<string, seq<ClassificationResult>>

    /** No blank comment ever reaches the history. */
    ghost predicate Valid()
      reads this
    {
      forall i :: 0 <= i < |history| ==> !IsBlank(history[i].result.comment)
    }

    /** A new session starts with no history and no uploaded results. */
    constructor ()
      ensures Valid()
      ensures history == [] && uploadedResults == map[]
    {
      history := [];
      uploadedResults := map[];
    }

    /** The single-comment form: a blank comment only raises a warning;
        otherwise the comment is classified and exactly one entry is appended
        to the history. The uploaded results are left alone. */
    method SubmitComment(model: string -> Distribution, comment: string, timestamp: string)
      returns (outcome: SubmitOutcome)
      requires Valid()
      modifies this
      ensures Valid()
      ensures IsBlank(comment) ==> outcome == BlankWarning && history == old(history)
      ensures !IsBlank(comment) ==>
        && outcome == Recorded(HistoryEntry(timestamp, Classify(model, comment)))
        && history == old(history) + [outcome.entry]
      ensures uploadedResults == old(uploadedResults)
    {
      var blank := CheckBlank(comment);
      if blank {
        outcome := BlankWarning;
      } else {
        var entry := HistoryEntry(timestamp, Classify(model, comment));
        history := history + [entry];
        outcome := Recorded(entry);
      }
    }

    /** Stores a batch under its file name, replacing an earlier batch of the
        same name and leaving every other file's batch as it was. */
    method StoreBatch(fileName: string, results: seq<ClassificationResult>)
      requires Valid()
      modifies this
      ensures Valid()
      ensures uploadedResults == old(uploadedResults)[fileName := results]
      ensures fileName in uploadedResults && uploadedResults[fileName] == results
      ensures forall f :: f != fileName ==>
        (f in uploadedResults <==> f in old(uploadedResults))
        && (f in uploadedResults ==> uploadedResults[f] == old(uploadedResults)[f])
      ensures history == old(history)
    {
      uploadedResults := uploadedResults[fileName := results];
    }

    /** The upload form: a file without the comment column is rejected and
        nothing changes; otherwise every comment is classified in order and
        the results are stored under the file's name. */
    method UploadCsv(model: string -> Distribution, fileName: string, table: Table)
      returns (outcome: UploadOutcome)
      requires Valid()
      modifies this
      ensures Valid()
      ensures CommentColumn !in table ==>
        outcome == MissingCommentColumn && uploadedResults == old(uploadedResults)
      ensures CommentColumn in table ==>
        && outcome.Uploaded?
        && |outcome.results| == |table[CommentColumn]|
        && (forall i :: 0 <= i < |outcome.results| ==>
              outcome.results[i] == Classify(model, table[CommentColumn][i]))
        && uploadedResults == old(uploadedResults)[fileName := outcome.results]
      ensures history == old(history)
    {
      if CommentColumn !in table {
        outcome := MissingCommentColumn;
      } else {
        var results := ClassifyBatch(model, table[CommentColumn]);
        StoreBatch(fileName, results);
        outcome := Uploaded(results);
      }
    }

    /** "Reset Session": both the history and the uploaded results become
        empty. The button is shown only inside the history section, which the
        page renders only while the history is non-empty (app.py:2731), so a
        session with uploaded files but no history entry cannot be reset. */
    method Reset()
      requires Valid()
      requires history != []
      modifies this
      ensures Valid()
      ensures history == [] && uploadedResults == map[]
    {
      history := [];
      uploadedResults := map[];
    }
  }
}
