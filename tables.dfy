/**
 * The two tables, `ChatHistory` and `FileContext`, as one store whose rows
 * are kept in insertion order (the order of their auto-increment ids).
 */
module Tables {
  import opened Models

  class Store {
    var history: seq<ChatRecord>
    var files: seq<FileContext>

    constructor ()
      ensures history == [] && files == []
    {
      history := [];
      files := [];
    }

    /** `save_history`: add one `ChatHistory` row and commit. */
    method SaveHistory(sessionId: string, role: string, content: string)
      modifies this
      ensures history == old(history) + [ChatRecord(sessionId, role, content)]
      ensures files == old(files)
    {
      history := history + [ChatRecord(sessionId, role, content)];
    }

    /** `session.add(FileContext(...))` followed by a commit. */
    method AddFileContext(sessionId: string, filename: string, content: string)
      modifies this
      ensures files == old(files) + [FileContext(sessionId, filename, content)]
      ensures history == old(history)
    {
      files := files + [FileContext(sessionId, filename, content)];
    }
  }
}
