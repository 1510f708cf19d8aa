/**
 * routes/history.py: `get_history(session_id)` selects the `ChatHistory`
 * rows of one session and returns each as `{role, content}`. The query has
 * no ORDER BY; the model returns the rows in insertion order, the order the
 * storage engine yields them in practice.
 */
module History {
  import opened Models

  function Project(r: ChatRecord): Message
  {
    Message(r.role, r.content)
  }

  /** The `{role, content}` of every row of `sessionId`, in insertion order. */
  function GetHistory(log: seq<ChatRecord>, sessionId: string): (h: seq<Message>)
    ensures |h| <= |log|
  {
    if log == [] then []
    else
      var last := log[|log| - 1];
      GetHistory(log[..|log| - 1], sessionId) + (if last.sessionId == sessionId then [Project(last)] else [])
  }

  /** The query distributes over a log split in two. */
  lemma {:induction false} HistoryAppend(a: seq<ChatRecord>, b: seq<ChatRecord>, sessionId: string)
    ensures GetHistory(a + b, sessionId) == GetHistory(a, sessionId) + GetHistory(b, sessionId)
    decreases |b|
  {
    if b == [] {
      assert a + b == a;
    } else {
      var b' := b[..|b| - 1];
      assert (a + b)[..|a + b| - 1] == a + b';
      HistoryAppend(a, b', sessionId);
    }
  }

  /** After `save_history(sid, role, content)` the history of `sid` ends with
      that turn, and the history of every other session is unchanged. */
  lemma HistoryAfterSave(log: seq<ChatRecord>, sid: string, role: string, content: string, other: string)
    requires other != sid
    ensures GetHistory(log + [ChatRecord(sid, role, content)], sid) == GetHistory(log, sid) + [Message(role, content)]
    ensures GetHistory(log + [ChatRecord(sid, role, content)], other) == GetHistory(log, other)
  {
    assert (log + [ChatRecord(sid, role, content)])[..|log|] == log;
  }

  /** Exactly the rows of the session appear, each projected to `{role, content}`:
      a turn is in the result iff some row of that session has it. */
  lemma {:induction false} HistoryMembers(log: seq<ChatRecord>, sessionId: string, m: Message)
    ensures m in GetHistory(log, sessionId)
        <==> exists i :: 0 <= i < |log| && log[i].sessionId == sessionId && Project(log[i]) == m
    decreases |log|
  {
    if log != [] {
      var init := log[..|log| - 1];
      HistoryMembers(init, sessionId, m);
      if exists i :: 0 <= i < |init| && init[i].sessionId == sessionId && Project(init[i]) == m {
        var i :| 0 <= i < |init| && init[i].sessionId == sessionId && Project(init[i]) == m;
        assert log[i] == init[i];
      }
      if exists i :: 0 <= i < |log| && log[i].sessionId == sessionId && Project(log[i]) == m {
        var i :| 0 <= i < |log| && log[i].sessionId == sessionId && Project(log[i]) == m;
        if i < |init| {
          assert init[i] == log[i];
        }
      }
    }
  }

  /** A session without rows, including one never seen, has an empty history rather than an error. */
  lemma {:induction false} HistoryOfUnknown(log: seq<ChatRecord>, sessionId: string)
    requires forall i :: 0 <= i < |log| ==> log[i].sessionId != sessionId
    ensures GetHistory(log, sessionId) == []
    decreases |log|
  {
    if log != [] {
      HistoryOfUnknown(log[..|log| - 1], sessionId);
    }
  }
}
