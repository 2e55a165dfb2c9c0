/** The in-memory command-usage log `commandLogs` of both server files: the bot posts
    one record per command use, the buffer is cut back to its newest 500 records once
    it holds more than 1000, and admins read the newest 200. */
module CommandLogs {
  import opened Common

  /** Above this length the buffer is trimmed. */
  const CAPACITY: nat := 1000
  /** How many of the newest records a trim keeps. */
  const KEEP_AFTER_TRIM: nat := 500
  /** How many of the newest records `GET /api/admin/command-logs` returns. */
  const RECENT_WINDOW: nat := 200

  /** The JSON body of `POST /api/bot/command-log`. */
  datatype LogBody = LogBody(
    userId: Option<string>,
    username: Option<string>,
    commandName: Option<string>,
    options: Option<map<string, string>>,
    guildId: Option<string>,
    channelId: Option<string>)

  /** One stored record; `timestamp` is the ISO text of the time it arrived. */
  datatype LogEntry = LogEntry(
    timestamp: string,
    userId: Option<string>,
    username: Option<string>,
    commandName: Option<string>,
    options: map<string, string>,
    guildId: Option<string>,
    channelId: Option<string>)

  /** The record pushed for a body: `options` defaults to `{}`. */
  function EntryOf(body: LogBody, timestamp: string): (e: LogEntry)
    ensures e.timestamp == timestamp && e.userId == body.userId && e.username == body.username
    ensures e.commandName == body.commandName && e.guildId == body.guildId && e.channelId == body.channelId
    ensures body.options.Some? ==> e.options == body.options.value
    ensures body.options.None? ==> e.options == map[]
  {
    LogEntry(timestamp, body.userId, body.username, body.commandName,
             body.options.GetOr(map[]), body.guildId, body.channelId)
  }

  /** The buffer after the length check that follows each push. */
  function Trimmed(s: seq<LogEntry>): seq<LogEntry> {
    if |s| > CAPACITY then s[|s| - KEEP_AFTER_TRIM..] else s
  }

  /** A trim keeps the newest records in order: a buffer within capacity is left as it
      is, one over capacity is cut to its newest 500. */
  lemma TrimKeepsNewest(s: seq<LogEntry>)
    ensures var r := Trimmed(s);
            |r| <= |s| && r == s[|s| - |r|..]
            && (|s| <= CAPACITY ==> r == s)
            && (|s| > CAPACITY ==> |r| == KEEP_AFTER_TRIM)
  {
  }

  /** The buffer after the records `posted` were pushed one at a time onto `s`. */
  function AfterPosts(s: seq<LogEntry>, posted: seq<LogEntry>): seq<LogEntry> {
    if posted == [] then s
    else Trimmed(AfterPosts(s, posted[..|posted| - 1]) + [posted[|posted| - 1]])
  }

  /** A suffix stays a suffix when the same element is appended to both. */
  lemma SuffixAppend<T>(a: seq<T>, p: seq<T>, x: T)
    requires |p| <= |a| && p == a[|a| - |p|..]
    ensures p + [x] == (a + [x])[|a| - |p|..]
  {
    assert (a + [x])[|a| - |p|..] == a[|a| - |p|..] + [x];
  }

  /** A suffix of a suffix is a suffix. */
  lemma SuffixOfSuffix<T>(a: seq<T>, q: seq<T>, t: seq<T>)
    requires |q| <= |a| && q == a[|a| - |q|..]
    requires |t| <= |q| && t == q[|q| - |t|..]
    ensures t == a[|a| - |t|..]
  {
  }

  /** Whatever is posted, the buffer never holds more than 1000 records, and what it
      holds is always the newest records of all that went into it, in arrival order. */
  lemma {:induction false} PostsStayBounded(s: seq<LogEntry>, posted: seq<LogEntry>)
    requires |s| <= CAPACITY
    ensures var r := AfterPosts(s, posted);
            |r| <= CAPACITY && |r| <= |s + posted| && r == (s + posted)[|s + posted| - |r|..]
  {
    if posted != [] {
      var init := posted[..|posted| - 1];
      var last := posted[|posted| - 1];
      PostsStayBounded(s, init);
      var p := AfterPosts(s, init);
      assert s + posted == (s + init) + [last];
      SuffixAppend(s + init, p, last);
      SuffixOfSuffix(s + posted, p + [last], Trimmed(p + [last]));
    }
  }

  /** As long as the buffer has not passed 1000 records, nothing is dropped. */
  lemma {:induction false} PostsBelowCapacity(s: seq<LogEntry>, posted: seq<LogEntry>)
    requires |s| + |posted| <= CAPACITY
    ensures AfterPosts(s, posted) == s + posted
  {
    if posted != [] {
      var init := posted[..|posted| - 1];
      PostsBelowCapacity(s, init);
      assert (s + init) + [posted[|posted| - 1]] == s + posted;
    }
  }

  /** The 1001st record posted to an empty buffer leaves exactly the newest 500. */
  lemma OverflowKeepsNewest(posted: seq<LogEntry>)
    requires |posted| == CAPACITY + 1
    ensures AfterPosts([], posted) == posted[|posted| - KEEP_AFTER_TRIM..]
    ensures |AfterPosts([], posted)| == KEEP_AFTER_TRIM
  {
    var init := posted[..CAPACITY];
    PostsBelowCapacity([], init);
    assert [] + init == init;
    assert init + [posted[CAPACITY]] == posted;
  }

  /** The buffer `commandLogs`, which only the log routes touch. */
  class LogBuffer {
    var entries: seq<LogEntry>

    ghost predicate Valid()
      reads this
    {
      |entries| <= CAPACITY
    }

    constructor ()
      ensures Valid() && entries == []
    {
      entries := [];
    }

    /** `POST /api/bot/command-log`: push the record, then trim if over capacity.
        The route asks for no authentication. */
    method Post(body: LogBody, timestamp: string) returns (r: Reply<()>)
      requires Valid()
      modifies this
      ensures Valid()
      ensures entries == AfterPosts(old(entries), [EntryOf(body, timestamp)])
      ensures r == Ok(())
    {
      entries := entries + [EntryOf(body, timestamp)];
      if |entries| > CAPACITY {
        entries := entries[|entries| - KEEP_AFTER_TRIM..];
      }
      assert [EntryOf(body, timestamp)][..0] == [];
      r := Ok(());
    }

    /** `commandLogs.slice(-200)`: the newest 200 records, or all when fewer, oldest first. */
    method Recent() returns (r: seq<LogEntry>)
      ensures |r| == if |entries| < RECENT_WINDOW then |entries| else RECENT_WINDOW
      ensures r == entries[|entries| - |r|..]
    {
      r := if |entries| <= RECENT_WINDOW then entries else entries[|entries| - RECENT_WINDOW..];
    }
  }
}
