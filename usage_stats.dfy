/** The in-memory part of `UsageStats` (src-tauri/src/modules/storage/usage_stats.rs):
    running counters over all recordings and a session log capped at 1000. */
module Usage {
  import opened Wrappers
  import opened Seqs

  /** One recorded session. Timestamps are milliseconds since the epoch. */
  datatype RecordingSession = RecordingSession(
    id: string,
    timestamp: int,
    durationMs: nat,
    audioLengthMs: nat,
    transcriptionLength: nat,
    transcribedText: string,
    processingTimeMs: nat,
    success: bool,
    errorMessage: Option<string>)

  /** Sessions kept in the log. */
  const MaxSessions: nat := 1000

  /** The session log after appending `session`: the newest 1000 entries. */
  function SessionsAfter(sessions: seq<RecordingSession>, session: RecordingSession): seq<RecordingSession>
  {
    KeepLast(sessions + [session], MaxSessions)
  }

  /** Appending keeps the log within its cap, puts the new session last and,
      once the cap is exceeded, drops exactly the oldest entry. */
  lemma SessionsAfterAdd(sessions: seq<RecordingSession>, session: RecordingSession)
    ensures var r := SessionsAfter(sessions, session);
      && |r| <= MaxSessions
      && r[|r| - 1] == session
      && (|sessions| < MaxSessions ==> r == sessions + [session])
      && (|sessions| >= MaxSessions ==> r == sessions[|sessions| - (MaxSessions - 1)..] + [session])
  {
    var r := SessionsAfter(sessions, session);
    if |sessions| >= MaxSessions {
      assert r == (sessions + [session])[|sessions| + 1 - MaxSessions..];
      assert (sessions + [session])[|sessions| + 1 - MaxSessions..] == sessions[|sessions| - (MaxSessions - 1)..] + [session];
    }
  }

  class UsageStats {
    var totalRecordings: nat
    var totalDurationMs: nat
    var totalProcessingTimeMs: nat
    var successfulRecordings: nat
    var failedRecordings: nat
    var totalCharactersTranscribed: nat
    var firstUse: int
    var lastUse: int
    var sessions: seq<RecordingSession>

    /** What every sequence of `add_recording` calls from the default value keeps. */
    ghost predicate Valid()
      reads this
    {
      successfulRecordings + failedRecordings == totalRecordings && |sessions| <= MaxSessions
    }

    /** `UsageStats::default()`, with the clock reading `now` for both timestamps. */
    constructor Default(now: int)
      ensures Valid()
      ensures totalRecordings == 0 && totalDurationMs == 0 && totalProcessingTimeMs == 0
      ensures successfulRecordings == 0 && failedRecordings == 0 && totalCharactersTranscribed == 0
      ensures firstUse == now && lastUse == now && sessions == []
    {
      totalRecordings, totalDurationMs, totalProcessingTimeMs := 0, 0, 0;
      successfulRecordings, failedRecordings, totalCharactersTranscribed := 0, 0, 0;
      firstUse, lastUse := now, now;
      sessions := [];
    }

    /** `UsageStats::load()`, when the statistics file reads back: a
        separate object holding the statistics `stored` on disk. */
    constructor Load(stored: UsageStats)
      ensures totalRecordings == stored.totalRecordings && totalDurationMs == stored.totalDurationMs
      ensures totalProcessingTimeMs == stored.totalProcessingTimeMs
      ensures successfulRecordings == stored.successfulRecordings && failedRecordings == stored.failedRecordings
      ensures totalCharactersTranscribed == stored.totalCharactersTranscribed
      ensures firstUse == stored.firstUse && lastUse == stored.lastUse && sessions == stored.sessions
    {
      totalRecordings, totalDurationMs, totalProcessingTimeMs := stored.totalRecordings, stored.totalDurationMs, stored.totalProcessingTimeMs;
      successfulRecordings, failedRecordings := stored.successfulRecordings, stored.failedRecordings;
      totalCharactersTranscribed := stored.totalCharactersTranscribed;
      firstUse, lastUse, sessions := stored.firstUse, stored.lastUse, stored.sessions;
    }

    /** `add_recording`: every counter moves by the session's amounts and the
        session is appended to the capped log. */
    method AddRecording(session: RecordingSession)
      modifies this
      ensures totalRecordings == old(totalRecordings) + 1
      ensures totalDurationMs == old(totalDurationMs) + session.durationMs
      ensures totalProcessingTimeMs == old(totalProcessingTimeMs) + session.processingTimeMs
      ensures totalCharactersTranscribed == old(totalCharactersTranscribed) + session.transcriptionLength
      ensures successfulRecordings == old(successfulRecordings) + (if session.success then 1 else 0)
      ensures failedRecordings == old(failedRecordings) + (if session.success then 0 else 1)
      ensures firstUse == old(firstUse) && lastUse == session.timestamp
      ensures sessions == SessionsAfter(old(sessions), session)
      ensures |sessions| <= MaxSessions && sessions[|sessions| - 1] == session
      ensures old(Valid()) ==> Valid()
    {
      totalRecordings := totalRecordings + 1;
      totalDurationMs := totalDurationMs + session.durationMs;
      totalProcessingTimeMs := totalProcessingTimeMs + session.processingTimeMs;
      totalCharactersTranscribed := totalCharactersTranscribed + session.transcriptionLength;
      if session.success {
        successfulRecordings := successfulRecordings + 1;
      } else {
        failedRecordings := failedRecordings + 1;
      }
      lastUse := session.timestamp;
      sessions := sessions + [session];
      if |sessions| > MaxSessions {
        sessions := sessions[|sessions| - MaxSessions..];
      }
    }
  }
}
