/** The events the backend emits to the front-end windows, by name. */
module Events {
  datatype Event =
    | RecordingStarted          // "recording-started"
    | RecordingStopped          // "recording-stopped"
    | ExpandForProcessing       // "expand-for-processing"
    | WaveReset                 // "wave-reset"
    | TranscriptionStarted      // "transcription-started"
    | TranscriptionCompleted(text: string)    // "transcription-completed"
    | TranscriptionError(message: string)     // "transcription-error"
    | TranscriptionCancelled    // "transcription-cancelled"
  {
    /** The events that end a processing session. */
    predicate IsOutcome()
    {
      TranscriptionCompleted? || TranscriptionError? || TranscriptionCancelled?
    }
  }

  /** Size the wave window takes while processing (`WAVE_WIDTH_COMPACT` by
      `WAVE_HEIGHT`). */
  const WaveWidthCompact: nat := 200
  const WaveHeight: nat := 80
  /** Size of the round bubble. */
  const BubbleSize: nat := 80
}
