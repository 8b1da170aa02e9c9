/** The tracking settings of config.py that the session tracker reads. */
module Config {
  /** Minimum length of a play, in seconds, for it to be recorded (config.py:10). */
  const MIN_PLAY_DURATION: int := 10
}
