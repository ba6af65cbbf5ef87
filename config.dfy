/**
  The numeric settings of config.py. Three of them come from the environment, so they are the
  fields of a `Settings` value passed to the handlers; the fixed ones are constants.
*/
module Config {

  /** The free credit an approved user starts with (`DEFAULT_CREDIT_MINUTES`). */
  const DEFAULT_CREDIT_MINUTES: real := 60.0

  /** Defaults used when the environment does not set the value. */
  const DEFAULT_MAX_AUDIO_DURATION_SECONDS: int := 10800
  const DEFAULT_TEXT_TOKENS_TO_MINUTES_COEFF: real := 1920.0

  /** `ADMIN_USER_ID`, `MAX_AUDIO_DURATION_SECONDS` and `TEXT_TOKENS_TO_MINUTES_COEFF`. */
  datatype Settings = Settings(adminUserId: int, maxAudioDurationSeconds: int, textTokensToMinutesCoeff: real)
  {
    /** Token counts are divided by the coefficient, so it must be positive. */
    predicate Valid()
    {
      textTokensToMinutesCoeff > 0.0
    }
  }
}
