/** The settings the translation core reads from app/backend/app/config.py. */
module Config {

  /** MODEL_PATH, MAX_LENGTH and NUM_BEAMS, already parsed from the environment. */
  datatype Settings = Settings(modelPath: string, maxLength: int, numBeams: int)

  /** The values used when the environment sets none of the three variables. */
  const Defaults: Settings := Settings("/app/model/transformer-model", 50, 4)
}
