/** The application settings the core reads (`Settings` in backend/app/core/config.py). */
module Config {

  datatype Settings = Settings(
    apiPrefix: string,
    storagePath: string,
    evidencePath: string,
    eventsDataPath: string,
    matchInfoPath: string,
    demoMode: bool)

  /** The settings when no environment variable or `.env` entry overrides a default. */
  const Defaults := Settings(
    "/api",
    "/workspace/storage",
    "/workspace/storage/evidence",
    "/workspace/00_data/Track2/raw_data.csv",
    "/workspace/00_data/Track2/match_info.csv",
    true)
}
