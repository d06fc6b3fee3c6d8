/** Application constants (config/constants.py) and the enumerations and error kinds
    (utils/enums.py, core/exceptions.py) the core decisions are phrased in. */
module Constants {

  /** Executable names of the Steam client's processes. */
  const SteamProcesses: seq<string> := ["steam.exe", "steamservice.exe", "steamwebhelper.exe"]

  /** Default timeouts, in seconds. */
  const SteamKillTimeout: int := 30
  const SrmExecuteTimeout: int := 120
  const SteamWaitTimeout: int := 10

  /** File names used for the configuration and the error log. */
  const ConfigFileName: string := "srm_config.json"
  const LogFileName: string := "error.log"

  /** The placeholder the install-path templates carry for the user name. */
  const UserPlaceholder: string := "{username}"

  /** Conventional Steam ROM Manager install locations, in the order they are probed. */
  const CommonSrmPaths: seq<string> := [
    "C:\\Users\\{username}\\AppData\\Local\\Programs\\steam-rom-manager\\Steam ROM Manager.exe",
    "C:\\Program Files\\Steam ROM Manager\\Steam ROM Manager.exe",
    "C:\\Program Files (x86)\\Steam ROM Manager\\Steam ROM Manager.exe"
  ]

  /** The sentinel stored in the configuration when the SRM path is to be detected. */
  const AutoDetect: string := "auto-detect"
}

module Enums {

  /** The status of an automation run. */
  datatype ProcessStatus = Ready | Running | Success | Failed | Cancelled

  /** The severity a log line is shown with. */
  datatype LogLevel = Info | Success | Warning | Error

  /** The exceptions the automation run distinguishes: `SteamError`, `SRMError`, and any other
      exception (`ConfigError` is declared but never raised on these paths). */
  datatype AppError = SteamError(message: string) | SrmError(message: string) | Unexpected(message: string)

  /** One line of a log: its text and its level. */
  datatype LogLine = LogLine(message: string, level: LogLevel)
}
