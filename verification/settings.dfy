/** The application settings record, bound from the "AppSettings" section of the configuration. */
module Settings {
  datatype AppSettings = AppSettings(
    activityThresholdSeconds: int,
    primaryAlarmAutoCloseSeconds: int,
    sessionCloseLimit: int,
    secondaryAlarmUnclosableSeconds: int,
    secondaryAlarmAutoCloseSeconds: int,
    loggingIntervalHours: int)
}
