/**
 * The application's user settings (`Settings.Default`): the settings the window placement
 * and theme code read and write, and `Save`, which persists them. Writing to disk is
 * modelled as copying the current values into `persisted`.
 */
module AppSettings {
  import opened Wrappers
  import opened WpfWindow

  /** The user-scoped settings; string settings are nullable references. */
  datatype SettingsRecord = SettingsRecord(
    windowTop: real,
    windowLeft: real,
    windowHeight: real,
    windowWidth: real,
    windowState: WindowState,
    isMaximized: bool,
    maximumButtonText: Option<string>,
    theme: Option<string>)

  class SettingsStore {
    var values: SettingsRecord
    var persisted: SettingsRecord

    constructor (values: SettingsRecord)
      ensures this.values == values && persisted == values
    {
      this.values, persisted := values, values;
    }

    /** `Settings.Default.Save()`. */
    method Save()
      modifies this`persisted
      ensures persisted == values
    {
      persisted := values;
    }
  }
}
