/**
 * The general settings store and its `init`, which copies the values of the
 * deprecated flat fields into the nested `app`, `appearance` and `update`
 * settings.
 */
module GeneralStore {

  datatype Theme = Auto | Light | Dark

  datatype AppSettings = AppSettings(autostart: bool, taskbarVisible: bool)
  datatype AppearanceSettings = AppearanceSettings(theme: Theme, isDark: bool)
  datatype UpdateSettings = UpdateSettings(autoCheck: bool)

  class Store {
    // Deprecated flat fields, still loaded from older saved settings.
    var autoCheckUpdate: bool
    var autostart: bool
    var taskbarVisibility: bool
    var theme: Theme
    var isDark: bool

    var app: AppSettings
    var appearance: AppearanceSettings
    var update: UpdateSettings

    /** The nested settings agree with the deprecated fields. */
    predicate Migrated()
      reads this
    {
      app == AppSettings(autostart, taskbarVisibility) &&
      appearance == AppearanceSettings(theme, isDark) &&
      update == UpdateSettings(autoCheckUpdate)
    }

    /** A fresh store: every flag false and the theme following the system. */
    constructor()
      ensures !autoCheckUpdate && !autostart && !taskbarVisibility && theme == Auto && !isDark
      ensures app == AppSettings(false, false)
      ensures appearance == AppearanceSettings(Auto, false)
      ensures update == UpdateSettings(false)
      ensures Migrated()
    {
      autoCheckUpdate := false;
      autostart := false;
      taskbarVisibility := false;
      theme := Auto;
      isDark := false;
      app := AppSettings(false, false);
      appearance := AppearanceSettings(Auto, false);
      update := UpdateSettings(false);
    }

    /** `init`: the nested settings take the deprecated fields' values; the deprecated fields stay as they were. */
    method Init()
      modifies this`app, this`appearance, this`update
      ensures app == AppSettings(autostart, taskbarVisibility)
      ensures appearance == AppearanceSettings(theme, isDark)
      ensures update == UpdateSettings(autoCheckUpdate)
      ensures Migrated()
    {
      app := app.(autostart := autostart);
      app := app.(taskbarVisible := taskbarVisibility);
      appearance := appearance.(theme := theme);
      appearance := appearance.(isDark := isDark);
      update := update.(autoCheck := autoCheckUpdate);
    }
  }

  /** Example: running `init` a second time changes nothing; the deprecated fields are never written. */
  method InitIdempotent(s: Store)
    modifies s
  {
    var autostart, theme := s.autostart, s.theme;
    s.Init();
    var app, appearance, update := s.app, s.appearance, s.update;
    s.Init();
    assert s.app == app && s.appearance == appearance && s.update == update;
    assert s.autostart == autostart && s.theme == theme;
  }
}
