/**
 * src/services/ThemeService.ts: the current theme lives in the "theme"
 * slice of the master store, read and written through that slice's view;
 * every change is logged.
 */
module ThemeService {
  import opened Wrappers
  import opened Observers
  import opened Logging
  import opened MasterStore

  /** The `Theme` record. */
  datatype Theme = Theme(name: string, primaryColor: string, backgroundColor: string, textColor: string)

  /** `DEFAULT_THEME`. */
  const DefaultTheme := Theme("light", "#007bff", "#ffffff", "#333333")

  /** The slice key. */
  const ThemeKey := "theme"

  class ThemeService {
    const logger: MockLoggingService
    const themeStore: StoreView<Theme>

    /** The view is the "theme" slice of its store, and the store is consistent. */
    ghost predicate Valid()
      reads themeStore.master
    {
      themeStore.key == ThemeKey && themeStore.master.Valid()
    }

    /**
     * The constructor asks the store for the "theme" view: the cached one if
     * some caller asked first, otherwise a new one whose default is
     * `DEFAULT_THEME`.
     */
    constructor(logger: MockLoggingService, master: MasterStore<Theme>)
      requires master.Valid()
      modifies master
      ensures Valid() && this.logger == logger && themeStore.master == master
      ensures ThemeKey in old(master.viewCache) ==> themeStore == old(master.viewCache)[ThemeKey]
      ensures ThemeKey in master.viewCache && master.viewCache[ThemeKey] == themeStore
      ensures ThemeKey !in old(master.viewCache) ==>
        && fresh(themeStore)
        && themeStore.defaultValue == DefaultTheme
        && master.viewCache == old(master.viewCache)[ThemeKey := themeStore]
      ensures master.data == old(master.data) && master.listeners == old(master.listeners)
      ensures master.outbox == old(master.outbox) && master.nextToken == old(master.nextToken)
    {
      this.logger := logger;
      var view := master.GetStore(ThemeKey, DefaultTheme);
      themeStore := view;
    }

    /** `getTheme`: the slice's value, or the view's default. */
    function GetTheme(): (r: Theme)
      reads themeStore.master
      ensures themeStore.key in themeStore.master.data && themeStore.master.data[themeStore.key].Some? ==>
                r == themeStore.master.data[themeStore.key].value
      ensures themeStore.key !in themeStore.master.data || themeStore.master.data[themeStore.key].None? ==>
                r == themeStore.defaultValue
    {
      themeStore.Get()
    }

    /**
     * `setTheme`: the theme is written to the slice, reads back, and one
     * info entry records its name and primary colour.
     */
    method SetTheme(theme: Theme)
      requires Valid()
      modifies themeStore.master, logger
      ensures Valid()
      ensures GetTheme() == theme
      ensures themeStore.master.data == SetSlot(old(themeStore.master.data), ThemeKey, Some(theme))
      ensures themeStore.master.outbox == old(themeStore.master.outbox) + Notifications(themeStore.master.listeners, themeStore.master.data)
      ensures themeStore.master.listeners == old(themeStore.master.listeners)
      ensures themeStore.master.viewCache == old(themeStore.master.viewCache)
      ensures themeStore.master.nextToken == old(themeStore.master.nextToken)
      ensures logger.logs == old(logger.logs) + [LogEntry(Info, "Theme changed", ThemeData(theme.name, theme.primaryColor))]
    {
      themeStore.Set(Some(theme));
      logger.Info("Theme changed", ThemeData(theme.name, theme.primaryColor));
    }

    /** `subscribe`: forwarded to the view. */
    method Subscribe(s: SubscriberId) returns (token: nat)
      requires Valid()
      modifies themeStore.master
      ensures Valid()
      ensures forall i :: 0 <= i < |old(themeStore.master.listeners)| ==> old(themeStore.master.listeners)[i].token != token
      ensures token == old(themeStore.master.nextToken) && themeStore.master.nextToken == old(themeStore.master.nextToken) + 1
      ensures themeStore.master.listeners == old(themeStore.master.listeners) + [ViewListener(token, s, ThemeKey, themeStore.defaultValue)]
      ensures themeStore.master.data == old(themeStore.master.data)
      ensures themeStore.master.outbox == old(themeStore.master.outbox)
      ensures themeStore.master.viewCache == old(themeStore.master.viewCache)
    {
      token := themeStore.Subscribe(s);
    }
  }

  /** On a fresh store the theme is the default, named "light". */
  method DefaultThemeScenario() returns (theme: Theme)
    ensures theme == DefaultTheme && theme.name == "light"
  {
    var logger := new MockLoggingService();
    var master := new MasterStore<Theme>();
    var service := new ThemeService(logger, master);
    theme := service.GetTheme();
  }

  /**
   * The service shares the "theme" slice with every other `getStore("theme", …)`
   * caller: a theme set through the service is read through the other view,
   * and one set through the other view is read by the service.
   */
  method SharedThemeScenario(dark: Theme, blue: Theme) returns (seenByOther: Theme, seenByService: Theme, logs: seq<LogEntry>)
    ensures seenByOther == dark && seenByService == blue
    ensures logs == [LogEntry(Info, "Theme changed", ThemeData(dark.name, dark.primaryColor))]
  {
    var logger := new MockLoggingService();
    var master := new MasterStore<Theme>();
    var service := new ThemeService(logger, master);
    var other := master.GetStore(ThemeKey, blue);
    service.SetTheme(dark);
    seenByOther := other.Get();
    other.Set(Some(blue));
    seenByService := service.GetTheme();
    logs := logger.logs;
  }
}
