/**
 * `useTheme`: a theme string and a "mounted" flag. `setMode` writes the mode
 * to `localStorage` under `theme` and then sets the state; the mount effect
 * adopts a stored theme or writes `light`. Nothing here catches a storage
 * exception: a throwing call stops the rest of the handler or effect.
 */
module UseTheme {
  import opened Common
  import opened BrowserStorage

  const ThemeKey := "theme"
  const Light := "light"
  const Dark := "dark"

  /** The mode `themeToggler` asks for: `dark` from `light`, `light` from anything else. */
  function ToggledMode(theme: string): (mode: string)
  {
    if theme == Light then Dark else Light
  }

  /** The toggler always asks for one of the two modes, and two toggles restore exactly the two modes. */
  lemma ToggleTwice(theme: string)
    ensures ToggledMode(theme) == Light || ToggledMode(theme) == Dark
    ensures ToggledMode(theme) != theme
    ensures ToggledMode(ToggledMode(theme)) == theme <==> theme == Light || theme == Dark
  {
  }

  /** JavaScript truthiness of the `getItem` result: present and not the empty string. */
  predicate Truthy(item: Option<string>)
  {
    item.Some? && item.value != ""
  }

  /** One `useTheme()` instance. */
  class ThemeState {
    const storage: LocalStorage
    var theme: string
    var mountedComponent: bool

    /** The first render, before the effect: `light`, not mounted. */
    constructor (storage: LocalStorage)
      ensures this.storage == storage && theme == Light && !mountedComponent
    {
      this.storage := storage;
      theme := Light;
      mountedComponent := false;
    }

    /** `setMode`: write the mode under `theme`, then set the state; a throwing write skips the state update. */
    method SetMode(mode: string) returns (outcome: Outcome)
      requires mode == Light || mode == Dark
      modifies this`theme, storage`items
      ensures outcome == Aborted <==> SetOp in storage.failing
      ensures outcome == Aborted ==> theme == old(theme) && storage.items == old(storage.items)
      ensures outcome == Completed ==> theme == mode && storage.items == old(storage.items)[ThemeKey := mode]
    {
      outcome := storage.SetItem(ThemeKey, mode);
      if outcome == Aborted {
        return;
      }
      theme := mode;
    }

    /** `themeToggler`: after a completed toggle the store and the state agree. */
    method ThemeToggler() returns (outcome: Outcome)
      modifies this`theme, storage`items
      ensures outcome == Aborted <==> SetOp in storage.failing
      ensures outcome == Aborted ==> theme == old(theme) && storage.items == old(storage.items)
      ensures outcome == Completed ==> theme == ToggledMode(old(theme))
      ensures outcome == Completed ==> storage.items == old(storage.items)[ThemeKey := theme]
    {
      if theme == Light {
        outcome := SetMode(Dark);
      } else {
        outcome := SetMode(Light);
      }
    }

    /**
     * The mount effect: a truthy stored theme becomes the state, unchecked;
     * otherwise `light` is written and used. The flag is set last, so an
     * exception on the way leaves it `false`.
     */
    method MountEffect() returns (outcome: Outcome)
      modifies this, storage`items
      ensures outcome == Aborted <==> GetOp in storage.failing || (!Truthy(Lookup(old(storage.items), storage.failing, ThemeKey).value) && SetOp in storage.failing)
      ensures outcome == Aborted ==> theme == old(theme) && storage.items == old(storage.items) && mountedComponent == old(mountedComponent)
      ensures outcome == Completed ==> mountedComponent
      ensures outcome == Completed && Truthy(Lookup(old(storage.items), storage.failing, ThemeKey).value) ==>
        theme == old(storage.items)[ThemeKey] && storage.items == old(storage.items)
      ensures outcome == Completed && !Truthy(Lookup(old(storage.items), storage.failing, ThemeKey).value) ==>
        theme == Light && storage.items == old(storage.items)[ThemeKey := Light]
    {
      var localTheme := storage.GetItem(ThemeKey);
      if localTheme == Threw {
        outcome := Aborted;
        return;
      }
      if Truthy(localTheme.value) {
        theme := localTheme.value.value;
      } else {
        outcome := SetMode(Light);
        if outcome == Aborted {
          return;
        }
      }
      mountedComponent := true;
      outcome := Completed;
    }
  }

  /** From an empty store: `light` and unmounted before the effect, mounted after; toggling goes to `dark`, stored, and back. */
  method DefaultThenToggleTwice() returns (before: string, beforeMounted: bool, mounted: bool, first: string, stored: string, second: string)
    ensures before == Light && !beforeMounted && mounted
    ensures first == Dark && stored == Dark && second == Light
  {
    var storage := new LocalStorage(map[]);
    var hook := new ThemeState(storage);
    before, beforeMounted := hook.theme, hook.mountedComponent;
    var _ := hook.MountEffect();
    mounted := hook.mountedComponent;
    var _ := hook.ThemeToggler();
    first, stored := hook.theme, storage.items[ThemeKey];
    var _ := hook.ThemeToggler();
    second := hook.theme;
  }

  /** Any non-empty stored string becomes the theme, including values other than `light` and `dark`. */
  method StoredThemeAdopted(stored: string) returns (theme: string)
    requires stored != ""
    ensures theme == stored
  {
    var storage := new LocalStorage(map[ThemeKey := stored]);
    var hook := new ThemeState(storage);
    var _ := hook.MountEffect();
    theme := hook.theme;
  }

  /** When `setItem` throws, the mount effect stops before setting the flag and the toggle leaves the theme as it was. */
  method ThrowingStorage() returns (mountOutcome: Outcome, mounted: bool, toggleOutcome: Outcome, theme: string)
    ensures mountOutcome == Aborted && !mounted
    ensures toggleOutcome == Aborted && theme == Light
  {
    var storage := new LocalStorage(map[], {SetOp});
    var hook := new ThemeState(storage);
    mountOutcome := hook.MountEffect();
    mounted := hook.mountedComponent;
    toggleOutcome := hook.ThemeToggler();
    theme := hook.theme;
  }
}
