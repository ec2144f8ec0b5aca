/**
 * `MenuViewModel`: the menu's items and selected item, over the shared navigation and
 * localization managers (passed in instead of reached through their `shared` singletons).
 */
module Menu {
  import opened Navigation
  import opened Localization

  /** `isSelected` answers true for exactly one item of the menu: the selected one. */
  lemma ExactlyOneSelected(vm: MenuViewModel)
    ensures (set item | item in AllMenuItems() && vm.IsSelected(item)) == {vm.selectedItem}
  {
    AllMenuItemsComplete(vm.selectedItem);
  }

  class MenuViewModel {
    var menuItems: seq<MenuItem>
    var selectedItem: MenuItem
    const navigationManager: NavigationManager
    const localizationManager: LocalizationManager

    constructor (navigationManager: NavigationManager, localizationManager: LocalizationManager)
      ensures this.navigationManager == navigationManager && this.localizationManager == localizationManager
      ensures menuItems == AllMenuItems()
      ensures selectedItem == navigationManager.selectedMenuItem
    {
      this.navigationManager := navigationManager;
      this.localizationManager := localizationManager;
      menuItems := AllMenuItems();
      selectedItem := navigationManager.selectedMenuItem;
    }

    method SelectMenuItem(item: MenuItem)
      modifies this, navigationManager
      ensures selectedItem == item && menuItems == old(menuItems)
      ensures navigationManager.State() == old(navigationManager.State()).NavigateToItem(item)
      ensures navigationManager.selectedMenuItem == item && !navigationManager.isMenuOpen
      ensures forall other :: IsSelected(other) <==> other == item
    {
      selectedItem := item;
      navigationManager.NavigateToItem(item);
    }

    predicate IsSelected(item: MenuItem)
      reads this
    {
      selectedItem == item
    }

    /** Only closes the navigation manager's menu. */
    method CloseMenu()
      modifies navigationManager
      ensures navigationManager.State() == old(navigationManager.State()).CloseMenu()
    {
      navigationManager.CloseMenu();
    }

    method ToggleLanguage()
      modifies localizationManager, localizationManager.defaults
      ensures localizationManager.currentLanguage == old(localizationManager.currentLanguage).Toggled()
      ensures localizationManager.defaults.strings
        == old(localizationManager.defaults.strings)[LanguageKey := localizationManager.currentLanguage.RawValue()]
      ensures CurrentLanguageDisplayName() == old(localizationManager.currentLanguage).Toggled().DisplayName()
      ensures CurrentLanguageLogo() == old(localizationManager.currentLanguage).Toggled().LogoImageName()
      ensures LayoutDirection() == old(localizationManager.currentLanguage).Toggled().Direction()
      ensures LayoutDirection() != old(LayoutDirection())
    {
      localizationManager.ToggleLanguage();
    }

    /** The display name is the Arabic one exactly when the layout is right-to-left. */
    function CurrentLanguageDisplayName(): (name: string)
      reads localizationManager
      ensures name == Arabic.DisplayName() <==> LayoutDirection() == RightToLeft
    {
      localizationManager.currentLanguage.DisplayName()
    }

    /** The logo of the current language, named after the raw value that is stored for it. */
    function CurrentLanguageLogo(): (logo: string)
      reads localizationManager
      ensures logo == "logo_" + localizationManager.currentLanguage.RawValue()
    {
      localizationManager.currentLanguage.LogoImageName()
    }

    function LayoutDirection(): (d: Localization.LayoutDirection)
      reads localizationManager
      ensures d == RightToLeft <==> localizationManager.currentLanguage == Arabic
    {
      localizationManager.LayoutDirection()
    }
  }
}
