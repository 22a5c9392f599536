/**
 * The theme menu: the fixed catalogue of themes, and switching to a theme by its colour
 * name, which loads the theme's resource dictionary and records the name in the settings
 * so that the next start of the application loads the same theme.
 *
 * Loading a resource dictionary is modelled as recording the URI of the theme applied last.
 */
module ViewModels {
  import opened Wrappers
  import opened AppSettings
  import opened CSharpInt

  /** MainViewModel.BaseUri: where the theme dictionaries live. */
  const BaseUri: string := "pack://application:,,,/UserSetting.Controls;component/Themes"

  /** App.BaseUri, a second copy of the same constant used at start-up. */
  const AppBaseUri: string := "pack://application:,,,/UserSetting.Controls;component/Themes"

  const ThemeSuffix: string := "Theme.xaml"

  datatype UiTheme = UiTheme(header: string, color: string, uri: string)

  /** `$"{BaseUri}/{colorName}Theme.xaml"`. */
  function ThemeUri(colorName: string): (uri: string)
    ensures |uri| == |BaseUri| + 1 + |colorName| + |ThemeSuffix|
    ensures uri[..|BaseUri| + 1] == BaseUri + "/" && uri[|uri| - |ThemeSuffix|..] == ThemeSuffix
  {
    BaseUri + "/" + colorName + ThemeSuffix
  }

  /** The colour name a theme URI was built from, if it has the shape ThemeUri builds. */
  function ThemeName(uri: string): Option<string> {
    var prefix := BaseUri + "/";
    if |uri| >= |prefix| + |ThemeSuffix| && uri[..|prefix|] == prefix && uri[|uri| - |ThemeSuffix|..] == ThemeSuffix
    then Some(uri[|prefix|..|uri| - |ThemeSuffix|])
    else None
  }

  /** The colour name can be read back from the URI built from it. */
  lemma ThemeNameInverts(colorName: string)
    ensures ThemeName(ThemeUri(colorName)) == Some(colorName)
  {
    var uri := ThemeUri(colorName);
    assert uri[|BaseUri| + 1..|uri| - |ThemeSuffix|] == colorName;
  }

  /** Every URI of the theme shape is built from the name read back from it. */
  lemma ThemeUriInverts(uri: string)
    requires ThemeName(uri).Some?
    ensures ThemeUri(ThemeName(uri).value) == uri
  {
    var prefix := BaseUri + "/";
    var name := uri[|prefix|..|uri| - |ThemeSuffix|];
    assert uri == uri[..|prefix|] + name + uri[|uri| - |ThemeSuffix|..];
  }

  /** Different colour names give different theme URIs. */
  lemma ThemeUriInjective(a: string, b: string)
    requires ThemeUri(a) == ThemeUri(b)
    ensures a == b
  {
    ThemeNameInverts(a);
    ThemeNameInverts(b);
  }

  predicate IsHexDigit(c: char) {
    '0' <= c <= '9' || 'A' <= c <= 'F' || 'a' <= c <= 'f'
  }

  /** A "#RRGGBB" colour. */
  predicate IsHexColor(s: string) {
    |s| == 7 && s[0] == '#' && forall k :: 1 <= k < 7 ==> IsHexDigit(s[k])
  }

  /** A URI written as BaseUri followed by "/", the colour name and the suffix is ThemeUri of that name. */
  lemma LiteralUri(colorName: string, tail: string)
    requires tail == "/" + colorName + ThemeSuffix
    ensures BaseUri + tail == ThemeUri(colorName)
  {
    assert BaseUri + ("/" + colorName + ThemeSuffix) == BaseUri + "/" + colorName + ThemeSuffix;
  }

  lemma BlueUriFollowsRule()
    ensures BaseUri + "/BlueTheme.xaml" == ThemeUri("Blue")
  {
    LiteralUri("Blue", "/BlueTheme.xaml");
  }

  lemma LightDarkUriFollowsRule()
    ensures BaseUri + "/LightDarkTheme.xaml" == ThemeUri("LightDark")
  {
    LiteralUri("LightDark", "/LightDarkTheme.xaml");
  }

  lemma DarkUriFollowsRule()
    ensures BaseUri + "/DarkTheme.xaml" == ThemeUri("Dark")
  {
    LiteralUri("Dark", "/DarkTheme.xaml");
  }

  lemma GreenUriFollowsRule()
    ensures BaseUri + "/GreenTheme.xaml" == ThemeUri("Green")
  {
    LiteralUri("Green", "/GreenTheme.xaml");
  }

  lemma PurpleUriFollowsRule()
    ensures BaseUri + "/PurpleTheme.xaml" == ThemeUri("Purple")
  {
    LiteralUri("Purple", "/PurpleTheme.xaml");
  }

  /** The URI literals of the catalogue follow the ThemeUri rule. */
  lemma CatalogueUrisFollowRule()
    ensures BaseUri + "/BlueTheme.xaml" == ThemeUri("Blue")
    ensures BaseUri + "/LightDarkTheme.xaml" == ThemeUri("LightDark")
    ensures BaseUri + "/DarkTheme.xaml" == ThemeUri("Dark")
    ensures BaseUri + "/GreenTheme.xaml" == ThemeUri("Green")
    ensures BaseUri + "/PurpleTheme.xaml" == ThemeUri("Purple")
  {
    BlueUriFollowsRule();
    LightDarkUriFollowsRule();
    DarkUriFollowsRule();
    GreenUriFollowsRule();
    PurpleUriFollowsRule();
  }

  /** The colour literals of the catalogue are "#RRGGBB" strings. */
  lemma CatalogueColorsAreHex()
    ensures IsHexColor("#0078D7") && IsHexColor("#464646") && IsHexColor("#000000")
    ensures IsHexColor("#107C10") && IsHexColor("#444791")
  {
  }

  /**
   * The themes `GetUiThemes` offers, in menu order. Each URI is the one SetUiTheme builds
   * from the theme's header, each colour is "#RRGGBB", and no two headers are the same.
   */
  function Catalogue(): (themes: seq<UiTheme>)
    ensures |themes| == 5
    ensures themes[0].header == "Blue" && themes[1].header == "LightDark" && themes[2].header == "Dark"
      && themes[3].header == "Green" && themes[4].header == "Purple"
    ensures forall i :: 0 <= i < |themes| ==> themes[i].uri == ThemeUri(themes[i].header)
    ensures forall i :: 0 <= i < |themes| ==> IsHexColor(themes[i].color)
    ensures forall i, j :: 0 <= i < j < |themes| ==> themes[i].header != themes[j].header
  {
    CatalogueUrisFollowRule();
    CatalogueColorsAreHex();
    [ UiTheme("Blue", "#0078D7", BaseUri + "/BlueTheme.xaml"),
      UiTheme("LightDark", "#464646", BaseUri + "/LightDarkTheme.xaml"),
      UiTheme("Dark", "#000000", BaseUri + "/DarkTheme.xaml"),
      UiTheme("Green", "#107C10", BaseUri + "/GreenTheme.xaml"),
      UiTheme("Purple", "#444791", BaseUri + "/PurpleTheme.xaml") ]
  }

  /** Choosing a colour name targets entry i's URI exactly when the name is entry i's header. */
  lemma SelectingByHeaderTargetsOneEntry(colorName: string, i: nat)
    requires i < |Catalogue()|
    ensures ThemeUri(colorName) == Catalogue()[i].uri <==> colorName == Catalogue()[i].header
    ensures forall j :: 0 <= j < |Catalogue()| && j != i ==> ThemeUri(Catalogue()[i].header) != Catalogue()[j].uri
  {
    var themes := Catalogue();
    if ThemeUri(colorName) == themes[i].uri {
      ThemeUriInjective(colorName, themes[i].header);
    }
    forall j | 0 <= j < |themes| && j != i
      ensures ThemeUri(themes[i].header) != themes[j].uri
    {
      if ThemeUri(themes[i].header) == themes[j].uri {
        ThemeUriInjective(themes[i].header, themes[j].header);
      }
    }
  }

  /** The theme URI App loads at start-up from the saved theme name (a null name reads as empty). */
  function StartupThemeUri(v: SettingsRecord): (uri: string)
    ensures uri == ThemeUri(v.theme.GetOr(""))
  {
    AppBaseUri + "/" + v.theme.GetOr("") + "Theme.xaml"
  }

  /**
   * The application's resources: the URI of the theme dictionary merged in last. A
   * dictionary can be loaded only from a URI that locates one of the application's
   * resources; which URIs do is an input.
   */
  class ThemeResources {
    const dictionaries: set<string>
    var currentThemeUri: Option<string>

    constructor (dictionaries: set<string>)
      ensures this.dictionaries == dictionaries && currentThemeUri == None
    {
      this.dictionaries := dictionaries;
      currentThemeUri := None;
    }

    /**
     * `AppTheme.ChangeTheme`. Setting the new dictionary's Source to a URI that locates no
     * resource throws IOException before the current resources are cleared.
     */
    method ChangeTheme(uri: string) returns (thrown: Option<Exception>)
      modifies this`currentThemeUri
      ensures uri in dictionaries ==> thrown == None && currentThemeUri == Some(uri)
      ensures uri !in dictionaries ==> thrown == Some(IOException) && currentThemeUri == old(currentThemeUri)
    {
      if uri !in dictionaries {
        return Some(IOException);
      }
      currentThemeUri := Some(uri);
      thrown := None;
    }
  }

  class MainViewModel {
    var menuItems: seq<UiTheme>

    constructor ()
      ensures menuItems == Catalogue()
    {
      menuItems := [];
      new;
      GetUiThemes();
    }

    /** `GetUiThemes`: the menu becomes the catalogue. */
    method GetUiThemes()
      modifies this`menuItems
      ensures menuItems == Catalogue()
    {
      menuItems := [
        UiTheme("Blue", "#0078D7", BaseUri + "/BlueTheme.xaml"),
        UiTheme("LightDark", "#464646", BaseUri + "/LightDarkTheme.xaml"),
        UiTheme("Dark", "#000000", BaseUri + "/DarkTheme.xaml"),
        UiTheme("Green", "#107C10", BaseUri + "/GreenTheme.xaml"),
        UiTheme("Purple", "#444791", BaseUri + "/PurpleTheme.xaml") ];
    }

    /**
     * `SetUiTheme`: load the named theme, store the name as the Theme setting (and nothing
     * else) and persist the settings, so that start-up loads the same theme again. When no
     * dictionary is found at the theme's URI the exception leaves the method before the
     * setting is written, and nothing changes.
     */
    static method SetUiTheme(colorName: Option<string>, resources: ThemeResources, store: SettingsStore)
        returns (thrown: Option<Exception>)
      modifies resources`currentThemeUri, store
      ensures ThemeUri(colorName.GetOr("")) in resources.dictionaries ==>
        thrown == None
        && resources.currentThemeUri == Some(ThemeUri(colorName.GetOr("")))
        && store.values == old(store.values).(theme := colorName)
        && store.persisted == store.values
        && resources.currentThemeUri == Some(StartupThemeUri(store.persisted))
      ensures ThemeUri(colorName.GetOr("")) !in resources.dictionaries ==>
        thrown == Some(IOException)
        && resources.currentThemeUri == old(resources.currentThemeUri)
        && store.values == old(store.values) && store.persisted == old(store.persisted)
    {
      thrown := resources.ChangeTheme(BaseUri + "/" + colorName.GetOr("") + "Theme.xaml");
      if thrown != None {
        return;
      }
      store.values := store.values.(theme := colorName);
      store.Save();
    }
  }
}
