/** OpenWeatherMap icon URLs, built on the client from a condition's icon code. */
module Icons {
  import opened Common

  /** The icon path of the current app (`img/wn/`). */
  const CurrentIconBase := "https://openweathermap.org/img/wn/"

  /** The icon path of the first version of the app (`img/w/`). */
  const LegacyIconBase := "https://openweathermap.org/img/w/"

  const IconSuffix := ".png"

  /** `"$base$icon.png"`. */
  function IconUrl(base: string, icon: string): (url: string)
    ensures |url| == |base| + |icon| + |IconSuffix|
    ensures url[..|base|] == base && url[|url| - |IconSuffix|..] == IconSuffix
  {
    base + icon + IconSuffix
  }

  /** The icon code inside an icon URL under `base`, if the URL has that shape. */
  function IconCode(base: string, url: string): (icon: Option<string>)
  {
    if |url| >= |base| + |IconSuffix| && url[..|base|] == base
       && url[|url| - |IconSuffix|..] == IconSuffix
    then Some(url[|base|..|url| - |IconSuffix|])
    else None
  }

  /** The icon code is recovered from the URL built from it. */
  lemma IconCodeOfIconUrl(base: string, icon: string)
    ensures IconCode(base, IconUrl(base, icon)) == Some(icon)
  {
    var url := IconUrl(base, icon);
    assert url[|base|..|url| - |IconSuffix|] == icon;
  }

  /** The two app versions never produce the same icon URL: `img/w/` and
      `img/wn/` part at the character after `img/w`. */
  lemma IconBasesNeverCollide(a: string, b: string)
    ensures IconUrl(LegacyIconBase, a) != IconUrl(CurrentIconBase, b)
  {
    var n := |"https://openweathermap.org/img/w"|;
    assert IconUrl(LegacyIconBase, a)[n] == '/';
    assert IconUrl(CurrentIconBase, b)[n] == 'n';
  }
}
