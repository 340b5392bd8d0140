/**
 The two variants side by side. They are modelled separately; these lemmas
 record where they agree and where they diverge.
 */
module Variants {
  import opened Wrappers
  import opened Hours
  import Ascii
  import ExtensionResolve
  import ThemeContext

  /** The extension's labels carry this prefix before a theme's display name. */
  const LabelPrefix: string := "Vibe: "

  /** Both variants cut the day at the same hours: the extension's label names the web theme of the same bucket. */
  lemma TimeBucketsAgree(h: Hour)
    ensures ExtensionResolve.TimeLabel(h) == LabelPrefix + ThemeContext.Themes[ThemeContext.TimeTheme(h)].name
  {
    var b := BucketByQuarter(h);
    BucketNamesAgree(b);
  }

  /** Per bucket, the extension's label is the prefix and the web theme's name. */
  lemma BucketNamesAgree(b: Bucket)
    ensures ExtensionResolve.BucketLabel(b) == LabelPrefix + ThemeContext.Themes[ThemeContext.BucketKey(b)].name
  {
    match b
    case Morning =>
      assert ExtensionResolve.BucketLabel(b) == LabelPrefix + "Morning Calm";
      ThemeContext.BucketThemeNames();
    case Afternoon =>
      assert ExtensionResolve.BucketLabel(b) == LabelPrefix + "Afternoon Focus";
      ThemeContext.BucketThemeNames();
    case Night =>
      assert ExtensionResolve.BucketLabel(b) == LabelPrefix + "Night Owl";
      ThemeContext.BucketThemeNames();
  }

  /** Python selects the same theme in both variants, under any capitalisation. */
  lemma PythonAgrees(id: string)
    requires ThemeContext.LanguageTheme(id) == Some("python-zen")
    ensures ExtensionResolve.LanguageLabel(Some(id))
         == Some(LabelPrefix + ThemeContext.Themes["python-zen"].name)
  {
    ExtensionResolve.LanguageLabelByLower(id);
    assert Ascii.Lower(id) == "python";
    assert LabelPrefix + ThemeContext.Themes["python-zen"].name == ExtensionResolve.PythonZen;
  }

  /** The four web languages sit at positions 1 to 4 of the web app's table. */
  lemma WebDevPositions(i: int)
    requires 1 <= i <= 4
    ensures ThemeContext.SupportedLanguages[i] in ExtensionResolve.WebDevIds
  {
  }

  /**
   The variants diverge on the web languages: any two of them share one label in
   the extension but select two different themes in the web app.
   */
  lemma GroupedInExtensionSplitInWeb(i: int, j: int)
    requires 1 <= i < j <= 4
    ensures ExtensionResolve.LanguageLabel(Some(ThemeContext.SupportedLanguages[i]))
         == ExtensionResolve.LanguageLabel(Some(ThemeContext.SupportedLanguages[j]))
    ensures ThemeContext.LanguageTheme(ThemeContext.SupportedLanguages[i])
         != ThemeContext.LanguageTheme(ThemeContext.SupportedLanguages[j])
  {
    WebDevPositions(i);
    WebDevPositions(j);
    ExtensionResolve.WebDevIdLabel(ThemeContext.SupportedLanguages[i]);
    ExtensionResolve.WebDevIdLabel(ThemeContext.SupportedLanguages[j]);
    ThemeContext.SupportedLanguagesMap(i);
    ThemeContext.SupportedLanguagesMap(j);
    ThemeContext.LanguageKeysDistinct(i, j);
  }

  /** Rust, Go and Java have web themes but no extension label. */
  lemma WebOnlyLanguages()
    ensures ExtensionResolve.LanguageLabel(Some("rust")) == None && ThemeContext.LanguageTheme("rust").Some?
    ensures ExtensionResolve.LanguageLabel(Some("go")) == None && ThemeContext.LanguageTheme("go").Some?
    ensures ExtensionResolve.LanguageLabel(Some("java")) == None && ThemeContext.LanguageTheme("java").Some?
  {
    assert ExtensionResolve.LanguageLabel(Some("rust")) == None by {
      Ascii.LowerOfNoUpper("rust");
      ExtensionResolve.LanguageLabelByLower("rust");
    }
    assert ExtensionResolve.LanguageLabel(Some("go")) == None by {
      Ascii.LowerOfNoUpper("go");
      ExtensionResolve.LanguageLabelByLower("go");
    }
    assert ExtensionResolve.LanguageLabel(Some("java")) == None by {
      Ascii.LowerOfNoUpper("java");
      ExtensionResolve.LanguageLabelByLower("java");
    }
    ThemeContext.SupportedLanguagesMap(5);
    ThemeContext.SupportedLanguagesMap(6);
    ThemeContext.SupportedLanguagesMap(7);
  }
}
