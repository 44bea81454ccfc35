/** Language selection and string tables of MoPort/Localization.swift. */
module L10n {
  import opened Wrappers

  /** The `Language` enum with its raw values `"en"` and `"zh"`. */
  datatype Language = English | Chinese {

    /** `rawValue`. */
    function RawValue(): string {
      match this
      case English => "en"
      case Chinese => "zh"
    }

    /** `displayName`, the label in the language submenu. */
    function DisplayName(): (r: string)
      ensures this == English ==> r == "English"
      ensures this == Chinese ==> r == "中文"
    {
      match this
      case English => "English"
      case Chinese => "中文"
    }
  }

  /** `Language(rawValue:)`: only the two raw values are recognised. */
  function LanguageFromRawValue(code: string): (r: Option<Language>)
    ensures r.Some? <==> code == "en" || code == "zh"
  {
    if code == "en" then Some(English)
    else if code == "zh" then Some(Chinese)
    else None
  }

  /** `Language(rawValue:)` and `rawValue` are inverse to each other, in both directions. */
  lemma RawValueRoundTrip(l: Language, code: string)
    ensures LanguageFromRawValue(l.RawValue()) == Some(l)
    ensures LanguageFromRawValue(code) == Some(l) ==> l.RawValue() == code
    ensures English.RawValue() != Chinese.RawValue()
  {
  }

  /** The two string tables. */
  const EnglishStrings: map<string, string> := map[
    "appName" := "MoPort",
    "noDevice" := "No serial devices",
    "noDevices" := "No Devices",
    "launchAtLogin" := "Open at Login",
    "quit" := "Quit",
    "deviceFound" := "Serial connected",
    "deviceRemoved" := "Serial disconnected",
    "language" := "Language",
    "deviceGroup" := "Serial Ports",
    "settings" := "Settings",
    "about" := "About MoPort…",
    "clickToCopy" := "Click to copy path",
    "copied" := "Copied to clipboard",
    "appDescription" := "macOS Serial Port Monitor for ESP32/Arduino",
    "aboutInfo" := "A lightweight tool for embedded developers.\n\n© 2026 MoPort Project\nby MoveCall",
    "version" := "Version",
    "preferences" := "Preferences",
    "ok" := "OK"
  ]

  const ChineseStrings: map<string, string> := map[
    "appName" := "MoPort",
    "noDevice" := "无串口设备",
    "noDevices" := "无设备",
    "launchAtLogin" := "会在登录时打开",
    "quit" := "退出 MoPort",
    "deviceFound" := "发现串口",
    "deviceRemoved" := "串口断开",
    "language" := "语言",
    "deviceGroup" := "串口",
    "settings" := "设置",
    "about" := "关于 MoPort…",
    "clickToCopy" := "点击复制路径",
    "copied" := "已复制到剪贴板",
    "appDescription" := "macOS 串口监听工具 (ESP32/Arduino)",
    "aboutInfo" := "一款轻量级嵌入式开发辅助工具。\n\n© 2026 MoPort 项目\n作者: MoveCall",
    "version" := "版本",
    "preferences" := "偏好设置",
    "ok" := "好"
  ]

  function Table(l: Language): map<string, string> {
    match l
    case English => EnglishStrings
    case Chinese => ChineseStrings
  }

  /** The lookup `localizedString` performs for a given language: the table entry, or the key itself. */
  function Localize(l: Language, key: string): (r: string)
    ensures key in Table(l) ==> r == Table(l)[key]
    ensures key !in Table(l) ==> r == key
  {
    if key in Table(l) then Table(l)[key] else key
  }

  /** Both tables define the same keys, so a key falls back to itself in one language
      exactly when it does in the other. */
  lemma TablesShareKeys(key: string)
    ensures EnglishStrings.Keys == ChineseStrings.Keys
    ensures Localize(English, key) == key <==> Localize(Chinese, key) == key
  {
    assert EnglishStrings.Keys == ChineseStrings.Keys;
    forall k | k in EnglishStrings ensures EnglishStrings[k] != k && ChineseStrings[k] != k {
    }
  }

  /**
   * The language chosen at start-up: a stored code that names a language wins; otherwise
   * the system language code (`"en"` when there is none) selects Chinese when it starts
   * with `"zh"` and English otherwise.
   */
  function StartupLanguage(stored: Option<string>, systemCode: Option<string>): (r: Language)
  {
    if stored.Some? && LanguageFromRawValue(stored.value).Some? then
      LanguageFromRawValue(stored.value).value
    else if "zh" <= systemCode.GetOr("en") then Chinese
    else English
  }

  /** A stored valid code wins over the system language. */
  lemma StoredLanguageWins(l: Language, systemCode: Option<string>)
    ensures StartupLanguage(Some(l.RawValue()), systemCode) == l
  {
    RawValueRoundTrip(l, l.RawValue());
  }

  /** Without a valid stored code, only a system code beginning with "zh" gives Chinese;
      a missing system code gives English. */
  lemma SystemLanguageFallback(stored: Option<string>, systemCode: Option<string>)
    requires stored.None? || LanguageFromRawValue(stored.value).None?
    ensures StartupLanguage(stored, systemCode) == Chinese <==>
              systemCode.Some? && |systemCode.value| >= 2 && systemCode.value[..2] == "zh"
    ensures systemCode.None? ==> StartupLanguage(stored, systemCode) == English
  {
    var code := systemCode.GetOr("en");
    if systemCode.None? {
      assert code[0] == 'e' != "zh"[0];
    } else if "zh" <= code {
      assert code[..2] == "zh";
    }
  }

  /**
   * The shared localisation state. `persistedCode` is the `"appLanguage"` user default;
   * the `languageChanged` notification posted by `didSet` is not modelled.
   */
  class Localization {
    var currentLanguage: Language
    var persistedCode: Option<string>

    /** `init`: reads the stored code and the system language; Swift does not run
        `didSet` during initialisation, so nothing is written back. */
    constructor (stored: Option<string>, systemCode: Option<string>)
      ensures currentLanguage == StartupLanguage(stored, systemCode)
      ensures persistedCode == stored
    {
      currentLanguage := StartupLanguage(stored, systemCode);
      persistedCode := stored;
    }

    /** `setLanguage`: the assignment runs `didSet`, which stores the raw value. */
    method SetLanguage(l: Language)
      modifies this
      ensures currentLanguage == l
      ensures persistedCode == Some(l.RawValue())
    {
      currentLanguage := l;
      persistedCode := Some(l.RawValue());
    }

    /** `localizedString`: the current language's table entry, or the key. */
    function LocalizedString(key: string): (r: string)
      reads this
      ensures r == Localize(currentLanguage, key)
    {
      match currentLanguage
      case English => if key in EnglishStrings then EnglishStrings[key] else key
      case Chinese => if key in ChineseStrings then ChineseStrings[key] else key
    }
  }

  /** The global `L(_:)`, taking the shared instance explicitly: the shared instance's
      current table entry for the key, or the key itself. */
  function L(shared: Localization, key: string): (r: string)
    reads shared
    ensures r == Localize(shared.currentLanguage, key)
  {
    shared.LocalizedString(key)
  }

  /** A language chosen with `setLanguage` is the one the next start-up selects. */
  method SetLanguageSurvivesRestart(shared: Localization, l: Language, systemCode: Option<string>)
    returns (next: Localization)
    modifies shared
    ensures next.currentLanguage == l
  {
    shared.SetLanguage(l);
    StoredLanguageWins(l, systemCode);
    next := new Localization(shared.persistedCode, systemCode);
  }
}
