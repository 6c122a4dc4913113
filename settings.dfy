/** The settings page: one record of four sections, each update replacing
    one field, and the label shown for each notification key. */
module Settings {
  import opened Common

  datatype Profile = Profile(name: string, email: string, bio: string, timezone: string, language: string)

  datatype Privacy = Privacy(
    profileVisibility: string,
    progressVisibility: string,
    allowAnalytics: bool,
    allowMarketing: bool)

  datatype Appearance = Appearance(theme: string, language: string, dateFormat: string, timeFormat: string)

  /** The `settings` state; the notification switches are keyed by name. */
  datatype SettingsRecord = SettingsRecord(
    profile: Profile,
    notifications: map<string, bool>,
    privacy: Privacy,
    appearance: Appearance)

  const InitialSettings: SettingsRecord := SettingsRecord(
    Profile("Study Learner", "learner@email.com",
            "Passionate learner exploring new topics and mastering skills.", "UTC-8", "en"),
    map["emailNotifications" := true, "dailyReminders" := true, "weeklyProgress" := false,
        "achievementAlerts" := true, "studyPlanUpdates" := true],
    Privacy("private", "friends", true, false),
    Appearance("system", "en", "MM/DD/YYYY", "12h"))

  // --------------------------------------------------------------- labels

  predicate IsUpper(c: char)
  {
    'A' <= c <= 'Z'
  }

  /** `replace(/([A-Z])/g, ' $1')`: a space before every capital. */
  function SpaceBeforeCapitals(s: string): string
  {
    if s == [] then []
    else (if IsUpper(s[0]) then [' ', s[0]] else [s[0]]) + SpaceBeforeCapitals(s[1..])
  }

  /** `replace(/^./, str => str.toUpperCase())` after the first step. */
  function Label(key: string): string
  {
    var spaced := SpaceBeforeCapitals(key);
    if spaced == [] then [] else [UpperChar(spaced[0])] + spaced[1..]
  }

  function CapitalCount(s: string): nat
  {
    if s == [] then 0 else (if IsUpper(s[0]) then 1 else 0) + CapitalCount(s[1..])
  }

  lemma {:induction false} SpaceBeforeCapitalsLength(s: string)
    ensures |SpaceBeforeCapitals(s)| == |s| + CapitalCount(s)
  {
    if s != [] { SpaceBeforeCapitalsLength(s[1..]); }
  }

  /** A label is as long as its key plus one space per capital letter. */
  lemma LabelLength(key: string)
    ensures |Label(key)| == |key| + CapitalCount(key)
  {
    SpaceBeforeCapitalsLength(key);
  }

  /** A key that starts with a capital gets a label starting with a space. */
  lemma LabelOfCapitalised(key: string)
    requires key != [] && IsUpper(key[0])
    ensures Label(key) != [] && Label(key)[0] == ' '
  {
  }

  /** A two-word camel-case key gets its first letter capitalised and a
      space before its second word. */
  lemma LabelOfTwoWords(first: string, capital: char, rest: string)
    requires first != [] && IsUpper(capital)
    requires forall i :: 0 <= i < |first| ==> !IsUpper(first[i])
    requires forall i :: 0 <= i < |rest| ==> !IsUpper(rest[i])
    ensures Label(first + ([capital] + rest)) == [UpperChar(first[0])] + (first[1..] + ([' ', capital] + rest))
  {
    SpacedTwoWords(first, capital, rest);
    var spaced := first + ([' ', capital] + rest);
    assert spaced[0] == first[0];
    assert spaced[1..] == first[1..] + ([' ', capital] + rest);
  }

  lemma SpacedTwoWords(first: string, capital: char, rest: string)
    requires IsUpper(capital)
    requires forall i :: 0 <= i < |first| ==> !IsUpper(first[i])
    requires forall i :: 0 <= i < |rest| ==> !IsUpper(rest[i])
    ensures SpaceBeforeCapitals(first + ([capital] + rest)) == first + ([' ', capital] + rest)
  {
    SpaceBeforeCapitalsConcat(first, [capital] + rest);
    SpacedCapital(capital, rest);
    NoCapitalsUnchanged(first);
    NoCapitalsUnchanged(rest);
  }

  lemma SpacedCapital(capital: char, rest: string)
    requires IsUpper(capital)
    ensures SpaceBeforeCapitals([capital] + rest) == [' ', capital] + SpaceBeforeCapitals(rest)
  {
    assert ([capital] + rest)[1..] == rest;
  }

  // The example is proved in stages so that the verifier does not unfold
  // the label's recursion on the whole literal at once.
  lemma EmailNotificationsParts(first: string, rest: string)
    requires first == "email" && rest == "otifications"
    ensures Label(first + (['N'] + rest)) == "Email Notifications"
  {
    LabelOfTwoWords(first, 'N', rest);
    assert UpperChar('e') == 'E';
  }

  lemma EmailNotificationsKey(key: string)
    requires key == "emailNotifications"
    ensures Label(key) == "Email Notifications"
  {
    var first, rest := "email", "otifications";
    assert key == first + (['N'] + rest);
    EmailNotificationsParts(first, rest);
  }

  lemma LabelOfEmailNotifications()
    ensures Label("emailNotifications") == "Email Notifications"
  {
    EmailNotificationsKey("emailNotifications");
  }

  lemma {:induction false} SpaceBeforeCapitalsConcat(a: string, b: string)
    ensures SpaceBeforeCapitals(a + b) == SpaceBeforeCapitals(a) + SpaceBeforeCapitals(b)
  {
    if a != [] {
      assert (a + b)[0] == a[0];
      assert (a + b)[1..] == a[1..] + b;
      SpaceBeforeCapitalsConcat(a[1..], b);
    } else {
      assert a + b == b;
    }
  }

  lemma {:induction false} NoCapitalsUnchanged(s: string)
    requires forall i :: 0 <= i < |s| ==> !IsUpper(s[i])
    ensures SpaceBeforeCapitals(s) == s
  {
    if s != [] {
      NoCapitalsUnchanged(s[1..]);
      assert s == [s[0]] + s[1..];
    }
  }

  /** Removing every space. */
  function RemoveSpaces(s: string): string
  {
    if s == [] then [] else (if s[0] == ' ' then [] else [s[0]]) + RemoveSpaces(s[1..])
  }

  lemma {:induction false} RemoveSpacesUndoes(s: string)
    requires ' ' !in s
    ensures RemoveSpaces(SpaceBeforeCapitals(s)) == s
  {
    if s != [] {
      RemoveSpacesUndoes(s[1..]);
      var head := if IsUpper(s[0]) then [' ', s[0]] else [s[0]];
      RemoveSpacesConcat(head, SpaceBeforeCapitals(s[1..]));
      assert s == [s[0]] + s[1..];
    }
  }

  lemma {:induction false} RemoveSpacesConcat(a: string, b: string)
    ensures RemoveSpaces(a + b) == RemoveSpaces(a) + RemoveSpaces(b)
  {
    if a != [] {
      assert (a + b)[0] == a[0];
      assert (a + b)[1..] == a[1..] + b;
      RemoveSpacesConcat(a[1..], b);
    } else {
      assert a + b == b;
    }
  }

  /** The label of a camel-case key without spaces gives the key back: drop
      the spaces and lower-case the first letter. */
  lemma LabelRoundTrip(key: string)
    requires key != [] && 'a' <= key[0] <= 'z' && ' ' !in key
    ensures var r := RemoveSpaces(Label(key)); r != [] && [LowerChar(r[0])] + r[1..] == key
  {
    var rest := SpaceBeforeCapitals(key[1..]);
    assert SpaceBeforeCapitals(key) == [key[0]] + rest;
    assert Label(key) == [UpperChar(key[0])] + rest;
    RemoveSpacesConcat([UpperChar(key[0])], rest);
    RemoveSpacesUndoes(key[1..]);
    assert key == [key[0]] + key[1..];
  }

  // -------------------------------------------------------------- updates

  /** The switch of one notification: `[key]: !value`, where a key not in
      the record reads as undefined and so becomes true. */
  function ToggleNotification(s: SettingsRecord, key: string): SettingsRecord
  {
    var current := key in s.notifications && s.notifications[key];
    s.(notifications := s.notifications[key := !current])
  }

  /** A notification switch flips only its own key, keeps every other key
      and section, and switching twice restores a key that was present. */
  lemma ToggleNotificationSpec(s: SettingsRecord, key: string)
    ensures var t := ToggleNotification(s, key);
      && key in t.notifications
      && t.notifications[key] == !(key in s.notifications && s.notifications[key])
      && (forall k :: k != key ==> (k in t.notifications <==> k in s.notifications))
      && (forall k :: k != key && k in s.notifications ==> t.notifications[k] == s.notifications[k])
      && t.profile == s.profile && t.privacy == s.privacy && t.appearance == s.appearance
    ensures key in s.notifications ==> ToggleNotification(ToggleNotification(s, key), key) == s
  {
    if key in s.notifications {
      var t := ToggleNotification(ToggleNotification(s, key), key);
      assert t.notifications == s.notifications;
    }
  }

  function ToggleAnalytics(s: SettingsRecord): SettingsRecord
  {
    s.(privacy := s.privacy.(allowAnalytics := !s.privacy.allowAnalytics))
  }

  function ToggleMarketing(s: SettingsRecord): SettingsRecord
  {
    s.(privacy := s.privacy.(allowMarketing := !s.privacy.allowMarketing))
  }

  /** Each privacy switch flips only its own field, and switching twice
      restores the record. */
  lemma PrivacyTogglesSpec(s: SettingsRecord)
    ensures ToggleAnalytics(s).privacy.allowAnalytics == !s.privacy.allowAnalytics
    ensures ToggleAnalytics(s).(privacy := ToggleAnalytics(s).privacy.(allowAnalytics := s.privacy.allowAnalytics)) == s
    ensures ToggleMarketing(s).privacy.allowMarketing == !s.privacy.allowMarketing
    ensures ToggleMarketing(s).(privacy := ToggleMarketing(s).privacy.(allowMarketing := s.privacy.allowMarketing)) == s
    ensures ToggleAnalytics(ToggleAnalytics(s)) == s && ToggleMarketing(ToggleMarketing(s)) == s
  {
  }

  datatype ProfileField = Name | Bio | Timezone | ProfileLanguage
  datatype PrivacyField = ProfileVisibility | ProgressVisibility
  datatype AppearanceField = Theme | DateFormat | TimeFormat

  function ProfileValue(p: Profile, f: ProfileField): string
  {
    match f
    case Name => p.name
    case Bio => p.bio
    case Timezone => p.timezone
    case ProfileLanguage => p.language
  }

  /** The email field is disabled: only the four other profile fields can
      be edited. */
  function SetProfile(s: SettingsRecord, f: ProfileField, v: string): SettingsRecord
  {
    var p := s.profile;
    s.(profile :=
      match f
      case Name => p.(name := v)
      case Bio => p.(bio := v)
      case Timezone => p.(timezone := v)
      case ProfileLanguage => p.(language := v))
  }

  function SetPrivacy(s: SettingsRecord, f: PrivacyField, v: string): SettingsRecord
  {
    s.(privacy :=
      match f
      case ProfileVisibility => s.privacy.(profileVisibility := v)
      case ProgressVisibility => s.privacy.(progressVisibility := v))
  }

  function AppearanceValue(a: Appearance, f: AppearanceField): string
  {
    match f
    case Theme => a.theme
    case DateFormat => a.dateFormat
    case TimeFormat => a.timeFormat
  }

  function SetAppearance(s: SettingsRecord, f: AppearanceField, v: string): SettingsRecord
  {
    var a := s.appearance;
    s.(appearance :=
      match f
      case Theme => a.(theme := v)
      case DateFormat => a.(dateFormat := v)
      case TimeFormat => a.(timeFormat := v))
  }

  /** A profile edit sets the edited field to the typed value and changes
      no other field, the email included, and no other section. */
  lemma SetProfileSpec(s: SettingsRecord, f: ProfileField, v: string)
    ensures ProfileValue(SetProfile(s, f, v).profile, f) == v
    ensures forall g :: g != f ==> ProfileValue(SetProfile(s, f, v).profile, g) == ProfileValue(s.profile, g)
    ensures SetProfile(s, f, v).profile.email == s.profile.email
    ensures SetProfile(s, f, v).notifications == s.notifications
    ensures SetProfile(s, f, v).privacy == s.privacy && SetProfile(s, f, v).appearance == s.appearance
    ensures SetProfile(s, f, ProfileValue(s.profile, f)) == s
  {
  }

  /** Choosing a theme, or another appearance value, sets that field and
      nothing else. */
  lemma SetAppearanceSpec(s: SettingsRecord, f: AppearanceField, v: string)
    ensures AppearanceValue(SetAppearance(s, f, v).appearance, f) == v
    ensures forall g :: g != f ==>
      AppearanceValue(SetAppearance(s, f, v).appearance, g) == AppearanceValue(s.appearance, g)
    ensures SetAppearance(s, f, v).appearance.language == s.appearance.language
    ensures SetAppearance(s, f, v).profile == s.profile
    ensures SetAppearance(s, f, v).notifications == s.notifications
    ensures SetAppearance(s, f, v).privacy == s.privacy
    ensures SetAppearance(s, f, AppearanceValue(s.appearance, f)) == s
  {
  }

  /** A visibility choice sets that field and nothing else. */
  lemma SetPrivacySpec(s: SettingsRecord, f: PrivacyField, v: string)
    ensures f == ProfileVisibility ==>
      SetPrivacy(s, f, v).privacy.profileVisibility == v
      && SetPrivacy(s, f, v).privacy.progressVisibility == s.privacy.progressVisibility
    ensures f == ProgressVisibility ==>
      SetPrivacy(s, f, v).privacy.progressVisibility == v
      && SetPrivacy(s, f, v).privacy.profileVisibility == s.privacy.profileVisibility
    ensures SetPrivacy(s, f, v).privacy.allowAnalytics == s.privacy.allowAnalytics
    ensures SetPrivacy(s, f, v).privacy.allowMarketing == s.privacy.allowMarketing
    ensures SetPrivacy(s, f, v).profile == s.profile && SetPrivacy(s, f, v).appearance == s.appearance
    ensures SetPrivacy(s, f, v).notifications == s.notifications
  {
  }

  // ----------------------------------------------------------------- page

  /** The page's record, replaced by each control through `setSettings`. */
  class SettingsPage {
    var settings: SettingsRecord

    constructor ()
      ensures settings == InitialSettings
    {
      settings := InitialSettings;
    }

    method OnNotificationClick(key: string)
      modifies this
      ensures settings == ToggleNotification(old(settings), key)
    {
      settings := ToggleNotification(settings, key);
    }

    method OnAnalyticsClick()
      modifies this
      ensures settings == ToggleAnalytics(old(settings))
    {
      settings := ToggleAnalytics(settings);
    }

    method OnMarketingClick()
      modifies this
      ensures settings == ToggleMarketing(old(settings))
    {
      settings := ToggleMarketing(settings);
    }

    method OnProfileInput(f: ProfileField, v: string)
      modifies this
      ensures settings == SetProfile(old(settings), f, v)
    {
      settings := SetProfile(settings, f, v);
    }

    method OnPrivacyInput(f: PrivacyField, v: string)
      modifies this
      ensures settings == SetPrivacy(old(settings), f, v)
    {
      settings := SetPrivacy(settings, f, v);
    }

    method OnAppearanceInput(f: AppearanceField, v: string)
      modifies this
      ensures settings == SetAppearance(old(settings), f, v)
    {
      settings := SetAppearance(settings, f, v);
    }
  }
}
