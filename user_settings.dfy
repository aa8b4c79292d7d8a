/** The settings form of the client: two notification checkboxes and one
    checkbox per content category. Loading and saving the settings are
    requests and are not modelled. */
module UserSettings {
  import opened Lists

  datatype NotificationPreferences = NotificationPreferences(email: bool, push: bool)

  datatype Settings = Settings(notificationPreferences: NotificationPreferences, contentPreferences: seq<string>)

  /** The state before the settings are loaded: no notifications, no
      categories. */
  const InitialSettings := Settings(NotificationPreferences(false, false), [])

  /** The categories the form offers a checkbox for. */
  const PreferenceOptions: seq<string> := ["Technology", "Marketing", "Finance", "Health", "Education"]

  /** The email checkbox. */
  function SetEmail(s: Settings, checked: bool): (r: Settings)
    ensures r.notificationPreferences.email == checked
    ensures r.notificationPreferences.push == s.notificationPreferences.push
    ensures r.contentPreferences == s.contentPreferences
  {
    s.(notificationPreferences := s.notificationPreferences.(email := checked))
  }

  /** The push checkbox. */
  function SetPush(s: Settings, checked: bool): (r: Settings)
    ensures r.notificationPreferences.push == checked
    ensures r.notificationPreferences.email == s.notificationPreferences.email
    ensures r.contentPreferences == s.contentPreferences
  {
    s.(notificationPreferences := s.notificationPreferences.(push := checked))
  }

  /** A category checkbox: checking appends the category with no duplicate
      check, unchecking removes every occurrence of it. */
  function SetPreference(s: Settings, preference: string, checked: bool): (r: Settings)
    ensures r.notificationPreferences == s.notificationPreferences
  {
    var updated := if checked then s.contentPreferences + [preference]
      else RemoveAll(s.contentPreferences, preference);
    s.(contentPreferences := updated)
  }

  /** Checking adds exactly one occurrence of the category, at the end, and
      changes the count of no other category. */
  lemma CheckPreference(s: Settings, preference: string)
    ensures var r := SetPreference(s, preference, true).contentPreferences;
      && |r| == |s.contentPreferences| + 1
      && r[..|s.contentPreferences|] == s.contentPreferences
      && Count(r, preference) == Count(s.contentPreferences, preference) + 1
      && forall other :: other != preference ==> Count(r, other) == Count(s.contentPreferences, other)
  {
    var r := SetPreference(s, preference, true).contentPreferences;
    assert r[..|s.contentPreferences|] == s.contentPreferences;
    forall other ensures Count(r, other) == Count(s.contentPreferences, other) + (if other == preference then 1 else 0) {
      CountAppend(s.contentPreferences, other, preference);
    }
  }

  /** Unchecking removes every occurrence of the category and keeps every
      other one, in order. */
  lemma UncheckPreference(s: Settings, preference: string)
    ensures var r := SetPreference(s, preference, false).contentPreferences;
      && preference !in r
      && IsSubsequence(r, s.contentPreferences)
      && forall other :: other != preference ==> Count(r, other) == Count(s.contentPreferences, other)
  {
    var r := SetPreference(s, preference, false).contentPreferences;
    RemoveAllMembership(s.contentPreferences, preference, preference);
    RemoveAllIsSubsequence(s.contentPreferences, preference);
    forall other | other != preference ensures Count(r, other) == Count(s.contentPreferences, other) {
      RemoveAllOther(s.contentPreferences, preference, other);
    }
  }

  /** Checking a category that was not chosen and unchecking it again
      restores the settings. */
  lemma CheckThenUncheck(s: Settings, preference: string)
    requires preference !in s.contentPreferences
    ensures SetPreference(SetPreference(s, preference, true), preference, false) == s
  {
    RemoveAllAfterAppend(s.contentPreferences, preference);
  }

  /** Each offered category has one checkbox, none is checked before the
      settings load, checking one from there chooses that one alone, and
      unchecking it again gives back the initial settings. */
  lemma InitialPreferences(preference: string)
    ensures forall i, j :: 0 <= i < j < |PreferenceOptions| ==> PreferenceOptions[i] != PreferenceOptions[j]
    ensures forall p :: p in PreferenceOptions ==> p !in InitialSettings.contentPreferences
    ensures !InitialSettings.notificationPreferences.email && !InitialSettings.notificationPreferences.push
    ensures SetPreference(InitialSettings, preference, true).contentPreferences == [preference]
    ensures SetPreference(SetPreference(InitialSettings, preference, true), preference, false) == InitialSettings
  {
    assert SetPreference(InitialSettings, preference, true).contentPreferences == [] + [preference];
    CheckThenUncheck(InitialSettings, preference);
  }
}
