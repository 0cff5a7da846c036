/** The Settings page (frontend/pages/Settings.jsx): profile fields and notification
    switches. */
module Settings {

  datatype NotificationKey = PostReminders | WeeklyReports | EngagementAlerts | TrendAlerts | EmailDigest

  type Preferences = map<NotificationKey, bool>

  /** `prev[key]`, where a missing key reads as `undefined`, which is falsy. */
  function Get(p: Preferences, k: NotificationKey): bool
  {
    k in p && p[k]
  }

  const InitialPreferences: Preferences := map[
    PostReminders := true, WeeklyReports := true, EngagementAlerts := true,
    TrendAlerts := false, EmailDigest := true]

  lemma InitialPreferencesValues()
    ensures forall k :: k in InitialPreferences
    ensures forall k :: Get(InitialPreferences, k) <==> k != TrendAlerts
  {
    forall k ensures k in InitialPreferences {
      match k
      case PostReminders =>
      case WeeklyReports =>
      case EngagementAlerts =>
      case TrendAlerts =>
      case EmailDigest =>
    }
  }

  /** `{...prev, [key]: !prev[key]}`. */
  function Flip(p: Preferences, k: NotificationKey): (r: Preferences)
    ensures r.Keys == p.Keys + {k}
    ensures Get(r, k) == !Get(p, k)
    ensures forall j :: j != k ==> (j in r <==> j in p) && Get(r, j) == Get(p, j)
  {
    p[k := !Get(p, k)]
  }

  /** Switching the same notification twice restores the preferences (every key the
      page toggles is present from the start). */
  lemma FlipTwice(p: Preferences, k: NotificationKey)
    requires k in p
    ensures Flip(Flip(p, k), k) == p
  {
    var q := Flip(Flip(p, k), k);
    assert q.Keys == p.Keys;
    forall j | j in p ensures q[j] == p[j] {
      assert Get(q, j) == Get(p, j);
    }
  }

  /** Writing two different keys in either order gives the same map. */
  lemma UpdatesCommute(p: Preferences, k: NotificationKey, vk: bool, j: NotificationKey, vj: bool)
    requires k != j
    ensures p[k := vk][j := vj] == p[j := vj][k := vk]
  {
  }

  /** Flipping `k` and then a different key `j` writes both negated values. */
  lemma FlipThenFlip(p: Preferences, k: NotificationKey, j: NotificationKey)
    requires k != j
    ensures Flip(Flip(p, k), j) == p[k := !Get(p, k)][j := !Get(p, j)]
  {
    var q := p[k := !Get(p, k)];
    assert Flip(p, k) == q;
    assert Get(q, j) == Get(p, j);
  }

  /** Flipping two different keys in either order gives the same preferences. */
  lemma FlipCommutes(p: Preferences, k: NotificationKey, j: NotificationKey)
    ensures Flip(Flip(p, k), j) == Flip(Flip(p, j), k)
  {
    if k != j {
      FlipThenFlip(p, k, j);
      FlipThenFlip(p, j, k);
      UpdatesCommute(p, k, !Get(p, k), j, !Get(p, j));
    }
  }

  datatype ProfileField = BrandName | Email | Timezone | Language

  datatype Profile = Profile(brandName: string, email: string, timezone: string, language: string)

  const InitialProfile := Profile("Your Brand", "contact@yourbrand.com", "America/New_York", "en")

  function ProfileValue(p: Profile, f: ProfileField): string
  {
    match f
    case BrandName => p.brandName
    case Email => p.email
    case Timezone => p.timezone
    case Language => p.language
  }

  /** `{...profile, field: value}` as each input's `onChange` writes it. */
  function WithProfileField(p: Profile, f: ProfileField, value: string): (r: Profile)
    ensures ProfileValue(r, f) == value
    ensures forall g :: g != f ==> ProfileValue(r, g) == ProfileValue(p, g)
  {
    match f
    case BrandName => p.(brandName := value)
    case Email => p.(email := value)
    case Timezone => p.(timezone := value)
    case Language => p.(language := value)
  }

  class SettingsPage {
    var activeTab: string
    var profile: Profile
    var notifications: Preferences

    constructor ()
      ensures activeTab == "profile" && profile == InitialProfile && notifications == InitialPreferences
    {
      activeTab := "profile";
      profile := InitialProfile;
      notifications := InitialPreferences;
    }

    method SetActiveTab(tab: string)
      modifies this`activeTab
      ensures activeTab == tab
    {
      activeTab := tab;
    }

    /** `handleNotificationChange(key)`. */
    method HandleNotificationChange(k: NotificationKey)
      modifies this`notifications
      ensures notifications == Flip(old(notifications), k)
    {
      notifications := notifications[k := !Get(notifications, k)];
    }

    method SetProfileField(f: ProfileField, value: string)
      modifies this`profile
      ensures profile == WithProfileField(old(profile), f, value)
    {
      profile := WithProfileField(profile, f, value);
    }
  }
}
