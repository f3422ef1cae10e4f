/**
 * src/features/settings/store.ts: the user's preferences (colour theme, the
 * push and e-mail notification switches and the biometric lock). Each action
 * changes one preference and nothing else. Persisting the store to device
 * storage is not part of this model.
 */
module SettingsStore {

  datatype Theme = Light | Dark | System

  datatype Channel = Push | Email

  datatype NotificationPrefs = NotificationPrefs(push: bool, email: bool)

  /** The preferences as one value. */
  datatype Settings = Settings(theme: Theme, notifications: NotificationPrefs, isBiometricsEnabled: bool)

  /** The three actions of the store. */
  datatype Action = SetTheme(theme: Theme) | ToggleNotifications(channel: Channel) | ToggleBiometrics

  /** `notifications[type]`. */
  function Enabled(p: NotificationPrefs, c: Channel): bool {
    match c
    case Push => p.push
    case Email => p.email
  }

  /** `{ ...notifications, [type]: !notifications[type] }`: one switch flipped, the other kept. */
  function Toggle(p: NotificationPrefs, c: Channel): (r: NotificationPrefs)
    ensures Enabled(r, c) == !Enabled(p, c)
    ensures forall d :: d != c ==> Enabled(r, d) == Enabled(p, d)
  {
    match c
    case Push => p.(push := !p.push)
    case Email => p.(email := !p.email)
  }

  /** Two switches with the same value on both channels are the same switches. */
  lemma PrefsByChannel(p: NotificationPrefs, q: NotificationPrefs)
    requires Enabled(p, Push) == Enabled(q, Push) && Enabled(p, Email) == Enabled(q, Email)
    ensures p == q
  {
  }

  /** The preferences a fresh install starts from. */
  const Initial: Settings := Settings(System, NotificationPrefs(true, true), false)

  /**
   * The preferences after one action: the theme is whatever `setTheme` was
   * last given, a toggled channel and the biometric lock are negated, and
   * every preference the action does not name is kept.
   */
  function Apply(s: Settings, a: Action): (r: Settings)
    ensures r.theme == if a.SetTheme? then a.theme else s.theme
    ensures forall c :: Enabled(r.notifications, c) == (Enabled(s.notifications, c) != (a == ToggleNotifications(c)))
    ensures r.isBiometricsEnabled == (s.isBiometricsEnabled != (a == ToggleBiometrics))
  {
    match a
    case SetTheme(t) => s.(theme := t)
    case ToggleNotifications(c) => s.(notifications := Toggle(s.notifications, c))
    case ToggleBiometrics => s.(isBiometricsEnabled := !s.isBiometricsEnabled)
  }

  /** Toggling the same switch twice gives back the original preferences. */
  lemma ToggleTwice(s: Settings, a: Action)
    requires !a.SetTheme?
    ensures Apply(Apply(s, a), a) == s
  {
    var r := Apply(Apply(s, a), a);
    PrefsByChannel(r.notifications, s.notifications);
  }

  /** Only the last of two `setTheme` calls counts. */
  lemma SetThemeLast(s: Settings, t1: Theme, t2: Theme)
    ensures Apply(Apply(s, SetTheme(t1)), SetTheme(t2)) == Apply(s, SetTheme(t2))
  {
  }

  /** Two actions on different preferences can be applied in either order. */
  lemma ActionsCommute(s: Settings, a: Action, b: Action)
    requires !(a.SetTheme? && b.SetTheme?)
    ensures Apply(Apply(s, a), b) == Apply(Apply(s, b), a)
  {
    var ab := Apply(Apply(s, a), b);
    var ba := Apply(Apply(s, b), a);
    PrefsByChannel(ab.notifications, ba.notifications);
  }

  class SettingsStore {
    var theme: Theme
    var notifications: NotificationPrefs
    var isBiometricsEnabled: bool

    /** The store's fields as one value. */
    function State(): Settings
      reads this
    {
      Settings(theme, notifications, isBiometricsEnabled)
    }

    /** The initial state: follow the system theme, both channels on, no biometric lock. */
    constructor ()
      ensures State() == Initial
    {
      theme := System;
      notifications := NotificationPrefs(true, true);
      isBiometricsEnabled := false;
    }

    /** `setTheme`. */
    method SetTheme(t: Theme)
      modifies this
      ensures State() == Apply(old(State()), Action.SetTheme(t))
    {
      theme := t;
    }

    /** `toggleNotifications`. */
    method ToggleNotifications(c: Channel)
      modifies this
      ensures State() == Apply(old(State()), Action.ToggleNotifications(c))
    {
      notifications := Toggle(notifications, c);
    }

    /** `toggleBiometrics`. */
    method ToggleBiometrics()
      modifies this
      ensures State() == Apply(old(State()), Action.ToggleBiometrics)
    {
      isBiometricsEnabled := !isBiometricsEnabled;
    }
  }
}
