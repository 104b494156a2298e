/**
  * The user as the API returns it: the `users` row and the optional
  * `user_preferences` row folded into one record, with the defaults used when
  * a user has no preferences row.
  */
module UserModel {
  import opened Wrappers

  /** A row of `users`; timestamps are instants. */
  datatype UserRow = UserRow(
    id: string,
    email: string,
    phone: string,
    name: string,
    passwordHash: string,
    kycStatus: string,
    createdAt: int,
    updatedAt: int)

  /** A row of `user_preferences`. */
  datatype PreferencesRow = PreferencesRow(
    id: string,
    userId: string,
    currency: string,
    language: string,
    theme: string,
    emailNotifications: bool,
    smsNotifications: bool,
    pushNotifications: bool,
    dailyInsights: bool,
    weeklyReports: bool,
    budgetAlerts: bool,
    investmentUpdates: bool,
    createdAt: int,
    updatedAt: int)

  datatype Notifications = Notifications(
    email: bool,
    sms: bool,
    push: bool,
    dailyInsights: bool,
    weeklyReports: bool,
    budgetAlerts: bool,
    investmentUpdates: bool)

  datatype Preferences = Preferences(currency: string, language: string, theme: string, notifications: Notifications)

  /** The API's user; it has no password field. */
  datatype User = User(
    id: string,
    email: string,
    phone: string,
    name: string,
    kycStatus: string,
    createdAt: int,
    updatedAt: int,
    preferences: Preferences)

  /** The preferences of a user without a preferences row. */
  const DEFAULT_PREFERENCES: Preferences :=
    Preferences("INR", "en", "auto", Notifications(true, true, true, true, true, true, false))

  /** The preferences a row holds, column by column. */
  function PreferencesOf(p: PreferencesRow): Preferences {
    Preferences(p.currency, p.language, p.theme,
      Notifications(p.emailNotifications, p.smsNotifications, p.pushNotifications, p.dailyInsights,
                    p.weeklyReports, p.budgetAlerts, p.investmentUpdates))
  }

  /**
    * `toUser`: the identity columns copied, `kyc_status` cast without a check,
    * and the preferences taken from the row when there is one, else the defaults.
    */
  function ToUser(row: UserRow, preferences: Option<PreferencesRow>): User {
    User(row.id, row.email, row.phone, row.name, row.kycStatus, row.createdAt, row.updatedAt,
         if preferences.Some? then PreferencesOf(preferences.value) else DEFAULT_PREFERENCES)
  }

  /** The row that stores `prefs` for a user: the inverse of `PreferencesOf`. */
  function PreferencesRowFor(id: string, userId: string, prefs: Preferences, createdAt: int, updatedAt: int): (p: PreferencesRow)
    ensures p.id == id && p.userId == userId && p.createdAt == createdAt && p.updatedAt == updatedAt
  {
    var n := prefs.notifications;
    PreferencesRow(id, userId, prefs.currency, prefs.language, prefs.theme,
                   n.email, n.sms, n.push, n.dailyInsights, n.weeklyReports, n.budgetAlerts, n.investmentUpdates,
                   createdAt, updatedAt)
  }

  /** The identity fields are copied verbatim whatever the preferences, and `kycStatus` is `kyc_status` unchecked. */
  lemma ToUserCopiesRow(row: UserRow, preferences: Option<PreferencesRow>)
    ensures var u := ToUser(row, preferences);
      && u.id == row.id && u.email == row.email && u.phone == row.phone && u.name == row.name
      && u.kycStatus == row.kycStatus && u.createdAt == row.createdAt && u.updatedAt == row.updatedAt
  {
  }

  /** The password hash never reaches the API: two rows that differ only in it give the same user. */
  lemma ToUserHidesPasswordHash(row: UserRow, hash: string, preferences: Option<PreferencesRow>)
    ensures ToUser(row.(passwordHash := hash), preferences) == ToUser(row, preferences)
  {
  }

  /** With a preferences row, every preference and each of the seven flags come from its own column. */
  lemma ToUserWithPreferences(row: UserRow, p: PreferencesRow)
    ensures var prefs := ToUser(row, Some(p)).preferences;
      && prefs.currency == p.currency && prefs.language == p.language && prefs.theme == p.theme
      && prefs.notifications.email == p.emailNotifications
      && prefs.notifications.sms == p.smsNotifications
      && prefs.notifications.push == p.pushNotifications
      && prefs.notifications.dailyInsights == p.dailyInsights
      && prefs.notifications.weeklyReports == p.weeklyReports
      && prefs.notifications.budgetAlerts == p.budgetAlerts
      && prefs.notifications.investmentUpdates == p.investmentUpdates
  {
  }

  /**
    * Without a preferences row the user gets INR, `en` and `auto`, and every
    * notification on except investment updates.
    */
  lemma ToUserDefaults(row: UserRow)
    ensures var prefs := ToUser(row, None).preferences;
      && prefs.currency == "INR" && prefs.language == "en" && prefs.theme == "auto"
      && prefs.notifications.email && prefs.notifications.sms && prefs.notifications.push
      && prefs.notifications.dailyInsights && prefs.notifications.weeklyReports && prefs.notifications.budgetAlerts
      && !prefs.notifications.investmentUpdates
  {
  }

  /**
    * Storing preferences and reading them back gives them unchanged, so a user
    * without a row reads exactly like one whose row holds the defaults.
    */
  lemma PreferencesRoundTrip(row: UserRow, id: string, prefs: Preferences, createdAt: int, updatedAt: int)
    ensures ToUser(row, Some(PreferencesRowFor(id, row.id, prefs, createdAt, updatedAt))).preferences == prefs
    ensures ToUser(row, Some(PreferencesRowFor(id, row.id, DEFAULT_PREFERENCES, createdAt, updatedAt))) == ToUser(row, None)
  {
  }

  /** Reading a row's preferences and storing them again gives back the row. */
  lemma PreferencesRowRoundTrip(p: PreferencesRow)
    ensures PreferencesRowFor(p.id, p.userId, PreferencesOf(p), p.createdAt, p.updatedAt) == p
  {
  }
}
