/** The permanent open-source license: a license value with every feature
    but cloud switched on, an unlimited user count and a hundred-year
    validity, and the predicate that recognises it. */
module LicenseModel {
  import opened Common
  import opened Text

  /** The licensed features this model reads: the user count and the
      boolean feature flags by their field name. */
  datatype Features = Features(users: Option<int>, flags: map<string, bool>)

  datatype LicenseLimits = LicenseLimits(postHistory: int)

  /** The license fields the open-source license sets or the limits read;
      times are milliseconds since the epoch. */
  datatype License = License(
    id: string, issuedAt: int, startsAt: int, expiresAt: int,
    skuName: string, skuShortName: string, isTrial: bool, isGovSku: bool,
    features: Option<Features>, limits: Option<LicenseLimits>)

  const OpenSourceId := "opensource-permanent"
  const UnlimitedUsers := 999999999
  /** A hundred years of 365 days, in milliseconds. */
  const HundredYearsMs := 100 * 365 * 24 * 60 * 60 * 1000

  /** The feature flags of `model.Features` that the open-source license sets. */
  const FlagNames: seq<string> := [
    "LDAP", "LDAPGroups", "MFA", "GoogleOAuth", "Office365OAuth", "OpenId",
    "Compliance", "Cluster", "Metrics", "MHPNS", "SAML", "Elasticsearch",
    "Announcement", "ThemeManagement", "EmailNotificationContents", "DataRetention",
    "MessageExport", "CustomPermissionsSchemes", "CustomTermsOfService", "GuestAccounts",
    "GuestAccountsPermissions", "IDLoadedPushNotifications", "LockTeammateNameDisplay",
    "EnterprisePlugins", "AdvancedLogging", "Cloud", "SharedChannels",
    "RemoteClusterService", "OutgoingOAuthConnections", "FutureFeatures"]

  const Cloud := "Cloud"

  predicate IsInt64(n: int) { MinInt64 <= n <= MaxInt64 }

  /** Two's-complement 64-bit wrap-around of a mathematical integer. */
  function WrapInt64(n: int): (r: int)
    ensures IsInt64(r)
    ensures IsInt64(n) ==> r == n
    ensures (r - n) % 0x1_0000_0000_0000_0000 == 0
  {
    (n - MinInt64) % 0x1_0000_0000_0000_0000 + MinInt64
  }

  /** `NewOpenSourceLicense`, at time `now` (the clock is a parameter). */
  function NewOpenSourceLicense(now: int): (l: License)
    requires IsInt64(now)
    ensures l.id == OpenSourceId && l.issuedAt == now && l.startsAt == now
    ensures l.expiresAt == WrapInt64(now + HundredYearsMs)
    ensures l.skuName == "Open Source" && l.skuShortName == "opensource"
    ensures !l.isTrial && !l.isGovSku
    ensures l.features.Some? && l.features.value.users == Some(UnlimitedUsers)
    ensures l.features.value.flags.Keys == set n | n in FlagNames
    ensures forall n :: n in l.features.value.flags ==> (l.features.value.flags[n] <==> n != Cloud)
    ensures l.limits.None?
  {
    License(OpenSourceId, now, now, WrapInt64(now + HundredYearsMs), "Open Source", "opensource",
            false, false, Some(Features(Some(UnlimitedUsers), map n | n in FlagNames :: n != Cloud)), None)
  }

  /** `IsOpenSourceLicense` on a license that may be nil. */
  function IsOpenSourceLicense(l: Option<License>): (r: bool)
    ensures l.None? ==> !r
    // Only the id is looked at.
    ensures l.Some? ==> (r <==> l.value.id == "opensource-permanent")
  {
    l.Some? && l.value.id == OpenSourceId
  }

  /** The license is valid for exactly a hundred years, unless `now` is so
      late that the expiry overflows 64 bits; then it lies before the issue
      time. */
  lemma ValidForHundredYears(now: int)
    requires IsInt64(now)
    ensures var l := NewOpenSourceLicense(now);
      && (now <= MaxInt64 - HundredYearsMs ==> l.expiresAt - l.issuedAt == 3153600000000)
      && (now > MaxInt64 - HundredYearsMs ==> l.expiresAt < l.issuedAt)
  {
  }

  /** The license it builds is recognised as the open-source license, and an
      absent license is not. */
  lemma NewLicenseIsOpenSource(now: int)
    requires IsInt64(now)
    ensures IsOpenSourceLicense(Some(NewOpenSourceLicense(now)))
    ensures !IsOpenSourceLicense(None)
  {
  }

  /** Of the thirty flags, Cloud is the only one switched off. */
  lemma OnlyCloudIsOff(now: int, n: string)
    requires IsInt64(now) && n in FlagNames
    ensures var f := NewOpenSourceLicense(now).features.value.flags;
      n in f && (f[n] == false <==> n == Cloud)
  {
  }

  /** The flag names are thirty distinct names, Cloud among them. */
  lemma FlagNamesDistinct()
    ensures |FlagNames| == 30 && Cloud in FlagNames
    ensures forall i, j :: 0 <= i < j < |FlagNames| ==> FlagNames[i] != FlagNames[j]
  {
  }
}
