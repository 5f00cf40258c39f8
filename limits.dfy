/** Server limits: the user limits chosen from the current license, the
    post-history limit, and whether the server is at its user limit. The
    store's user count and the last-accessible-post lookup are inputs. */
module Limits {
  import opened Common
  import opened LicenseModel
  import opened LicenseManager

  const MaxUsersLimit := 200
  const MaxUsersHardLimit := 250

  datatype ServerLimits = ServerLimits(
    maxUsersLimit: int, maxUsersHardLimit: int, activeUserCount: int,
    postHistoryLimit: int, lastAccessiblePostTime: int)

  const UserCountError := AppError("GetServerLimits", "app.limits.get_app_limits.user_count.store_error", "", StatusInternalServerError)

  /** Whether the license names a user count. */
  predicate HasUserCount(license: Option<License>) {
    license.Some? && license.value.features.Some? && license.value.features.value.users.Some?
  }

  /** Whether the license carries limits. */
  predicate HasLimits(license: Option<License>) {
    license.Some? && license.value.limits.Some?
  }

  /** `GetServerLimits`; `lastAccessible` is what `GetLastAccessiblePostTime`
      answers and `userCount` what the store's user count answers. */
  function GetServerLimits(license: Option<License>, lastAccessible: Result<int, AppError>,
                           userCount: Result<int, AppError>): (r: Result<ServerLimits, AppError>)
    // The failures, in order: the post-time lookup (only consulted with limits), then the count.
    ensures HasLimits(license) && lastAccessible.Failure? ==> r == Failure(lastAccessible.error)
    ensures (!HasLimits(license) || lastAccessible.Success?) && userCount.Failure? ==> r == Failure(UserCountError)
    ensures r.Success? <==> userCount.Success? && (!HasLimits(license) || lastAccessible.Success?)
    ensures r.Success? ==>
      && r.value.activeUserCount == userCount.value
      && (!HasUserCount(license) ==>
            r.value.maxUsersLimit == MaxUsersLimit && r.value.maxUsersHardLimit == MaxUsersHardLimit)
      && (HasUserCount(license) ==>
            r.value.maxUsersLimit == r.value.maxUsersHardLimit == license.value.features.value.users.value)
      && (HasLimits(license) ==>
            r.value.postHistoryLimit == license.value.limits.value.postHistory
            && r.value.lastAccessiblePostTime == lastAccessible.value)
      && (!HasLimits(license) ==> r.value.postHistoryLimit == 0 && r.value.lastAccessiblePostTime == 0)
  {
    var (soft, hard) :=
      if !HasUserCount(license) then (MaxUsersLimit, MaxUsersHardLimit)
      else
        var n := license.value.features.value.users.value;
        var extraUsers := 0;
        (n, n + extraUsers);
    if HasLimits(license) && lastAccessible.Failure? then Failure(lastAccessible.error)
    else
      var (postHistory, lastTime) :=
        if HasLimits(license) then (license.value.limits.value.postHistory, lastAccessible.value) else (0, 0);
      if userCount.Failure? then Failure(UserCountError)
      else Success(ServerLimits(soft, hard, userCount.value, postHistory, lastTime))
  }

  /** `GetPostHistoryLimit`: 0 when no limit applies. */
  function GetPostHistoryLimit(license: Option<License>): (r: int)
    ensures !HasLimits(license) ==> r == 0
    ensures HasLimits(license) ==> r == license.value.limits.value.postHistory
  {
    if license.None? || license.value.limits.None? then 0 else license.value.limits.value.postHistory
  }

  /** The post-history limit agrees with the one `GetServerLimits` reports. */
  lemma PostHistoryAgrees(license: Option<License>, lastAccessible: Result<int, AppError>, userCount: Result<int, AppError>)
    requires GetServerLimits(license, lastAccessible, userCount).Success?
    ensures GetServerLimits(license, lastAccessible, userCount).value.postHistoryLimit == GetPostHistoryLimit(license)
  {
  }

  /** `isAtUserLimit`: the error of `GetServerLimits` with false, or whether
      the active users reach a non-zero hard limit. */
  function IsAtUserLimit(license: Option<License>, lastAccessible: Result<int, AppError>,
                         userCount: Result<int, AppError>): (r: (bool, Option<AppError>))
    ensures GetServerLimits(license, lastAccessible, userCount).Failure? ==>
      r == (false, Some(GetServerLimits(license, lastAccessible, userCount).error))
    ensures GetServerLimits(license, lastAccessible, userCount).Success? ==> r.1.None?
    ensures r.0 <==>
      && GetServerLimits(license, lastAccessible, userCount).Success?
      && GetServerLimits(license, lastAccessible, userCount).value.maxUsersHardLimit != 0
      && userCount.value >= GetServerLimits(license, lastAccessible, userCount).value.maxUsersHardLimit
  {
    match GetServerLimits(license, lastAccessible, userCount)
    case Failure(e) => (false, Some(e))
    case Success(limits) =>
      if limits.maxUsersHardLimit == 0 then (false, None)
      else (limits.activeUserCount >= limits.maxUsersHardLimit, None)
  }

  /** Without a license the server is at its limit from 250 active users on. */
  lemma UnlicensedUserLimit(count: int, lastAccessible: Result<int, AppError>)
    ensures IsAtUserLimit(None, lastAccessible, Success(count)) == (count >= 250, None)
  {
  }

  /** A license that names a user count of 0 never puts the server at its
      user limit. */
  lemma ZeroUserCountNeverAtLimit(license: Option<License>, lastAccessible: Result<int, AppError>, count: int)
    requires HasUserCount(license) && license.value.features.value.users.value == 0
    ensures !IsAtUserLimit(license, lastAccessible, Success(count)).0
  {
  }

  /** Under the open-source license both user limits are 999999999, there is
      no post-history limit and the post-time lookup is never consulted; the
      server is at its limit only from 999999999 active users on. */
  lemma OpenSourceLimits(now: int, lastAccessible: Result<int, AppError>, count: int)
    requires IsInt64(now)
    ensures var limits := GetServerLimits(Some(NewOpenSourceLicense(now)), lastAccessible, Success(count));
      && limits.Success?
      && limits.value.maxUsersLimit == 999999999 && limits.value.maxUsersHardLimit == 999999999
      && limits.value.postHistoryLimit == 0
      && limits == GetServerLimits(Some(NewOpenSourceLicense(now)), Failure(UserCountError), Success(count))
    ensures GetPostHistoryLimit(Some(NewOpenSourceLicense(now))) == 0
    ensures IsAtUserLimit(Some(NewOpenSourceLicense(now)), lastAccessible, Success(count)) == (count >= 999999999, None)
  {
  }

  /** The limits of a server whose license comes from the open-source
      manager (`a.License()` answered by `GetLicense`). */
  method ManagedServerLimits(m: OpenSourceLicenseManager, now: int, lastAccessible: Result<int, AppError>,
                             userCount: Result<int, AppError>) returns (r: Result<ServerLimits, AppError>)
    requires IsInt64(now) && m.license == NewOpenSourceLicense(now)
    ensures userCount.Failure? ==> r == Failure(UserCountError)
    ensures userCount.Success? ==>
      r.Success? && r.value.maxUsersLimit == 999999999 && r.value.maxUsersHardLimit == 999999999
      && r.value.postHistoryLimit == 0 && r.value.activeUserCount == userCount.value
  {
    var license := m.GetLicense();
    r := GetServerLimits(license, lastAccessible, userCount);
  }
}
