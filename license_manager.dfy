/** The license manager of an open-source build: it holds the license it was
    created with, never changes it, and answers every licensing question in
    the most permissive way. */
module LicenseManager {
  import opened Common
  import opened LicenseModel

  class OpenSourceLicenseManager {
    /** Set once by the constructor. */
    const license: License

    /** `NewOpenSourceLicenseManager`, at time `now`. */
    constructor (now: int)
      requires IsInt64(now)
      ensures license == NewOpenSourceLicense(now)
    {
      license := NewOpenSourceLicense(now);
    }

    /** The license the manager was built with; never nil. */
    method GetLicense() returns (l: Option<License>)
      ensures l == Some(license)
    {
      l := Some(license);
    }

    method IsLicensed() returns (r: bool)
      ensures r
    {
      r := true;
    }

    /** Every feature counts as licensed, whatever its flag in the license. */
    method HasFeature(feature: string) returns (r: bool)
      ensures r
    {
      r := true;
    }

    /** No trial can be started, and that is not an error. */
    method CanStartTrial() returns (ok: bool, err: Option<string>)
      ensures !ok && err.None?
    {
      ok, err := false, None;
    }

    /** There is no previous trial, and that is not an error. */
    method GetPrevTrial() returns (l: Option<License>, err: Option<string>)
      ensures l.None? && err.None?
    {
      l, err := None, None;
    }

    /** The entry license is the open-source license, whatever the server. */
    method NewMattermostEntryLicense(serverId: string) returns (l: Option<License>)
      ensures l == Some(license)
    {
      l := Some(license);
    }
  }
}
