/** The generic OpenID Connect provider: the mapping from the Standard
    Claims of a UserInfo response (section 5.1 of OpenID Connect Core 1.0) to
    a local user, and the completion of the provider's endpoints from a
    discovery document (section 3 of OpenID Connect Discovery 1.0). */
module OpenId {
  import opened Common
  import opened Text

  /** The auth service name `model.ServiceOpenid`. */
  const ServiceOpenId := "openid"

  /** The claims the provider reads; `emailVerified` is decoded but unused. */
  datatype Claims = Claims(
    sub: string, email: string, emailVerified: bool,
    preferredUsername: string, name: string, givenName: string, familyName: string)

  /** The fields of the local user that the mapping fills. */
  datatype OidcUser = OidcUser(
    username: string, email: string, firstName: string, lastName: string,
    authData: string, authService: string)

  const BothEmpty := "openid user: both sub and email are empty"

  /** The part of the e-mail before its first '@', when there is an '@'
      and it is not the first character. */
  function LocalPart(email: string): (r: Option<string>)
    ensures r.Some? <==> '@' in email && email[0] != '@'
    ensures r.Some? ==>
      && r.value != "" && '@' !in r.value && |r.value| < |email|
      && email[..|r.value|] == r.value && email[|r.value|] == '@'
  {
    var at := IndexOf(email, '@');
    if at > 0 then Some(email[..at]) else None
  }

  /** The name handed to `clean`: preferred_username, else the e-mail's
      local part, else the subject. */
  function UsernameInput(oi: Claims): (r: string)
    ensures oi.preferredUsername != "" ==> r == oi.preferredUsername
    ensures oi.preferredUsername == "" && LocalPart(oi.email).Some? ==> r == LocalPart(oi.email).value
    ensures oi.preferredUsername == "" && LocalPart(oi.email).None? ==> r == oi.sub
  {
    if oi.preferredUsername != "" then oi.preferredUsername
    else
      var at := IndexOf(oi.email, '@');
      if oi.email != "" && at > 0 then oi.email[..at] else oi.sub
  }

  /** The e-mail of the user: the claim in lower case, or one made up from
      the subject; never any upper-case letter. */
  function ResolvedEmail(oi: Claims): (r: string)
    ensures oi.email != "" ==> r == Lower(oi.email)
    ensures oi.email == "" ==> r == "oidc_" + Lower(oi.sub) + "@oidc.local"
    ensures forall i :: 0 <= i < |r| ==> !IsAsciiUpper(r[i])
  {
    LowerAppend("oidc_" + oi.sub, "@oidc.local");
    LowerAppend("oidc_", oi.sub);
    if oi.email != "" then Lower(oi.email) else Lower("oidc_" + oi.sub + "@oidc.local")
  }

  /** First and last name: given/family verbatim when either is set, else
      `name` split at white space into its first field and the rest. */
  function SplitName(oi: Claims): (r: (string, string))
    ensures oi.givenName != "" || oi.familyName != "" ==> r == (oi.givenName, oi.familyName)
    ensures oi.givenName == "" && oi.familyName == "" && |Fields(oi.name)| >= 2 ==>
      r == (Fields(oi.name)[0], Join(Fields(oi.name)[1..], " "))
    ensures oi.givenName == "" && oi.familyName == "" && |Fields(oi.name)| < 2 ==> r == (oi.name, "")
  {
    if oi.givenName != "" || oi.familyName != "" then (oi.givenName, oi.familyName)
    else if oi.name != "" then
      var parts := Fields(oi.name);
      if |parts| >= 2 then (parts[0], Join(parts[1..], " ")) else (oi.name, "")
    else ("", "")
  }

  /** `userFromOpenID`; `clean` is `model.CleanUsername`. */
  function UserFromOpenId(clean: string -> string, oi: Claims): (r: Result<OidcUser, string>)
    // No identity at all is the only failure.
    ensures r.Failure? <==> oi.sub == "" && oi.email == ""
    ensures r.Failure? ==> r.error == BothEmpty
    ensures r.Success? ==>
      && r.value.username == clean(UsernameInput(oi))
      && r.value.email == ResolvedEmail(oi)
      && (r.value.firstName, r.value.lastName) == SplitName(oi)
      // Linkage: the subject, or the resolved e-mail without one.
      && r.value.authData == (if oi.sub != "" then oi.sub else r.value.email)
      && r.value.authService == ServiceOpenId
  {
    if oi.sub == "" && oi.email == "" then Failure(BothEmpty)
    else
      var email := ResolvedEmail(oi);
      var (first, last) := SplitName(oi);
      Success(OidcUser(clean(UsernameInput(oi)), email, first, last, if oi.sub != "" then oi.sub else email, ServiceOpenId))
  }

  /** The best-effort split loses nothing but white space: the first and last
      names, glued with one space, have the same fields as `name`. */
  lemma NameSplitKeepsFields(clean: string -> string, oi: Claims)
    requires oi.sub != "" || oi.email != ""
    requires oi.givenName == "" && oi.familyName == ""
    ensures var u := UserFromOpenId(clean, oi).value;
      Fields(u.firstName + " " + u.lastName) == Fields(oi.name)
  {
    var parts := Fields(oi.name);
    if |parts| >= 2 {
      assert Join(parts, " ") == parts[0] + " " + Join(parts[1..], " ");
      FieldsOfJoin(parts);
    } else {
      assert oi.name + " " + "" == oi.name + " ";
      FieldsTrailingSpace(oi.name);
    }
  }

  /** Two claim sets with the same non-empty subject are linked to the same
      local identity, whatever their other claims. */
  lemma SubjectDeterminesAuthData(clean: string -> string, a: Claims, b: Claims)
    requires a.sub != "" && a.sub == b.sub
    ensures UserFromOpenId(clean, a).Success? && UserFromOpenId(clean, b).Success?
    ensures UserFromOpenId(clean, a).value.authData == UserFromOpenId(clean, b).value.authData
  {
  }

  // ---------------------------------------------------------------------------
  // Endpoint discovery

  /** The provider's settings: the three endpoints, the discovery endpoint
      (each may be unset), and the remaining settings, which are carried
      along untouched. */
  datatype SsoSettings = SsoSettings(
    authEndpoint: Option<string>, tokenEndpoint: Option<string>, userApiEndpoint: Option<string>,
    discoveryEndpoint: Option<string>, others: map<string, string>)

  /** The provider metadata read from the discovery document. */
  datatype DiscoveryDoc = DiscoveryDoc(authorizationEndpoint: string, tokenEndpoint: string, userinfoEndpoint: string)

  /** The answer to the GET of the discovery endpoint: a transport error, or a
      status with its status line and the decoded body (or the decode error). */
  datatype DiscoveryReply =
    | FetchFailed(reason: string)
    | Fetched(status: int, statusLine: string, body: Result<DiscoveryDoc, string>)

  /** A setting that is set and not empty. */
  predicate Present(o: Option<string>) {
    o.Some? && o.value != ""
  }

  predicate Complete(s: SsoSettings) {
    Present(s.authEndpoint) && Present(s.tokenEndpoint) && Present(s.userApiEndpoint)
  }

  function FillMissing(o: Option<string>, found: string): (r: Option<string>)
    ensures Present(o) ==> r == o
    ensures !Present(o) ==> r == Some(found)
  {
    if Present(o) then o else Some(found)
  }

  /** `GetSSOSettings`: the settings as they are when all three endpoints are
      set or no discovery endpoint is configured; otherwise the settings with
      their missing endpoints filled from the discovery document. */
  function GetSsoSettings(config: SsoSettings, reply: DiscoveryReply): (r: Result<SsoSettings, string>)
    ensures Complete(config) ==> r == Success(config)
    ensures !Present(config.discoveryEndpoint) ==> r == Success(config)
    ensures !Complete(config) && Present(config.discoveryEndpoint) ==>
      match reply
      case FetchFailed(reason) => r == Failure(reason)
      case Fetched(status, line, body) =>
        if status < 200 || status >= 300 then r == Failure("oidc discovery failed: " + line)
        else if body.Failure? then r == Failure(body.error)
        else
          && r.Success?
          && r.value.discoveryEndpoint == config.discoveryEndpoint
          && r.value.others == config.others
          && (Present(config.authEndpoint) ==> r.value.authEndpoint == config.authEndpoint)
          && (!Present(config.authEndpoint) ==> r.value.authEndpoint == Some(body.value.authorizationEndpoint))
          && (Present(config.tokenEndpoint) ==> r.value.tokenEndpoint == config.tokenEndpoint)
          && (!Present(config.tokenEndpoint) ==> r.value.tokenEndpoint == Some(body.value.tokenEndpoint))
          && (Present(config.userApiEndpoint) ==> r.value.userApiEndpoint == config.userApiEndpoint)
          && (!Present(config.userApiEndpoint) ==> r.value.userApiEndpoint == Some(body.value.userinfoEndpoint))
  {
    if Complete(config) then Success(config)
    else if !Present(config.discoveryEndpoint) then Success(config)
    else
      match reply
      case FetchFailed(reason) => Failure(reason)
      case Fetched(status, line, body) =>
        if status < 200 || status >= 300 then Failure("oidc discovery failed: " + line)
        else
          match body
          case Failure(e) => Failure(e)
          case Success(doc) =>
            Success(config.(
              authEndpoint := FillMissing(config.authEndpoint, doc.authorizationEndpoint),
              tokenEndpoint := FillMissing(config.tokenEndpoint, doc.tokenEndpoint),
              userApiEndpoint := FillMissing(config.userApiEndpoint, doc.userinfoEndpoint)))
  }

  /** A merge with a document that names all three endpoints completes the
      settings, so asking again returns them as they are without any fetch. */
  lemma DiscoveryCompletes(config: SsoSettings, status: int, line: string, doc: DiscoveryDoc, again: DiscoveryReply)
    requires Present(config.discoveryEndpoint) && 200 <= status < 300
    requires doc.authorizationEndpoint != "" && doc.tokenEndpoint != "" && doc.userinfoEndpoint != ""
    ensures GetSsoSettings(config, Fetched(status, line, Success(doc))).Success?
    ensures var merged := GetSsoSettings(config, Fetched(status, line, Success(doc))).value;
      Complete(merged) && GetSsoSettings(merged, again) == Success(merged)
  {
  }

  /** An endpoint that is already set is never replaced by discovery. */
  lemma PresentEndpointsKept(config: SsoSettings, reply: DiscoveryReply)
    requires GetSsoSettings(config, reply).Success?
    ensures var r := GetSsoSettings(config, reply).value;
      && (Present(config.authEndpoint) ==> r.authEndpoint == config.authEndpoint)
      && (Present(config.tokenEndpoint) ==> r.tokenEndpoint == config.tokenEndpoint)
      && (Present(config.userApiEndpoint) ==> r.userApiEndpoint == config.userApiEndpoint)
  {
  }
}
