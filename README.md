# Odoo login, OpenID mapping and open-source licensing — a Dafny model

This project models the login and identity code of a Mattermost server fork. It also models the small license and limit rules beside that code.

- **Odoo login** (`loginOdoo`). The handler checks its configuration and request body. It authenticates the credentials against an Odoo server over JSON-RPC and classifies the reply. It fetches the Odoo user's profile and derives the local identity `odoo_<uid>@odoo.local`. It finds or creates the local user and issues a session. Finally it mirrors the user's Odoo companies as open teams, slugified by name, and joins the user to each one. A user who is both system and admin in Odoo is also made team admin.
  - The local store is the class `OdooLogin.Store`. Its users, teams, memberships, roles and sessions are fields that the methods update.
  - The team-sync loop is proved against the specification function `SyncAll`.
  - `slugify` is a method whose loops are proved equal to a composition of stage functions. Its shape, emptiness and idempotence are then proved about those functions.
- **OpenID Connect** (`userFromOpenID`, `GetSSOSettings`). The Standard Claims of section 5.1 of OpenID Connect Core 1.0 are mapped to a local user. Missing endpoints are filled from the provider metadata of section 3 of OpenID Connect Discovery 1.0.
- **Licensing**. The permanent open-source license, its recognising predicate, and the license manager of an open-source build (a class with one immutable field). The server limits are chosen from the license. One cross-file fact is proved: under the open-source license both user limits are 999999999.

Collaborators whose code is not part of this model are inputs:
- HTTP exchanges with Odoo and the discovery endpoint, as decoded replies;
- the environment, as an `Env` value;
- `model.CleanUsername`, as a function parameter;
- `model.NewId`, as a string of at least 12 characters;
- the id the store assigns to a new user;
- whether `CreateUser`, `DoLogin`, `CreateTeam`, `AddUserToTeam` or `UpdateTeamMemberRoles` fail, as failure oracles (`Collaborators`);
- the store's user count and `GetLastAccessiblePostTime`, as `Result` values;
- the clock, as `now`.

Files: `common.dfy` (Option, Result, AppError), `text.dfy` (the Go string and number functions used: ToLower, TrimSpace, Trim, Contains, Index, Fields, Join, Atoi, `%d`), `odoo_slug.dfy`, `odoo_rpc.dfy`, `odoo_login.dfy`, `openid.dfy`, `license.dfy`, `license_manager.dfy`, `limits.dfy`.

## Model

| member | source | states |
|---|---|---|
| OdooRpc.TimeoutMs | server/channels/api4/odoo_login.go:92-97 | the timeout is positive: the env value when it parses as a positive integer, else 8000 |
| OdooRpc.TimeoutRoundTrip | server/channels/api4/odoo_login.go:93-96 | any positive int64 written in decimal is taken as the timeout |
| OdooRpc.LoadConfig | server/channels/api4/odoo_login.go:63-97 | success exactly when the base URL, the DB, the body and both credentials are present, and every failure is a 400 or a 500; 500 exactly when the base URL (trailing '/' trimmed) or the DB is empty, checked before the body; 400 exactly when the body is absent or a credential is empty; on success the base URL is the env value minus trailing slashes and ends in no '/', the RPC path defaults to "/jsonrpc", and the timeout is as above |
| OdooRpc.ConfigErrorIgnoresBody | server/channels/api4/odoo_login.go:63-72 | a configuration error does not depend on the request body |
| OdooRpc.Authenticate | server/channels/api4/odoo_login.go:232-296 | every failure is a 502; an HTTP 401/403 reply is uid 0 without error; an RPC error is uid 0 exactly when its message or data match the rejection keywords, else an upstream_error carrying the message; an undecodable envelope is a 502 decode_error; with no RPC error, an empty or `null` result is uid 0 without error, a decoded result is returned as it is, and an undecodable one is a 502 decode_uid_error; a non-zero uid only comes from a decoded result |
| OdooRpc.MessageRejects | server/channels/api4/odoo_login.go:254-257 | a message is a rejection exactly when its lower-cased form contains one of the five rejection keywords |
| OdooRpc.DataRejects | server/channels/api4/odoo_login.go:259-271 | error data is a rejection exactly when it is an object whose string `name` mentions "accessdenied" or whose string `message` mentions "access denied" or "invalid", in any case; data that is not an object never is |
| OdooRpc.ErrorMeansRejected | server/channels/api4/odoo_login.go:252-272 | an error is a rejection exactly when its message matches or its data matches: a matching message alone suffices, matching object data alone suffices, and when the data is not an object the message alone decides |
| OdooRpc.DataMessageRejects | server/channels/api4/odoo_login.go:266-270 | error data whose `message` contains "access denied" or "invalid" in any case is a rejection, whatever the error's own message |
| OdooRpc.OtherDataIgnored | server/channels/api4/odoo_login.go:259-272 | object data without `name` and `message` members leaves the decision to the error's message |
| OdooRpc.KeywordInAnyCaseRejects | server/channels/api4/odoo_login.go:254-257 | a message containing a rejection keyword in any mix of upper and lower case is a rejection |
| OdooRpc.AccessDeniedNameRejects | server/channels/api4/odoo_login.go:259-265 | error data whose `name` contains "accessdenied" in any case is a rejection |
| OdooRpc.UnclassifiedErrorIsUpstream | server/channels/api4/odoo_login.go:252-273 | an RPC error matching no keyword is a 502 upstream_error with the RPC message |
| OdooRpc.GetString | server/channels/api4/odoo_login.go:338-345 | a row's field when it is present and a string, else "" |
| OdooRpc.FetchProfile | server/channels/api4/odoo_login.go:298-350 | success exactly when the envelope decodes without RPC error into a non-empty row list; failures are 401 or 502; an undecodable envelope is a 502 decode_error and an undecodable row list a 502 decode_user_error; 401 user_not_found exactly for an empty result or no rows; an RPC error is a 502 with its message; otherwise name, login and email are the string fields of the first row, "" when missing or not strings |
| OdooSlug.Slugify | server/channels/api4/odoo_login.go:471-496 | the loops compute exactly `Slug`: trimmed and lower-cased, separators to '-', invalid characters dropped, '-' trimmed, "--" collapsed |
| OdooSlug.FilterSlugChars | server/channels/api4/odoo_login.go:480-486 | the builder loop keeps exactly the characters in [a-z0-9-], in order |
| OdooSlug.CollapseDashes | server/channels/api4/odoo_login.go:491-494 | the replace loop ends with every run of dashes squeezed to one dash |
| OdooSlug.SlugShape | server/channels/api4/odoo_login.go:470-496 | a slug holds only 'a'-'z', '0'-'9' and '-', and a non-empty one neither starts nor ends with '-' nor contains "--" |
| OdooSlug.SlugEmptyIff | server/channels/api4/odoo_login.go:472-490 | the slug is empty exactly when the name has no ASCII letter or digit |
| OdooSlug.SlugKeepsAlnum | server/channels/api4/odoo_login.go:472-495 | a name holding any ASCII letter or digit has a non-empty slug |
| OdooSlug.SlugIdempotent | server/channels/api4/odoo_login.go:471-496 | slugifying a slug changes nothing |
| OdooSlug.SlugExample | server/channels/api4/odoo_login.go:471-496 | "Co Ltd" gives "co-ltd" |
| OdooLogin.OdooEmail | server/channels/api4/odoo_login.go:138 | the local address is `odoo_<uid>@odoo.local`; the fetched e-mail is not used |
| OdooLogin.OdooEmailInjective | server/channels/api4/odoo_login.go:138 | distinct Odoo uids get distinct local addresses |
| OdooLogin.LoginName | server/channels/api4/odoo_login.go:135-137 | the fetched login, or the identifier when that is empty; never empty |
| OdooLogin.NewUsername | server/channels/api4/odoo_login.go:146-153 | the cleaned part of the login before the first '@', or the first 12 characters of a fresh id when cleaning gives "" |
| OdooLogin.LocalUser | server/channels/api4/odoo_login.go:139-153 | the user stored under the Odoo address, or a new user with that address, the profile name as first name, auth service "odoo" and the derived username |
| OdooLogin.Preflight | server/channels/api4/odoo_login.go:63-133 | success exactly when configuration, authenticate (with uid not 0) and the profile fetch all succeed, and then it carries their results; otherwise the error of the first step that fails: the configuration error, the authenticate error, 401 invalid_credentials for uid 0, then the profile error |
| OdooLogin.RejectedLoginIgnoresProfile | server/channels/api4/odoo_login.go:120-128 | after uid 0 the outcome does not depend on the profile reply, which is never fetched |
| OdooLogin.Eligible | server/channels/api4/odoo_login.go:176-184 | a company is kept exactly when its id is not 0 and its name is not empty |
| OdooLogin.AllowedCompanies | server/channels/api4/odoo_login.go:176-184 | the loop keeps exactly the eligible companies, in order |
| OdooLogin.SyncOnlyAdds | server/channels/api4/odoo_login.go:186-218 | syncing never removes or changes a team, membership or role, keeps teams keyed by name, and adds entries only for this user |
| OdooLogin.SyncNewTeamsComeFromCompanies | server/channels/api4/odoo_login.go:188-205 | every new team is named slugify(name) of some company and shows that name, as an open team; every membership is in an existing team; every added membership is this user's in the team of some company's slug whose join did not fail, and every added team-admin role is this user's in such a team, only under elevation and where the role call did not fail |
| OdooLogin.SyncJoinsEachCompany | server/channels/api4/odoo_login.go:187-217 | a company with a non-empty slug whose create and join succeed ends with its team and the membership, whatever happened to the other companies; with elevation and a successful role call, also team admin |
| OdooLogin.SyncRetryIdempotent | server/channels/api4/odoo_login.go:186-218 | running the sync again with the same companies and the same collaborator answers changes nothing: every turn finds its team, membership and role already in place |
| OdooLogin.SyncWithoutElevationGrantsNoAdmin | server/channels/api4/odoo_login.go:212-216 | team admin is granted only when IsSystem and IsAdmin both hold |
| OdooLogin.SyncSkipsEmptyTarget | server/channels/api4/odoo_login.go:188-191 | a loop turn whose team name is empty changes nothing, wherever it falls in the loop |
| OdooLogin.SyncSkipsEmptySlug | server/channels/api4/odoo_login.go:188-191 | a company whose name has no ASCII letter or digit changes nothing, wherever it appears among the companies |
| OdooLogin.Store.FindOrCreateUser | server/channels/api4/odoo_login.go:139-162 | an existing user is returned unchanged with created false; otherwise the new user (auth service "odoo") is stored and created is true, or the create error is returned with nothing stored |
| OdooLogin.Store.IssueSession | server/channels/api4/odoo_login.go:164-172 | a session is recorded exactly when DoLogin does not fail |
| OdooLogin.Store.SyncOne | server/channels/api4/odoo_login.go:188-216 | one turn of the team loop changes the store exactly as `SyncStep` says |
| OdooLogin.Store.SyncTeams | server/channels/api4/odoo_login.go:186-218 | the loop leaves the teams, memberships and roles exactly as `SyncAll` over the companies' slugs says |
| OdooLogin.Store.CompleteLogin | server/channels/api4/odoo_login.go:135-229 | after the remote steps: a create failure changes nothing; a session failure keeps a newly created user; otherwise the session is recorded, the teams are synced from the eligible companies, and the response carries the user's id, username, local address and created flag |
| OdooLogin.Store.LoginOdoo | server/channels/api4/odoo_login.go:61-230 | a failure before the user lookup changes nothing; a create failure changes nothing; a session failure keeps a newly created user; on success the response carries the user's id, username, local address and created flag, and the teams are synced from the eligible companies |
| OpenId.LocalPart | server/channels/app/oauthproviders/openid/openid.go:52-57 | there is a local part exactly when the e-mail has an '@' not at position 0; it is the non-empty text before the first '@' |
| OpenId.UsernameInput | server/channels/app/oauthproviders/openid/openid.go:50-60 | preferred_username, else the e-mail's local part, else the subject |
| OpenId.ResolvedEmail | server/channels/app/oauthproviders/openid/openid.go:63-68 | the claim lower-cased, or "oidc_" + lower(sub) + "@oidc.local"; never an upper-case letter |
| OpenId.SplitName | server/channels/app/oauthproviders/openid/openid.go:70-83 | given/family verbatim when either is set; else the first field of `name` and the rest joined by single spaces; with fewer than two fields, `name` and "" |
| OpenId.UserFromOpenId | server/channels/app/oauthproviders/openid/openid.go:43-94 | an error exactly when both sub and email are empty; otherwise the cleaned username, the resolved e-mail and names, AuthData the subject or else the e-mail, AuthService "openid" |
| OpenId.NameSplitKeepsFields | server/channels/app/oauthproviders/openid/openid.go:74-83 | first and last name joined by a space have the same fields as `name` |
| OpenId.SubjectDeterminesAuthData | server/channels/app/oauthproviders/openid/openid.go:85-90 | claims with the same non-empty subject link to the same AuthData |
| OpenId.GetSsoSettings | server/channels/app/oauthproviders/openid/openid.go:117-162 | unchanged when all three endpoints are set or no discovery endpoint is configured; a transport, non-2xx or decode failure is an error; otherwise only unset or empty endpoints are filled from the document |
| OpenId.DiscoveryCompletes | server/channels/app/oauthproviders/openid/openid.go:118-161 | after a merge with a complete document, asking again returns the merged settings without using the reply |
| OpenId.PresentEndpointsKept | server/channels/app/oauthproviders/openid/openid.go:150-161 | an endpoint that is already set is never replaced |
| LicenseModel.WrapInt64 | server/public/model/opensource_license.go:19 | the sum is taken modulo 2^64 into the int64 range, unchanged when it fits |
| LicenseModel.NewOpenSourceLicense | server/public/model/opensource_license.go:16-64 | id "opensource-permanent", issued and starting at `now`, expiring a hundred years later with int64 wrap; not a trial or gov SKU; 999999999 users; the 30 listed flags, all true but Cloud; no limits |
| LicenseModel.IsOpenSourceLicense | server/public/model/opensource_license.go:66-69 | false for a nil license; otherwise true exactly when the id is "opensource-permanent", whatever the other fields |
| LicenseModel.ValidForHundredYears | server/public/model/opensource_license.go:17-25 | ExpiresAt − IssuedAt is 3153600000000 ms unless the sum overflows int64, in which case the expiry lies before the issue time |
| LicenseModel.NewLicenseIsOpenSource | server/public/model/opensource_license.go:66-69 | the new license is recognised as the open-source license; a nil license is not |
| LicenseModel.OnlyCloudIsOff | server/public/model/opensource_license.go:30-62 | of the listed flags, exactly Cloud is false |
| LicenseModel.FlagNamesDistinct | server/public/model/opensource_license.go:32-61 | thirty distinct flags are set |
| LicenseManager.OpenSourceLicenseManager.constructor | server/einterfaces/opensource_license.go:26-30 | the manager holds the license built by NewOpenSourceLicense |
| LicenseManager.OpenSourceLicenseManager.GetLicense | server/einterfaces/opensource_license.go:33-35 | returns the held license, never nil |
| LicenseManager.OpenSourceLicenseManager.IsLicensed | server/einterfaces/opensource_license.go:38-40 | always true |
| LicenseManager.OpenSourceLicenseManager.HasFeature | server/einterfaces/opensource_license.go:43-45 | true for every feature name |
| LicenseManager.OpenSourceLicenseManager.CanStartTrial | server/einterfaces/opensource_license.go:48-50 | false, without error |
| LicenseManager.OpenSourceLicenseManager.GetPrevTrial | server/einterfaces/opensource_license.go:53-55 | no license, without error |
| LicenseManager.OpenSourceLicenseManager.NewMattermostEntryLicense | server/einterfaces/opensource_license.go:58-60 | the held license, for any server id |
| Limits.GetServerLimits | server/channels/app/limits.go:17-53 | 200/250 without a user count in the license, else both limits the licensed count; post history and last accessible time only with license limits, whose lookup failure is returned first; a store count failure is a 500 |
| Limits.GetPostHistoryLimit | server/channels/app/limits.go:54-62 | 0 without license limits, else the licensed post history |
| Limits.PostHistoryAgrees | server/channels/app/limits.go:35-61 | the post-history limit agrees with the one GetServerLimits reports |
| Limits.IsAtUserLimit | server/channels/app/limits.go:64-75 | a limits error is returned with false; otherwise true exactly when the hard limit is non-zero and the active count reaches it |
| Limits.UnlicensedUserLimit | server/channels/app/limits.go:12-75 | without a license the server is at its limit from 250 active users |
| Limits.ZeroUserCountNeverAtLimit | server/channels/app/limits.go:70-72 | a licensed user count of 0 never puts the server at its limit |
| Limits.OpenSourceLimits | server/channels/app/limits.go:17-75 | under the open-source license both user limits are 999999999, post history is 0, the post-time lookup is never consulted, and the server is at its limit only from 999999999 users |
| Limits.ManagedServerLimits | server/channels/app/limits.go:17-53 | with the license answered by the open-source manager, the limits are 999999999 and post history 0, or the store error |

## Left out

- HTTP, environment and JSON plumbing. Request building, `http.Client`, `os.Getenv`, JSON encoding and decoding, and response writing are outside the model. The decoded replies, the environment and the claims are inputs. A body that does not decode is `None`.
- Float-to-int conversion of JSON numbers. Ids and uids are integers.
- `fetchOdooUserCompaniesAndRoles` (server/channels/api4/odoo_login.go:359-468) is not modelled, because `loginOdoo` never calls it.
- The typed-versus-map fallback decode of the authenticate result. Decoding happens outside the model: an authenticate result is either a decoded record, no result, or undecodable.
- Unicode. `strings.ToLower`, `strings.TrimSpace` and `strings.Fields` are modelled over ASCII: upper-case A-Z, and white space of space, tab, newline, carriage return, vertical tab and form feed. Go also lower-cases non-ASCII letters and treats Unicode spaces as white space.
- The order of `AllowedCompanies`. Go ranges over a map in an unspecified order; the model takes the companies as an arbitrary sequence. The sync does not give the same result for every order: when two companies share a slug, the team is created with the first one's name as display name. OdooLogin.SyncRetryIdempotent therefore covers a retry with the same order only.
- `model.CleanUsername` and `model.NewId` are not part of this model. They are inputs.
- Store, team and session calls are oracles. The model stores teams by name, not by generated id. A team found by `GetTeamByName` is the stored team of that name.
- OdooLogin.Store.FindOrCreateUser and OdooLogin.Store.SyncOne model the lookups `GetUserByEmail` and `GetTeamByName` as never failing except by absence. The source treats any lookup error as "absent" and goes on to `CreateUser` or `CreateTeam` (server/channels/api4/odoo_login.go:140-142 and 192-200). What that create then does with an existing e-mail or team name is decided by the store's uniqueness rules, which are not part of this model.
- OdooLogin.Collaborators gives the outcome of `CreateTeam`, `AddUserToTeam` and `UpdateTeamMemberRoles` per team name for the whole login. Two companies with the same slug therefore see the same outcome, while in the source each call answers on its own.
- OdooRpc.TimeoutMs stops at the millisecond count. The conversion `time.Duration(timeoutMs) * time.Millisecond` (server/channels/api4/odoo_login.go:99) wraps the nanosecond int64 above 9223372036854 ms, which can switch off or distort the client timeout; the HTTP client is not part of this model.
- OdooLogin.Store.LoginOdoo does not model the response's `updated_fields`, which is always empty, or `Sanitize`, which only clears fields the response does not carry.
- Concurrent logins racing to create the same user are not modelled; that relies on the store's uniqueness constraints.
- OpenID extras: the `init` registration and its `Println`, the stub `GetUserFromIdToken`, and `IsSameUser`. `IsSameUser` compares `*string` pointers by identity, so it has no value semantics to state.
- `GetUserFromJSON` is only decoding followed by `userFromOpenID`; the decode step is outside the model.
- `OpenSourceLicense` (the struct type) is not used by the code; only `License` is modelled, and only the fields this code sets or reads.
- `server/channels/app/platform/license.go` and `opensource_license_init.go` are not part of this model. They are stubs, a constant map, delegation and startup registration.
- `GetMillis` is not modelled; the clock is the parameter `now`.
- Limits.GetServerLimits does not model the `Wrap` chaining of the store error, only the wrapping error itself.
- Logging throughout is not modelled.
