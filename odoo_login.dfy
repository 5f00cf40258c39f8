/** `loginOdoo`: authenticate against Odoo, derive the local identity,
    find or create the local user, issue a session and mirror the user's
    Odoo companies as teams. The local store is a class whose maps and sets the
    handler updates; the store's collaborators answer through `Collaborators`. */
module OdooLogin {
  import opened Common
  import opened Text
  import opened OdooSlug
  import opened OdooRpc

  datatype User = User(id: string, username: string, email: string, firstName: string, authService: string)

  /** A team; `open` is the team type `TeamOpen`. */
  datatype Team = Team(name: string, displayName: string, open: bool)

  /** The JSON answer of a successful login (`updated_fields` is always empty). */
  datatype LoginResponse = LoginResponse(userId: string, username: string, email: string, created: bool)

  /** How the collaborators whose code is not part of this model answer during
      one login: `model.CleanUsername`, `model.NewId`, the id the store gives a
      new user, whether `CreateUser` and `DoLogin` fail, and which team names
      `CreateTeam`, `AddUserToTeam` and `UpdateTeamMemberRoles` fail for. */
  datatype Collaborators = Collaborators(
    cleanUsername: string -> string,
    newId: string,
    assignedUserId: string,
    createUserError: Option<AppError>,
    sessionError: Option<AppError>,
    failCreateTeam: set<string>,
    failJoin: set<string>,
    failSetAdmin: set<string>)

  const OdooService := "odoo"
  const InvalidCredentials := AppError("loginOdoo", "api.user.login.invalid_credentials_email_username", "", StatusUnauthorized)

  // ---------------------------------------------------------------------------
  // Local identity

  /** The local e-mail address of Odoo user `uid`: `odoo_<uid>@odoo.local`. */
  function OdooEmail(uid: int): (e: string)
    ensures |e| == 16 + |FormatInt(uid)|
    ensures e[..5] == "odoo_" && e[|e| - 11..] == "@odoo.local"
    ensures e[5..|e| - 11] == FormatInt(uid)
  {
    "odoo_" + FormatInt(uid) + "@odoo.local"
  }

  /** Two Odoo users never share a local e-mail address. */
  lemma OdooEmailInjective(a: int, b: int)
    ensures OdooEmail(a) == OdooEmail(b) ==> a == b
  {
    if OdooEmail(a) == OdooEmail(b) {
      FormatIntInjective(a, b);
    }
  }

  /** The login name: Odoo's `login`, or the submitted identifier when that is empty. */
  function LoginName(profileLogin: string, identifier: string): (r: string)
    ensures identifier != "" ==> r != ""
    ensures r == profileLogin || (profileLogin == "" && r == identifier)
  {
    if profileLogin == "" then identifier else profileLogin
  }

  /** The username of a new user: the cleaned part of the login name before
      the first '@', or the first 12 characters of a fresh id when cleaning
      leaves nothing. */
  function NewUsername(login: string, co: Collaborators): (r: string)
    requires |co.newId| >= 12
    ensures r != ""
    ensures r == co.cleanUsername(BeforeFirst(login, '@')) || r == co.newId[..12]
    ensures co.cleanUsername(BeforeFirst(login, '@')) != "" ==> r == co.cleanUsername(BeforeFirst(login, '@'))
  {
    var u := co.cleanUsername(BeforeFirst(login, '@'));
    if u == "" then co.newId[..12] else u
  }

  function NewUser(email: string, login: string, displayName: string, co: Collaborators): User
    requires |co.newId| >= 12
  {
    User(co.assignedUserId, NewUsername(login, co), email, displayName, OdooService)
  }

  // ---------------------------------------------------------------------------
  // The steps before any local change

  /** What the remote calls established: the configuration, the authenticate
      result (uid not 0) and the profile. */
  datatype Remote = Remote(config: Config, auth: OdooAuthResult, profile: Profile)

  /** Configuration, authenticate, the uid-0 check, then the profile fetch;
      the first failure wins. */
  function Preflight(env: Env, body: Option<LoginRequest>, authX: Exchange<AuthPayload>,
                     profileX: Exchange<RowsPayload>): (r: Result<Remote, AppError>)
    ensures r.Success? <==>
      LoadConfig(env, body).Success? && Authenticate(authX).Success?
      && Authenticate(authX).value.uid != 0 && FetchProfile(profileX).Success?
    ensures r.Success? ==>
      && r.value.auth.uid != 0 && r.value.auth == Authenticate(authX).value
      && r.value.config == LoadConfig(env, body).value && r.value.profile == FetchProfile(profileX).value
    // The first failing step decides the error.
    ensures LoadConfig(env, body).Failure? ==> r == Failure(LoadConfig(env, body).error)
    ensures LoadConfig(env, body).Success? && Authenticate(authX).Failure?
      ==> r == Failure(Authenticate(authX).error)
    ensures LoadConfig(env, body).Success? && Authenticate(authX).Success? && Authenticate(authX).value.uid == 0
      ==> r == Failure(InvalidCredentials)
    ensures
      && LoadConfig(env, body).Success? && Authenticate(authX).Success? && Authenticate(authX).value.uid != 0
      && FetchProfile(profileX).Failure?
      ==> r == Failure(FetchProfile(profileX).error)
  {
    match LoadConfig(env, body)
    case Failure(e) => Failure(e)
    case Success(config) =>
      match Authenticate(authX)
      case Failure(e) => Failure(e)
      case Success(auth) =>
        if auth.uid == 0 then Failure(InvalidCredentials)
        else
          match FetchProfile(profileX)
          case Failure(e) => Failure(e)
          case Success(profile) => Success(Remote(config, auth, profile))
  }

  /** A rejected authentication ends the login before the profile is
      fetched: the outcome is the same whatever the profile reply. */
  lemma RejectedLoginIgnoresProfile(env: Env, body: Option<LoginRequest>, authX: Exchange<AuthPayload>,
                                    p1: Exchange<RowsPayload>, p2: Exchange<RowsPayload>)
    requires Authenticate(authX).Success? && Authenticate(authX).value.uid == 0
    ensures Preflight(env, body, authX, p1) == Preflight(env, body, authX, p2)
    ensures Preflight(env, body, authX, p1).Failure?
  {
  }

  // ---------------------------------------------------------------------------
  // Companies and teams

  /** The companies that are synced: non-zero id and non-empty name. */
  function Eligible(cs: seq<Company>): (r: seq<Company>)
    ensures forall c :: c in r <==> c in cs && c.id != 0 && c.name != ""
    ensures |r| <= |cs|
  {
    if |cs| == 0 then []
    else
      var last := cs[|cs| - 1];
      assert cs == cs[..|cs| - 1] + [last];
      Eligible(cs[..|cs| - 1]) + (if last.id != 0 && last.name != "" then [last] else [])
  }

  /** The team part of the store: teams by name, memberships and team-admin
      roles as (team name, user id) pairs. */
  datatype Directory = Directory(teams: map<string, Team>, members: set<(string, string)>, admins: set<(string, string)>)

  /** What the loop does for one company: the team name `slugify` makes of
      the company's name, and the name itself as the team's display name. */
  datatype Target = Target(name: string, displayName: string)

  function TargetOf(c: Company): (t: Target)
    ensures t.displayName == c.name
  {
    Target(Slug(c.name), c.name)
  }

  function Targets(cs: seq<Company>): (ts: seq<Target>)
    ensures |ts| == |cs|
  {
    if |cs| == 0 then [] else Targets(cs[..|cs| - 1]) + [TargetOf(cs[|cs| - 1])]
  }

  /** The i-th target is the i-th company's. */
  lemma {:induction false} TargetsAt(cs: seq<Company>, i: int)
    requires 0 <= i < |cs|
    ensures Targets(cs)[i] == TargetOf(cs[i])
  {
    if i < |cs| - 1 {
      var init := cs[..|cs| - 1];
      TargetsAt(init, i);
      assert init[i] == cs[i];
    }
  }

  /** One more company of a prefix is one more target. */
  lemma TargetsPrefix(cs: seq<Company>, i: int)
    requires 0 <= i < |cs|
    ensures Targets(cs[..i + 1]) == Targets(cs[..i]) + [TargetOf(cs[i])]
  {
    assert cs[..i + 1][..i] == cs[..i];
  }

  /** Every company's target is among the targets. */
  lemma TargetsHas(cs: seq<Company>, c: Company)
    requires c in cs
    ensures TargetOf(c) in Targets(cs)
  {
    var i :| 0 <= i < |cs| && cs[i] == c;
    TargetsAt(cs, i);
  }

  /** Every target comes from one of the companies. */
  lemma TargetsFrom(cs: seq<Company>, t: Target)
    requires t in Targets(cs)
    ensures exists c :: c in cs && t == TargetOf(c)
  {
    var i :| 0 <= i < |cs| && Targets(cs)[i] == t;
    TargetsAt(cs, i);
    assert cs[i] in cs;
  }

  /** One turn of the sync loop: skip an empty name; find the team or create
      it (a failed create skips the company); join (a failed join skips the
      rest); elevate to team admin when asked (a failure is ignored). */
  function SyncStep(d: Directory, userId: string, t: Target, elevate: bool, co: Collaborators): Directory
  {
    var name := t.name;
    if name == "" then d
    else if name !in d.teams && name in co.failCreateTeam then d
    else
      var teams := if name in d.teams then d.teams else d.teams[name := Team(name, t.displayName, true)];
      if name in co.failJoin then d.(teams := teams)
      else
        var admins := if elevate && name !in co.failSetAdmin then d.admins + {(name, userId)} else d.admins;
        Directory(teams, d.members + {(name, userId)}, admins)
  }

  /** The sync loop over `ts`, in order. */
  function SyncAll(d: Directory, userId: string, ts: seq<Target>, elevate: bool, co: Collaborators): Directory
  {
    if |ts| == 0 then d
    else SyncStep(SyncAll(d, userId, ts[..|ts| - 1], elevate, co), userId, ts[|ts| - 1], elevate, co)
  }

  /** Syncing one more target is one more turn. */
  lemma SyncAllSnoc(d: Directory, userId: string, ts: seq<Target>, t: Target, elevate: bool, co: Collaborators)
    ensures SyncAll(d, userId, ts + [t], elevate, co) == SyncStep(SyncAll(d, userId, ts, elevate, co), userId, t, elevate, co)
  {
    assert (ts + [t])[..|ts|] == ts;
  }

  /** Teams are keyed by their name. */
  ghost predicate TeamsKeyed(teams: map<string, Team>) {
    forall n :: n in teams ==> teams[n].name == n
  }

  /** What the sync keeps: existing teams, memberships and roles stay; teams
      stay keyed by name; whatever is added is for this user. */
  ghost predicate OnlyAdds(d: Directory, d': Directory, userId: string) {
    && (forall n :: n in d.teams ==> n in d'.teams && d'.teams[n] == d.teams[n])
    && d.members <= d'.members && d.admins <= d'.admins
    && (forall p :: p in d'.members - d.members ==> p.1 == userId)
    && (forall p :: p in d'.admins - d.admins ==> p.1 == userId)
    && (TeamsKeyed(d.teams) ==> TeamsKeyed(d'.teams))
  }

  lemma SyncStepOnlyAdds(d: Directory, userId: string, t: Target, elevate: bool, co: Collaborators)
    ensures OnlyAdds(d, SyncStep(d, userId, t, elevate, co), userId)
  {
  }

  /** Syncing never removes or alters an existing team, membership or role,
      keeps teams keyed by name, and only ever adds entries for this user. */
  lemma {:induction false} SyncOnlyAdds(d: Directory, userId: string, ts: seq<Target>, elevate: bool, co: Collaborators)
    ensures OnlyAdds(d, SyncAll(d, userId, ts, elevate, co), userId)
  {
    if |ts| > 0 {
      var mid := SyncAll(d, userId, ts[..|ts| - 1], elevate, co);
      SyncOnlyAdds(d, userId, ts[..|ts| - 1], elevate, co);
      SyncStepOnlyAdds(mid, userId, ts[|ts| - 1], elevate, co);
    }
  }

  /** Every new team is named after one of the targets and shows its display
      name; every membership is in a team that exists. */
  lemma {:induction false} SyncNewTeamsComeFromTargets(d: Directory, userId: string, ts: seq<Target>, elevate: bool, co: Collaborators)
    requires forall p :: p in d.members ==> p.0 in d.teams
    ensures var d' := SyncAll(d, userId, ts, elevate, co);
      && (forall n :: n in d'.teams && n !in d.teams ==>
            exists t :: t in ts && t.name == n && d'.teams[n] == Team(n, t.displayName, true))
      && (forall p :: p in d'.members ==> p.0 in d'.teams)
  {
    if |ts| > 0 {
      var init := ts[..|ts| - 1];
      var last := ts[|ts| - 1];
      var mid := SyncAll(d, userId, init, elevate, co);
      SyncNewTeamsComeFromTargets(d, userId, init, elevate, co);
      SyncStepOnlyAdds(mid, userId, last, elevate, co);
      var d' := SyncAll(d, userId, ts, elevate, co);
      forall n | n in d'.teams && n !in d.teams
        ensures exists t :: t in ts && t.name == n && d'.teams[n] == Team(n, t.displayName, true)
      {
        if n in mid.teams {
          var t :| t in init && t.name == n && mid.teams[n] == Team(n, t.displayName, true);
          var i :| 0 <= i < |init| && init[i] == t;
          assert ts[i] == t;
        } else {
          assert ts[|ts| - 1] in ts;
        }
      }
    }
  }

  /** Every membership and team-admin role the sync adds is this user's, in
      the team of one of the targets, and only where the join (and the role
      call, under elevation) did not fail. */
  lemma {:induction false} SyncGrantsComeFromTargets(d: Directory, userId: string, ts: seq<Target>, elevate: bool, co: Collaborators)
    ensures var d' := SyncAll(d, userId, ts, elevate, co);
      && (forall p :: p in d'.members - d.members ==>
            p.1 == userId && p.0 !in co.failJoin && exists t :: t in ts && t.name == p.0)
      && (forall p :: p in d'.admins - d.admins ==>
            p.1 == userId && elevate && p.0 !in co.failSetAdmin && exists t :: t in ts && t.name == p.0)
  {
    if |ts| > 0 {
      var init := ts[..|ts| - 1];
      var last := ts[|ts| - 1];
      SyncGrantsComeFromTargets(d, userId, init, elevate, co);
      var mid := SyncAll(d, userId, init, elevate, co);
      var d' := SyncAll(d, userId, ts, elevate, co);
      assert d' == SyncStep(mid, userId, last, elevate, co);
      forall t | t in init ensures t in ts {
        var i :| 0 <= i < |init| && init[i] == t;
        assert ts[i] == t;
      }
      assert last in ts;
    }
  }

  /** Every team the login creates is named by `slugify` after one of the
      companies and shows that company's name. */
  lemma SyncNewTeamsComeFromCompanies(d: Directory, userId: string, cs: seq<Company>, elevate: bool, co: Collaborators)
    requires forall p :: p in d.members ==> p.0 in d.teams
    ensures var d' := SyncAll(d, userId, Targets(cs), elevate, co);
      && (forall n :: n in d'.teams && n !in d.teams ==>
            exists c :: c in cs && Slug(c.name) == n && d'.teams[n] == Team(n, c.name, true))
      && (forall p :: p in d'.members ==> p.0 in d'.teams)
      && (forall p :: p in d'.members - d.members ==>
            p.1 == userId && p.0 !in co.failJoin && exists c :: c in cs && Slug(c.name) == p.0)
      && (forall p :: p in d'.admins - d.admins ==>
            p.1 == userId && elevate && p.0 !in co.failSetAdmin && exists c :: c in cs && Slug(c.name) == p.0)
  {
    SyncNewTeamsComeFromTargets(d, userId, Targets(cs), elevate, co);
    SyncGrantsComeFromTargets(d, userId, Targets(cs), elevate, co);
    var d' := SyncAll(d, userId, Targets(cs), elevate, co);
    forall p | p in d'.members - d.members
      ensures exists c :: c in cs && Slug(c.name) == p.0
    {
      var t :| t in Targets(cs) && t.name == p.0;
      TargetsFrom(cs, t);
      var c :| c in cs && t == TargetOf(c);
    }
    forall p | p in d'.admins - d.admins
      ensures exists c :: c in cs && Slug(c.name) == p.0
    {
      var t :| t in Targets(cs) && t.name == p.0;
      TargetsFrom(cs, t);
      var c :| c in cs && t == TargetOf(c);
    }
    forall n | n in d'.teams && n !in d.teams
      ensures exists c :: c in cs && Slug(c.name) == n && d'.teams[n] == Team(n, c.name, true)
    {
      var t :| t in Targets(cs) && t.name == n && d'.teams[n] == Team(n, t.displayName, true);
      TargetsFrom(cs, t);
      var c :| c in cs && t == TargetOf(c);
    }
  }

  /** One turn with a usable name whose create and join succeed leaves the
      team present and the user a member (and team admin when elevated and
      that call succeeds). */
  lemma SyncStepJoins(d: Directory, userId: string, t: Target, elevate: bool, co: Collaborators)
    requires t.name != "" && t.name !in co.failCreateTeam && t.name !in co.failJoin
    ensures var d' := SyncStep(d, userId, t, elevate, co);
      && t.name in d'.teams && (t.name, userId) in d'.members
      && (elevate && t.name !in co.failSetAdmin ==> (t.name, userId) in d'.admins)
  {
  }

  /** Each target is handled on its own: one whose name is not empty and
      whose create and join do not fail ends with its team present and the
      user a member, whatever happens to the others; with elevation, the user
      is also team admin unless that call fails. */
  lemma {:induction false} SyncJoinsEachTarget(d: Directory, userId: string, ts: seq<Target>, elevate: bool, co: Collaborators, t: Target)
    requires t in ts
    requires t.name != "" && t.name !in co.failCreateTeam && t.name !in co.failJoin
    ensures var d' := SyncAll(d, userId, ts, elevate, co);
      && t.name in d'.teams
      && (t.name, userId) in d'.members
      && (elevate && t.name !in co.failSetAdmin ==> (t.name, userId) in d'.admins)
  {
    var init := ts[..|ts| - 1];
    var last := ts[|ts| - 1];
    var mid := SyncAll(d, userId, init, elevate, co);
    if t == last {
      SyncStepJoins(mid, userId, t, elevate, co);
    } else {
      var i :| 0 <= i < |ts| && ts[i] == t;
      assert init[i] == t;
      SyncJoinsEachTarget(d, userId, init, elevate, co, t);
      SyncStepOnlyAdds(mid, userId, last, elevate, co);
    }
  }

  /** Each company whose team name is not empty and whose create and join do
      not fail ends with its team present and the user a member. */
  lemma SyncJoinsEachCompany(d: Directory, userId: string, cs: seq<Company>, elevate: bool, co: Collaborators, c: Company)
    requires c in cs
    requires Slug(c.name) != "" && Slug(c.name) !in co.failCreateTeam && Slug(c.name) !in co.failJoin
    ensures var d' := SyncAll(d, userId, Targets(cs), elevate, co);
      && Slug(c.name) in d'.teams
      && (Slug(c.name), userId) in d'.members
      && (elevate && Slug(c.name) !in co.failSetAdmin ==> (Slug(c.name), userId) in d'.admins)
  {
    TargetsHas(cs, c);
    SyncJoinsEachTarget(d, userId, Targets(cs), elevate, co, TargetOf(c));
  }

  /** Without elevation no team-admin role is granted. */
  lemma {:induction false} SyncWithoutElevationGrantsNoAdmin(d: Directory, userId: string, ts: seq<Target>, co: Collaborators)
    ensures SyncAll(d, userId, ts, false, co).admins == d.admins
  {
    if |ts| > 0 {
      SyncWithoutElevationGrantsNoAdmin(d, userId, ts[..|ts| - 1], co);
    }
  }

  /** The targets of two lists of companies are the targets of each. */
  lemma {:induction false} TargetsAppend(a: seq<Company>, b: seq<Company>)
    ensures Targets(a + b) == Targets(a) + Targets(b)
  {
    forall i | 0 <= i < |a + b|
      ensures Targets(a + b)[i] == (Targets(a) + Targets(b))[i]
    {
      TargetsAt(a + b, i);
      if i < |a| {
        TargetsAt(a, i);
      } else {
        TargetsAt(b, i - |a|);
      }
    }
  }

  /** A turn with an empty team name changes nothing, wherever it falls in
      the loop. */
  lemma {:induction false} SyncSkipsEmptyTarget(d: Directory, userId: string, ts1: seq<Target>, t: Target, ts2: seq<Target>,
                                                 elevate: bool, co: Collaborators)
    requires t.name == ""
    ensures SyncAll(d, userId, ts1 + [t] + ts2, elevate, co) == SyncAll(d, userId, ts1 + ts2, elevate, co)
  {
    if |ts2| == 0 {
      assert ts1 + [t] + ts2 == ts1 + [t];
      assert ts1 + ts2 == ts1;
      SyncAllSnoc(d, userId, ts1, t, elevate, co);
    } else {
      var init := ts2[..|ts2| - 1];
      SyncSkipsEmptyTarget(d, userId, ts1, t, init, elevate, co);
      assert (ts1 + [t] + ts2)[..|ts1 + [t] + ts2| - 1] == ts1 + [t] + init;
      assert (ts1 + ts2)[..|ts1 + ts2| - 1] == ts1 + init;
    }
  }

  /** A company whose name has no ASCII letter or digit changes nothing,
      wherever it appears among the companies. */
  lemma SyncSkipsEmptySlug(d: Directory, userId: string, cs1: seq<Company>, c: Company, cs2: seq<Company>,
                           elevate: bool, co: Collaborators)
    requires forall i :: 0 <= i < |c.name| ==> !IsAsciiAlnum(c.name[i])
    ensures SyncAll(d, userId, Targets(cs1 + [c] + cs2), elevate, co) == SyncAll(d, userId, Targets(cs1 + cs2), elevate, co)
  {
    TargetsAppend(cs1 + [c], cs2);
    TargetsAppend(cs1, [c]);
    TargetsAppend(cs1, cs2);
    assert Targets([c]) == [TargetOf(c)];
    SlugEmptyIff(c.name);
    SyncSkipsEmptyTarget(d, userId, Targets(cs1), TargetOf(c), Targets(cs2), elevate, co);
  }

  /** A team the sync adds is one whose create did not fail. */
  lemma {:induction false} SyncCreatesOnlyUnfailed(d: Directory, userId: string, ts: seq<Target>, elevate: bool, co: Collaborators)
    ensures forall n :: n in SyncAll(d, userId, ts, elevate, co).teams && n !in d.teams ==> n !in co.failCreateTeam
  {
    if |ts| > 0 {
      SyncCreatesOnlyUnfailed(d, userId, ts[..|ts| - 1], elevate, co);
      SyncOnlyAdds(d, userId, ts[..|ts| - 1], elevate, co);
    }
  }

  /** A turn whose team exists or can be created leaves the team present,
      and, unless the join fails, the membership (and the role under
      elevation, unless that call fails) in place at the end. */
  lemma {:induction false} SyncSettlesTarget(d: Directory, userId: string, ts: seq<Target>, elevate: bool, co: Collaborators, t: Target)
    requires t in ts && t.name != ""
    requires t.name in d.teams || t.name !in co.failCreateTeam
    ensures var d' := SyncAll(d, userId, ts, elevate, co);
      && t.name in d'.teams
      && (t.name !in co.failJoin ==> (t.name, userId) in d'.members)
      && (t.name !in co.failJoin && elevate && t.name !in co.failSetAdmin ==> (t.name, userId) in d'.admins)
  {
    var init := ts[..|ts| - 1];
    var last := ts[|ts| - 1];
    var mid := SyncAll(d, userId, init, elevate, co);
    SyncOnlyAdds(d, userId, init, elevate, co);
    SyncStepOnlyAdds(mid, userId, last, elevate, co);
    if t != last {
      var i :| 0 <= i < |ts| && ts[i] == t;
      assert init[i] == t;
      SyncSettlesTarget(d, userId, init, elevate, co, t);
    }
  }

  /** Running a turn of `ts` again on the result of the sync changes nothing. */
  lemma SyncStepFixed(d: Directory, userId: string, ts: seq<Target>, elevate: bool, co: Collaborators, t: Target)
    requires t in ts
    ensures var d' := SyncAll(d, userId, ts, elevate, co);
      SyncStep(d', userId, t, elevate, co) == d'
  {
    var d' := SyncAll(d, userId, ts, elevate, co);
    if t.name != "" && (t.name in d'.teams || t.name !in co.failCreateTeam) {
      SyncCreatesOnlyUnfailed(d, userId, ts, elevate, co);
      SyncSettlesTarget(d, userId, ts, elevate, co, t);
    }
  }

  /** A sync over turns that each leave `d` as it is leaves `d` as it is. */
  lemma {:induction false} SyncRerun(d: Directory, userId: string, ts: seq<Target>, elevate: bool, co: Collaborators)
    requires forall t :: t in ts ==> SyncStep(d, userId, t, elevate, co) == d
    ensures SyncAll(d, userId, ts, elevate, co) == d
  {
    if |ts| > 0 {
      SyncRerun(d, userId, ts[..|ts| - 1], elevate, co);
      assert ts[|ts| - 1] in ts;
    }
  }

  /** Retrying the sync with the same companies and the same collaborator
      answers changes nothing more: the sync is idempotent. */
  lemma SyncRetryIdempotent(d: Directory, userId: string, ts: seq<Target>, elevate: bool, co: Collaborators)
    ensures var d' := SyncAll(d, userId, ts, elevate, co);
      SyncAll(d', userId, ts, elevate, co) == d'
  {
    var d' := SyncAll(d, userId, ts, elevate, co);
    forall t | t in ts
      ensures SyncStep(d', userId, t, elevate, co) == d'
    {
      SyncStepFixed(d, userId, ts, elevate, co, t);
    }
    SyncRerun(d', userId, ts, elevate, co);
  }

  /** The local user of a login: the one stored under the Odoo address, or
      the user that would be created for it. */
  function LocalUser(users: map<string, User>, remote: Remote, co: Collaborators): (u: User)
    requires |co.newId| >= 12
    ensures OdooEmail(remote.auth.uid) in users ==> u == users[OdooEmail(remote.auth.uid)]
    ensures OdooEmail(remote.auth.uid) !in users ==>
      && u.email == OdooEmail(remote.auth.uid) && u.authService == OdooService
      && u.firstName == remote.profile.name && u.id == co.assignedUserId
      && u.username == NewUsername(LoginName(remote.profile.login, remote.config.request.identifier), co)
  {
    var email := OdooEmail(remote.auth.uid);
    if email in users then users[email]
    else NewUser(email, LoginName(remote.profile.login, remote.config.request.identifier), remote.profile.name, co)
  }

  // ---------------------------------------------------------------------------
  // The store

  class Store {
    /** Users by e-mail address. */
    var users: map<string, User>
    var teams: map<string, Team>
    var members: set<(string, string)>
    var admins: set<(string, string)>
    /** Ids of the users a session was issued to, in order. */
    var sessions: seq<string>

    ghost predicate Valid()
      reads this
    {
      && (forall e :: e in users ==> users[e].email == e)
      && TeamsKeyed(teams)
      // A membership is always in a team that exists.
      && (forall p :: p in members ==> p.0 in teams)
    }

    function Dir(): Directory
      reads this
    {
      Directory(teams, members, admins)
    }

    constructor ()
      ensures Valid()
      ensures users == map[] && teams == map[] && members == {} && admins == {} && sessions == []
    {
      users, teams, members, admins, sessions := map[], map[], {}, {}, [];
    }

    /** `GetUserByEmail`, and `CreateUser` when that finds nobody. */
    method FindOrCreateUser(email: string, login: string, displayName: string, co: Collaborators)
      returns (r: Result<(User, bool), AppError>)
      requires Valid() && |co.newId| >= 12
      modifies this`users
      ensures Valid()
      ensures email in old(users) ==> r == Success((old(users)[email], false)) && users == old(users)
      ensures email !in old(users) && co.createUserError.Some? ==>
        r == Failure(co.createUserError.value) && users == old(users)
      ensures email !in old(users) && co.createUserError.None? ==>
        r == Success((NewUser(email, login, displayName, co), true)) && users == old(users)[email := r.value.0]
    {
      if email in users {
        return Success((users[email], false));
      }
      var u := NewUser(email, login, displayName, co);
      if co.createUserError.Some? {
        return Failure(co.createUserError.value);
      }
      users := users[email := u];
      r := Success((u, true));
    }

    /** `DoLogin`: records a session for `user` unless it fails. */
    method IssueSession(user: User, co: Collaborators) returns (err: Option<AppError>)
      modifies this`sessions
      ensures err == co.sessionError
      ensures sessions == if err.None? then old(sessions) + [user.id] else old(sessions)
    {
      err := co.sessionError;
      if err.None? {
        sessions := sessions + [user.id];
      }
    }

    /** One turn of the team-sync loop. */
    method SyncOne(userId: string, t: Target, elevate: bool, co: Collaborators)
      requires Valid()
      modifies this`teams, this`members, this`admins
      ensures Valid()
      ensures Dir() == SyncStep(old(Dir()), userId, t, elevate, co)
    {
      var name := t.name;
      if name == "" {
        return;
      }
      if name !in teams {
        if name in co.failCreateTeam {
          return;
        }
        teams := teams[name := Team(name, t.displayName, true)];
      }
      if name in co.failJoin {
        return;
      }
      members := members + {(name, userId)};
      if elevate && name !in co.failSetAdmin {
        admins := admins + {(name, userId)};
      }
    }

    /** The team-sync loop. No failure inside it ends the login. */
    method SyncTeams(userId: string, companies: seq<Company>, elevate: bool, co: Collaborators)
      requires Valid()
      modifies this`teams, this`members, this`admins
      ensures Valid()
      ensures Dir() == SyncAll(old(Dir()), userId, Targets(companies), elevate, co)
    {
      ghost var d0 := Dir();
      for i := 0 to |companies|
        invariant Valid()
        invariant Dir() == SyncAll(d0, userId, Targets(companies[..i]), elevate, co)
      {
        var c := companies[i];
        TargetsPrefix(companies, i);
        SyncAllSnoc(d0, userId, Targets(companies[..i]), TargetOf(c), elevate, co);
        var name := Slugify(c.name);
        SyncOne(userId, Target(name, c.name), elevate, co);
      }
      assert companies[..|companies|] == companies;
    }

    /** `loginOdoo` after the remote steps: find or create the local user,
        issue the session, sync the teams. */
    method CompleteLogin(remote: Remote, co: Collaborators) returns (r: Result<LoginResponse, AppError>)
      requires Valid() && |co.newId| >= 12
      modifies this
      ensures Valid()
      ensures var email := OdooEmail(remote.auth.uid);
        var found := email in old(users);
        var user := LocalUser(old(users), remote, co);
        if !found && co.createUserError.Some? then
          r == Failure(co.createUserError.value) && unchanged(this)
        else
          && users == old(users)[email := user]
          && if co.sessionError.Some? then
               // The created user is not rolled back.
               r == Failure(co.sessionError.value) && sessions == old(sessions) && Dir() == old(Dir())
             else
               && r == Success(LoginResponse(user.id, user.username, email, !found))
               && sessions == old(sessions) + [user.id]
               && Dir() == SyncAll(old(Dir()), user.id, Targets(Eligible(remote.auth.allowedCompanies)),
                                   remote.auth.isSystem && remote.auth.isAdmin, co)
    {
      ghost var d0 := Dir();
      var login := LoginName(remote.profile.login, remote.config.request.identifier);
      var email := OdooEmail(remote.auth.uid);
      var found := FindOrCreateUser(email, login, remote.profile.name, co);
      if found.Failure? {
        return Failure(found.error);
      }
      var (user, created) := found.value;
      var err := IssueSession(user, co);
      if err.Some? {
        return Failure(err.value);
      }
      var companies := AllowedCompanies(remote.auth.allowedCompanies);
      assert Dir() == d0;
      SyncTeams(user.id, companies, remote.auth.isSystem && remote.auth.isAdmin, co);
      r := Success(LoginResponse(user.id, user.username, email, created));
    }

    /** `loginOdoo`. */
    method LoginOdoo(env: Env, body: Option<LoginRequest>, authX: Exchange<AuthPayload>,
                     profileX: Exchange<RowsPayload>, co: Collaborators)
      returns (r: Result<LoginResponse, AppError>)
      requires Valid() && |co.newId| >= 12
      modifies this
      ensures Valid()
      // Any failure before the local user is looked up changes nothing.
      ensures Preflight(env, body, authX, profileX).Failure? ==>
        r == Failure(Preflight(env, body, authX, profileX).error) && unchanged(this)
      ensures Preflight(env, body, authX, profileX).Success? ==>
        var remote := Preflight(env, body, authX, profileX).value;
        var email := OdooEmail(remote.auth.uid);
        var found := email in old(users);
        var user := LocalUser(old(users), remote, co);
        if !found && co.createUserError.Some? then
          r == Failure(co.createUserError.value) && unchanged(this)
        else
          && users == old(users)[email := user]
          && if co.sessionError.Some? then
               r == Failure(co.sessionError.value) && sessions == old(sessions) && Dir() == old(Dir())
             else
               && r == Success(LoginResponse(user.id, user.username, email, !found))
               && sessions == old(sessions) + [user.id]
               && Dir() == SyncAll(old(Dir()), user.id, Targets(Eligible(remote.auth.allowedCompanies)),
                                   remote.auth.isSystem && remote.auth.isAdmin, co)
    {
      var pre := Preflight(env, body, authX, profileX);
      if pre.Failure? {
        return Failure(pre.error);
      }
      r := CompleteLogin(pre.value, co);
    }
  }

  /** Builds the list of companies to sync from the authenticate result. */
  method AllowedCompanies(all: seq<Company>) returns (kept: seq<Company>)
    ensures kept == Eligible(all)
  {
    kept := [];
    for i := 0 to |all|
      invariant kept == Eligible(all[..i])
    {
      assert all[..i + 1][..i] == all[..i];
      if all[i].id != 0 && all[i].name != "" {
        kept := kept + [all[i]];
      }
    }
    assert all[..|all|] == all;
  }
}
