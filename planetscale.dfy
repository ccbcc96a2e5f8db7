/** The PlanetScale plugin's provisioning flow (`PlanetScale::deploy()` and its
    helpers): resolve the organization, choose or create a database, choose or
    create a branch, mint a password and hand back its connection environment
    with the TLS certificate path forced.

    Each step of the flow is first written as a function over a `World` (the
    plugin's fields, the HTTP client and the console); the `Plugin` class then
    performs the same steps on objects, and each of its methods is proved to
    leave exactly the world its function describes. */
module PlanetScale {
  import opened Text
  import opened Api
  import opened Terminal

  const SslCaKey := "MYSQL_ATTR_SSL_CA"
  const SslCaPath := "/etc/ssl/certs/ca-certificates.crt"
  const HostMarker := "psdb.cloud"
  const LimitMarker := "This organization is at its limit"
  const NewDatabase := "Create new database"
  const NewBranch := "Create new branch"

  /** The scopes a service token needs on a newly created database. */
  const DatabaseScopes := ["read_database", "connect_branch", "read_branch", "create_branch"]

  /** What each request needs when the API refuses it: the action named in the
      warning and the scopes the token is missing. */
  datatype Denial = Denial(action: string, scopes: seq<string>)

  const OrganizationsDenied := Denial("list organizations", ["read_organization"])
  const DatabasesDenied := Denial("list databases", ["read_databases", "{database}:read_database"])
  const CreateDatabaseDenied := Denial("create a database", ["create_databases"])
  const BranchesDenied := Denial("list database branches", ["{database}:read_branch"])
  const CreateBranchDenied := Denial("create a branch", ["{database}:create_branch"])
  const PasswordDenied := Denial("create a password", ["{database}:connect_branch"])

  // What the operator is asked.
  const DatabaseMenu := "Database"
  const BranchMenu := "Branch"
  const ParentMenu := "Parent branch"
  const DatabaseNameQuestion := "Database name"
  const BranchNameQuestion := "Branch name"
  const CreateQuestion := "Create a new database?"
  const WithoutQuestion := "Continue <comment>without</comment> setting up PlanetScale?"
  const ScopesAddedQuestion := "Once you have added the scopes: Continue?"

  // What the plugin tells the operator.
  const NoDatabasesText := "No databases found."
  const RestartText := "Starting PlanetScale setup again..."
  const PointedText := "Your current database connection is pointed to "
  const ContinueText := ", continue?"
  const DeniedText := "Bellows doesn't have permission to "
  const MakeSureText := "Make sure your service token has the "
  const UpdateTokenText := "You can update your service token at "
  const CreatedText := "Database created! Now we need to update the service token scopes to include the new database."
  const HeadHereText := "Head here: "
  const ClickTokenText := "- Click on your service token"
  const AddDatabaseText := "- Under <comment>Database access</comment>, click <comment>Add a database</comment>"
  const SelectText := "- Select "
  const DropdownText := " from the dropdown"
  const AddScopesText := "- Add the following scopes: " + Join(", ", Comments(DatabaseScopes)) + "."

  /** What the host environment supplies: `Project::isolatedUser()` and the
      current site's environment, `Deployment::site()->env()`. */
  datatype Host = Host(isolatedUser: string, site: Env)

  /** The value `deploy()` returns: a result carrying the environment
      variables, `null`, or an exception escaping the flow. */
  datatype Outcome = Provisioned(env: Env) | NoResult | Fault

  /** What a helper returns: an array (of which only one field matters to the
      caller), `null`, or an exception escaping the helper. */
  datatype Step<T> = Got(value: T) | Null | Failed

  /** The plugin's fields, the HTTP client and the console. */
  datatype World = World(org: string, db: string, branch: string, credentials: Env, http: Http, tty: Tty)

  const ListOrganizations := Request(GET, "organizations", [("per_page", "1")], [])

  function DatabasesPath(org: string): string
  {
    "organizations/" + org + "/databases"
  }

  function BranchesPath(org: string, db: string): string
  {
    DatabasesPath(org) + "/" + db + "/branches"
  }

  function PasswordsPath(org: string, db: string, branch: string): string
  {
    BranchesPath(org, db) + "/" + branch + "/passwords"
  }

  // The requests of the flow.

  function ListDatabases(org: string): Request
  {
    Request(GET, DatabasesPath(org), [], [])
  }

  function NewDatabaseRequest(org: string, name: string): Request
  {
    Request(POST, DatabasesPath(org), [], [("name", name)])
  }

  function ListBranches(org: string, db: string): Request
  {
    Request(GET, BranchesPath(org, db), [], [])
  }

  function NewBranchRequest(org: string, db: string, name: string, parent: string): Request
  {
    Request(POST, BranchesPath(org, db), [], [("name", name), ("parent_branch", parent)])
  }

  function NewPasswordRequest(org: string, db: string, branch: string): Request
  {
    Request(POST, PasswordsPath(org, db, branch), [], [])
  }

  function TokensUrl(org: string): string
  {
    "https://app.planetscale.com/" + org + "/settings/service-tokens"
  }

  function Comment(s: string): string
  {
    "<comment>" + s + "</comment>"
  }

  function Comments(items: seq<string>): seq<string>
  {
    seq(|items|, i requires 0 <= i < |items| => Comment(items[i]))
  }

  /** `Str::plural('scope', $scopes)`: singular for exactly one scope. */
  function Descriptor(scopes: seq<string>): string
  {
    if |scopes| == 1 then "scope" else "scopes"
  }

  /** The three lines `missingScope($action, $scopes)` writes. */
  function ScopeNotice(org: string, d: Denial): seq<Line>
  {
    [ Warning(DeniedText + d.action + "."),
      Info(MakeSureText + Join(", ", Comments(d.scopes)) + " " + Descriptor(d.scopes) + "."),
      Info(UpdateTokenText + Comment(TokensUrl(org))) ]
  }

  /** The instructions `createDatabase()` gives once the database exists. */
  function CreatedNotice(org: string, name: Option<string>): seq<Line>
  {
    [ Info(CreatedText),
      Info(HeadHereText + Comment(TokensUrl(org))),
      Info(ClickTokenText),
      Info(AddDatabaseText),
      Info(SelectText + Comment(if name.Some? then name.value else "") + DropdownText),
      Info(AddScopesText) ]
  }

  /** The create-database response reports that the organization is at its limit. */
  predicate AtLimit(r: Response)
  {
    r.message.Some? && Contains(r.message.value, LimitMarker)
  }

  // Steps of the world, one per collaborator call.

  function Call(w: World, req: Request): (Option<Response>, World)
  {
    var (r, h) := Send(w.http, req);
    (r, w.(http := h))
  }

  function Lift<T>(w: World, step: (Option<T>, Tty)): (Option<T>, World)
  {
    (step.0, w.(tty := step.1))
  }

  function Show(w: World, lines: seq<Line>): World
  {
    w.(tty := w.tty.(transcript := w.tty.transcript + lines))
  }

  function Halt<T>(s: Step<T>): Outcome
  {
    if s.Null? then NoResult else Fault
  }

  /** `missingScope($action, $scopes)`. */
  function MissingScopeRun(w: World, d: Denial): World
  {
    Show(w, ScopeNotice(w.org, d))
  }

  /** `deploy()`, from the organization request on. */
  function DeployRun(w: World, host: Host): (Outcome, World)
    decreases |w.http.pending|, 4
  {
    var (organizations, w1) := Call(w, ListOrganizations);
    if organizations.None? then (Fault, w1)
    else if IsForbidden(organizations.value) then
      (NoResult, MissingScopeRun(w1, OrganizationsDenied))
    else if organizations.value.data.None? || organizations.value.data.value == [] then (Fault, w1)
    else ProvisionRun(w1.(org := organizations.value.data.value[0]), host)
  }

  /** The rest of `deploy()` once the organization is known: database,
      branch, password, and the merged environment. */
  function ProvisionRun(w: World, host: Host): (Outcome, World)
    decreases |w.http.pending|, 3
  {
    var (database, w1) := GetDatabaseRun(w, host);
    if !database.Got? then (Halt(database), w1)
    else if database.value.None? then (Fault, w1)
    else
      var w2 := w1.(db := database.value.value);
      var (branch, w3) := GetBranchRun(w2);
      if !branch.Got? then (Halt(branch), w3)
      else if branch.value.None? then (Fault, w3)
      else
        var w4 := w3.(branch := branch.value.value);
        var (password, w5) := GetPasswordRun(w4);
        if !password.Got? then (Halt(password), w5)
        else if password.value.None? then (Fault, w5)
        else
          var env := Put(password.value.value, SslCaKey, SslCaPath);
          (Provisioned(env), w5.(credentials := env))
  }

  /** `getDatabase()`: the chosen or created database's `name` field. */
  function GetDatabaseRun(w: World, host: Host): (Step<Option<string>>, World)
    decreases |w.http.pending|, 2
  {
    var (databases, w1) := Call(w, ListDatabases(w.org));
    if databases.None? then (Failed, w1)
    else if IsForbidden(databases.value) then
      (Null, MissingScopeRun(w1, DatabasesDenied))
    else if databases.value.data.None? then (Failed, w1)
    else if databases.value.data.value == [] then
      var w2 := Show(w1, [Warning(NoDatabasesText)]);
      var (create, w3) := Lift(w2, Confirming(w2.tty, CreateQuestion, true));
      if create.None? then (Failed, w3)
      else CreateDatabaseRun(w3, host)
    else
      var (choice, w2) := Lift(w1, Choosing(w1.tty, DatabaseMenu, databases.value.data.value + [NewDatabase]));
      if choice.None? then (Failed, w2)
      else if choice.value == NewDatabase then CreateDatabaseRun(w2, host)
      else (Got(Some(choice.value)), w2)
  }

  /** `createDatabase()`: the created database's `name` field. */
  function CreateDatabaseRun(w: World, host: Host): (Step<Option<string>>, World)
    decreases |w.http.pending|, 1
  {
    var (name, w1) := Lift(w, Asking(w.tty, DatabaseNameQuestion, host.isolatedUser));
    if name.None? then (Failed, w1)
    else
      var (database, w2) := Call(w1, NewDatabaseRequest(w1.org, name.value));
      if database.None? then (Failed, w2)
      else if IsForbidden(database.value) then
        (Null, MissingScopeRun(w2, CreateDatabaseDenied))
      else if AtLimit(database.value) then LimitRun(w2, database.value.message.value, host)
      else CreatedRun(w2, database.value.name)
  }

  /** The rest of `createDatabase()` once the organization is at its limit:
      stop, or restart the whole flow and drop its result. */
  function LimitRun(w: World, message: string, host: Host): (Step<Option<string>>, World)
    decreases |w.http.pending| + 1, 0
  {
    var w1 := Show(w, [Warning(message)]);
    var (without, w2) := Lift(w1, Confirming(w1.tty, WithoutQuestion, true));
    if without.None? then (Failed, w2)
    else if without.value then (Null, w2)
    else
      var w3 := Show(w2, [Info(RestartText)]);
      var w4 := w3.(http := Clear(w3.http));
      var (again, w5) := DeployRun(w4, host);
      (if again.Fault? then Failed else Null, w5)
  }

  /** The rest of `createDatabase()` once the database exists. */
  function CreatedRun(w: World, name: Option<string>): (Step<Option<string>>, World)
  {
    var w1 := Show(w, CreatedNotice(w.org, name));
    var (added, w2) := Lift(w1, Confirming(w1.tty, ScopesAddedQuestion, true));
    if added.None? then (Failed, w2)
    else (Got(name), w2)
  }

  /** `collect($branches['data'])`: the branch names listed, none when the
      response has no list. */
  function ListedBranches(r: Response): seq<string>
  {
    if r.data.Some? then r.data.value else []
  }

  /** `getBranch()`: the chosen or created branch's `name` field. */
  function GetBranchRun(w: World): (Step<Option<string>>, World)
  {
    var (branches, w1) := Call(w, ListBranches(w.org, w.db));
    if branches.None? then (Failed, w1)
    else if IsForbidden(branches.value) then
      (Null, MissingScopeRun(w1, BranchesDenied))
    else
      var existing := ListedBranches(branches.value);
      var (choice, w2) := Lift(w1, Choosing(w1.tty, BranchMenu, existing + [NewBranch]));
      if choice.None? then (Failed, w2)
      else if choice.value == NewBranch then CreateBranchRun(w2, existing)
      else (Got(Some(choice.value)), w2)
  }

  /** `createBranch($existingBranches)`: the created branch's `name` field. */
  function CreateBranchRun(w: World, existing: seq<string>): (Step<Option<string>>, World)
  {
    var (name, w1) := Lift(w, AskingRequired(w.tty, BranchNameQuestion));
    if name.None? then (Failed, w1)
    else
      var (parent, w2) := Lift(w1, Choosing(w1.tty, ParentMenu, existing));
      if parent.None? then (Failed, w2)
      else
        var (branch, w3) := Call(w2, NewBranchRequest(w2.org, w2.db, name.value, parent.value));
        if branch.None? then (Failed, w3)
        else if IsForbidden(branch.value) then
          (Null, MissingScopeRun(w3, CreateBranchDenied))
        else (Got(branch.value.name), w3)
  }

  /** `getPassword()`: the password's `connection_strings.laravel` env. */
  function GetPasswordRun(w: World): (Step<Option<Env>>, World)
  {
    var (password, w1) := Call(w, NewPasswordRequest(w.org, w.db, w.branch));
    if password.None? then (Failed, w1)
    else if IsForbidden(password.value) then
      (Null, MissingScopeRun(w1, PasswordDenied))
    else (Got(password.value.laravel), w1)
  }

  /** `env()->get('DB_HOST', '')`: the site's database host, or the empty string. */
  function DbHost(site: Env): string
  {
    match Lookup(site, "DB_HOST") case Some(h) => h case None => ""
  }

  /** `dbHostIsPlanetScale()`. */
  predicate DbHostIsPlanetScale(site: Env)
  {
    Contains(DbHost(site), HostMarker)
  }

  /** `shouldDeploy()`. */
  predicate ShouldDeploy(site: Env)
  {
    !DbHostIsPlanetScale(site) || !HasKey(site, SslCaKey)
  }

  /** `confirmDeploy()`. */
  function ConfirmDeployRun(site: Env, t: Tty): (Option<bool>, Tty)
  {
    if !DbHostIsPlanetScale(site) then (Some(true), t)
    else
      Confirming(t, PointedText + DbHost(site) + ContinueText, true)
  }

  /** The plugin object: its four fields, its HTTP client and the console. */
  class Plugin {
    var credentials: Env
    var organizationName: string
    var databaseName: string
    var branchName: string
    const http: Client
    const console: Console
    const host: Host

    /** `databaseName` and `branchName` have no initial value in the plugin;
        they start as `""` here, which nothing observes, since `deploy()`
        assigns each before reading it. */
    constructor (http: Client, console: Console, host: Host)
      ensures this.http == http && this.console == console && this.host == host
      ensures credentials == [] && organizationName == "" && databaseName == "" && branchName == ""
    {
      this.http, this.console, this.host := http, console, host;
      credentials, organizationName, databaseName, branchName := [], "", "", "";
    }

    function Now(): World
      reads this, http, console
    {
      World(organizationName, databaseName, branchName, credentials, http.State(), console.State())
    }

    method Deploy() returns (r: Outcome)
      modifies this, http, console
      decreases |http.pending|, 4
      ensures (r, Now()) == DeployRun(old(Now()), host)
    {
      var organizations := http.Get("organizations", [("per_page", "1")]);
      if organizations.None? {
        return Fault;
      }
      if IsForbidden(organizations.value) {
        MissingScope(OrganizationsDenied);
        return NoResult;
      }
      if organizations.value.data.None? || organizations.value.data.value == [] {
        return Fault;
      }
      // a service token belongs to one organization: the first one listed
      organizationName := organizations.value.data.value[0];
      r := Provision();
    }

    /** The rest of `deploy()` once the organization is known. */
    method Provision() returns (r: Outcome)
      modifies this, http, console
      decreases |http.pending|, 3
      ensures (r, Now()) == ProvisionRun(old(Now()), host)
    {
      var database := GetDatabase();
      if !database.Got? {
        return Halt(database);
      }
      if database.value.None? {
        return Fault;
      }
      databaseName := database.value.value;

      var branch := GetBranch();
      if !branch.Got? {
        return Halt(branch);
      }
      if branch.value.None? {
        return Fault;
      }
      branchName := branch.value.value;

      var password := GetPassword();
      if !password.Got? {
        return Halt(password);
      }
      if password.value.None? {
        return Fault;
      }
      credentials := Put(password.value.value, SslCaKey, SslCaPath);
      return Provisioned(credentials);
    }

    method GetDatabase() returns (r: Step<Option<string>>)
      modifies this, http, console
      decreases |http.pending|, 2
      ensures (r, Now()) == GetDatabaseRun(old(Now()), host)
    {
      var databases := http.Get(DatabasesPath(organizationName), []);
      if databases.None? {
        return Failed;
      }
      if IsForbidden(databases.value) {
        MissingScope(DatabasesDenied);
        return Null;
      }
      if databases.value.data.None? {
        return Failed;
      }
      if databases.value.data.value == [] {
        console.Warn(NoDatabasesText);
        // the answer is not looked at: the database is created either way
        var create := console.Confirm(CreateQuestion, true);
        if create.None? {
          return Failed;
        }
        r := CreateDatabase();
        return;
      }
      var choice := console.ChoiceFromCollection(DatabaseMenu, databases.value.data.value + [NewDatabase]);
      if choice.None? {
        return Failed;
      }
      if choice.value == NewDatabase {
        r := CreateDatabase();
        return;
      }
      return Got(Some(choice.value));
    }

    method CreateDatabase() returns (r: Step<Option<string>>)
      modifies this, http, console
      decreases |http.pending|, 1
      ensures (r, Now()) == CreateDatabaseRun(old(Now()), host)
    {
      ghost var w := Now();
      var name := console.Ask(DatabaseNameQuestion, host.isolatedUser);
      ghost var w1 := Now();
      assert (name, w1) == Lift(w, Asking(w.tty, DatabaseNameQuestion, host.isolatedUser));
      if name.None? {
        return Failed;
      }
      var database := http.Post(DatabasesPath(organizationName), [("name", name.value)]);
      ghost var w2 := Now();
      assert (database, w2) == Call(w1, NewDatabaseRequest(w1.org, name.value));
      if database.None? {
        return Failed;
      }
      if IsForbidden(database.value) {
        MissingScope(CreateDatabaseDenied);
        return Null;
      }
      if AtLimit(database.value) {
        assert CreateDatabaseRun(w, host) == LimitRun(w2, database.value.message.value, host);
        r := LimitReached(database.value.message.value);
        return;
      }
      assert CreateDatabaseRun(w, host) == CreatedRun(w2, database.value.name);
      r := Created(database.value.name);
    }

    /** The limit branch of `createDatabase()`. */
    method LimitReached(message: string) returns (r: Step<Option<string>>)
      modifies this, http, console
      decreases |http.pending| + 1, 0
      ensures (r, Now()) == LimitRun(old(Now()), message, host)
    {
      console.Warn(message);
      var without := console.Confirm(WithoutQuestion, true);
      if without.None? {
        return Failed;
      }
      if without.value {
        return Null;
      }
      console.Info(RestartText);
      http.ClearClients();
      // the restarted run's result is dropped; only an exception gets out
      var again := Deploy();
      return if again.Fault? then Failed else Null;
    }

    /** The last part of `createDatabase()`, once the database exists. */
    method Created(name: Option<string>) returns (r: Step<Option<string>>)
      modifies console
      ensures (r, Now()) == CreatedRun(old(Now()), name)
    {
      ghost var w := Now();
      Announce(CreatedNotice(organizationName, name));
      ghost var w1 := Now();
      assert w1 == Show(w, CreatedNotice(w.org, name));
      var added := console.Confirm(ScopesAddedQuestion, true);
      assert (added, Now()) == Lift(w1, Confirming(w1.tty, ScopesAddedQuestion, true));
      if added.None? {
        return Failed;
      }
      return Got(name);
    }

    method GetBranch() returns (r: Step<Option<string>>)
      modifies http, console
      ensures (r, Now()) == GetBranchRun(old(Now()))
    {
      var branches := http.Get(BranchesPath(organizationName, databaseName), []);
      if branches.None? {
        return Failed;
      }
      if IsForbidden(branches.value) {
        MissingScope(BranchesDenied);
        return Null;
      }
      var existing := ListedBranches(branches.value);
      var choice := console.ChoiceFromCollection(BranchMenu, existing + [NewBranch]);
      if choice.None? {
        return Failed;
      }
      if choice.value == NewBranch {
        r := CreateBranch(existing);
        return;
      }
      return Got(Some(choice.value));
    }

    method CreateBranch(existing: seq<string>) returns (r: Step<Option<string>>)
      modifies http, console
      ensures (r, Now()) == CreateBranchRun(old(Now()), existing)
    {
      var name := console.AskRequired(BranchNameQuestion);
      if name.None? {
        return Failed;
      }
      var parent := console.ChoiceFromCollection(ParentMenu, existing);
      if parent.None? {
        return Failed;
      }
      var branch := http.Post(BranchesPath(organizationName, databaseName), [("name", name.value), ("parent_branch", parent.value)]);
      if branch.None? {
        return Failed;
      }
      if IsForbidden(branch.value) {
        MissingScope(CreateBranchDenied);
        return Null;
      }
      return Got(branch.value.name);
    }

    method GetPassword() returns (r: Step<Option<Env>>)
      modifies http, console
      ensures (r, Now()) == GetPasswordRun(old(Now()))
    {
      var password := http.Post(PasswordsPath(organizationName, databaseName, branchName), []);
      if password.None? {
        return Failed;
      }
      if IsForbidden(password.value) {
        MissingScope(PasswordDenied);
        return Null;
      }
      return Got(password.value.laravel);
    }

    /** `missingScope($action, $scopes)`, with the pair given as a `Denial`. */
    method MissingScope(d: Denial)
      modifies console
      ensures Now() == MissingScopeRun(old(Now()), d)
    {
      Announce(ScopeNotice(organizationName, d));
    }

    /** Writes each line to the console in turn. */
    method Announce(lines: seq<Line>)
      requires forall i :: 0 <= i < |lines| ==> lines[i].Warning? || lines[i].Info?
      modifies console
      ensures Now() == Show(old(Now()), lines)
    {
      for k := 0 to |lines|
        invariant Now() == Show(old(Now()), lines[..k])
      {
        if lines[k].Warning? {
          console.Warn(lines[k].text);
        } else {
          console.Info(lines[k].text);
        }
        assert lines[..k + 1] == lines[..k] + [lines[k]];
      }
      assert lines[..|lines|] == lines;
    }

    method ConfirmDeploy() returns (r: Option<bool>)
      modifies console
      ensures (r, console.State()) == ConfirmDeployRun(host.site, old(console.State()))
    {
      if !DbHostIsPlanetScale(host.site) {
        return Some(true);
      }
      r := console.Confirm(PointedText + DbHost(host.site) + ContinueText, true);
    }
  }
}
