# PlanetScale provisioning flow, modelled in Dafny

This project models how the PlanetScale plugin for Bellows provisions a
database connection for a Laravel site. `PlanetScale::deploy()` runs a
sequence of steps:

- It takes the first organization the service token can see.
- It lets the operator pick or create a database and a branch.
- It mints a password for that branch.
- It hands back the Laravel connection environment, with
  `MYSQL_ATTR_SSL_CA` forced to `/etc/ssl/certs/ca-certificates.crt`.

Three things can stop the flow with `null`:

- The API refuses a request (`code: forbidden`). The plugin then prints a
  three-line notice naming the action and the missing scopes.
- The organization is at its database limit.
- A helper returns `null`.

Beside the flow, `shouldDeploy()` and `confirmDeploy()` decide from the
site's current environment whether to run it.

## How the model is built

- **Collaborators.** The HTTP client and the console are scripts:
  - `Api.Client` answers requests from a list of decoded responses, in
    order, and logs every exchange (the request with its response) and
    every `clearClients()` call.
  - `Terminal.Console` answers prompts from a list of operator replies and
    keeps a transcript of everything it showed.
- **Host.** The host environment (`Project::isolatedUser()`, the site's
  `env()`) is a `PlanetScale.Host` value.
- **Outcomes.** Each step of the flow is a pure function over a
  `PlanetScale.World`: the plugin's four fields, the client and the console.
  Examples are `DeployRun`, `GetDatabaseRun` and `CreateBranchRun`.
  - `deploy()` returns a `Provisioned(env)`, `NoResult` (`null`) or `Fault`
    outcome.
  - Each helper returns a `Step`: `Got`, `Null` or `Failed`.
  - `Fault` and `Failed` stand for the cases where the PHP code would throw,
    or where a script runs out before the flow is done.
- **The plugin class.** `PlanetScale.Plugin` is the plugin itself, with its
  fields `credentials`, `organizationName`, `databaseName` and `branchName`.
  Each method updates those fields and the two collaborators step by step.
  Each method is proved to produce exactly the outcome and world that its
  function describes.
- **What is proved.** Every property is proved about those functions:
  - `Properties`: refusal stops the flow, and the shape of a successful
    run;
  - `Stages`: one lemma per case each step distinguishes (a refusal, a
    missing or empty list, each menu pick, the database limit, a creation);
  - `Scenarios`: the three successful runs of the feature tests, from the
    same scripted responses to the exact request log and environment.
- **Environments.** An environment (`Text.Env`) is an ordered list of
  key/value pairs, like PHP's string-keyed arrays. `Text.Put` is
  `array_merge($env, [$k => $v])`.

## Model

| member | source | states |
|---|---|---|
| `Text.Put` | src/PlanetScale.php:111-113 | merging one key keeps the key order, appends the key when it is new, and keeps keys distinct |
| `Text.Replace` | src/PlanetScale.php:111-113 | an existing key takes the new value in place; every other entry is unchanged |
| `Text.PutLookup` | src/PlanetScale.php:111-113 | after the merge the key reads the new value and every other key reads what it read before |
| `Text.PutKeepsOthers` | src/PlanetScale.php:111-113 | the merge leaves all other entries, and their order, exactly as they were |
| `Text.PutIdempotent` | src/PlanetScale.php:111-113 | merging the same entry twice equals merging it once |
| `Text.PutOverLast` | src/PlanetScale.php:111-113 | when only the last entry has the key, the merge overwrites that value and changes nothing else |
| `Text.Occurs` | src/PlanetScale.php:140 | the scan is true exactly when the needle occurs at some position |
| `Text.Contains` | src/PlanetScale.php:140 | `Str::contains` holds exactly when the needle is non-empty and occurs in the haystack |
| `Text.JoinNamesEveryPart` | src/PlanetScale.php:302 | every part appears in the `implode`d string |
| `Api.Client.Get` | src/PlanetScale.php:185 | a GET consumes the next scripted response and logs the exchange |
| `Api.Client.Post` | src/PlanetScale.php:241-244 | a POST with its JSON body consumes the next scripted response and logs the exchange |
| `Api.Client.ClearClients` | src/PlanetScale.php:261 | `clearClients()` is logged; the script of responses carries on |
| `Terminal.Console.Confirm` | src/PlanetScale.php:195 | a confirmation takes the next reply: empty means the default, otherwise yes iff it starts with y |
| `Terminal.Console.Ask` | src/PlanetScale.php:239 | a question with a default takes the next reply, or the default for an empty reply |
| `Terminal.Console.AskRequired` | src/PlanetScale.php:215 | a required question accepts only a non-empty reply |
| `Terminal.Console.ChoiceFromCollection` | src/PlanetScale.php:200-204 | a menu accepts only one of the names it shows |
| `Terminal.Console.Warn` | src/PlanetScale.php:194 | a warning is appended to the transcript |
| `Terminal.Console.Info` | src/PlanetScale.php:259 | an info line is appended to the transcript |
| `Api.IsForbidden` | src/PlanetScale.php:295-298 | `isForbidden()`; `Stages.ForbiddenIsExact` states that only a `code` that is exactly the string "forbidden" counts |
| `Text.Join` | src/PlanetScale.php:302 | `implode($sep, $parts)`; `Text.JoinNamesEveryPart` states that every part appears in the result |
| `PlanetScale.CreatedNotice` | src/PlanetScale.php:267-289 | the instructions shown after a creation; `Stages.DatabaseCreated` states when they are shown and what follows |
| `PlanetScale.ListedBranches` | src/PlanetScale.php:157 | `collect($branches['data'])`, empty for a missing list; `Stages.NewBranchPicked` states the menu built from it |
| `PlanetScale.AtLimit` | src/PlanetScale.php:252 | the create response's `message` contains the limit text; `Stages.DatabaseAtLimit` states what follows from it |
| `PlanetScale.Descriptor` | src/PlanetScale.php:303 | `Str::plural('scope', $scopes)`; `Stages.ScopeWord` states that it is singular for exactly one scope |
| `PlanetScale.ScopeNotice` | src/PlanetScale.php:300-309 | the three lines of `missingScope()`; `Stages.NoticeNamesActionAndScopes` and `Stages.NoticeNamesScope` state what they name |
| `PlanetScale.DeployRun` | src/PlanetScale.php:72-116 | `deploy()` as a function of the world; `Properties.DeployStops`, `Properties.ProvisionedShape` and `Properties.DeployUnderLimit` state its properties |
| `PlanetScale.ProvisionRun` | src/PlanetScale.php:86-115 | the rest of `deploy()` after the organization; `Properties.ProvisionStops` and `Properties.ProvisionShape` state its properties |
| `PlanetScale.GetDatabaseRun` | src/PlanetScale.php:183-211 | `getDatabase()`; `Properties.GetDatabaseStops`, `Properties.GetDatabaseGot` and the database lemmas of `Stages` state its cases |
| `PlanetScale.CreateDatabaseRun` | src/PlanetScale.php:237-265 | `createDatabase()` up to the limit check; `Properties.CreateDatabaseStops`, `Properties.CreateDatabaseGot` and `Stages.DatabaseAtLimit` state its cases |
| `PlanetScale.LimitRun` | src/PlanetScale.php:252-265 | the limit branch of `createDatabase()`; `Stages.LimitContinuesWithout`, `Stages.LimitRestarts` and `Properties.LimitNeverGot` state its cases |
| `PlanetScale.CreatedRun` | src/PlanetScale.php:267-292 | the rest of `createDatabase()` after a creation; `Stages.DatabaseCreated` states it |
| `PlanetScale.GetBranchRun` | src/PlanetScale.php:143-166 | `getBranch()`; `Properties.GetBranchStops`, `Properties.GetBranchGot` and the branch lemmas of `Stages` state its cases |
| `PlanetScale.CreateBranchRun` | src/PlanetScale.php:213-235 | `createBranch()`; `Stages.NewBranchSent`, `Stages.ParentMustExist`, `Stages.CreateBranchRefused` and `Stages.BranchCreated` state its cases |
| `PlanetScale.GetPasswordRun` | src/PlanetScale.php:168-181 | `getPassword()`; `Properties.GetPasswordStops`, `Properties.GetPasswordGot` and `Stages.PasswordRefused` state its cases |
| `PlanetScale.DbHostIsPlanetScale` | src/PlanetScale.php:138-141 | `dbHostIsPlanetScale()`: `DB_HOST`, default "", contains "psdb.cloud"; `Stages.ShouldDeployIff` states it |
| `PlanetScale.ShouldDeploy` | src/PlanetScale.php:118-122 | `shouldDeploy()`; `Stages.ShouldDeployIff` states when it is false |
| `PlanetScale.ConfirmDeployRun` | src/PlanetScale.php:124-136 | `confirmDeploy()`; `Stages.ConfirmWithoutPrompt` and `Stages.ConfirmAsks` state its two cases |
| `PlanetScale.Plugin.constructor` | src/PlanetScale.php:26-37 | a new plugin has empty credentials, an empty organization name, and the client it was given |
| `PlanetScale.Plugin.Deploy` | src/PlanetScale.php:72-116 | `deploy()` returns the outcome and leaves the fields, log and transcript that `DeployRun` describes |
| `PlanetScale.Plugin.Provision` | src/PlanetScale.php:86-115 | database, branch, password and merge, as `ProvisionRun` describes, with the fields set in turn |
| `PlanetScale.Plugin.GetDatabase` | src/PlanetScale.php:183-211 | `getDatabase()` behaves as `GetDatabaseRun` |
| `PlanetScale.Plugin.CreateDatabase` | src/PlanetScale.php:237-265 | `createDatabase()` behaves as `CreateDatabaseRun` |
| `PlanetScale.Plugin.LimitReached` | src/PlanetScale.php:252-265 | the database-limit branch behaves as `LimitRun`, the restart included |
| `PlanetScale.Plugin.Created` | src/PlanetScale.php:267-292 | the instructions after a creation, and the confirm, behave as `CreatedRun` |
| `PlanetScale.Plugin.GetBranch` | src/PlanetScale.php:143-166 | `getBranch()` behaves as `GetBranchRun` |
| `PlanetScale.Plugin.CreateBranch` | src/PlanetScale.php:213-235 | `createBranch()` behaves as `CreateBranchRun` |
| `PlanetScale.Plugin.GetPassword` | src/PlanetScale.php:168-181 | `getPassword()` behaves as `GetPasswordRun` |
| `PlanetScale.Plugin.MissingScope` | src/PlanetScale.php:300-309 | `missingScope()` writes exactly the three notice lines |
| `PlanetScale.Plugin.Announce` | src/PlanetScale.php:305-308 | the lines are written to the console in order, warnings as warnings and the rest as info |
| `PlanetScale.Plugin.ConfirmDeploy` | src/PlanetScale.php:124-136 | `confirmDeploy()` behaves as `ConfirmDeployRun` and changes nothing else |
| `Properties.DeployStops` | src/PlanetScale.php:72-116 | once a response is forbidden, `deploy()` sends no further request, returns `null` and its last output is one of the six notices; this holds through a restart |
| `Properties.ProvisionStops` | src/PlanetScale.php:86-106 | a refusal in any later step ends the run with `null` and no further request |
| `Properties.GetDatabaseStops` | src/PlanetScale.php:183-211 | a refusal while listing or creating a database gives `null`, a notice, and no later request |
| `Properties.CreateDatabaseStops` | src/PlanetScale.php:237-265 | the same for database creation, the restarted run included |
| `Properties.LimitStops` | src/PlanetScale.php:252-265 | the same inside the restarted run |
| `Properties.GetBranchStops` | src/PlanetScale.php:143-166 | the same for listing or creating a branch |
| `Properties.CreateBranchStops` | src/PlanetScale.php:213-235 | the same for branch creation |
| `Properties.GetPasswordStops` | src/PlanetScale.php:168-181 | the same for the password request |
| `Properties.LimitNeverGot` | src/PlanetScale.php:252-265 | at the organization's limit `createDatabase()` never hands back a database |
| `Properties.CreateDatabaseGot` | src/PlanetScale.php:237-293 | a created database costs exactly one POST to the organization's databases, and the fields are untouched |
| `Properties.GetDatabaseGot` | src/PlanetScale.php:183-211 | a database handed back costs the listing GET plus at most one creation POST, both on the organization's databases path |
| `Properties.GetBranchGot` | src/PlanetScale.php:143-166 | a branch handed back costs the listing GET plus at most one creation POST, both on that database's branches path |
| `Properties.GetPasswordGot` | src/PlanetScale.php:168-181 | a password costs one POST for the chosen organization, database and branch, and yields that response's Laravel environment |
| `Properties.CreateDatabaseUnderLimit` | src/PlanetScale.php:237-265 | a database that `createDatabase()` hands back was created by a POST not answered with the limit |
| `Properties.GetDatabaseUnderLimit` | src/PlanetScale.php:183-211 | a database that `getDatabase()` hands back met no creation answered with the limit |
| `Properties.ProvisionUnderLimit` | src/PlanetScale.php:86-115 | a provisioned run after the organization met no creation answered with the limit |
| `Properties.DeployUnderLimit` | src/PlanetScale.php:72-116 | a successful `deploy()` had no database creation answered with the organization's limit: at the limit the run always ends without a result |
| `Properties.ProvisionShape` | src/PlanetScale.php:86-115 | a provisioned run's requests go databases, then branches, then one password; the env is the password's env after the merge, and it is stored as the credentials |
| `Properties.ProvisionedShape` | src/PlanetScale.php:72-115 | a successful `deploy()` first lists organizations and uses the first one; every later path is built from it and the chosen database and branch; no restart happened; the env is the merged password env |
| `Stages.ForbiddenIsExact` | src/PlanetScale.php:295-298 | a response is refused exactly when `code` is the string "forbidden" |
| `Stages.OrganizationsRefused` | src/PlanetScale.php:72-78 | a refused organization list gives `null` and the "list organizations" notice |
| `Stages.OrganizationIsFirst` | src/PlanetScale.php:80-86 | the organization is the first one listed, taken without a prompt |
| `Stages.NoOrganization` | src/PlanetScale.php:82-84 | an empty or missing organization list makes `deploy()` fail |
| `Stages.DatabasesRefused` | src/PlanetScale.php:185-191 | a refused database list gives `null` and the "list databases" notice |
| `Stages.NoDatabaseList` | src/PlanetScale.php:193 | a database list with no `data` makes `getDatabase()` fail, as `count(null)` throws |
| `Stages.EmptyListCreates` | src/PlanetScale.php:193-198 | with no databases, one is created whatever the operator answers |
| `Stages.NewDatabasePicked` | src/PlanetScale.php:200-208 | the menu lists the databases followed by "Create new database", and that pick creates one |
| `Stages.ExistingDatabasePicked` | src/PlanetScale.php:200-210 | picking an existing database hands it back with no further request |
| `Stages.DatabaseNameIsAsking` | src/PlanetScale.php:239 | the name `createDatabase()` takes is the reply, or the isolated user for an empty reply |
| `Stages.CreateDatabasePostsName` | src/PlanetScale.php:239-244 | `createDatabase()` posts exactly `{name}`: the reply, or the isolated user for an empty reply |
| `Stages.CreateDatabaseRefused` | src/PlanetScale.php:246-250 | a refused creation gives `null` and the "create a database" notice |
| `Stages.DatabaseCreated` | src/PlanetScale.php:267-292 | after a creation the instructions are shown, the confirm reply is ignored, and the response's name is handed back |
| `Stages.DatabaseAtLimit` | src/PlanetScale.php:252-265 | a creation answered with the limit continues as `LimitRun` with the response's message and never hands back a database |
| `Stages.YesIsConfirming` | src/PlanetScale.php:254 | a confirmation with a yes default reads an empty reply, or one starting with y or Y, as yes |
| `Stages.LimitContinuesWithout` | src/PlanetScale.php:252-257 | at the limit, continuing without PlanetScale gives `null` and no further request |
| `Stages.LimitRestarts` | src/PlanetScale.php:259-264 | at the limit, declining clears the clients and reruns the flow; its result is dropped and only a failure gets out |
| `Stages.RestartNeverProvisions` | src/PlanetScale.php:259-264 | a run that went through a restart never provisions |
| `Stages.BranchesRefused` | src/PlanetScale.php:145-153 | a refused branch list gives `null` and the "list database branches" notice |
| `Stages.NewBranchPicked` | src/PlanetScale.php:155-163 | the menu lists the branches followed by "Create new branch", and that pick creates one with only the existing branches as parents |
| `Stages.ExistingBranchPicked` | src/PlanetScale.php:155-165 | picking an existing branch hands it back with no further request |
| `Stages.NewBranchSent` | src/PlanetScale.php:215-226 | a new branch is asked for by name, its parent is chosen from the existing branches, and exactly `{name, parent_branch}` is sent |
| `Stages.ParentMustExist` | src/PlanetScale.php:217-221 | a parent that is not an existing branch is not accepted and nothing is sent |
| `Stages.CreateBranchRefused` | src/PlanetScale.php:228-232 | a refused branch creation gives `null` and the "create a branch" notice |
| `Stages.BranchCreated` | src/PlanetScale.php:223-234 | a created branch is handed back under the name the response gives |
| `Stages.PasswordRefused` | src/PlanetScale.php:170-178 | a refused password gives `null` and the "create a password" notice |
| `Stages.ProvisionedEnvForcesCa` | src/PlanetScale.php:108-115 | the env from `deploy()` has `MYSQL_ATTR_SSL_CA` set to the system bundle; every other key keeps its value and order; the key keeps its place if present, else comes last |
| `Stages.ShouldDeployIff` | src/PlanetScale.php:118-122 | `shouldDeploy()` is false exactly when `DB_HOST` (default "") contains "psdb.cloud" and the site has `MYSQL_ATTR_SSL_CA` |
| `Stages.ConfirmWithoutPrompt` | src/PlanetScale.php:124-128 | with no PlanetScale host, `confirmDeploy()` is true without a prompt |
| `Stages.ConfirmAsks` | src/PlanetScale.php:130-135 | with a PlanetScale host, the operator is asked, naming the current host; an empty reply means yes |
| `Stages.NoticeNamesActionAndScopes` | src/PlanetScale.php:300-309 | the warning names the refused action, and the next line names every missing scope |
| `Stages.NoticeNamesScope` | src/PlanetScale.php:302-306 | each missing scope appears, in comment tags, in the "Make sure" line |
| `Stages.ScopeWord` | src/PlanetScale.php:303-306 | the line says "scope." for exactly one scope and "scopes." otherwise |
| `Scenarios.MergeReplacesCa` | tests/Feature/PlanetScaleTest.php:57-65 | the test's Laravel env with `/etc/ssl/cert.pem` becomes the expected env with the system bundle |
| `Scenarios.ExistingDatabaseAndBranch` | tests/Feature/PlanetScaleTest.php:13-66 | picking `bellows-tester` and `main` yields the expected env and exactly four requests |
| `Scenarios.NewDatabase` | tests/Feature/PlanetScaleTest.php:68-132 | creating `new-db` posts `{name: new-db}`, then uses that database; it yields the expected env and exactly five requests |
| `Scenarios.NewBranch` | tests/Feature/PlanetScaleTest.php:134-208 | creating `new-branch` off `main` posts `{name, parent_branch}`, then mints a password for it; it yields the expected env |

## Left out

- Client construction is not modelled: the credential prompt, the
  `Authorization` header and the validation probe (src/PlanetScale.php:46-70).
  These are network set-up. The scripted client stands for the client they
  build.
- `Dotenv::parse` (src/PlanetScale.php:108) is a foreign library. A password
  response carries its already-parsed result, as an ordered list of pairs;
  dotenv syntax is not modelled.
- `array_merge` renumbers numeric keys. The model treats every key as a
  string key, as the dotenv keys here are.
- The console's own behaviour is simplified:
  - Re-asking after an invalid reply, choosing by index and trimming are
    not modelled.
  - A reply the console would not accept counts as a script that does not
    fit, and the step ends in `Failed`/`Fault`.
  - `Console::newLine()` (src/PlanetScale.php:272, 276) writes nothing of
    interest and is left out.
- Transport errors, and responses that are not JSON objects, are left out.
  The source does not handle them. A field of an unexpected JSON type is
  modelled as missing (or, for `code`, as "not a string"). The flow
  continues or faults just as where the PHP code would use `null` or throw.
- Error handling: the model assumes PHP's own handling of a missing array
  key, which yields `null` with a warning. Laravel's error handler turns that
  warning into an exception, so under it a missing branch list would fault
  rather than count as empty. A `name` of another JSON type, which PHP would
  coerce to a string, is modelled as missing.
- The facades are parameters:
  - `Deployment::site()->env()` and `Project::isolatedUser()` are fields of
    `Host`, not lookups.
- `getName()` (src/PlanetScale.php:39-42) is a constant and is not modelled.
- Behaviour kept as the code has it:
  - The replies to "Create a new database?" and to "Once you have added the
    scopes: Continue?" are never looked at.
  - At the database limit, the restarted run is modelled in full. Its
    result, even a successful one, is dropped, and `createDatabase()`
    returns `null`. Only an exception escaping the restarted run gets out.
  - Restarts are not limited to one: each restarted run can hit the limit
    again and restart again. The model does the same; every attempt
    consumes responses, so a finite script always ends the run.
  - A branch list may be empty: with no branches, the menu offers only
    "Create new branch", and the parent menu is empty.
  - A missing branch list (`collect(null)`) behaves as an empty list. A
    missing database list makes `count(null)` throw (`Fault`), as
    `Stages.NoDatabaseList` states.
  - `databaseName` and `branchName` have no initial value in the plugin; the
    constructor sets them to `""`, which nothing observes, because `deploy()`
    assigns each before reading it.
  - A notice printed before the organization is known names the plugin's
    current organization: `''` on a first run, the previous one on a
    restart.
