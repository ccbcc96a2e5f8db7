/** The behaviour of each stage of the flow, one lemma per case the code
    distinguishes: what is asked, what is sent, and what comes back. */
module Stages {
  import opened Text
  import opened Api
  import opened Terminal
  import opened PlanetScale
  import opened Properties

  /** The world after the console showed `shown` and took the next reply. */
  function Replied(w: World, shown: seq<Line>): World
    requires w.tty.answers != []
  {
    w.(tty := Tty(w.tty.answers[1..], w.tty.transcript + shown))
  }

  /** The next scripted response exists and is not a permission denial. */
  predicate Answers(w: World)
  {
    w.http.pending != [] && !IsForbidden(w.http.pending[0])
  }

  /** The next scripted response is a permission denial. */
  predicate Refuses(w: World)
  {
    w.http.pending != [] && IsForbidden(w.http.pending[0])
  }

  /** Whether a confirmation reply means yes, as `Console::confirm` with a
      `true` default reads it. */
  predicate Yes(reply: string)
  {
    reply == "" || reply[0] == 'y' || reply[0] == 'Y'
  }

  /** `Yes` is how `Confirming` with a `true` default reads the next reply. */
  lemma YesIsConfirming(t: Tty, question: string)
    requires t.answers != []
    ensures Confirming(t, question, true).0 == Some(Yes(t.answers[0]))
  {
  }

  /** Only a `code` that is exactly the string "forbidden" is a refusal: a
      missing code, another string, or a value of another type is not. */
  lemma ForbiddenIsExact(r: Response)
    ensures IsForbidden(r) <==> r.code.Some? && r.code.value.Str? && r.code.value.s == "forbidden"
  {
  }

  // The organization.

  lemma OrganizationsRefused(w: World, host: Host)
    requires Refuses(w)
    ensures DeployRun(w, host) == (NoResult, Show(Call(w, ListOrganizations).1, ScopeNotice(w.org, OrganizationsDenied)))
  {
  }

  /** The organization is the first one listed, taken without asking the
      operator; the rest of the flow works on that organization. */
  lemma OrganizationIsFirst(w: World, host: Host)
    requires Answers(w) && w.http.pending[0].data.Some? && w.http.pending[0].data.value != []
    ensures DeployRun(w, host) == ProvisionRun(Call(w, ListOrganizations).1.(org := w.http.pending[0].data.value[0]), host)
    ensures Call(w, ListOrganizations).1.tty == w.tty
  {
  }

  /** An organization list with no entries makes `deploy()` fail. */
  lemma NoOrganization(w: World, host: Host)
    requires Answers(w) && (w.http.pending[0].data.None? || w.http.pending[0].data.value == [])
    ensures DeployRun(w, host) == (Fault, Call(w, ListOrganizations).1)
  {
  }

  // The database.

  lemma DatabasesRefused(w: World, host: Host)
    requires Refuses(w)
    ensures GetDatabaseRun(w, host) == (Null, Show(Call(w, ListDatabases(w.org)).1, ScopeNotice(w.org, DatabasesDenied)))
  {
  }

  /** With no database yet, one is created whatever the operator answers to
      "Create a new database?": the world handed to `createDatabase()` does
      not depend on the reply. */
  lemma EmptyListCreates(w: World, host: Host)
    requires Answers(w) && w.http.pending[0].data == Some([]) && w.tty.answers != []
    ensures GetDatabaseRun(w, host)
         == CreateDatabaseRun(Replied(Call(w, ListDatabases(w.org)).1, [Warning(NoDatabasesText), Question(CreateQuestion)]), host)
  {
    var t := w.tty.transcript;
    assert t + [Warning(NoDatabasesText)] + [Question(CreateQuestion)] == t + [Warning(NoDatabasesText), Question(CreateQuestion)];
  }

  /** Picking "Create new database" from the menu, which lists the existing
      databases followed by that entry, creates one. */
  lemma NewDatabasePicked(w: World, host: Host)
    requires Answers(w) && w.http.pending[0].data.Some? && w.http.pending[0].data.value != []
    requires w.tty.answers != [] && w.tty.answers[0] == NewDatabase
    ensures var names := w.http.pending[0].data.value;
      GetDatabaseRun(w, host)
        == CreateDatabaseRun(Replied(Call(w, ListDatabases(w.org)).1, [Menu(DatabaseMenu, names + [NewDatabase])]), host)
  {
  }

  /** Picking an existing database hands it back as it is, with no further request. */
  lemma ExistingDatabasePicked(w: World, host: Host)
    requires Answers(w) && w.http.pending[0].data.Some?
    requires w.tty.answers != [] && w.tty.answers[0] in w.http.pending[0].data.value
    requires w.tty.answers[0] != NewDatabase
    ensures var names := w.http.pending[0].data.value;
      GetDatabaseRun(w, host)
        == (Got(Some(w.tty.answers[0])), Replied(Call(w, ListDatabases(w.org)).1, [Menu(DatabaseMenu, names + [NewDatabase])]))
  {
  }

  /** A database list without a `data` field makes `count(null)` throw. */
  lemma NoDatabaseList(w: World, host: Host)
    requires Answers(w) && w.http.pending[0].data.None?
    ensures GetDatabaseRun(w, host) == (Failed, Call(w, ListDatabases(w.org)).1)
  {
  }

  /** The name asked for, or the isolated user's name for an empty reply. */
  function DatabaseName(w: World, host: Host): string
    requires w.tty.answers != []
  {
    if w.tty.answers[0] == "" then host.isolatedUser else w.tty.answers[0]
  }

  /** `DatabaseName` is the name `Asking` takes for the database question. */
  lemma DatabaseNameIsAsking(w: World, host: Host)
    requires w.tty.answers != []
    ensures Asking(w.tty, DatabaseNameQuestion, host.isolatedUser).0 == Some(DatabaseName(w, host))
  {
  }

  /** `createDatabase()` sends exactly `{name}` for the name the operator
      gave, or the isolated user's name by default, whatever follows. */
  lemma {:induction false} CreateDatabasePostsName(w: World, host: Host)
    requires w.tty.answers != []
    ensures var log := CreateDatabaseRun(w, host).1.http.log;
      |w.http.log| < |log| && log[..|w.http.log|] == w.http.log
      && log[|w.http.log|].Exchange?
      && log[|w.http.log|].request == NewDatabaseRequest(w.org, DatabaseName(w, host))
  {
    var w1 := Replied(w, [Question(DatabaseNameQuestion)]);
    var (database, w2) := Call(w1, NewDatabaseRequest(w1.org, DatabaseName(w, host)));
    CallLogs(w1, NewDatabaseRequest(w1.org, DatabaseName(w, host)));
    CreateDatabaseStops(w, host);
    var log := CreateDatabaseRun(w, host).1.http.log;
    if database.Some? && AtLimit(database.value) && !IsForbidden(database.value) {
      LimitStops(w2, database.value.message.value, host);
      assert log[..|w2.http.log|] == w2.http.log;
      assert log[|w.http.log|] == w2.http.log[|w.http.log|];
    }
  }

  lemma CreateDatabaseRefused(w: World, host: Host)
    requires w.tty.answers != [] && Refuses(w)
    ensures var w1 := Replied(w, [Question(DatabaseNameQuestion)]);
      CreateDatabaseRun(w, host)
        == (Null, Show(Call(w1, NewDatabaseRequest(w.org, DatabaseName(w, host))).1, ScopeNotice(w.org, CreateDatabaseDenied)))
  {
  }

  /** A created database: the instructions for the token's scopes are shown,
      the reply to "Continue?" is not looked at, and the response's name is
      handed back. */
  lemma DatabaseCreated(w: World, host: Host)
    requires |w.tty.answers| >= 2 && Answers(w) && !AtLimit(w.http.pending[0])
    ensures var w2 := Call(Replied(w, [Question(DatabaseNameQuestion)]), NewDatabaseRequest(w.org, DatabaseName(w, host))).1;
      CreateDatabaseRun(w, host)
        == (Got(w.http.pending[0].name), Replied(w2, CreatedNotice(w.org, w.http.pending[0].name) + [Question(ScopesAddedQuestion)]))
  {
    var t := w.tty.transcript + [Question(DatabaseNameQuestion)];
    var notice := CreatedNotice(w.org, w.http.pending[0].name);
    assert t + notice + [Question(ScopesAddedQuestion)] == t + (notice + [Question(ScopesAddedQuestion)]);
  }

  /** A creation answered with the organization's limit goes on as `LimitRun`,
      with the response's message, and never hands back a database. */
  lemma DatabaseAtLimit(w: World, host: Host)
    requires w.tty.answers != [] && Answers(w) && AtLimit(w.http.pending[0])
    ensures var w2 := Call(Replied(w, [Question(DatabaseNameQuestion)]), NewDatabaseRequest(w.org, DatabaseName(w, host))).1;
      CreateDatabaseRun(w, host) == LimitRun(w2, w.http.pending[0].message.value, host)
      && !CreateDatabaseRun(w, host).0.Got?
  {
    var w2 := Call(Replied(w, [Question(DatabaseNameQuestion)]), NewDatabaseRequest(w.org, DatabaseName(w, host))).1;
    LimitNeverGot(w2, w.http.pending[0].message.value, host);
  }

  /** At the organization's database limit, continuing without PlanetScale
      ends the step with `null` and no further request. */
  lemma LimitContinuesWithout(w: World, message: string, host: Host)
    requires w.tty.answers != [] && Yes(w.tty.answers[0])
    ensures LimitRun(w, message, host) == (Null, Replied(w, [Warning(message), Question(WithoutQuestion)]))
  {
    var t := w.tty.transcript;
    assert t + [Warning(message)] + [Question(WithoutQuestion)] == t + [Warning(message), Question(WithoutQuestion)];
  }

  /** At the limit, declining to continue clears the clients and runs the
      whole flow again; its result is dropped and only a failure gets out. */
  lemma LimitRestarts(w: World, message: string, host: Host)
    requires w.tty.answers != [] && !Yes(w.tty.answers[0])
    ensures var w1 := Replied(w, [Warning(message), Question(WithoutQuestion), Info(RestartText)]);
      var again := DeployRun(w1.(http := Clear(w1.http)), host);
      LimitRun(w, message, host) == (if again.0.Fault? then Failed else Null, again.1)
  {
    var t := w.tty.transcript;
    assert t + [Warning(message)] + [Question(WithoutQuestion)] + [Info(RestartText)]
        == t + [Warning(message), Question(WithoutQuestion), Info(RestartText)];
  }

  /** A run that went through a restart never provisions anything. */
  lemma RestartNeverProvisions(w: World, host: Host)
    requires Cleared !in w.http.log && Cleared in DeployRun(w, host).1.http.log
    ensures !DeployRun(w, host).0.Provisioned?
  {
    if DeployRun(w, host).0.Provisioned? {
      ProvisionedShape(w, host);
      assert false;
    }
  }

  // The branch.

  lemma BranchesRefused(w: World)
    requires Refuses(w)
    ensures GetBranchRun(w) == (Null, Show(Call(w, ListBranches(w.org, w.db)).1, ScopeNotice(w.org, BranchesDenied)))
  {
  }

  /** Picking "Create new branch" creates one, offering as parents the
      existing branches only. */
  lemma NewBranchPicked(w: World)
    requires Answers(w) && w.tty.answers != [] && w.tty.answers[0] == NewBranch
    ensures var existing := ListedBranches(w.http.pending[0]);
      GetBranchRun(w)
        == CreateBranchRun(Replied(Call(w, ListBranches(w.org, w.db)).1, [Menu(BranchMenu, existing + [NewBranch])]), existing)
  {
  }

  lemma ExistingBranchPicked(w: World)
    requires Answers(w) && w.tty.answers != []
    requires w.tty.answers[0] in ListedBranches(w.http.pending[0]) && w.tty.answers[0] != NewBranch
    ensures var existing := ListedBranches(w.http.pending[0]);
      GetBranchRun(w)
        == (Got(Some(w.tty.answers[0])), Replied(Call(w, ListBranches(w.org, w.db)).1, [Menu(BranchMenu, existing + [NewBranch])]))
  {
  }

  /** A new branch: its name is asked for, the parent is chosen among the
      existing branches, and exactly `{name, parent_branch}` is sent. */
  lemma NewBranchSent(w: World, existing: seq<string>)
    requires |w.tty.answers| >= 2 && w.tty.answers[0] != "" && w.tty.answers[1] in existing
    ensures var (r, w') := CreateBranchRun(w, existing);
      w'.http == Send(w.http, NewBranchRequest(w.org, w.db, w.tty.answers[0], w.tty.answers[1])).1
      && w'.tty.answers == w.tty.answers[2..]
      && w'.tty.transcript[..|w.tty.transcript| + 2]
         == w.tty.transcript + [Question(BranchNameQuestion), Menu(ParentMenu, existing)]
  {
  }

  /** A parent that is not an existing branch is not accepted, and nothing is sent. */
  lemma ParentMustExist(w: World, existing: seq<string>)
    requires |w.tty.answers| >= 2 && w.tty.answers[1] !in existing
    ensures var (r, w') := CreateBranchRun(w, existing);
      r.Failed? && w'.http == w.http
  {
  }

  lemma CreateBranchRefused(w: World, existing: seq<string>)
    requires |w.tty.answers| >= 2 && w.tty.answers[0] != "" && w.tty.answers[1] in existing && Refuses(w)
    ensures var w2 := Replied(Replied(w, [Question(BranchNameQuestion)]), [Menu(ParentMenu, existing)]);
      CreateBranchRun(w, existing)
        == (Null, Show(Call(w2, NewBranchRequest(w.org, w.db, w.tty.answers[0], w.tty.answers[1])).1, ScopeNotice(w.org, CreateBranchDenied)))
  {
  }

  /** A branch that was created is handed back as the response names it. */
  lemma BranchCreated(w: World, existing: seq<string>)
    requires |w.tty.answers| >= 2 && w.tty.answers[0] != "" && w.tty.answers[1] in existing && Answers(w)
    ensures var w2 := Replied(Replied(w, [Question(BranchNameQuestion)]), [Menu(ParentMenu, existing)]);
      CreateBranchRun(w, existing)
        == (Got(w.http.pending[0].name), Call(w2, NewBranchRequest(w.org, w.db, w.tty.answers[0], w.tty.answers[1])).1)
  {
  }

  // The password.

  lemma PasswordRefused(w: World)
    requires Refuses(w)
    ensures GetPasswordRun(w) == (Null, Show(Call(w, NewPasswordRequest(w.org, w.db, w.branch)).1, ScopeNotice(w.org, PasswordDenied)))
  {
  }

  /** A provisioned environment has `MYSQL_ATTR_SSL_CA` set to the system
      bundle; every other key keeps the value the password's environment gave
      it, the other entries keep their order, and the key keeps its place
      when the password's environment already had it (else it comes last). */
  lemma ProvisionedEnvForcesCa(w: World, host: Host)
    requires DeployRun(w, host).0.Provisioned?
    ensures var (o, w') := DeployRun(w, host);
      |w'.http.log| > 0 && w'.http.log[|w'.http.log| - 1].Exchange?
      && w'.http.log[|w'.http.log| - 1].response.Some?
      && w'.http.log[|w'.http.log| - 1].response.value.laravel.Some?
      && var laravel := w'.http.log[|w'.http.log| - 1].response.value.laravel.value;
         w'.credentials == o.env
         && Lookup(o.env, SslCaKey) == Some(SslCaPath)
         && (forall q :: q != SslCaKey ==> Lookup(o.env, q) == Lookup(laravel, q))
         && Without(o.env, SslCaKey) == Without(laravel, SslCaKey)
         && Keys(o.env) == if HasKey(laravel, SslCaKey) then Keys(laravel) else Keys(laravel) + [SslCaKey]
  {
    ProvisionedShape(w, host);
    var (o, w') := DeployRun(w, host);
    var n := |w.http.log|;
    var added := w'.http.log[n..];
    assert w'.http.log[|w'.http.log| - 1] == added[|added| - 1];
    OrderedHasNoClear(added[1..], w'.org, w'.db, w'.branch);
    assert added[|added| - 1] == added[1..][|added| - 2];
    var laravel := added[|added| - 1].response.value.laravel.value;
    PutLookup(laravel, SslCaKey, SslCaPath, SslCaKey);
    forall q | q != SslCaKey
      ensures Lookup(o.env, q) == Lookup(laravel, q)
    {
      PutLookup(laravel, SslCaKey, SslCaPath, q);
    }
    PutKeepsOthers(laravel, SslCaKey, SslCaPath);
  }

  // Gating the deployment on the site's current environment.

  /** Deployment is skipped exactly when the site already points at a
      PlanetScale host and already has the certificate variable. */
  lemma ShouldDeployIff(site: Env)
    ensures !ShouldDeploy(site)
        <==> (exists i: nat :: OccursAt(DbHost(site), HostMarker, i)) && HasKey(site, SslCaKey)
  {
    assert HostMarker[0] == 'p';
  }

  /** No PlanetScale host: deploy without asking. */
  lemma ConfirmWithoutPrompt(site: Env, t: Tty)
    requires !DbHostIsPlanetScale(site)
    ensures ConfirmDeployRun(site, t) == (Some(true), t)
  {
  }

  /** A PlanetScale host: the operator is asked, naming the current host, and
      an empty reply means yes. */
  lemma ConfirmAsks(site: Env, t: Tty)
    requires DbHostIsPlanetScale(site) && t.answers != []
    ensures ConfirmDeployRun(site, t)
         == (Some(Yes(t.answers[0])), Tty(t.answers[1..], t.transcript + [Question(PointedText + DbHost(site) + ContinueText)]))
  {
  }

  // What `missingScope()` says.

  /** `part` occurs somewhere in `line`. */
  ghost predicate Mentions(line: string, part: string)
  {
    exists i: nat :: OccursAt(line, part, i)
  }

  /** The warning names the action that was refused, and the second line
      names every missing scope, each in `<comment>` tags. */
  lemma NoticeNamesActionAndScopes(org: string, d: Denial)
    ensures OccursAt(ScopeNotice(org, d)[0].text, d.action, |DeniedText|)
    ensures forall k :: 0 <= k < |d.scopes| ==> Mentions(ScopeNotice(org, d)[1].text, Comment(d.scopes[k]))
  {
    var warning := ScopeNotice(org, d)[0].text;
    assert warning[|DeniedText|..|DeniedText| + |d.action|] == d.action;
    forall k | 0 <= k < |d.scopes|
      ensures Mentions(ScopeNotice(org, d)[1].text, Comment(d.scopes[k]))
    {
      NoticeNamesScope(org, d, k);
    }
  }

  lemma {:induction false} NoticeNamesScope(org: string, d: Denial, k: nat)
    requires k < |d.scopes|
    ensures Mentions(ScopeNotice(org, d)[1].text, Comment(d.scopes[k]))
  {
    var joined := Join(", ", Comments(d.scopes));
    var rest := " " + Descriptor(d.scopes) + ".";
    var line := ScopeNotice(org, d)[1].text;
    assert line == MakeSureText + joined + rest;
    JoinNamesEveryPart(", ", Comments(d.scopes), k);
    var i: nat :| OccursAt(joined, Comments(d.scopes)[k], i);
    OccursInSuffix(MakeSureText, joined, Comment(d.scopes[k]), i);
    OccursInPrefix(MakeSureText + joined, rest, Comment(d.scopes[k]), |MakeSureText| + i);
    assert OccursAt(line, Comment(d.scopes[k]), |MakeSureText| + i);
  }

  /** One missing scope is a "scope", any other number "scopes". */
  lemma ScopeWord(org: string, d: Denial)
    ensures var line := ScopeNotice(org, d)[1].text;
      (|d.scopes| == 1 <==> EndsWith(line, " scope."))
      && (|d.scopes| != 1 <==> EndsWith(line, " scopes."))
  {
    var line := ScopeNotice(org, d)[1].text;
    var front := MakeSureText + Join(", ", Comments(d.scopes));
    if |d.scopes| == 1 {
      assert line == front + " scope.";
      assert line[|line| - 7] == ' ' != " scopes."[1];
    } else {
      assert line == front + " scopes.";
      assert line[|line| - 7] == 's' != " scope."[0];
    }
  }
}
