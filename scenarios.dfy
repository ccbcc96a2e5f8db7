/** The three successful runs the plugin's feature tests walk through, with
    the scripted responses and replies those tests give, and the exact
    requests and environment each run yields. */
module Scenarios {
  import opened Text
  import opened Api
  import opened Terminal
  import opened PlanetScale
  import opened Properties
  import opened Stages

  /** A response listing items by name. */
  function Listing(names: seq<string>): Response
  {
    Response(None, Some(names), None, None, None)
  }

  /** A response describing one created item. */
  function Named(name: string): Response
  {
    Response(None, None, Some(name), None, None)
  }

  /** A password response with its Laravel environment. */
  function Password(env: Env): Response
  {
    Response(None, None, None, None, Some(env))
  }

  /** The connection environment for database `db`, without its certificate entry. */
  function Connection(db: string): Env
  {
    [("DB_CONNECTION", "mysql"), ("DB_HOST", "aws.connect.psdb.cloud"), ("DB_PORT", "3306"),
     ("DB_DATABASE", db), ("DB_USERNAME", "test-username"), ("DB_PASSWORD", "test-password")]
  }

  /** What PlanetScale hands back for database `db`. */
  function Laravel(db: string): Env
  {
    Connection(db) + [("MYSQL_ATTR_SSL_CA", "/etc/ssl/cert.pem")]
  }

  /** The same environment with the certificate path the plugin forces. */
  function Expected(db: string): Env
  {
    Connection(db) + [("MYSQL_ATTR_SSL_CA", "/etc/ssl/certs/ca-certificates.crt")]
  }

  const Org := "test-org"
  const Tester := Host("tester", [])

  /** A fresh plugin with the given scripts. */
  function Start(responses: seq<Response>, replies: seq<string>): World
  {
    World("", "", "", [], Http(responses, []), Tty(replies, []))
  }

  /** The key already present is overwritten in place. */
  lemma MergeReplacesCa(db: string)
    ensures Put(Laravel(db), SslCaKey, SslCaPath) == Expected(db)
  {
    var c := Connection(db);
    forall i | 0 <= i < |c|
      ensures Keys(c)[i] != SslCaKey
    {
      assert Keys(c)[i][0] == 'D';
    }
    PutOverLast(c, SslCaKey, "/etc/ssl/cert.pem", SslCaPath);
  }

  /** When the whole run answers, `ProvisionRun` hands back the merged environment. */
  lemma Provisions(w: World, host: Host, db: string, branch: string, env: Env)
    requires GetDatabaseRun(w, host).0 == Got(Some(db))
    requires GetBranchRun(GetDatabaseRun(w, host).1.(db := db)).0 == Got(Some(branch))
    requires GetPasswordRun(GetBranchRun(GetDatabaseRun(w, host).1.(db := db)).1.(branch := branch)).0 == Got(Some(env))
    ensures var w5 := GetPasswordRun(GetBranchRun(GetDatabaseRun(w, host).1.(db := db)).1.(branch := branch)).1;
      ProvisionRun(w, host) == (Provisioned(Put(env, SslCaKey, SslCaPath)), w5.(credentials := Put(env, SslCaKey, SslCaPath)))
  {
  }

  lemma FirstOrganization(w: World, host: Host, rest: seq<Response>)
    requires w.http.pending == [Listing([Org])] + rest
    ensures DeployRun(w, host) == ProvisionRun(w.(org := Org, http := Http(rest, w.http.log + [Exchange(ListOrganizations, Some(Listing([Org])))])), host)
  {
    OrganizationIsFirst(w, host);
    assert w.http.pending[1..] == rest;
  }

  lemma ListedDatabase(w: World, host: Host, rest: seq<Response>, replies: seq<string>)
    requires w.http.pending == [Listing(["bellows-tester"])] + rest
    requires w.tty.answers == ["bellows-tester"] + replies
    ensures var (d, w') := GetDatabaseRun(w, host);
      d == Got(Some("bellows-tester")) && w'.tty.answers == replies
      && w' == w.(http := Http(rest, w.http.log + [Exchange(ListDatabases(w.org), Some(Listing(["bellows-tester"])))]), tty := w'.tty)
  {
    ExistingDatabasePicked(w, host);
    assert w.http.pending[1..] == rest && w.tty.answers[1..] == replies;
  }

  lemma CreatedDatabase(w: World, host: Host, rest: seq<Response>, replies: seq<string>)
    requires w.http.pending == [Listing(["bellows-tester"]), Named("new-db")] + rest
    requires w.tty.answers == [PlanetScale.NewDatabase, "new-db", "yes"] + replies
    ensures var (d, w') := GetDatabaseRun(w, host);
      d == Got(Some("new-db")) && w'.tty.answers == replies
      && w' == w.(http := Http(rest, w.http.log + [
           Exchange(ListDatabases(w.org), Some(Listing(["bellows-tester"]))),
           Exchange(NewDatabaseRequest(w.org, "new-db"), Some(Named("new-db")))]), tty := w'.tty)
  {
    NewDatabasePicked(w, host);
    var wc := Replied(Call(w, ListDatabases(w.org)).1, [Menu(DatabaseMenu, ["bellows-tester", PlanetScale.NewDatabase])]);
    assert wc.http.pending == [Named("new-db")] + rest;
    assert wc.tty.answers == ["new-db", "yes"] + replies;
    DatabaseCreated(wc, host);
    assert wc.http.pending[1..] == rest && wc.tty.answers[2..] == replies;
  }

  lemma ListedBranch(w: World, rest: seq<Response>, replies: seq<string>)
    requires w.http.pending == [Listing(["main"])] + rest
    requires w.tty.answers == ["main"] + replies
    ensures var (b, w') := GetBranchRun(w);
      b == Got(Some("main")) && w'.tty.answers == replies
      && w' == w.(http := Http(rest, w.http.log + [Exchange(ListBranches(w.org, w.db), Some(Listing(["main"])))]), tty := w'.tty)
  {
    ExistingBranchPicked(w);
    assert w.http.pending[1..] == rest && w.tty.answers[1..] == replies;
  }

  lemma BranchOffMain(w: World, rest: seq<Response>, replies: seq<string>)
    requires w.http.pending == [Listing(["main"]), Named("new-branch")] + rest
    requires w.tty.answers == [PlanetScale.NewBranch, "new-branch", "main"] + replies
    ensures var (b, w') := GetBranchRun(w);
      b == Got(Some("new-branch")) && w'.tty.answers == replies
      && w' == w.(http := Http(rest, w.http.log + [
           Exchange(ListBranches(w.org, w.db), Some(Listing(["main"]))),
           Exchange(NewBranchRequest(w.org, w.db, "new-branch", "main"), Some(Named("new-branch")))]), tty := w'.tty)
  {
    NewBranchPicked(w);
    var wb := Replied(Call(w, ListBranches(w.org, w.db)).1, [Menu(BranchMenu, ["main", PlanetScale.NewBranch])]);
    assert wb.http.pending == [Named("new-branch")] + rest;
    assert wb.tty.answers == ["new-branch", "main"] + replies;
    BranchCreated(wb, ["main"]);
    assert wb.http.pending[1..] == rest && wb.tty.answers[2..] == replies;
  }

  lemma MintedPassword(w: World, env: Env)
    requires w.http.pending == [Password(env)]
    ensures GetPasswordRun(w)
         == (Got(Some(env)), w.(http := Http([], w.http.log + [Exchange(NewPasswordRequest(w.org, w.db, w.branch), Some(Password(env)))])))
  {
    assert w.http.pending[1..] == [];
  }

  lemma LogOfFour<T>(a: T, b: T, c: T, d: T)
    ensures [] + [a] + [b] + [c] + [d] == [a, b, c, d]
  {
  }

  lemma LogOfFive<T>(a: T, b: T, c: T, d: T, e: T)
    ensures [] + [a] + [b, c] + [d] + [e] == [a, b, c, d, e]
    ensures [] + [a] + [b] + [c, d] + [e] == [a, b, c, d, e]
  {
  }

  /** Picking an existing database and an existing branch. */
  lemma ExistingDatabaseAndBranch()
    ensures var responses := [Listing([Org]), Listing(["bellows-tester"]), Listing(["main"]), Password(Laravel("bellows-tester"))];
      var (o, w') := DeployRun(Start(responses, ["bellows-tester", "main"]), Tester);
      o == Provisioned(Expected("bellows-tester")) && w'.credentials == Expected("bellows-tester")
      && w'.http.log == [
           Exchange(ListOrganizations, Some(responses[0])),
           Exchange(ListDatabases(Org), Some(responses[1])),
           Exchange(ListBranches(Org, "bellows-tester"), Some(responses[2])),
           Exchange(NewPasswordRequest(Org, "bellows-tester", "main"), Some(responses[3]))]
  {
    var p := Password(Laravel("bellows-tester"));
    var responses := [Listing([Org]), Listing(["bellows-tester"]), Listing(["main"]), p];
    var replies := ["bellows-tester", "main"];
    var w := Start(responses, replies);
    var r3 := [p];
    var r2 := [Listing(["main"])] + r3;
    var r1 := [Listing(["bellows-tester"])] + r2;
    assert responses == [Listing([Org])] + r1;
    assert replies == ["bellows-tester"] + (["main"] + []);
    FirstOrganization(w, Tester, r1);
    var w1 := w.(org := Org, http := Http(r1, w.http.log + [Exchange(ListOrganizations, Some(Listing([Org])))]));
    ListedDatabase(w1, Tester, r2, ["main"] + []);
    var w3 := GetDatabaseRun(w1, Tester).1.(db := "bellows-tester");
    ListedBranch(w3, r3, []);
    var w4 := GetBranchRun(w3).1.(branch := "main");
    MintedPassword(w4, Laravel("bellows-tester"));
    Provisions(w1, Tester, "bellows-tester", "main", Laravel("bellows-tester"));
    MergeReplacesCa("bellows-tester");
    assert ProvisionRun(w1, Tester).0 == Provisioned(Expected("bellows-tester"));
    var e := GetPasswordRun(w4).1.http.log;
    assert e == [] + [Exchange(ListOrganizations, Some(Listing([Org])))]
                   + [Exchange(ListDatabases(Org), Some(Listing(["bellows-tester"])))]
                   + [Exchange(ListBranches(Org, "bellows-tester"), Some(Listing(["main"])))]
                   + [Exchange(NewPasswordRequest(Org, "bellows-tester", "main"), Some(p))];
    LogOfFour(Exchange(ListOrganizations, Some(Listing([Org]))),
         Exchange(ListDatabases(Org), Some(Listing(["bellows-tester"]))),
         Exchange(ListBranches(Org, "bellows-tester"), Some(Listing(["main"]))),
         Exchange(NewPasswordRequest(Org, "bellows-tester", "main"), Some(p)));
  }

  /** Creating a database from the menu, then picking an existing branch:
      exactly `{name: new-db}` is posted and the new database is used. */
  lemma NewDatabase()
    ensures var responses := [Listing([Org]), Listing(["bellows-tester"]), Named("new-db"), Listing(["main"]), Password(Laravel("new-db"))];
      var (o, w') := DeployRun(Start(responses, [PlanetScale.NewDatabase, "new-db", "yes", "main"]), Tester);
      o == Provisioned(Expected("new-db")) && w'.credentials == Expected("new-db")
      && w'.http.log == [
           Exchange(ListOrganizations, Some(responses[0])),
           Exchange(ListDatabases(Org), Some(responses[1])),
           Exchange(NewDatabaseRequest(Org, "new-db"), Some(responses[2])),
           Exchange(ListBranches(Org, "new-db"), Some(responses[3])),
           Exchange(NewPasswordRequest(Org, "new-db", "main"), Some(responses[4]))]
  {
    var p := Password(Laravel("new-db"));
    var responses := [Listing([Org]), Listing(["bellows-tester"]), Named("new-db"), Listing(["main"]), p];
    var replies := [PlanetScale.NewDatabase, "new-db", "yes", "main"];
    var w := Start(responses, replies);
    var r3 := [p];
    var r2 := [Listing(["main"])] + r3;
    var r1 := [Listing(["bellows-tester"]), Named("new-db")] + r2;
    assert responses == [Listing([Org])] + r1;
    assert replies == [PlanetScale.NewDatabase, "new-db", "yes"] + (["main"] + []);
    FirstOrganization(w, Tester, r1);
    var w1 := w.(org := Org, http := Http(r1, w.http.log + [Exchange(ListOrganizations, Some(Listing([Org])))]));
    CreatedDatabase(w1, Tester, r2, ["main"] + []);
    var w3 := GetDatabaseRun(w1, Tester).1.(db := "new-db");
    ListedBranch(w3, r3, []);
    var w4 := GetBranchRun(w3).1.(branch := "main");
    MintedPassword(w4, Laravel("new-db"));
    Provisions(w1, Tester, "new-db", "main", Laravel("new-db"));
    MergeReplacesCa("new-db");
    LogOfFive(Exchange(ListOrganizations, Some(Listing([Org]))),
         Exchange(ListDatabases(Org), Some(Listing(["bellows-tester"]))),
         Exchange(NewDatabaseRequest(Org, "new-db"), Some(Named("new-db"))),
         Exchange(ListBranches(Org, "new-db"), Some(Listing(["main"]))),
         Exchange(NewPasswordRequest(Org, "new-db", "main"), Some(p)));
  }

  /** Picking an existing database, then creating a branch off `main`:
      exactly `{name: new-branch, parent_branch: main}` is posted and the
      password is minted for the branch the response names. */
  lemma NewBranch()
    ensures var responses := [Listing([Org]), Listing(["bellows-tester"]), Listing(["main"]), Named("new-branch"), Password(Laravel("bellows-tester"))];
      var (o, w') := DeployRun(Start(responses, ["bellows-tester", PlanetScale.NewBranch, "new-branch", "main"]), Tester);
      o == Provisioned(Expected("bellows-tester")) && w'.credentials == Expected("bellows-tester")
      && w'.http.log == [
           Exchange(ListOrganizations, Some(responses[0])),
           Exchange(ListDatabases(Org), Some(responses[1])),
           Exchange(ListBranches(Org, "bellows-tester"), Some(responses[2])),
           Exchange(NewBranchRequest(Org, "bellows-tester", "new-branch", "main"), Some(responses[3])),
           Exchange(NewPasswordRequest(Org, "bellows-tester", "new-branch"), Some(responses[4]))]
  {
    var p := Password(Laravel("bellows-tester"));
    var responses := [Listing([Org]), Listing(["bellows-tester"]), Listing(["main"]), Named("new-branch"), p];
    var replies := ["bellows-tester", PlanetScale.NewBranch, "new-branch", "main"];
    var w := Start(responses, replies);
    var r3 := [p];
    var r2 := [Listing(["main"]), Named("new-branch")] + r3;
    var r1 := [Listing(["bellows-tester"])] + r2;
    assert responses == [Listing([Org])] + r1;
    assert replies == ["bellows-tester"] + ([PlanetScale.NewBranch, "new-branch", "main"] + []);
    FirstOrganization(w, Tester, r1);
    var w1 := w.(org := Org, http := Http(r1, w.http.log + [Exchange(ListOrganizations, Some(Listing([Org])))]));
    ListedDatabase(w1, Tester, r2, [PlanetScale.NewBranch, "new-branch", "main"] + []);
    var w3 := GetDatabaseRun(w1, Tester).1.(db := "bellows-tester");
    BranchOffMain(w3, r3, []);
    var w4 := GetBranchRun(w3).1.(branch := "new-branch");
    MintedPassword(w4, Laravel("bellows-tester"));
    Provisions(w1, Tester, "bellows-tester", "new-branch", Laravel("bellows-tester"));
    MergeReplacesCa("bellows-tester");
    LogOfFive(Exchange(ListOrganizations, Some(Listing([Org]))),
         Exchange(ListDatabases(Org), Some(Listing(["bellows-tester"]))),
         Exchange(ListBranches(Org, "bellows-tester"), Some(Listing(["main"]))),
         Exchange(NewBranchRequest(Org, "bellows-tester", "new-branch", "main"), Some(Named("new-branch"))),
         Exchange(NewPasswordRequest(Org, "bellows-tester", "new-branch"), Some(p)));
  }
}
