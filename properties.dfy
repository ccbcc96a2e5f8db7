/** What the provisioning flow promises, proved about the functions of module
    `PlanetScale` (and so, through the methods' postconditions, about the
    `Plugin` class). */
module Properties {
  import opened Text
  import opened Api
  import opened Terminal
  import opened PlanetScale

  /** Every denial the flow can report, one per request it issues. */
  const Denials := [OrganizationsDenied, DatabasesDenied, CreateDatabaseDenied,
                    BranchesDenied, CreateBranchDenied, PasswordDenied]

  /** `after` is `before` with events appended. */
  ghost predicate Extends(before: seq<Event>, after: seq<Event>)
  {
    |before| <= |after| && after[..|before|] == before
  }

  /** None of the events appended to `before` is a refusal. */
  ghost predicate NoneRefused(before: seq<Event>, after: seq<Event>)
  {
    Extends(before, after) && forall i :: |before| <= i < |after| ==> !Refused(after[i])
  }

  /** The console's last three lines are the notice for one of the denials. */
  ghost predicate Warned(w: World)
  {
    exists d :: d in Denials && EndsWith(w.tty.transcript, ScopeNotice(w.org, d))
  }

  /** Of the events appended to `before`, only the last may be a refusal, and
      when it is, `stopped` holds. */
  ghost predicate StopsAtRefusal(before: seq<Event>, after: seq<Event>, stopped: bool)
  {
    Extends(before, after)
    && (forall i :: |before| <= i < |after| - 1 ==> !Refused(after[i]))
    && (|before| < |after| && Refused(after[|after| - 1]) ==> stopped)
  }

  lemma CallLogs(w: World, req: Request)
    ensures var (r, w') := Call(w, req);
      w'.http.log == w.http.log + [Exchange(req, r)]
      && w' == w.(http := w'.http)
      && (r.Some? <==> w.http.pending != [])
      && (r.Some? ==> r.value == w.http.pending[0] && w'.http.pending == w.http.pending[1..])
  {
  }

  lemma ExtendsByOne(log: seq<Event>, e: Event)
    ensures Extends(log, log + [e])
  {
    assert (log + [e])[..|log|] == log;
  }

  /** A notice written by `missingScope()` for one of the six denials. */
  lemma NoticeWarns(w: World, d: Denial)
    requires d in Denials
    ensures Warned(MissingScopeRun(w, d))
  {
    var t := MissingScopeRun(w, d).tty.transcript;
    assert t == w.tty.transcript + ScopeNotice(w.org, d);
    assert t[|t| - 3..] == ScopeNotice(w.org, d);
  }

  /** A refusal that appends one refused exchange and then the notice. */
  lemma RefusalStops(w: World, req: Request, d: Denial)
    requires d in Denials && w.http.pending != [] && IsForbidden(w.http.pending[0])
    ensures var (_, w1) := Call(w, req);
      StopsAtRefusal(w.http.log, w1.http.log, Warned(MissingScopeRun(w1, d)))
  {
    var (_, w1) := Call(w, req);
    ExtendsByOne(w.http.log, w1.http.log[|w1.http.log| - 1]);
    NoticeWarns(w1, d);
  }

  /** Prepending non-refused events keeps the property of the rest. */
  lemma Chain(a: seq<Event>, b: seq<Event>, c: seq<Event>, stopped: bool)
    requires NoneRefused(a, b) && StopsAtRefusal(b, c, stopped)
    ensures StopsAtRefusal(a, c, stopped)
  {
    assert c[..|a|] == c[..|b|][..|a|];
    forall i | |a| <= i < |c| - 1
      ensures !Refused(c[i])
    {
      if i < |b| {
        assert c[i] == b[i];
      }
    }
  }

  /** One exchange that was not refused. */
  lemma CallNotRefused(w: World, req: Request)
    requires w.http.pending == [] || !IsForbidden(w.http.pending[0])
    ensures NoneRefused(w.http.log, Call(w, req).1.http.log)
  {
    var (_, w1) := Call(w, req);
    ExtendsByOne(w.http.log, w1.http.log[|w1.http.log| - 1]);
  }

  /** A run that ends without a further request. */
  lemma Unchanged(log: seq<Event>, stopped: bool)
    ensures StopsAtRefusal(log, log, stopped)
  {
    assert log[..|log|] == log;
  }

  /** A run that did not stop at a refusal had none. */
  lemma NotStopped(a: seq<Event>, b: seq<Event>)
    requires StopsAtRefusal(a, b, false)
    ensures NoneRefused(a, b)
  {
  }

  /** Once the API refuses a request, the flow issues no further request,
      shows one of the six notices as its last output, and `deploy()`
      returns `null`; the restarted run inherits this, since its refusal
      ends the outer run too. */
  lemma {:induction false} DeployStops(w: World, host: Host)
    decreases |w.http.pending|, 4
    ensures var (o, w') := DeployRun(w, host);
      StopsAtRefusal(w.http.log, w'.http.log, o == NoResult && Warned(w'))
  {
    var (organizations, w1) := Call(w, ListOrganizations);
    if organizations.None? {
      CallNotRefused(w, ListOrganizations);
    } else if IsForbidden(organizations.value) {
      RefusalStops(w, ListOrganizations, OrganizationsDenied);
    } else if organizations.value.data.None? || organizations.value.data.value == [] {
      CallNotRefused(w, ListOrganizations);
    } else {
      CallNotRefused(w, ListOrganizations);
      var w2 := w1.(org := organizations.value.data.value[0]);
      ProvisionStops(w2, host);
      Chain(w.http.log, w1.http.log, DeployRun(w, host).1.http.log, DeployRun(w, host).0 == NoResult && Warned(DeployRun(w, host).1));
    }
  }

  lemma {:induction false} ProvisionStops(w: World, host: Host)
    decreases |w.http.pending|, 3
    ensures var (o, w') := ProvisionRun(w, host);
      StopsAtRefusal(w.http.log, w'.http.log, o == NoResult && Warned(w'))
  {
    var (o, w') := ProvisionRun(w, host);
    var (database, w1) := GetDatabaseRun(w, host);
    GetDatabaseStops(w, host);
    if !database.Got? || database.value.None? {
    } else {
      var w2 := w1.(db := database.value.value);
      var (branch, w3) := GetBranchRun(w2);
      GetBranchStops(w2);
      NotStopped(w.http.log, w1.http.log);
      if !branch.Got? || branch.value.None? {
        Chain(w.http.log, w1.http.log, w3.http.log, o == NoResult && Warned(w'));
      } else {
        var w4 := w3.(branch := branch.value.value);
        var (password, w5) := GetPasswordRun(w4);
        GetPasswordStops(w4);
        NotStopped(w2.http.log, w3.http.log);
        Chain(w2.http.log, w3.http.log, w5.http.log, o == NoResult && Warned(w'));
        Chain(w.http.log, w1.http.log, w5.http.log, o == NoResult && Warned(w'));
      }
    }
  }

  lemma {:induction false} GetDatabaseStops(w: World, host: Host)
    decreases |w.http.pending|, 2
    ensures var (r, w') := GetDatabaseRun(w, host);
      StopsAtRefusal(w.http.log, w'.http.log, r.Null? && Warned(w'))
  {
    var req := ListDatabases(w.org);
    var (databases, w1) := Call(w, req);
    if databases.Some? && IsForbidden(databases.value) {
      RefusalStops(w, req, DatabasesDenied);
    } else {
      CallNotRefused(w, req);
      if databases.None? || databases.value.data.None? {
        Unchanged(w1.http.log, false);
        Chain(w.http.log, w1.http.log, w1.http.log, false);
      } else if databases.value.data.value == [] {
        var w2 := Show(w1, [Warning(NoDatabasesText)]);
        var (create, w3) := Lift(w2, Confirming(w2.tty, CreateQuestion, true));
        if create.None? {
          Unchanged(w1.http.log, false);
          Chain(w.http.log, w1.http.log, w1.http.log, false);
        } else {
          CreateDatabaseStops(w3, host);
          var (r, w') := GetDatabaseRun(w, host);
          Chain(w.http.log, w1.http.log, w'.http.log, r.Null? && Warned(w'));
        }
      } else {
        var (choice, w2) := Lift(w1, Choosing(w1.tty, DatabaseMenu, databases.value.data.value + [NewDatabase]));
        if choice.None? || choice.value != NewDatabase {
          Unchanged(w1.http.log, false);
          Chain(w.http.log, w1.http.log, w1.http.log, false);
        } else {
          CreateDatabaseStops(w2, host);
          var (r, w') := GetDatabaseRun(w, host);
          Chain(w.http.log, w1.http.log, w'.http.log, r.Null? && Warned(w'));
        }
      }
    }
  }

  lemma {:induction false} CreateDatabaseStops(w: World, host: Host)
    decreases |w.http.pending|, 1
    ensures var (r, w') := CreateDatabaseRun(w, host);
      StopsAtRefusal(w.http.log, w'.http.log, r.Null? && Warned(w'))
  {
    var (name, w1) := Lift(w, Asking(w.tty, DatabaseNameQuestion, host.isolatedUser));
    if name.None? {
      Unchanged(w.http.log, false);
    } else {
      var req := NewDatabaseRequest(w1.org, name.value);
      var (database, w2) := Call(w1, req);
      if database.Some? && IsForbidden(database.value) {
        RefusalStops(w1, req, CreateDatabaseDenied);
      } else {
        CallNotRefused(w1, req);
        if database.None? || !AtLimit(database.value) {
          Unchanged(w2.http.log, false);
          Chain(w.http.log, w2.http.log, w2.http.log, false);
        } else {
          LimitStops(w2, database.value.message.value, host);
          var (r, w') := CreateDatabaseRun(w, host);
          Chain(w.http.log, w2.http.log, w'.http.log, r.Null? && Warned(w'));
        }
      }
    }
  }

  lemma {:induction false} LimitStops(w: World, message: string, host: Host)
    decreases |w.http.pending| + 1, 0
    ensures var (r, w') := LimitRun(w, message, host);
      StopsAtRefusal(w.http.log, w'.http.log, r.Null? && Warned(w'))
  {
    var w1 := Show(w, [Warning(message)]);
    var (without, w2) := Lift(w1, Confirming(w1.tty, WithoutQuestion, true));
    if without.None? || without.value {
      Unchanged(w.http.log, false);
    } else {
      var w3 := Show(w2, [Info(RestartText)]);
      var w4 := w3.(http := Clear(w3.http));
      ExtendsByOne(w.http.log, Cleared);
      DeployStops(w4, host);
      var (r, w') := LimitRun(w, message, host);
      Chain(w.http.log, w4.http.log, w'.http.log, r.Null? && Warned(w'));
    }
  }

  lemma GetBranchStops(w: World)
    ensures var (r, w') := GetBranchRun(w);
      StopsAtRefusal(w.http.log, w'.http.log, r.Null? && Warned(w'))
  {
    var req := ListBranches(w.org, w.db);
    var (branches, w1) := Call(w, req);
    if branches.Some? && IsForbidden(branches.value) {
      RefusalStops(w, req, BranchesDenied);
    } else {
      CallNotRefused(w, req);
      if branches.Some? {
        var existing := ListedBranches(branches.value);
        var (choice, w2) := Lift(w1, Choosing(w1.tty, BranchMenu, existing + [NewBranch]));
        if choice.Some? && choice.value == NewBranch {
          CreateBranchStops(w2, existing);
          var (r, w') := GetBranchRun(w);
          Chain(w.http.log, w1.http.log, w'.http.log, r.Null? && Warned(w'));
          return;
        }
      }
      Unchanged(w1.http.log, false);
      Chain(w.http.log, w1.http.log, w1.http.log, false);
    }
  }

  lemma CreateBranchStops(w: World, existing: seq<string>)
    ensures var (r, w') := CreateBranchRun(w, existing);
      StopsAtRefusal(w.http.log, w'.http.log, r.Null? && Warned(w'))
  {
    var (name, w1) := Lift(w, AskingRequired(w.tty, BranchNameQuestion));
    if name.None? {
      Unchanged(w.http.log, false);
      return;
    }
    var (parent, w2) := Lift(w1, Choosing(w1.tty, ParentMenu, existing));
    if parent.None? {
      Unchanged(w.http.log, false);
      return;
    }
    var req := NewBranchRequest(w2.org, w2.db, name.value, parent.value);
    if w2.http.pending != [] && IsForbidden(w2.http.pending[0]) {
      RefusalStops(w2, req, CreateBranchDenied);
    } else {
      CallNotRefused(w2, req);
    }
  }

  lemma GetPasswordStops(w: World)
    ensures var (r, w') := GetPasswordRun(w);
      StopsAtRefusal(w.http.log, w'.http.log, r.Null? && Warned(w'))
  {
    var req := NewPasswordRequest(w.org, w.db, w.branch);
    if w.http.pending != [] && IsForbidden(w.http.pending[0]) {
      RefusalStops(w, req, PasswordDenied);
    } else {
      CallNotRefused(w, req);
    }
  }

  // The path of a successful run.

  /** Every event is an exchange on `path`. */
  ghost predicate OnPath(events: seq<Event>, path: string)
  {
    forall i :: 0 <= i < |events| ==> events[i].Exchange? && events[i].request.path == path
  }

  /** The requests `getDatabase()` issues for a database it hands back: the
      listing, then possibly the creation. */
  ghost predicate DatabaseRequests(a: seq<Event>, org: string)
  {
    1 <= |a| <= 2 && OnPath(a, DatabasesPath(org))
    && a[0].request == ListDatabases(org)
    && (|a| == 2 ==> a[1].request.verb == POST)
  }

  /** The requests `getBranch()` issues for a branch it hands back. */
  ghost predicate BranchRequests(a: seq<Event>, org: string, db: string)
  {
    1 <= |a| <= 2 && OnPath(a, BranchesPath(org, db))
    && a[0].request == ListBranches(org, db)
    && (|a| == 2 ==> a[1].request.verb == POST)
  }

  /** The requests of a provisioning run after the organization: the
      organization's databases first, then that database's branches, then
      one password for the chosen branch. */
  ghost predicate RequestOrder(added: seq<Event>, org: string, db: string, branch: string)
  {
    exists j, k :: 0 < j < k == |added| - 1
      && DatabaseRequests(added[..j], org)
      && BranchRequests(added[j..k], org, db)
      && added[k].Exchange? && added[k].request == NewPasswordRequest(org, db, branch)
  }

  /** Three successive extensions of a log, seen as one. */
  lemma Stitch(l0: seq<Event>, l1: seq<Event>, l2: seq<Event>, e: Event)
    requires Extends(l0, l1) && Extends(l1, l2)
    ensures Extends(l0, l2 + [e])
    ensures (l2 + [e])[|l0|..] == l1[|l0|..] + l2[|l1|..] + [e]
  {
    assert l2[..|l0|] == l2[..|l1|][..|l0|];
    assert (l2 + [e])[..|l0|] == l2[..|l0|];
    assert l2[|l0|..] == l1[|l0|..] + l2[|l1|..] by {
      assert l2 == l2[..|l1|] + l2[|l1|..];
    }
  }

  /** The remainder of `createDatabase()` at the limit never yields a database. */
  lemma LimitNeverGot(w: World, message: string, host: Host)
    ensures !LimitRun(w, message, host).0.Got?
  {
  }

  /** A database that `createDatabase()` hands back costs exactly one POST to
      the organization's databases path, and the plugin's fields stay as they are. */
  lemma CreateDatabaseGot(w: World, host: Host)
    requires CreateDatabaseRun(w, host).0.Got?
    ensures var w' := CreateDatabaseRun(w, host).1;
      w'.org == w.org && w'.db == w.db && w'.branch == w.branch && w'.credentials == w.credentials
      && |w'.http.log| == |w.http.log| + 1 && w'.http.log == w.http.log + [w'.http.log[|w.http.log|]]
      && w'.http.log[|w.http.log|].Exchange?
      && w'.http.log[|w.http.log|].request.verb == POST
      && w'.http.log[|w.http.log|].request.path == DatabasesPath(w.org)
  {
    var (name, w1) := Lift(w, Asking(w.tty, DatabaseNameQuestion, host.isolatedUser));
    var req := NewDatabaseRequest(w1.org, name.value);
    var (database, w2) := Call(w1, req);
    CallLogs(w1, req);
    if AtLimit(database.value) {
      LimitNeverGot(w2, database.value.message.value, host);
    }
  }

  lemma TwoAppended(log: seq<Event>, a: Event, b: Event)
    ensures Extends(log, log + [a] + [b]) && (log + [a] + [b])[|log|..] == [a, b]
  {
    assert (log + [a] + [b])[..|log|] == log;
  }

  lemma OneAppended(log: seq<Event>, a: Event)
    ensures Extends(log, log + [a]) && (log + [a])[|log|..] == [a]
  {
    assert (log + [a])[..|log|] == log;
  }

  /** A database that `getDatabase()` hands back costs one listing request
      and at most one creation request, and leaves the plugin's fields alone. */
  lemma GetDatabaseGot(w: World, host: Host)
    requires GetDatabaseRun(w, host).0.Got?
    ensures var w' := GetDatabaseRun(w, host).1;
      w'.org == w.org && w'.db == w.db && w'.branch == w.branch && w'.credentials == w.credentials
      && Extends(w.http.log, w'.http.log) && DatabaseRequests(w'.http.log[|w.http.log|..], w.org)
  {
    var req := ListDatabases(w.org);
    var (databases, w1) := Call(w, req);
    CallLogs(w, req);
    var e := Exchange(req, databases);
    var w' := GetDatabaseRun(w, host).1;
    if databases.value.data.value == [] {
      var w2 := Show(w1, [Warning(NoDatabasesText)]);
      var w3 := Lift(w2, Confirming(w2.tty, CreateQuestion, true)).1;
      CreateDatabaseGot(w3, host);
      TwoAppended(w.http.log, e, w'.http.log[|w3.http.log|]);
    } else {
      var (choice, w2) := Lift(w1, Choosing(w1.tty, DatabaseMenu, databases.value.data.value + [NewDatabase]));
      if choice.value == NewDatabase {
        CreateDatabaseGot(w2, host);
        TwoAppended(w.http.log, e, w'.http.log[|w2.http.log|]);
      } else {
        OneAppended(w.http.log, e);
      }
    }
  }

  /** A branch that `getBranch()` hands back costs one listing request and at
      most one creation request, both on the database's branches path. */
  lemma GetBranchGot(w: World)
    requires GetBranchRun(w).0.Got?
    ensures var w' := GetBranchRun(w).1;
      w'.org == w.org && w'.db == w.db && w'.branch == w.branch && w'.credentials == w.credentials
      && Extends(w.http.log, w'.http.log) && BranchRequests(w'.http.log[|w.http.log|..], w.org, w.db)
  {
    var req := ListBranches(w.org, w.db);
    CallLogs(w, req);
    var (branches, w1) := Call(w, req);
    var e := Exchange(req, branches);
    var existing := ListedBranches(branches.value);
    var (choice, w2) := Lift(w1, Choosing(w1.tty, BranchMenu, existing + [NewBranch]));
    if choice.value == NewBranch {
      var (name, w3) := Lift(w2, AskingRequired(w2.tty, BranchNameQuestion));
      var (parent, w4) := Lift(w3, Choosing(w3.tty, ParentMenu, existing));
      var post := NewBranchRequest(w4.org, w4.db, name.value, parent.value);
      CallLogs(w4, post);
      TwoAppended(w.http.log, e, Exchange(post, Call(w4, post).0));
    } else {
      OneAppended(w.http.log, e);
    }
  }

  lemma GetPasswordGot(w: World)
    requires GetPasswordRun(w).0.Got?
    ensures var (r, w') := GetPasswordRun(w);
      w' == w.(http := w'.http)
      && w'.http.log == w.http.log + [w'.http.log[|w.http.log|]]
      && w'.http.log[|w.http.log|].Exchange?
      && w'.http.log[|w.http.log|].request == NewPasswordRequest(w.org, w.db, w.branch)
      && w'.http.log[|w.http.log|].response.Some?
      && r.value == w'.http.log[|w.http.log|].response.value.laravel
  {
    CallLogs(w, NewPasswordRequest(w.org, w.db, w.branch));
  }

  /** A provisioned environment is the password's Laravel environment with the
      certificate path merged in, it is what the plugin stores as its
      credentials, and the requests follow `RequestOrder`. */
  lemma ProvisionShape(w: World, host: Host)
    requires ProvisionRun(w, host).0.Provisioned?
    ensures var (o, w') := ProvisionRun(w, host);
      w'.org == w.org && Extends(w.http.log, w'.http.log)
      && RequestOrder(w'.http.log[|w.http.log|..], w.org, w'.db, w'.branch)
      && var last := w'.http.log[|w'.http.log| - 1];
         last.response.Some? && last.response.value.laravel.Some?
         && o.env == Put(last.response.value.laravel.value, SslCaKey, SslCaPath)
         && w'.credentials == o.env
  {
    var (o, w') := ProvisionRun(w, host);
    var (database, w1) := GetDatabaseRun(w, host);
    GetDatabaseGot(w, host);
    var w2 := w1.(db := database.value.value);
    var (branch, w3) := GetBranchRun(w2);
    GetBranchGot(w2);
    var w4 := w3.(branch := branch.value.value);
    var (password, w5) := GetPasswordRun(w4);
    GetPasswordGot(w4);
    var pe := w5.http.log[|w3.http.log|];
    Stitch(w.http.log, w1.http.log, w3.http.log, pe);
    OrderWitness(w1.http.log[|w.http.log|..], w3.http.log[|w1.http.log|..], pe, w.org, w'.db, w'.branch);
  }

  lemma OrderWitness(a: seq<Event>, b: seq<Event>, e: Event, org: string, db: string, branch: string)
    requires DatabaseRequests(a, org) && BranchRequests(b, org, db)
    requires e.Exchange? && e.request == NewPasswordRequest(org, db, branch)
    ensures RequestOrder(a + b + [e], org, db, branch)
  {
    var added := a + b + [e];
    assert added[..|a|] == a;
    assert added[|a|..|added| - 1] == b;
  }

  /** A successful `deploy()`: the first request lists the organizations and
      the first one listed becomes the organization; every later request
      follows `RequestOrder` for it; the environment returned is the
      password's environment with `MYSQL_ATTR_SSL_CA` merged in; and the run
      was never restarted, since the log holds no `clearClients()`. */
  lemma ProvisionedShape(w: World, host: Host)
    requires DeployRun(w, host).0.Provisioned?
    ensures var (o, w') := DeployRun(w, host);
      Extends(w.http.log, w'.http.log)
      && var added := w'.http.log[|w.http.log|..];
         4 <= |added| && added[0].Exchange? && added[0].request == ListOrganizations
         && added[0].response.Some? && added[0].response.value.data.Some?
         && added[0].response.value.data.value != [] && added[0].response.value.data.value[0] == w'.org
         && RequestOrder(added[1..], w'.org, w'.db, w'.branch)
         && Cleared !in added
         && var last := added[|added| - 1];
            last.response.Some? && last.response.value.laravel.Some?
            && o.env == Put(last.response.value.laravel.value, SslCaKey, SslCaPath)
            && w'.credentials == o.env
  {
    var (organizations, w1) := Call(w, ListOrganizations);
    CallLogs(w, ListOrganizations);
    var w2 := w1.(org := organizations.value.data.value[0]);
    ProvisionShape(w2, host);
    var w' := DeployRun(w, host).1;
    OrderedHasNoClear(w'.http.log[|w1.http.log|..], w'.org, w'.db, w'.branch);
    AfterOne(w.http.log, w1.http.log[|w.http.log|], w'.http.log);
  }

  lemma AfterOne(log: seq<Event>, e: Event, full: seq<Event>)
    requires Extends(log + [e], full)
    ensures Extends(log, full) && full[|log|..] == [e] + full[|log| + 1..]
  {
    assert full[..|log|] == full[..|log| + 1][..|log|];
    assert full[|log|..] == full[|log|..|log| + 1] + full[|log| + 1..];
  }

  /** Requests in `RequestOrder` are all exchanges. */
  lemma OrderedHasNoClear(added: seq<Event>, org: string, db: string, branch: string)
    requires RequestOrder(added, org, db, branch)
    ensures 3 <= |added| && Cleared !in added
  {
    var j, k :| 0 < j < k == |added| - 1
      && DatabaseRequests(added[..j], org)
      && BranchRequests(added[j..k], org, db)
      && added[k].Exchange? && added[k].request == NewPasswordRequest(org, db, branch);
    forall i | 0 <= i < |added|
      ensures added[i].Exchange?
    {
      if i < j {
        assert added[i] == added[..j][i];
      } else if i < k {
        assert added[i] == added[j..k][i - j];
      }
    }
  }

  // A successful run never met the database limit.

  /** Every database creation among `events`, a POST to the organization's
      databases path, was answered, and not with the limit. */
  ghost predicate CreatedUnderLimit(events: seq<Event>, org: string)
  {
    forall i :: 0 <= i < |events| && events[i].Exchange? && events[i].request.verb == POST
      && events[i].request.path == DatabasesPath(org)
      ==> events[i].response.Some? && !AtLimit(events[i].response.value)
  }

  lemma UnderLimitJoin(a: seq<Event>, b: seq<Event>, org: string)
    requires CreatedUnderLimit(a, org) && CreatedUnderLimit(b, org)
    ensures CreatedUnderLimit(a + b, org)
  {
    forall i | 0 <= i < |a + b|
      ensures (a + b)[i] == if i < |a| then a[i] else b[i - |a|]
    {
    }
  }

  /** Requests on a longer path are not database creations. */
  lemma OffDatabasesPath(events: seq<Event>, path: string, org: string)
    requires OnPath(events, path) && |path| > |DatabasesPath(org)|
    ensures CreatedUnderLimit(events, org)
  {
  }

  /** A database that `createDatabase()` hands back was created below the limit. */
  lemma CreateDatabaseUnderLimit(w: World, host: Host)
    requires CreateDatabaseRun(w, host).0.Got?
    ensures var log := CreateDatabaseRun(w, host).1.http.log;
      Extends(w.http.log, log) && CreatedUnderLimit(log[|w.http.log|..], w.org)
  {
    var (name, w1) := Lift(w, Asking(w.tty, DatabaseNameQuestion, host.isolatedUser));
    var req := NewDatabaseRequest(w1.org, name.value);
    var (database, w2) := Call(w1, req);
    CallLogs(w1, req);
    if AtLimit(database.value) {
      LimitNeverGot(w2, database.value.message.value, host);
    }
    OneAppended(w.http.log, Exchange(req, database));
  }

  /** A database that `getDatabase()` hands back was never met with the limit. */
  lemma GetDatabaseUnderLimit(w: World, host: Host)
    requires GetDatabaseRun(w, host).0.Got?
    ensures var log := GetDatabaseRun(w, host).1.http.log;
      Extends(w.http.log, log) && CreatedUnderLimit(log[|w.http.log|..], w.org)
  {
    var req := ListDatabases(w.org);
    var (databases, w1) := Call(w, req);
    CallLogs(w, req);
    var e := Exchange(req, databases);
    var log := GetDatabaseRun(w, host).1.http.log;
    var next: World;
    if databases.value.data.value == [] {
      var w2 := Show(w1, [Warning(NoDatabasesText)]);
      next := Lift(w2, Confirming(w2.tty, CreateQuestion, true)).1;
    } else {
      next := Lift(w1, Choosing(w1.tty, DatabaseMenu, databases.value.data.value + [NewDatabase])).1;
    }
    if log != next.http.log {
      CreateDatabaseUnderLimit(next, host);
    } else {
      assert log[|next.http.log|..] == [];
    }
    AfterOne(w.http.log, e, log);
    UnderLimitJoin([e], log[|w.http.log| + 1..], w.org);
  }

  /** The steps after the organization never meet the limit in a provisioned run. */
  lemma ProvisionUnderLimit(w: World, host: Host)
    requires ProvisionRun(w, host).0.Provisioned?
    ensures var w' := ProvisionRun(w, host).1;
      w'.org == w.org && Extends(w.http.log, w'.http.log)
      && CreatedUnderLimit(w'.http.log[|w.http.log|..], w.org)
  {
    var (database, w1) := GetDatabaseRun(w, host);
    GetDatabaseGot(w, host);
    GetDatabaseUnderLimit(w, host);
    var w2 := w1.(db := database.value.value);
    var (branch, w3) := GetBranchRun(w2);
    GetBranchGot(w2);
    OffDatabasesPath(w3.http.log[|w2.http.log|..], BranchesPath(w.org, w2.db), w.org);
    var w4 := w3.(branch := branch.value.value);
    GetPasswordGot(w4);
    var pe := GetPasswordRun(w4).1.http.log[|w3.http.log|];
    OffDatabasesPath([pe], PasswordsPath(w.org, w2.db, w4.branch), w.org);
    Stitch(w.http.log, w1.http.log, w3.http.log, pe);
    UnderLimitJoin(w1.http.log[|w.http.log|..], w3.http.log[|w1.http.log|..], w.org);
    UnderLimitJoin(w1.http.log[|w.http.log|..] + w3.http.log[|w1.http.log|..], [pe], w.org);
  }

  /** A successful `deploy()` never had a database creation answered at the
      organization's limit: the "continue without" branch always ends the run
      without a result, and the restart branch is ruled out by
      `ProvisionedShape`. */
  lemma DeployUnderLimit(w: World, host: Host)
    requires DeployRun(w, host).0.Provisioned?
    ensures var w' := DeployRun(w, host).1;
      Extends(w.http.log, w'.http.log) && CreatedUnderLimit(w'.http.log[|w.http.log|..], w'.org)
  {
    var (organizations, w1) := Call(w, ListOrganizations);
    CallLogs(w, ListOrganizations);
    var w2 := w1.(org := organizations.value.data.value[0]);
    ProvisionUnderLimit(w2, host);
    var log := DeployRun(w, host).1.http.log;
    var e := Exchange(ListOrganizations, organizations);
    AfterOne(w.http.log, e, log);
    UnderLimitJoin([e], log[|w.http.log| + 1..], w2.org);
  }
}
