/**
 * A login of the step machine that nothing disturbs: its steps have exactly the outcomes that provisionUser
 * is specified by.
 */
module SingleLogin {
  import opened Basics
  import opened Tables
  import opened Store
  import opened Identity
  import opened LoginRaces

  predicate Moves(a: Action, n: nat) {
    !a.Operate? && !a.Begin? && a.n == n
  }

  predicate OnlyMoves(run: seq<Action>, n: nat) {
    forall a | a in run :: Moves(a, n)
  }

  // ---------------------------------------------------------------- what its steps have done so far

  ghost predicate SyncedUpTo(created: Tables, d: Tables, user: string, claims: seq<string>, k: nat)
    requires k <= |claims|
  {
    exists newIds, fs :: |newIds| == |fs| == k && SyncedAll(created, d, user, claims[..k], newIds, fs)
  }

  /** The user has been created, and the first claims have been dealt with. */
  ghost predicate InLoop(db: Tables, d: Tables, login: Login, user: string, k: nat) {
    && !KnownSubject(db, login.subject) && !KnownEmail(db, login.email) && k <= |login.groups|
    && UserCreated(db, user, NewUser(login)).1
    && SyncedUpTo(UserCreated(db, user, NewUser(login)).0, d, user, login.groups, k)
  }

  /** The group has just been made for a claim that no group carried. */
  ghost predicate JustMade(db: Tables, mid: Tables, d: Tables, login: Login, user: string, k: nat, g: string) {
    && k < |login.groups| && InLoop(db, mid, login, user, k) && !Carried(mid, login.groups[k])
    && GroupCreated(mid, g, Group(login.groups[k], NullString(login.groups[k]))) == (d, true)
  }

  ghost predicate Concluded(db: Tables, d: Tables, login: Login, user: Option<string>) {
    exists draw, faults | Drawn(login, draw, faults) :: Provisioned(db, d, login, draw, faults, user)
  }

  /** What a login that started on some tables has made of them when it stands here. */
  ghost predicate Along(db: Tables, d: Tables, login: Login, phase: Phase) {
    && phase.login == login
    && match phase
       case Started(_) => d == db
       case SubjectUnknown(_) => d == db && !KnownSubject(db, login.subject)
       case AddressUnknown(_) => d == db && !KnownSubject(db, login.subject) && !KnownEmail(db, login.email)
       case Syncing(_, user, k) => k < |login.groups| && InLoop(db, d, login, user, k)
       case GroupMissing(_, user, k) =>
         k < |login.groups| && InLoop(db, d, login, user, k) && !Carried(d, login.groups[k])
       case GroupFound(_, user, k, g) =>
         && k < |login.groups|
         && (|| (InLoop(db, d, login, user, k) && Carries(d, g, login.groups[k]))
             || exists mid :: JustMade(db, mid, d, login, user, k, g))
       case Returned(_, user) => Concluded(db, d, login, user)
  }

  lemma EndsWith(
    db: Tables, d: Tables, login: Login, user: Option<string>, id: string, bySubject: bool, byEmail: bool, create: bool)
    requires var n := |login.groups|;
             Provisioned(db, d, login, Draw(id, seq(n, _ => "")),
               Faults(bySubject, byEmail, create, seq(n, _ => NO_FAULT)),
                         user)
    ensures Concluded(db, d, login, user)
  {
    var n := |login.groups|;
    var draw, faults := Draw(id, seq(n, _ => "")), Faults(bySubject, byEmail, create, seq(n, _ => NO_FAULT));
    assert Drawn(login, draw, faults);
  }

  lemma OneMoreClaim(
    created: Tables, mid: Tables, d: Tables, user: string, claims: seq<string>, k: nat, newId: string, f: GroupFaults)
    requires k < |claims| && SyncedUpTo(created, mid, user, claims, k) && Synced(mid, d, user, claims[k], newId, f)
    ensures SyncedUpTo(created, d, user, claims, k + 1)
  {
    var newIds, fs :| |newIds| == |fs| == k && SyncedAll(created, mid, user, claims[..k], newIds, fs);
    var ids, faults := newIds + [newId], fs + [f];
    assert claims[..k + 1][..k] == claims[..k] && ids[..k] == newIds && faults[..k] == fs;
    assert SyncedAll(created, d, user, claims[..k + 1], ids, faults);
  }

  /** After a claim has been dealt with, the loop goes on or the login returns. */
  lemma NextClaim(db: Tables, mid: Tables, d: Tables, login: Login, user: string, k: nat, newId: string, f: GroupFaults)
    requires k < |login.groups| && InLoop(db, mid, login, user, k) && Synced(mid, d, user, login.groups[k], newId, f)
    ensures Along(db, d, login, AtClaim(login, user, k + 1))
  {
    OneMoreClaim(UserCreated(db, user, NewUser(login)).0, mid, d, user, login.groups, k, newId, f);
    LoopGoesOn(db, d, login, user, k + 1);
  }

  lemma LoopGoesOn(db: Tables, d: Tables, login: Login, user: string, k: nat)
    requires InLoop(db, d, login, user, k)
    ensures Along(db, d, login, AtClaim(login, user, k))
  {
    if k == |login.groups| {
      var created := UserCreated(db, user, NewUser(login)).0;
      var newIds, fs :| |newIds| == |fs| == k && SyncedAll(created, d, user, login.groups[..k], newIds, fs);
      assert login.groups[..k] == login.groups;
      var draw, faults := Draw(user, newIds), Faults(false, false, false, fs);
      assert Drawn(login, draw, faults) && Provisioned(db, d, login, draw, faults, Some(user));
    }
  }

  lemma LookUpGoesAlong(db: Tables, s: System, a: Action)
    requires (a.LookUpSubject? || a.LookUpAddress?) && Enabled(s, a)
    requires Along(db, s.db, s.logins[a.n].login, s.logins[a.n])
    ensures Along(db, Apply(s, a).db, s.logins[a.n].login, Apply(s, a).logins[a.n])
  {
    if a.found.Some? {
      EndsWith(db, s.db, s.logins[a.n].login, a.found, "", false, false, false);
    }
  }

  lemma CreationGoesAlong(db: Tables, s: System, n: nat, id: string)
    requires Enabled(s, CreateUserRow(n, id)) && Along(db, s.db, s.logins[n].login, s.logins[n])
    ensures var e := Apply(s, CreateUserRow(n, id)); Along(db, e.db, s.logins[n].login, e.logins[n])
  {
    var login := s.logins[n].login;
    var (created, went) := UserCreated(db, id, NewUser(login));
    if went {
      assert SyncedAll(created, created, id, login.groups[..0], [], []);
      LoopGoesOn(db, created, login, id, 0);
    } else {
      EndsWith(db, db, login, None, id, false, false, false);
    }
  }

  lemma ClaimGoesAlong(db: Tables, s: System, a: Action)
    requires (a.FindGroup? || a.MakeGroup? || a.AddMember?) && Enabled(s, a)
    requires Along(db, s.db, s.logins[a.n].login, s.logins[a.n])
    ensures Along(db, Apply(s, a).db, s.logins[a.n].login, Apply(s, a).logins[a.n])
  {
    var phase := s.logins[a.n];
    var login, user, k := phase.login, phase.user, phase.k;
    var d := Apply(s, a).db;
    if a.MakeGroup? {
      if GroupCreated(s.db, a.id, Group(login.groups[k], NullString(login.groups[k]))).1 {
        assert JustMade(db, s.db, d, login, user, k, a.id);
      } else {
        NextClaim(db, s.db, d, login, user, k, a.id, NO_FAULT);
      }
    } else if a.AddMember? {
      if InLoop(db, s.db, login, user, k) && Carries(s.db, phase.group, login.groups[k]) {
        NextClaim(db, s.db, d, login, user, k, "", NO_FAULT);
      } else {
        var mid :| JustMade(db, mid, s.db, login, user, k, phase.group);
        NextClaim(db, mid, d, login, user, k, phase.group, NO_FAULT);
      }
    }
  }

  lemma FailureGoesAlong(db: Tables, s: System, n: nat)
    requires Enabled(s, CallFails(n)) && Along(db, s.db, s.logins[n].login, s.logins[n])
    ensures Along(db, s.db, s.logins[n].login, Failed(s.logins[n]))
  {
    var login := s.logins[n].login;
    match s.logins[n]
    case Started(_) => EndsWith(db, s.db, login, None, "", true, false, false);
    case SubjectUnknown(_) => EndsWith(db, s.db, login, None, "", false, true, false);
    case AddressUnknown(_) => EndsWith(db, s.db, login, None, "", false, false, true);
    case Syncing(_, user, k) => NextClaim(db, s.db, s.db, login, user, k, "", GroupFaults(true, false, false));
    case GroupMissing(_, user, k) => NextClaim(db, s.db, s.db, login, user, k, "", GroupFaults(false, true, false));
    case GroupFound(_, user, k, g) => FailedAddGoesAlong(db, s.db, login, user, k, g);
  }

  lemma FailedAddGoesAlong(db: Tables, d: Tables, login: Login, user: string, k: nat, g: string)
    requires Along(db, d, login, GroupFound(login, user, k, g))
    ensures Along(db, d, login, AtClaim(login, user, k + 1))
  {
    var f := GroupFaults(false, false, true);
    if InLoop(db, d, login, user, k) && Carries(d, g, login.groups[k]) {
      NextClaim(db, d, d, login, user, k, "", f);
    } else {
      var mid :| JustMade(db, mid, d, login, user, k, g);
      NextClaim(db, mid, d, login, user, k, g, f);
    }
  }

  lemma MoveGoesAlong(db: Tables, s: System, a: Action, n: nat)
    requires Moves(a, n) && Enabled(s, a) && Along(db, s.db, s.logins[n].login, s.logins[n])
    ensures var e := Apply(s, a);
            && n in e.logins && e.logins == s.logins[n := e.logins[n]]
            && Along(db, e.db, s.logins[n].login, e.logins[n])
  {
    if a.LookUpSubject? || a.LookUpAddress? {
      LookUpGoesAlong(db, s, a);
    } else if a.CreateUserRow? {
      CreationGoesAlong(db, s, n, a.id);
    } else if a.CallFails? {
      FailureGoesAlong(db, s, n);
    } else {
      ClaimGoesAlong(db, s, a);
    }
  }

  lemma {:induction false} RunGoesAlong(db: Tables, s: System, run: seq<Action>, n: nat)
    requires n in s.logins && Possible(s, run) && OnlyMoves(run, n)
    requires Along(db, s.db, s.logins[n].login, s.logins[n])
    ensures var e := After(s, run);
            && n in e.logins && e.logins == s.logins[n := e.logins[n]]
            && Along(db, e.db, s.logins[n].login, e.logins[n])
    decreases |run|
  {
    if run != [] {
      assert run[0] in run;
      MoveGoesAlong(db, s, run[0], n);
      RunGoesAlong(db, Apply(s, run[0]), run[1..], n);
    }
  }

  // ---------------------------------------------------------------- every outcome is reached

  /** The login can get from one state to another by steps of its own. */
  ghost predicate Leads(s: System, n: nat, e: System) {
    exists run :: Possible(s, run) && OnlyMoves(run, n) && After(s, run) == e
  }

  lemma LeadsToItself(s: System, n: nat)
    ensures Leads(s, n, s)
  {
    assert Possible(s, []) && OnlyMoves([], n) && After(s, []) == s;
  }

  /** One more step; only where the login stands and the tables have changed. */
  lemma Onward(s: System, n: nat, db: Tables, phase: Phase, a: Action, db': Tables, phase': Phase)
    requires n in s.logins && Leads(s, n, At(s.(db := db), n, phase)) && Moves(a, n)
    requires var mid := At(s.(db := db), n, phase);
             Enabled(mid, a) && Apply(mid, a).db == db' && Apply(mid, a).logins == mid.logins[n := phase']
    ensures Leads(s, n, At(s.(db := db'), n, phase'))
  {
    var mid := At(s.(db := db), n, phase);
    var run :| Possible(s, run) && OnlyMoves(run, n) && After(s, run) == mid;
    OneMore(s, run, a);
    var e := At(s.(db := db'), n, phase');
    assert e.logins == mid.logins[n := phase'];
    assert Possible(s, run + [a]) && OnlyMoves(run + [a], n) && After(s, run + [a]) == e;
  }

  /** From the start of a claim to the next one, with any outcome. */
  lemma ClaimIsReached(
    s: System, n: nat, db: Tables, d: Tables, login: Login, user: string, k: nat, newId: string, f: GroupFaults)
    requires n in s.logins && k < |login.groups| && Leads(s, n, At(s.(db := db), n, Syncing(login, user, k)))
    requires Synced(db, d, user, login.groups[k], newId, f)
    ensures Leads(s, n, At(s.(db := d), n, AtClaim(login, user, k + 1)))
  {
    var claim, start, next := login.groups[k], Syncing(login, user, k), AtClaim(login, user, k + 1);
    if f.find {
      Onward(s, n, db, start, CallFails(n), db, next);
    } else if Carried(db, claim) {
      var g :| Carries(db, g, claim) && d == WithMember(db, g, user, f.add);
      Onward(s, n, db, start, FindGroup(n, Some(g)), db, GroupFound(login, user, k, g));
      AddIsReached(s, n, db, login, user, k, g, f.add);
    } else {
      Onward(s, n, db, start, FindGroup(n, None), db, GroupMissing(login, user, k));
      var (grown, created) := GroupCreated(db, newId, Group(claim, NullString(claim)));
      if f.create {
        Onward(s, n, db, GroupMissing(login, user, k), CallFails(n), db, next);
      } else if !created {
        Onward(s, n, db, GroupMissing(login, user, k), MakeGroup(n, newId), db, next);
      } else {
        Onward(s, n, db, GroupMissing(login, user, k), MakeGroup(n, newId), grown, GroupFound(login, user, k, newId));
        AddIsReached(s, n, grown, login, user, k, newId, f.add);
      }
    }
  }

  lemma AddIsReached(s: System, n: nat, db: Tables, login: Login, user: string, k: nat, g: string, fails: bool)
    requires n in s.logins && k < |login.groups| && Leads(s, n, At(s.(db := db), n, GroupFound(login, user, k, g)))
    ensures Leads(s, n, At(s.(db := WithMember(db, g, user, fails)), n, AtClaim(login, user, k + 1)))
  {
    var a := if fails then CallFails(n) else AddMember(n);
    Onward(s, n, db, GroupFound(login, user, k, g), a, WithMember(db, g, user, fails), AtClaim(login, user, k + 1));
  }

  lemma {:induction false} ClaimsAreReached(
    s: System, n: nat, created: Tables, d: Tables, login: Login, user: string, k: nat, newIds: seq<string>,
    fs: seq<GroupFaults>)
    requires n in s.logins && Leads(s, n, At(s.(db := created), n, AtClaim(login, user, 0)))
    requires |newIds| == |fs| == k <= |login.groups|
    requires SyncedAll(created, d, user, login.groups[..k], newIds, fs)
    ensures Leads(s, n, At(s.(db := d), n, AtClaim(login, user, k)))
    decreases k
  {
    if k > 0 {
      var j := k - 1;
      assert login.groups[..k][..j] == login.groups[..j] && login.groups[..k][j] == login.groups[j];
      var mid :| SyncedAll(created, mid, user, login.groups[..j], newIds[..j], fs[..j])
                 && Synced(mid, d, user, login.groups[j], newIds[j], fs[j]);
      ClaimsAreReached(s, n, created, mid, login, user, j, newIds[..j], fs[..j]);
      ClaimIsReached(s, n, mid, d, login, user, j, newIds[j], fs[j]);
    }
  }

  lemma OutcomeIsReached(
    s: System, n: nat, login: Login, draw: Draw, faults: Faults, d: Tables, user: Option<string>)
    requires n in s.logins && s.logins[n] == Started(login)
    requires Drawn(login, draw, faults) && Provisioned(s.db, d, login, draw, faults, user)
    ensures Leads(s, n, At(s.(db := d), n, Returned(login, user)))
  {
    var db := s.db;
    LeadsToItself(s, n);
    assert At(s.(db := db), n, Started(login)) == s;
    if faults.bySubject {
      Onward(s, n, db, Started(login), CallFails(n), db, Returned(login, None));
    } else if KnownSubject(db, login.subject) {
      Onward(s, n, db, Started(login), LookUpSubject(n, user), db, Returned(login, user));
    } else {
      Onward(s, n, db, Started(login), LookUpSubject(n, None), db, SubjectUnknown(login));
      AddressOutcomeIsReached(s, n, login, draw, faults, d, user);
    }
  }

  lemma AddressOutcomeIsReached(
    s: System, n: nat, login: Login, draw: Draw, faults: Faults, d: Tables, user: Option<string>)
    requires n in s.logins && Leads(s, n, At(s.(db := s.db), n, SubjectUnknown(login)))
    requires Drawn(login, draw, faults) && Provisioned(s.db, d, login, draw, faults, user)
    requires !faults.bySubject && !KnownSubject(s.db, login.subject)
    ensures Leads(s, n, At(s.(db := d), n, Returned(login, user)))
  {
    var db := s.db;
    if faults.byEmail {
      Onward(s, n, db, SubjectUnknown(login), CallFails(n), db, Returned(login, None));
    } else if KnownEmail(db, login.email) {
      Onward(s, n, db, SubjectUnknown(login), LookUpAddress(n, user), db, Returned(login, user));
    } else {
      Onward(s, n, db, SubjectUnknown(login), LookUpAddress(n, None), db, AddressUnknown(login));
      var (created, went) := UserCreated(db, draw.user, NewUser(login));
      if faults.create {
        Onward(s, n, db, AddressUnknown(login), CallFails(n), db, Returned(login, None));
      } else if !went {
        Onward(s, n, db, AddressUnknown(login), CreateUserRow(n, draw.user), db, Returned(login, None));
      } else {
        Onward(s, n, db, AddressUnknown(login), CreateUserRow(n, draw.user), created, AtClaim(login, draw.user, 0));
        assert login.groups[..|login.groups|] == login.groups;
        ClaimsAreReached(s, n, created, d, login, draw.user, |login.groups|, draw.groups, faults.groups);
      }
    }
  }

  /**
   * A started login that moves alone can return this user and leave these tables, if and only if
   * provisionUser can on the tables it started on, with some ids drawn and some calls failing.
   */
  lemma LoginAlone(s: System, n: nat, d: Tables, user: Option<string>)
    requires n in s.logins && s.logins[n].Started?
    ensures Leads(s, n, At(s.(db := d), n, Returned(s.logins[n].login, user)))
            <==> Concluded(s.db, d, s.logins[n].login, user)
  {
    var login := s.logins[n].login;
    var e := At(s.(db := d), n, Returned(login, user));
    if Leads(s, n, e) {
      var run :| Possible(s, run) && OnlyMoves(run, n) && After(s, run) == e;
      RunGoesAlong(s.db, s, run, n);
    }
    if Concluded(s.db, d, login, user) {
      var draw, faults :| Drawn(login, draw, faults) && Provisioned(s.db, d, login, draw, faults, user);
      OutcomeIsReached(s, n, login, draw, faults, d, user);
    }
  }
}
