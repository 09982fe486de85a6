/**
 * Who is an administrator: concurrent Register and SetRole transactions, one statement at a time.
 * Reads see committed rows only; row and advisory locks are held until commit or rollback. A
 * registration draws a new id for its user, here that of its transaction.
 */
module Roles {
  import opened Model

  datatype Role = Plain | Admin

  /** A transaction's progress, with what it has read; the writes it holds appear at commit. */
  datatype Tx =
    | Registering
    | Bootstrapping
    | Inserted(role: Role)
    | Changing(actor: nat, user: nat, role: Role)
    | Locked(actor: nat, user: nat, role: Role, current: Role)
    | Demoting(actor: nat, user: nat)
    | Counted(actor: nat, user: nat, admins: nat)
    | Updated(user: nat, role: Role)
    | Over

  datatype Db = Db(
    users: map<nat, Role>,
    txs: map<nat, Tx>,
    bootstrap: Option<nat>,
    demotion: Option<nat>,
    rows: map<nat, nat>)

  datatype Event =
    | BeginRegister(tx: nat)
    | BeginSetRole(tx: nat, actor: nat, user: nat, role: Role)
    | Next(tx: nat)
    | Commit(tx: nat)
    | Rollback(tx: nat)

  const NO_USERS: Db := Db(map[], map[], None, None, map[])

  function TxOf(d: Db, t: nat): Tx {
    if t in d.txs then d.txs[t] else Over
  }

  function To(d: Db, t: nat, x: Tx): Db {
    d.(txs := d.txs[t := x])
  }

  function Admins(users: map<nat, Role>): set<nat> {
    set u | u in users && users[u] == Admin
  }

  /** Ends a transaction and lets go of its locks. */
  function Ended(d: Db, t: nat): Db {
    d.(txs := d.txs[t := Over],
       bootstrap := if d.bootstrap == Some(t) then None else d.bootstrap,
       demotion := if d.demotion == Some(t) then None else d.demotion,
       rows := map u | u in d.rows && d.rows[u] != t :: d.rows[u])
  }

  /** The next statement of a transaction; one that must wait for a lock changes nothing. */
  function Stepped(d: Db, t: nat): Db {
    match TxOf(d, t)
    case Registering =>
      if d.bootstrap.Some? then d else To(d.(bootstrap := Some(t)), t, Bootstrapping)
    case Bootstrapping =>
      To(d, t, Inserted(if Admins(d.users) != {} then Plain else Admin))
    case Changing(a, u, r) =>
      if u !in d.users then Ended(d, t)
      else if u in d.rows then d
      else To(d.(rows := d.rows[u := t]), t, Locked(a, u, r, d.users[u]))
    case Locked(a, u, r, current) =>
      if !(current == Admin && r == Plain) then To(d, t, Updated(u, r))
      else if d.demotion.Some? then d
      else To(d.(demotion := Some(t)), t, Demoting(a, u))
    case Demoting(a, u) =>
      To(d, t, Counted(a, u, |Admins(d.users)|))
    case Counted(a, u, n) =>
      if n <= 1 || a == u then Ended(d, t) else To(d, t, Updated(u, Plain))
    case _ => d
  }

  /** Commit makes the transaction's one write visible. */
  function Committed(d: Db, t: nat): Db {
    match TxOf(d, t)
    case Inserted(r) => Ended(d.(users := d.users[t := r]), t)
    case Updated(u, r) => Ended(d.(users := d.users[u := r]), t)
    case _ => d
  }

  function After(d: Db, e: Event): Db {
    match e
    case BeginRegister(t) => if t in d.txs then d else To(d, t, Registering)
    case BeginSetRole(t, a, u, r) => if t in d.txs then d else To(d, t, Changing(a, u, r))
    case Next(t) => Stepped(d, t)
    case Commit(t) => Committed(d, t)
    case Rollback(t) => if t in d.txs then Ended(d, t) else d
  }

  function Run(events: seq<Event>): Db {
    if events == [] then NO_USERS else After(Run(events[..|events| - 1]), events[|events| - 1])
  }

  // ---------------------------------------------------------------- what every interleaving keeps

  /** The transaction may demote this administrator: it has both the row and the demotion lock. */
  ghost predicate Holds(d: Db, t: nat, u: nat) {
    d.demotion == Some(t) && HasRow(d, t, u) && d.users[u] == Admin
  }

  ghost predicate HasRow(d: Db, t: nat, u: nat) {
    u in d.rows && d.rows[u] == t && u in d.users
  }

  /** What a transaction's progress says about locks and committed rows. */
  ghost predicate Sound(d: Db, t: nat) {
    match TxOf(d, t)
    case Registering => t !in d.users
    case Bootstrapping => t !in d.users && d.bootstrap == Some(t)
    case Inserted(r) => t !in d.users && d.bootstrap == Some(t) && (r == Admin <==> d.users == map[])
    case Changing(_, _, _) => t !in d.users
    case Locked(a, u, r, current) => t !in d.users && HasRow(d, t, u) && d.users[u] == current
    case Demoting(a, u) => t !in d.users && Holds(d, t, u)
    case Counted(a, u, n) => t !in d.users && Holds(d, t, u) && n <= |Admins(d.users)|
    case Updated(u, r) =>
      && t !in d.users && HasRow(d, t, u)
      && (d.users[u] == Admin && r == Plain ==> Holds(d, t, u) && |Admins(d.users)| >= 2)
    case Over => true
  }

  ghost predicate HasAdmin(d: Db) {
    d.users != map[] ==> Admins(d.users) != {}
  }

  ghost predicate Safe(d: Db) {
    && HasAdmin(d)
    && (forall t :: Sound(d, t))
    && (forall t :: t !in d.txs ==> t !in d.users)
  }

  lemma AdminsWrite(users: map<nat, Role>, u: nat, r: Role)
    ensures Admins(users[u := r]) == if r == Admin then Admins(users) + {u} else Admins(users) - {u}
  {
  }

  lemma EndOne(d: Db, t: nat, k: nat)
    requires k != t && Sound(d, k)
    ensures Sound(Ended(d, t), k)
  {
  }

  lemma EndKeeps(d: Db, t: nat)
    requires Safe(d) && t in d.txs
    ensures Safe(Ended(d, t))
  {
    forall k ensures Sound(Ended(d, t), k) {
      assert Sound(d, k);
      if k != t { EndOne(d, t, k); }
    }
  }

  /** A statement moves only its own transaction on, and takes at most one lock, which was free. */
  lemma StepOther(d: Db, t: nat, k: nat)
    requires k != t && Sound(d, k) && Sound(d, t)
    ensures Sound(Stepped(d, t), k)
  {
    match TxOf(d, t)
    case Changing(a, u, r) => if u !in d.users { EndOne(d, t, k); }
    case Counted(a, u, n) => if n <= 1 || a == u { EndOne(d, t, k); }
    case _ =>
  }

  lemma StepOwn(d: Db, t: nat)
    requires Sound(d, t) && HasAdmin(d)
    ensures Sound(Stepped(d, t), t)
  {
    assert Admins(map[]) == {};
  }

  lemma StepFrame(d: Db, t: nat)
    ensures Stepped(d, t).users == d.users && Stepped(d, t).txs.Keys >= d.txs.Keys
  {
  }

  lemma StepKeeps(d: Db, t: nat)
    requires Safe(d)
    ensures Safe(Stepped(d, t))
  {
    StepFrame(d, t);
    assert Sound(d, t);
    forall k ensures Sound(Stepped(d, t), k) {
      assert Sound(d, k);
      if k == t { StepOwn(d, t); } else { StepOther(d, t, k); }
    }
  }

  /** After t writes u's role, what the others have read still holds. */
  lemma OthersKeep(d: Db, t: nat, u: nat, r: Role, k: nat)
    requires Safe(d) && k != t && Sound(d, k)
    requires (TxOf(d, t) == Inserted(r) && u == t) || TxOf(d, t) == Updated(u, r)
    ensures Sound(d.(users := d.users[u := r]), k)
  {
    assert Sound(d, t);
    AdminsWrite(d.users, u, r);
    var n := d.(users := d.users[u := r]);
    if u in d.users && d.users[u] == Admin && r == Plain {
      assert Holds(d, t, u) && |Admins(n.users)| == |Admins(d.users)| - 1;
    } else {
      assert Admins(d.users) <= Admins(n.users);
      MoreAdmins(Admins(d.users), Admins(n.users));
    }
    assert TxOf(n, k) == TxOf(d, k);
  }

  lemma MoreAdmins(a: set<nat>, b: set<nat>)
    requires a <= b
    ensures |a| <= |b|
  {
    assert b == a + (b - a);
  }

  lemma WriteKeeps(d: Db, t: nat, u: nat, r: Role)
    requires Safe(d)
    requires (TxOf(d, t) == Inserted(r) && u == t) || TxOf(d, t) == Updated(u, r)
    ensures Safe(Ended(d.(users := d.users[u := r]), t))
  {
    var m := d.(users := d.users[u := r]);
    assert Sound(d, t) && t in d.txs;
    forall k ensures Sound(Ended(m, t), k) {
      assert Sound(d, k);
      if k != t {
        OthersKeep(d, t, u, r, k);
        EndOne(m, t, k);
      }
    }
    AdminsWrite(d.users, u, r);
    if r == Plain && u in d.users && d.users[u] == Plain {
      assert u !in Admins(d.users);
    }
  }

  lemma CommitKeeps(d: Db, t: nat)
    requires Safe(d)
    ensures Safe(Committed(d, t))
  {
    match TxOf(d, t)
    case Inserted(r) => WriteKeeps(d, t, t, r);
    case Updated(u, r) => WriteKeeps(d, t, u, r);
    case _ =>
  }

  lemma EventKeepsSafe(d: Db, e: Event)
    requires Safe(d)
    ensures Safe(After(d, e))
  {
    match e
    case Next(t) => StepKeeps(d, t);
    case Commit(t) => CommitKeeps(d, t);
    case Rollback(t) => if t in d.txs { EndKeeps(d, t); }
    case _ => forall k ensures Sound(After(d, e), k) { assert Sound(d, k); }
  }

  /** Under every interleaving, every committed state that has a user has an administrator. */
  lemma {:induction false} AlwaysAnAdmin(events: seq<Event>)
    ensures Safe(Run(events)) && (Run(events).users != map[] ==> Admins(Run(events).users) != {})
    decreases |events|
  {
    if events != [] {
      AlwaysAnAdmin(events[..|events| - 1]);
      EventKeepsSafe(Run(events[..|events| - 1]), events[|events| - 1]);
    }
  }

  /** Registration makes an administrator exactly of the first user, however registrations overlap. */
  lemma OnlyFirstRegistersAsAdmin(events: seq<Event>, t: nat)
    requires TxOf(Run(events), t).Inserted?
    ensures var d := Run(events);
      Committed(d, t).users == d.users[t := if d.users == map[] then Admin else Plain] && t !in d.users
  {
    AlwaysAnAdmin(events);
    assert Sound(Run(events), t);
  }

  // ---------------------------------------------------------------- what is asked is what is done

  /** The transaction, as far as it has come, is about giving this user this role. */
  ghost predicate Asks(d: Db, t: nat, a: nat, u: nat, r: Role) {
    t in d.txs &&
    match d.txs[t]
    case Changing(b, v, q) => b == a && v == u && q == r
    case Locked(b, v, q, _) => b == a && v == u && q == r
    case Demoting(b, v) => b == a && v == u && r == Plain
    case Counted(b, v, _) => b == a && v == u && r == Plain
    case Updated(v, q) => v == u && q == r
    case Over => true
    case _ => false
  }

  lemma EventAsks(d: Db, e: Event, t: nat, a: nat, u: nat, r: Role)
    requires Asks(d, t, a, u, r)
    ensures Asks(After(d, e), t, a, u, r)
  {
  }

  /** However others interleave, the transaction stays about what it was begun for. */
  lemma {:induction false} RequestKept(first: seq<Event>, more: seq<Event>, t: nat, a: nat, u: nat, r: Role)
    requires t !in Run(first).txs
    ensures Asks(Run(first + [BeginSetRole(t, a, u, r)] + more), t, a, u, r)
    decreases |more|
  {
    var begun := first + [BeginSetRole(t, a, u, r)];
    if more == [] {
      assert begun + more == begun && begun[..|begun| - 1] == first;
    } else {
      var all, rest := begun + more, more[..|more| - 1];
      assert all[..|all| - 1] == begun + rest && all[|all| - 1] == more[|more| - 1];
      RequestKept(first, rest, t, a, u, r);
      EventAsks(Run(begun + rest), more[|more| - 1], t, a, u, r);
    }
  }

  /** A change of role that commits leaves the user with the role that was asked for, and no one else changed. */
  lemma CommitGivesRole(first: seq<Event>, more: seq<Event>, t: nat, a: nat, u: nat, r: Role)
    requires t !in Run(first).txs
    requires TxOf(Run(first + [BeginSetRole(t, a, u, r)] + more), t) != Over
    ensures var d := Run(first + [BeginSetRole(t, a, u, r)] + more);
      && (d.txs[t].Updated? ==> Committed(d, t).users == d.users[u := r])
      && (!d.txs[t].Updated? ==> Committed(d, t) == d)
  {
    RequestKept(first, more, t, a, u, r);
  }

  /** The transaction that begins in d and runs alone until it commits or ends. */
  function SetAlone(d: Db, t: nat, a: nat, u: nat, r: Role): Db {
    var b := After(d, BeginSetRole(t, a, u, r));
    Committed(Stepped(Stepped(Stepped(Stepped(b, t), t), t), t), t)
  }

  /** Undisturbed, it succeeds exactly when the user exists and is not the last administrator or the actor losing the role. */
  lemma SetRoleAlone(d: Db, t: nat, a: nat, u: nat, r: Role)
    requires t !in d.txs && d.demotion.None? && u !in d.rows
    ensures var e := SetAlone(d, t, a, u, r);
      && TxOf(e, t) == Over && e.demotion.None? && u !in e.rows
      && e.users == (if u in d.users && !(d.users[u] == Admin && r == Plain && (|Admins(d.users)| <= 1 || a == u))
                     then d.users[u := r] else d.users)
  {
    var b := After(d, BeginSetRole(t, a, u, r));
    var s1 := Stepped(b, t);
    if u !in d.users {
      assert TxOf(s1, t) == Over;
    } else {
      assert s1 == To(b.(rows := b.rows[u := t]), t, Locked(a, u, r, d.users[u]));
      if d.users[u] == Admin && r == Plain { DemoteAlone(s1, t, a, u); } else { ChangeAlone(s1, t, a, u, r); }
    }
  }

  lemma ChangeAlone(d: Db, t: nat, a: nat, u: nat, r: Role)
    requires u in d.users && TxOf(d, t) == Locked(a, u, r, d.users[u]) && !(d.users[u] == Admin && r == Plain)
    requires d.demotion.None? && u in d.rows && d.rows[u] == t
    ensures var e := Committed(Stepped(Stepped(Stepped(d, t), t), t), t);
      TxOf(e, t) == Over && e.demotion.None? && u !in e.rows && e.users == d.users[u := r]
  {
    var s2 := Stepped(d, t);
    assert TxOf(s2, t) == Updated(u, r) && Stepped(s2, t) == s2;
  }

  lemma DemoteAlone(d: Db, t: nat, a: nat, u: nat)
    requires u in d.users && d.users[u] == Admin && TxOf(d, t) == Locked(a, u, Plain, Admin)
    requires d.demotion.None? && u in d.rows && d.rows[u] == t
    ensures var e := Committed(Stepped(Stepped(Stepped(d, t), t), t), t);
      TxOf(e, t) == Over && e.demotion.None? && u !in e.rows
      && e.users == if |Admins(d.users)| <= 1 || a == u then d.users else d.users[u := Plain]
  {
    var s2 := Stepped(d, t);
    assert TxOf(s2, t) == Demoting(a, u) && s2.users == d.users && s2.rows == d.rows && s2.demotion == Some(t);
    var s3 := Stepped(s2, t);
    assert TxOf(s3, t) == Counted(a, u, |Admins(d.users)|) && s3.users == d.users && s3.rows == d.rows && s3.demotion == Some(t);
  }

  /** Undisturbed, a registration adds its user, as administrator when there is none. */
  lemma RegisterAlone(d: Db, t: nat)
    requires t !in d.txs && d.bootstrap.None?
    ensures var e := Committed(Stepped(Stepped(After(d, BeginRegister(t)), t), t), t);
      e.users == d.users[t := if exists u :: u in d.users && d.users[u] == Admin then Plain else Admin] && e.bootstrap.None?
  {
    if u :| u in d.users && d.users[u] == Admin { assert u in Admins(d.users); }
  }
}
