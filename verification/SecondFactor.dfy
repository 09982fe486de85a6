/**
 * Concurrent second-factor logins of one user after one enrolment. Every statement of
 * consumeTOTPChallenge is a move of its own, so logins interleave between them.
 */
module SecondFactor {
  import opened Names
  import opened Model
  import opened Totp

  const MAX_ATTEMPTS: nat := 5

  datatype Challenge = Challenge(consumed: bool, attempts: nat)

  /** How far a login has come, with the values it has read. */
  datatype Phase =
    | Found(challenge: nat, code: string)
    | Exhausted(challenge: nat)
    | Reading(challenge: nat, code: string, last: int)
    | Matched(challenge: nat, code: string, counter: int)
    | Mismatched(challenge: nat)
    | Swapped(challenge: nat, code: string, counter: int)
    | Won(challenge: nat, code: string, counter: int)
    | Refused

  /** The account's rows and its logins; accepted and wins record the successful updates in order. */
  datatype Account = Account(
    secret: Secret,
    enrolled: int,
    last: int,
    challenges: map<nat, Challenge>,
    logins: map<nat, Phase>,
    accepted: seq<int>,
    wins: seq<nat>)

  datatype Move =
    | Revoke
    | Offer(challenge: nat)
    | Find(login: nat, challenge: nat, code: string, expired: bool)
    | Burn(login: nat)
    | ReadLast(login: nat)
    | Compare(login: nat, unix: int)
    | CountFailure(login: nat)
    | Swap(login: nat)
    | Consume(login: nat)

  function Enrolled(secret: Secret, counter: int): Account {
    Account(secret, counter, counter, map[], map[], [], [])
  }

  function At(a: Account, login: nat, p: Phase): Account {
    a.(logins := a.logins[login := p])
  }

  function PhaseOf(a: Account, login: nat): Phase {
    if login in a.logins then a.logins[login] else Refused
  }

  function Consumed(cs: map<nat, Challenge>, c: nat): map<nat, Challenge> {
    if c in cs then cs[c := cs[c].(consumed := true)] else cs
  }

  function Failed(cs: map<nat, Challenge>, c: nat): map<nat, Challenge> {
    if c in cs then cs[c := cs[c].(attempts := cs[c].attempts + 1)] else cs
  }

  function AllConsumed(cs: map<nat, Challenge>): map<nat, Challenge> {
    map c <- cs :: cs[c].(consumed := true)
  }

  predicate Pending(cs: map<nat, Challenge>, c: nat) {
    c in cs && !cs[c].consumed
  }

  /** The login's first query. */
  function FoundPhase(a: Account, c: nat, code: string, expired: bool): Phase {
    if !Pending(a.challenges, c) || expired then Refused
    else if a.challenges[c].attempts >= MAX_ATTEMPTS then Exhausted(c)
    else Found(c, code)
  }

  /** One statement; a move that is not enabled changes nothing. */
  ghost function After(a: Account, m: Move): Account {
    match m
    case Revoke => a.(challenges := AllConsumed(a.challenges))
    case Offer(c) => if c in a.challenges then a else a.(challenges := a.challenges[c := Challenge(false, 0)])
    case Find(l, c, code, expired) => if l in a.logins then a else At(a, l, FoundPhase(a, c, code, expired))
    case _ => Advanced(a, m.login, PhaseOf(a, m.login), m)
  }

  /** The next statement of a login in phase p. */
  ghost function Advanced(a: Account, l: nat, p: Phase, m: Move): Account {
    match (m, p)
    case (Burn(_), Exhausted(c)) => At(a.(challenges := Consumed(a.challenges, c)), l, Refused)
    case (ReadLast(_), Found(c, code)) => At(a, l, Reading(c, code, a.last))
    case (Compare(_, unix), Reading(c, code, last)) =>
      var counter := FirstFit(a.secret, code, unix, last);
      At(a, l, if counter.Some? then Matched(c, code, counter.value) else Mismatched(c))
    case (CountFailure(_), Mismatched(c)) => At(a.(challenges := Failed(a.challenges, c)), l, Refused)
    case (Swap(_), Matched(c, code, counter)) =>
      if a.last < counter
      then At(a.(last := counter, accepted := a.accepted + [counter]), l, Swapped(c, code, counter))
      else At(a, l, Refused)
    case (Consume(_), Swapped(c, code, counter)) =>
      if Pending(a.challenges, c)
      then At(a.(challenges := Consumed(a.challenges, c), wins := a.wins + [c]), l, Won(c, code, counter))
      else At(a, l, Refused)
    case _ => a
  }

  ghost function Run(a: Account, moves: seq<Move>): Account {
    if moves == [] then a else After(Run(a, moves[..|moves| - 1]), moves[|moves| - 1])
  }

  // ---------------------------------------------------------------- what every interleaving keeps

  predicate Claiming(p: Phase) {
    p.Swapped? || p.Won?
  }

  ghost predicate Increasing(a: Account) {
    && (forall i, j :: 0 <= i < j < |a.accepted| ==> a.accepted[i] < a.accepted[j])
    && (forall i :: 0 <= i < |a.accepted| ==> a.enrolled < a.accepted[i] <= a.last)
  }

  /** A login past its compare-and-set holds an accepted counter whose code is the one it was given. */
  ghost predicate Backed(a: Account, l: nat) {
    var p := PhaseOf(a, l);
    && (p.Matched? || Claiming(p) ==> a.secret.Key? && CodeOf(a.secret.mac, p.counter) == Trim(p.code))
    && (Claiming(p) ==> p.counter in a.accepted)
    && (p.Won? ==> p.challenge in a.wins)
  }

  ghost predicate Apart(a: Account, l: nat, k: nat) {
    var p, q := PhaseOf(a, l), PhaseOf(a, k);
    && (l != k && Claiming(p) && Claiming(q) ==> p.counter != q.counter)
    && (l != k && p.Won? && q.Won? ==> p.challenge != q.challenge)
  }

  ghost predicate WinsOnce(a: Account) {
    && (forall i, j :: 0 <= i < j < |a.wins| ==> a.wins[i] != a.wins[j])
    && (forall i :: 0 <= i < |a.wins| ==> a.wins[i] in a.challenges && !Pending(a.challenges, a.wins[i]))
  }

  ghost predicate OneTime(a: Account) {
    && a.enrolled <= a.last && Increasing(a) && WinsOnce(a)
    && (forall l :: Backed(a, l))
    && (forall l, k :: Apart(a, l, k))
  }

  /** Moving one login to a phase that claims nothing new keeps everything. */
  lemma QuietMove(a: Account, b: Account, l: nat, p: Phase)
    requires OneTime(a) && b == At(a, l, p) && !Claiming(p)
    requires p.Matched? ==> a.secret.Key? && CodeOf(a.secret.mac, p.counter) == Trim(p.code)
    ensures OneTime(b)
  {
    forall k ensures Backed(b, k) { assert Backed(a, k); }
    forall k, j ensures Apart(b, k, j) { assert Apart(a, k, j); }
  }

  /** Challenge rows may be added or consumed, never revived. */
  lemma RowsMove(a: Account, b: Account)
    requires OneTime(a) && b == a.(challenges := b.challenges)
    requires forall c :: c in a.challenges ==> c in b.challenges
    requires forall c :: c in a.challenges && Pending(b.challenges, c) ==> Pending(a.challenges, c)
    ensures OneTime(b)
  {
    forall k ensures Backed(b, k) { assert Backed(a, k); }
    forall k, j ensures Apart(b, k, j) { assert Apart(a, k, j); }
  }

  lemma SwapKeeps(a: Account, l: nat)
    requires OneTime(a)
    ensures OneTime(After(a, Swap(l)))
  {
    var b, p := After(a, Swap(l)), PhaseOf(a, l);
    if p.Matched? && a.last < p.counter {
      assert Backed(a, l);
      forall k ensures Backed(b, k) { assert Backed(a, k); }
      forall k, j ensures Apart(b, k, j) {
        assert Apart(a, k, j) && Backed(a, k) && Backed(a, j);
      }
    } else if p.Matched? {
      QuietMove(a, b, l, Refused);
    }
  }

  lemma ConsumeKeeps(a: Account, l: nat)
    requires OneTime(a)
    ensures OneTime(After(a, Consume(l)))
  {
    var b, p := After(a, Consume(l)), PhaseOf(a, l);
    if p.Swapped? && Pending(a.challenges, p.challenge) {
      forall k ensures Backed(b, k) { assert Backed(a, k) && Backed(a, l); }
      forall k, j ensures Apart(b, k, j) {
        assert Apart(a, k, j) && Backed(a, k) && Backed(a, j);
      }
    } else if p.Swapped? {
      QuietMove(a, b, l, Refused);
    }
  }

  lemma OtherKeeps(a: Account, m: Move)
    requires OneTime(a) && !m.Swap? && !m.Consume?
    ensures OneTime(After(a, m))
  {
    var b := After(a, m);
    match m
    case Revoke => RowsMove(a, b);
    case Offer(_) => RowsMove(a, b);
    case Find(l, c, code, expired) => if l !in a.logins { QuietMove(a, b, l, FoundPhase(a, c, code, expired)); }
    case _ => LoginKeeps(a, m);
  }

  lemma LoginKeeps(a: Account, m: Move)
    requires OneTime(a) && (m.Burn? || m.ReadLast? || m.Compare? || m.CountFailure?)
    ensures OneTime(After(a, m))
  {
    var b, l := After(a, m), m.login;
    var p := PhaseOf(a, l);
    if m.Burn? && p.Exhausted? {
      var rows := a.(challenges := Consumed(a.challenges, p.challenge));
      RowsMove(a, rows);
      QuietMove(rows, b, l, Refused);
    } else if m.CountFailure? && p.Mismatched? {
      var rows := a.(challenges := Failed(a.challenges, p.challenge));
      RowsMove(a, rows);
      QuietMove(rows, b, l, Refused);
    } else if (m.ReadLast? && p.Found?) || (m.Compare? && p.Reading?) {
      QuietMove(a, b, l, b.logins[l]);
    }
  }

  /** Every interleaving keeps codes and challenges one-time. */
  lemma {:induction false} EveryRunOneTime(secret: Secret, counter: int, moves: seq<Move>)
    ensures OneTime(Run(Enrolled(secret, counter), moves))
    decreases |moves|
  {
    if moves != [] {
      EveryRunOneTime(secret, counter, moves[..|moves| - 1]);
      var a, m := Run(Enrolled(secret, counter), moves[..|moves| - 1]), moves[|moves| - 1];
      if m.Swap? { SwapKeeps(a, m.login); }
      else if m.Consume? { ConsumeKeeps(a, m.login); }
      else { OtherKeeps(a, m); }
    }
  }

  /**
   * However logins interleave: one that succeeds gave the code of an accepted counter later than
   * the enrolment's, and two that succeed used different counters and different challenges.
   */
  lemma SuccessIsOneTime(secret: Secret, counter: int, moves: seq<Move>, l: nat, k: nat)
    requires var a := Run(Enrolled(secret, counter), moves); PhaseOf(a, l).Won? && PhaseOf(a, k).Won?
    ensures var a := Run(Enrolled(secret, counter), moves);
      var p, q := PhaseOf(a, l), PhaseOf(a, k);
      && p.counter > counter && secret.Key? && CodeOf(secret.mac, p.counter) == Trim(p.code)
      && (l != k ==> p.counter != q.counter && p.challenge != q.challenge)
  {
    EveryRunOneTime(secret, counter, moves);
    SameEnrolment(secret, counter, moves);
    var a := Run(Enrolled(secret, counter), moves);
    assert Backed(a, l) && Apart(a, l, k);
  }

  lemma {:induction false} SameEnrolment(secret: Secret, counter: int, moves: seq<Move>)
    ensures var a := Run(Enrolled(secret, counter), moves); a.secret == secret && a.enrolled == counter
    decreases |moves|
  {
    if moves != [] {
      SameEnrolment(secret, counter, moves[..|moves| - 1]);
      KeepsEnrolment(Run(Enrolled(secret, counter), moves[..|moves| - 1]), moves[|moves| - 1]);
    }
  }

  lemma KeepsEnrolment(a: Account, m: Move)
    ensures After(a, m).secret == a.secret && After(a, m).enrolled == a.enrolled
  {
  }

  // ---------------------------------------------------------------- how many wrong codes

  /** The login has passed the attempt check of challenge c and may still count a failure. */
  predicate Busy(p: Phase, c: nat) {
    (p.Found? || p.Reading? || p.Mismatched?) && p.challenge == c
  }

  ghost function InFlight(a: Account, c: nat): set<nat> {
    set l | l in a.logins && Busy(a.logins[l], c)
  }

  function Attempts(a: Account, c: nat): nat {
    if c in a.challenges then a.challenges[c].attempts else 0
  }

  /** At no moment of the run are more than w logins on challenge c in flight. */
  ghost predicate AtMostAtOnce(a: Account, moves: seq<Move>, c: nat, w: nat) {
    forall n :: 0 <= n <= |moves| ==> |InFlight(Run(a, moves[..n]), c)| <= w
  }

  ghost predicate Budget(a: Account, c: nat, w: nat) {
    && Attempts(a, c) + |InFlight(a, c)| <= MAX_ATTEMPTS - 1 + w
    && (c !in a.challenges ==> InFlight(a, c) == {})
  }

  lemma FlightMove(a: Account, b: Account, c: nat, l: nat)
    requires b.logins == a.logins[l := PhaseOf(b, l)]
    ensures InFlight(b, c) == if Busy(PhaseOf(b, l), c) then InFlight(a, c) + {l} else InFlight(a, c) - {l}
  {
    assert l in b.logins;
  }

  lemma AttemptsMove(a: Account, m: Move, c: nat)
    ensures Attempts(After(a, m), c) == Attempts(a, c) +
      if m.CountFailure? && PhaseOf(a, m.login) == Mismatched(c) && c in a.challenges then 1 else 0
    ensures c in After(a, m).challenges <==> c in a.challenges || m == Offer(c)
  {
  }

  lemma BusyMove(a: Account, m: Move, c: nat)
    requires !m.Revoke? && !m.Offer?
    ensures After(a, m).logins == a.logins || After(a, m).logins == a.logins[m.login := PhaseOf(After(a, m), m.login)]
    ensures Busy(PhaseOf(After(a, m), m.login), c) ==>
      Busy(PhaseOf(a, m.login), c) || (m.Find? && c in a.challenges && Attempts(a, c) < MAX_ATTEMPTS)
    ensures m.CountFailure? && PhaseOf(a, m.login).Mismatched? ==> !Busy(PhaseOf(After(a, m), m.login), c)
  {
  }

  lemma BudgetStep(a: Account, m: Move, c: nat, w: nat)
    requires Budget(a, c, w) && |InFlight(After(a, m), c)| <= w
    ensures Budget(After(a, m), c, w)
  {
    var b := After(a, m);
    AttemptsMove(a, m, c);
    if m.Revoke? || m.Offer? {
      assert InFlight(b, c) == InFlight(a, c);
    } else {
      BusyMove(a, m, c);
      if b.logins == a.logins {
        assert InFlight(b, c) == InFlight(a, c);
      } else {
        FlightMove(a, b, c, m.login);
        assert Busy(PhaseOf(a, m.login), c) <==> m.login in InFlight(a, c);
      }
    }
  }

  /**
   * The attempt check and the failure count are separate statements, so concurrent logins can pass
   * the limit: by one less than the number in flight at once. One at a time, it is five.
   */
  lemma {:induction false} GuessBound(secret: Secret, counter: int, moves: seq<Move>, c: nat, w: nat)
    requires AtMostAtOnce(Enrolled(secret, counter), moves, c, w)
    ensures Budget(Run(Enrolled(secret, counter), moves), c, w)
    decreases |moves|
  {
    var start := Enrolled(secret, counter);
    if moves == [] {
      assert InFlight(start, c) == {};
    } else {
      var rest := moves[..|moves| - 1];
      forall n | 0 <= n <= |rest| ensures |InFlight(Run(start, rest[..n]), c)| <= w {
        assert rest[..n] == moves[..n];
      }
      GuessBound(secret, counter, rest, c, w);
      assert moves[..|moves|] == moves;
      BudgetStep(Run(start, rest), moves[|moves| - 1], c, w);
    }
  }

  // ---------------------------------------------------------------- the bound is met

  /** Challenge c has counted n failures; logins up to x are over, those from x to m have a mismatch to count. */
  ghost predicate Line(a: Account, c: nat, n: nat, x: nat, m: nat) {
    && x <= m && Pending(a.challenges, c) && a.challenges[c].attempts == n
    && (forall l: nat :: l in a.logins <==> l < m)
    && (forall l: nat :: l < x ==> PhaseOf(a, l) == Refused)
    && (forall l: nat :: x <= l < m ==> PhaseOf(a, l) == Mismatched(c))
  }

  predicate Lies(x: nat, m: nat, l: nat) {
    x <= l < m
  }

  function Between(x: nat, m: nat): set<nat> {
    set l: nat | l < m && Lies(x, m, l)
  }

  lemma {:induction false} BetweenSize(x: nat, m: nat)
    requires x <= m
    ensures |Between(x, m)| == m - x
    decreases m - x
  {
    if x < m {
      BetweenSize(x, m - 1);
      forall l: nat ensures l in Between(x, m) <==> l in Between(x, m - 1) || l == m - 1 {
        assert Lies(x, m, l) <==> Lies(x, m - 1, l) || l == m - 1;
      }
      assert Between(x, m) == Between(x, m - 1) + {m - 1};
    } else {
      assert Between(x, m) == {};
    }
  }

  lemma LineFlight(a: Account, c: nat, n: nat, x: nat, m: nat)
    requires Line(a, c, n, x, m)
    ensures |InFlight(a, c)| == m - x
  {
    BetweenSize(x, m);
    forall l: nat ensures l in InFlight(a, c) <==> l in Between(x, m) {
      assert Lies(x, m, l) <==> x <= l < m;
      assert l < x ==> PhaseOf(a, l) == Refused;
      assert x <= l < m ==> PhaseOf(a, l) == Mismatched(c);
    }
    assert InFlight(a, c) == Between(x, m);
  }

  lemma AtMostMore(a: Account, moves: seq<Move>, c: nat, w: nat, m: Move)
    requires AtMostAtOnce(a, moves, c, w) && |InFlight(After(Run(a, moves), m), c)| <= w
    ensures AtMostAtOnce(a, moves + [m], c, w) && Run(a, moves + [m]) == After(Run(a, moves), m)
  {
    var more := moves + [m];
    assert more[..|moves|] == moves;
    forall k | 0 <= k <= |more| ensures |InFlight(Run(a, more[..k]), c)| <= w {
      if k <= |moves| { assert more[..k] == moves[..k]; } else { assert more[..k] == more; }
    }
  }

  /** An empty code matches no counter. */
  lemma NoEmptyCode(secret: Secret, unix: int, last: int)
    ensures FirstFit(secret, "", unix, last).None?
  {
    if secret.Key? {
      var now := Periods(unix);
      SixDigits(secret.mac, now - 1);
      SixDigits(secret.mac, now);
      SixDigits(secret.mac, now + 1);
    }
  }

  lemma FlightAfter(a: Account, c: nat, n: nat, x: nat, m: nat, b: Account)
    requires Line(a, c, n, x, m) && b.logins == a.logins[m := PhaseOf(b, m)] && Busy(PhaseOf(b, m), c)
    ensures |InFlight(b, c)| == m - x + 1
  {
    LineFlight(a, c, n, x, m);
    assert InFlight(b, c) == InFlight(a, c) + {m};
  }

  /** One more login tries a wrong code, up to its mismatch. */
  lemma OneMoreTry(a: Account, c: nat, n: nat, x: nat, m: nat)
    requires Line(a, c, n, x, m) && n < MAX_ATTEMPTS
    ensures var f := After(a, Find(m, c, "", false));
      var r := After(f, ReadLast(m));
      var b := After(r, Compare(m, 0));
      && |InFlight(f, c)| == m - x + 1 && |InFlight(r, c)| == m - x + 1 && |InFlight(b, c)| == m - x + 1
      && Line(b, c, n, x, m + 1)
  {
    var f := After(a, Find(m, c, "", false));
    var r := After(f, ReadLast(m));
    var b := After(r, Compare(m, 0));
    assert f == At(a, m, Found(c, ""));
    FlightAfter(a, c, n, x, m, f);
    assert r == At(f, m, Reading(c, "", f.last));
    FlightAfter(a, c, n, x, m, r);
    NoEmptyCode(r.secret, 0, f.last);
    assert b == At(r, m, Mismatched(c));
    forall l: nat ensures l != m ==> PhaseOf(b, l) == PhaseOf(a, l) {}
    FlightAfter(a, c, n, x, m, b);
  }

  lemma OneMoreFailure(a: Account, c: nat, n: nat, x: nat, m: nat)
    requires Line(a, c, n, x, m) && x < m
    ensures var b := After(a, CountFailure(x)); Line(b, c, n + 1, x + 1, m) && |InFlight(b, c)| == m - x - 1
  {
    var b := After(a, CountFailure(x));
    assert PhaseOf(a, x) == Mismatched(c);
    assert b == At(a.(challenges := Failed(a.challenges, c)), x, Refused);
    forall l: nat ensures l != x ==> PhaseOf(b, l) == PhaseOf(a, l) {}
    LineFlight(b, c, n + 1, x + 1, m);
  }

  /** A run that has come this far with never more than w logins on the challenge in flight. */
  ghost predicate Came(start: Account, moves: seq<Move>, c: nat, w: nat, n: nat, x: nat, m: nat) {
    AtMostAtOnce(start, moves, c, w) && Line(Run(start, moves), c, n, x, m)
  }

  lemma TryMore(start: Account, moves: seq<Move>, c: nat, w: nat, n: nat, x: nat, m: nat) returns (more: seq<Move>)
    requires Came(start, moves, c, w, n, x, m) && n < MAX_ATTEMPTS && m - x < w
    ensures Came(start, more, c, w, n, x, m + 1)
  {
    OneMoreTry(Run(start, moves), c, n, x, m);
    AtMostMore(start, moves, c, w, Find(m, c, "", false));
    more := moves + [Find(m, c, "", false)];
    AtMostMore(start, more, c, w, ReadLast(m));
    more := more + [ReadLast(m)];
    AtMostMore(start, more, c, w, Compare(m, 0));
    more := more + [Compare(m, 0)];
  }

  lemma FailMore(start: Account, moves: seq<Move>, c: nat, w: nat, n: nat, x: nat, m: nat) returns (more: seq<Move>)
    requires Came(start, moves, c, w, n, x, m) && x < m && m - x <= w
    ensures Came(start, more, c, w, n + 1, x + 1, m)
  {
    OneMoreFailure(Run(start, moves), c, n, x, m);
    AtMostMore(start, moves, c, w, CountFailure(x));
    more := moves + [CountFailure(x)];
  }

  lemma OfferFirst(secret: Secret, counter: int, c: nat, w: nat) returns (moves: seq<Move>)
    ensures Came(Enrolled(secret, counter), moves, c, w, 0, 0, 0)
  {
    var a := Enrolled(secret, counter);
    assert InFlight(a, c) == {};
    var none: seq<Move> := [];
    forall k | 0 <= k <= |none| ensures |InFlight(Run(a, none[..k]), c)| <= w { assert none[..k] == none; }
    LineFlight(After(a, Offer(c)), c, 0, 0, 0);
    AtMostMore(a, [], c, w, Offer(c));
    moves := [] + [Offer(c)];
  }

  /**
   * The bound is exact: four failures one after the other, then w logins that all pass the check before
   * any of them counts, make four plus w.
   */
  lemma GuessBoundReached(secret: Secret, counter: int, c: nat, w: nat) returns (moves: seq<Move>)
    requires w >= 1
    ensures AtMostAtOnce(Enrolled(secret, counter), moves, c, w)
    ensures Attempts(Run(Enrolled(secret, counter), moves), c) == MAX_ATTEMPTS - 1 + w
  {
    var start := Enrolled(secret, counter);
    moves := OfferFirst(secret, counter, c, w);
    var n := 0;
    while n < MAX_ATTEMPTS - 1
      invariant 0 <= n <= MAX_ATTEMPTS - 1 && Came(start, moves, c, w, n, n, n)
    {
      moves := TryMore(start, moves, c, w, n, n, n);
      moves := FailMore(start, moves, c, w, n, n, n + 1);
      n := n + 1;
    }
    var m := n;
    while m < n + w
      invariant n <= m <= n + w && Came(start, moves, c, w, n, n, m)
    {
      moves := TryMore(start, moves, c, w, n, n, m);
      m := m + 1;
    }
    var x := n;
    while x < m
      invariant n <= x <= m && Came(start, moves, c, w, x, x, m)
    {
      moves := FailMore(start, moves, c, w, x, x, m);
      x := x + 1;
    }
  }

  /** Five wrong codes at most, in all runs with at most w logins at once, if and only if w is at most one. */
  lemma FiveExactly(secret: Secret, counter: int, c: nat, w: nat)
    ensures (forall moves :: AtMostAtOnce(Enrolled(secret, counter), moves, c, w) ==>
               Attempts(Run(Enrolled(secret, counter), moves), c) <= MAX_ATTEMPTS) <==> w <= 1
  {
    forall moves | AtMostAtOnce(Enrolled(secret, counter), moves, c, w)
      ensures Attempts(Run(Enrolled(secret, counter), moves), c) <= MAX_ATTEMPTS - 1 + w
    {
      GuessBound(secret, counter, moves, c, w);
    }
    if w > 1 {
      var moves := GuessBoundReached(secret, counter, c, w);
      assert Attempts(Run(Enrolled(secret, counter), moves), c) > MAX_ATTEMPTS;
    }
  }

  // ---------------------------------------------------------------- one login by itself

  /** Some counter later than the last one used and adjacent to now has the code. */
  ghost predicate CodeFits(secret: Secret, code: string, unix: int, last: int) {
    secret.Key? && exists c ::
      && c > last && Periods(unix) - 1 <= c <= Periods(unix) + 1 && CodeOf(secret.mac, c) == Trim(code)
  }

  lemma FitsExact(secret: Secret, code: string, unix: int, last: int)
    ensures FirstFit(secret, code, unix, last).Some? <==> CodeFits(secret, code, unix, last)
  {
    FirstFitExact(secret, code, unix, last);
    if CodeFits(secret, code, unix, last) {
      var c :| c > last && Periods(unix) - 1 <= c <= Periods(unix) + 1 && CodeOf(secret.mac, c) == Trim(code);
      assert Fits(secret, code, unix, last, c);
    }
  }

  /** A login from its lookup to the comparison, with nothing in between. */
  ghost function Compared(a: Account, l: nat, c: nat, code: string, unix: int): Account {
    After(After(After(a, Find(l, c, code, false)), ReadLast(l)), Compare(l, unix))
  }

  lemma ComparedAlone(a: Account, l: nat, c: nat, code: string, unix: int)
    requires l !in a.logins
    ensures var b := Compared(a, l, c, code, unix);
      && b == a.(logins := b.logins)
      && (PhaseOf(b, l).Matched? <==>
            Pending(a.challenges, c) && a.challenges[c].attempts < MAX_ATTEMPTS && CodeFits(a.secret, code, unix, a.last))
      && (PhaseOf(b, l).Matched? ==> PhaseOf(b, l).challenge == c && PhaseOf(b, l).counter > a.last
                                     && CodeOf(a.secret.mac, PhaseOf(b, l).counter) == Trim(code))
      && (PhaseOf(b, l) == Mismatched(c) <==>
            Pending(a.challenges, c) && a.challenges[c].attempts < MAX_ATTEMPTS && !CodeFits(a.secret, code, unix, a.last))
  {
    FitsExact(a.secret, code, unix, a.last);
    FirstFitExact(a.secret, code, unix, a.last);
    var f := After(a, Find(l, c, code, false));
    if PhaseOf(f, l).Found? {
      var r := After(f, ReadLast(l));
      assert PhaseOf(r, l) == Reading(c, code, a.last);
    }
  }

  /**
   * Undisturbed, a login wins exactly when its challenge is pending with attempts left and its code fits;
   * then its counter is the last one used and the challenge is spent.
   */
  lemma LoginAlone(a: Account, l: nat, c: nat, code: string, unix: int)
    requires l !in a.logins
    ensures var b := After(After(Compared(a, l, c, code, unix), Swap(l)), Consume(l));
      && (PhaseOf(b, l).Won? <==>
            Pending(a.challenges, c) && a.challenges[c].attempts < 5 && CodeFits(a.secret, code, unix, a.last))
      && (PhaseOf(b, l).Won? ==>
            && a.last < b.last && CodeOf(a.secret.mac, b.last) == Trim(code) && b.accepted == a.accepted + [b.last]
            && c in b.challenges && b.challenges[c].consumed)
      && (!PhaseOf(b, l).Won? ==> b.last == a.last && b.challenges == a.challenges)
  {
    ComparedAlone(a, l, c, code, unix);
    var m := Compared(a, l, c, code, unix);
    var p := PhaseOf(m, l);
    if p.Matched? {
      var w := After(m, Swap(l));
      assert PhaseOf(w, l) == Swapped(c, p.code, p.counter);
    }
  }

  /** Undisturbed, a code that does not fit counts as one more attempt. */
  lemma FailureAlone(a: Account, l: nat, c: nat, code: string, unix: int)
    requires l !in a.logins && Pending(a.challenges, c) && a.challenges[c].attempts < 5
    requires !CodeFits(a.secret, code, unix, a.last)
    ensures var b := After(Compared(a, l, c, code, unix), CountFailure(l));
      && PhaseOf(b, l) == Refused && b.last == a.last
      && b.challenges == a.challenges[c := Challenge(false, a.challenges[c].attempts + 1)]
  {
    ComparedAlone(a, l, c, code, unix);
  }

  /** With no attempt left a login spends the challenge. */
  lemma ExhaustedAlone(a: Account, l: nat, c: nat, code: string)
    requires l !in a.logins && Pending(a.challenges, c) && a.challenges[c].attempts >= 5
    ensures var b := After(After(a, Find(l, c, code, false)), Burn(l));
      PhaseOf(b, l) == Refused && b.challenges == a.challenges[c := Challenge(true, a.challenges[c].attempts)] && b.last == a.last
  {
  }

  /** A new login challenge is pending and the only one that is. */
  lemma OfferAlone(a: Account, c: nat)
    requires c !in a.challenges
    ensures var b := After(After(a, Revoke), Offer(c));
      b.challenges.Keys == a.challenges.Keys + {c} && b.challenges[c] == Challenge(false, 0)
      && forall d :: d in a.challenges ==> b.challenges[d] == Challenge(true, a.challenges[d].attempts)
  {
  }
}
