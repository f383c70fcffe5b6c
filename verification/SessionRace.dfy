/** Refreshes and sign-ins that overlap. None of them takes a lock: a refresh tests its session and writes later,
    and opening a session queries the active ones, closes those it has read, and inserts its own row. Each of
    these stages is one step here, and a call may die between two of them. */
module SessionRace {
  import opened Prelude
  import opened Sessions

  /** A refresh that has passed its tests: the token, the row of its session, and the role version it has read. */
  datatype Pass = Pass(token: Token, session: nat, roleVersion: int)

  /** A session about to be opened: its token and device, the rows the query has read, and the identifier a
      refresh rotates, if it is one. */
  datatype Opening = Opening(token: Token, device: string, expires: int, read: set<nat>, rotates: Option<int>)

  datatype Phase = Passed(pass: Pass) | Tracking(opening: Opening)

  datatype World = World(desk: Desk, inflight: map<nat, Phase>)

  datatype Action =
    | Begin(tx: nat, presented: int, now: int)
    | Consume(tx: nat, userAgent: string, now: int, jti: int, lifetime: int)
    | SignIn(tx: nat, user: int, secondFactor: bool, userAgent: string, now: int, jti: int, lifetime: int)
    | Insert(tx: nat)
    | Dies(tx: nat)
    | Other(one: Command)

  // ---------------------------------------------------------------- stages

  /** The session an accepted token is tested against. */
  function Passes(desk: Desk, presented: int, now: int): Option<Pass> {
    if !(0 <= presented < |desk.issued|) || !Usable(desk, desk.issued[presented], now) then None
    else
      var token := desk.issued[presented];
      match SessionOf(desk, token.jti)
      case None => None
      case Some(s) =>
        if desk.sessions[s].active && now <= desk.sessions[s].expires &&
           token.user < |desk.users| && desk.users[token.user].active
        then Some(Pass(token, s, desk.users[token.user].roleVersion)) else None
  }

  /** A refresh that fails its tests still closes a session it finds timed out. */
  function TimedOut(desk: Desk, presented: int, now: int): Option<nat> {
    if !(0 <= presented < |desk.issued|) || !Usable(desk, desk.issued[presented], now) then None
    else
      match SessionOf(desk, desk.issued[presented].jti)
      case None => None
      case Some(s) => if desk.sessions[s].active && desk.sessions[s].expires < now then Some(s) else None
  }

  function CloseRow(desk: Desk, s: nat): Desk
    requires s < |desk.sessions|
  {
    desk.(sessions := desk.sessions[s := desk.sessions[s].(active := false)])
  }

  /** The active sessions of the user and device class, as the query finds them. */
  function ReadRows(sessions: seq<Session>, user: nat, mobile: bool): set<nat> {
    set i: nat | 0 <= i < |sessions| && Displaced(user, mobile)(sessions[i])
  }

  /** `for_user` and the query of `track_session`. */
  function StartTracking(w: World, tx: nat, desk: Desk, token: Token, userAgent: string, now: int,
                         rotates: Option<int>): World
  {
    if token.jti in desk.outstanding then World(desk, w.inflight - {tx})
    else
      var device := DeviceOf(userAgent);
      World(desk.(outstanding := desk.outstanding[token.jti := Some(token.user)]),
            w.inflight[tx := Tracking(Opening(token, device, now + SESSION_INACTIVITY,
                                              ReadRows(desk.sessions, token.user, Mobile(device)), rotates))])
  }

  function CloseRows(sessions: seq<Session>, read: set<nat>): (after: seq<Session>)
    ensures |after| == |sessions|
    ensures forall i :: 0 <= i < |sessions| ==>
              after[i] == if i in read then sessions[i].(active := false) else sessions[i]
  {
    if sessions == [] then []
    else
      var n := |sessions| - 1;
      CloseRows(sessions[..n], read) + [if n in read then sessions[n].(active := false) else sessions[n]]
  }

  /** The identifiers blacklisted along with the rows that are closed. */
  function ClosedJtis(desk: Desk, user: nat, read: set<nat>): set<int> {
    set i | 0 <= i < |desk.sessions| && i in read &&
            desk.sessions[i].jti in desk.outstanding && desk.outstanding[desk.sessions[i].jti] == Some(user)
          :: desk.sessions[i].jti
  }

  /** The rest of `track_session`, and what its caller does with the new token. */
  function InsertSession(desk: Desk, o: Opening): Desk {
    var closed := desk.(sessions := CloseRows(desk.sessions, o.read),
                        blacklisted := desk.blacklisted + ClosedJtis(desk, o.token.user, o.read));
    if Tracked(desk.sessions, o.token.jti) then closed
    else
      closed.(sessions := closed.sessions + [Session(o.token.user, o.token.jti, o.device, true, o.expires)],
              issued := closed.issued + [o.token],
              rotations := if o.rotates.Some? then closed.rotations + [o.rotates.value] else closed.rotations)
  }

  function BeginStep(w: World, tx: nat, presented: int, now: int): World {
    if tx in w.inflight then w
    else
      match Passes(w.desk, presented, now)
      case Some(pass) => w.(inflight := w.inflight[tx := Passed(pass)])
      case None =>
        match TimedOut(w.desk, presented, now)
        case Some(s) => w.(desk := CloseRow(w.desk, s))
        case None => w
  }

  predicate Fits(sessions: seq<Session>, pass: Pass) {
    pass.session < |sessions| && sessions[pass.session].jti == pass.token.jti
  }

  predicate CanConsume(w: World, tx: nat) {
    tx in w.inflight && w.inflight[tx].Passed? && Fits(w.desk.sessions, w.inflight[tx].pass)
  }

  /** The session is closed and the token used up, whatever comes of it. */
  function ConsumeStep(w: World, tx: nat, userAgent: string, now: int, jti: int, lifetime: int): World {
    if !CanConsume(w, tx) then w
    else
      var pass := w.inflight[tx].pass;
      var consumed := Blacklist(CloseRow(w.desk, pass.session), pass.token.jti);
      if pass.token.roleVersion != pass.roleVersion then World(consumed, w.inflight - {tx})
      else
        var token := Token(jti, pass.token.user, pass.roleVersion, now + lifetime);
        StartTracking(w, tx, consumed, token, userAgent, now, Some(pass.token.jti))
  }

  function SignInStep(w: World, tx: nat, user: int, secondFactor: bool, userAgent: string, now: int, jti: int,
                      lifetime: int): World
  {
    if tx in w.inflight || !(0 <= user < |w.desk.users|) || !(secondFactor || w.desk.users[user].active) then w
    else
      var token := Token(jti, user, w.desk.users[user].roleVersion, now + lifetime);
      StartTracking(w, tx, w.desk, token, userAgent, now, None)
  }

  function InsertStep(w: World, tx: nat): World {
    if tx !in w.inflight || !w.inflight[tx].Tracking? then w
    else World(InsertSession(w.desk, w.inflight[tx].opening), w.inflight - {tx})
  }

  function Act(w: World, a: Action): World {
    match a
    case Begin(tx, presented, now) => BeginStep(w, tx, presented, now)
    case Consume(tx, ua, now, jti, lifetime) => ConsumeStep(w, tx, ua, now, jti, lifetime)
    case SignIn(tx, user, second, ua, now, jti, lifetime) => SignInStep(w, tx, user, second, ua, now, jti, lifetime)
    case Insert(tx) => InsertStep(w, tx)
    case Dies(tx) => w.(inflight := w.inflight - {tx})
    case Other(c) => if c.DoRefresh? || c.DoLogin? || c.DoVerifyMfa? then w else w.(desk := Step(w.desk, c))
  }

  function Race(w: World, actions: seq<Action>): World {
    if actions == [] then w else Act(Race(w, actions[..|actions| - 1]), actions[|actions| - 1])
  }

  const QUIET: World := World(NOBODY, map[])

  // ---------------------------------------------------------------- undisturbed

  lemma ReadIsDisplaced(desk: Desk, user: nat, mobile: bool)
    ensures CloseRows(desk.sessions, ReadRows(desk.sessions, user, mobile)) ==
            Deactivate(desk.sessions, Displaced(user, mobile))
    ensures ClosedJtis(desk, user, ReadRows(desk.sessions, user, mobile)) == DisplacedJtis(desk, user, mobile)
  {}

  lemma UndisturbedTracking(w: World, tx: nat, desk: Desk, token: Token, userAgent: string, now: int,
                            rotates: Option<int>)
    requires w.inflight.Keys <= {tx}
    ensures var r := Issue(desk, token.user, token.roleVersion, userAgent, now, token.jti, token.expires - now);
            InsertStep(StartTracking(w, tx, desk, token, userAgent, now, rotates), tx).desk ==
              if r.error.None? && rotates.Some?
              then r.desk.(rotations := r.desk.rotations + [rotates.value]) else r.desk
  {
    if token.jti !in desk.outstanding {
      ReadIsDisplaced(desk.(outstanding := desk.outstanding[token.jti := Some(token.user)]), token.user,
                      Mobile(DeviceOf(userAgent)));
    }
  }

  /** Undisturbed, a refresh is the one of the serial desk. */
  lemma UndisturbedRefresh(desk: Desk, presented: int, userAgent: string, now: int, jti: int, lifetime: int)
    ensures var passed := Act(World(desk, map[]), Begin(0, presented, now));
            Act(Act(passed, Consume(0, userAgent, now, jti, lifetime)), Insert(0)).desk ==
              Refresh(desk, presented, userAgent, now, jti, lifetime).desk
  {
    var passed := Act(World(desk, map[]), Begin(0, presented, now));
    if 0 in passed.inflight {
      var pass := passed.inflight[0].pass;
      var consumed := Blacklist(CloseRow(desk, pass.session), pass.token.jti);
      UndisturbedTracking(passed, 0, consumed, Token(jti, pass.token.user, pass.roleVersion, now + lifetime), userAgent,
                          now, Some(pass.token.jti));
    }
  }

  /** Undisturbed, a sign-in is the one of the serial desk. */
  lemma UndisturbedSignIn(desk: Desk, user: int, second: bool, userAgent: string, now: int, jti: int, lifetime: int)
    ensures Act(Act(World(desk, map[]), SignIn(0, user, second, userAgent, now, jti, lifetime)), Insert(0)).desk ==
            (if second then VerifyMfa(desk, user, userAgent, now, jti, lifetime)
             else Login(desk, user, userAgent, now, jti, lifetime)).desk
  {
    if 0 <= user < |desk.users| {
      UndisturbedTracking(World(desk, map[]), 0, desk, Token(jti, user, desk.users[user].roleVersion, now + lifetime),
                          userAgent, now, None);
    }
  }

  // ---------------------------------------------------------------- what every overlap keeps

  /** Rows only become inactive, and a new one has an identifier of its own. */
  predicate Grows(before: seq<Session>, after: seq<Session>) {
    && OnlyDeactivated(before, after)
    && |after| <= |before| + 1
    && (|after| == |before| + 1 ==> forall i :: 0 <= i < |before| ==> before[i].jti != after[|before|].jti)
  }

  lemma ActGrows(w: World, a: Action)
    ensures Grows(w.desk.sessions, Act(w, a).desk.sessions)
  {
    match a
    case Begin(_, _, _) =>
    case Consume(_, _, _, _, _) =>
    case SignIn(_, _, _, _, _, _, _) =>
    case Insert(_) =>
    case Dies(_) =>
    case Other(c) => StepEvolves(w.desk, c);
  }

  lemma GrowingKeepsUnique(before: seq<Session>, after: seq<Session>)
    requires UniqueJtis(before) && Grows(before, after)
    ensures UniqueJtis(after)
  {
    forall i, j | 0 <= i < j < |after| ensures after[i].jti != after[j].jti {}
  }

  /** Identifiers are unique, unfinished refreshes point at their sessions, and a session that is replaced has
      been closed. */
  predicate Kept(w: World) {
    && UniqueJtis(w.desk.sessions)
    && forall tx :: tx in w.inflight ==> PhaseKept(w.desk.sessions, w.inflight[tx])
  }

  predicate PhaseKept(sessions: seq<Session>, phase: Phase) {
    match phase
    case Passed(pass) => Fits(sessions, pass)
    case Tracking(o) => o.rotates.Some? ==> Closed(sessions, o.rotates.value)
  }

  lemma PhaseStaysKept(before: seq<Session>, after: seq<Session>, phase: Phase)
    requires Grows(before, after) && PhaseKept(before, phase)
    ensures PhaseKept(after, phase)
  {
    match phase
    case Passed(pass) =>
    case Tracking(o) =>
      if o.rotates.Some? {
        var s :| 0 <= s < |before| && before[s].jti == o.rotates.value && !before[s].active;
        assert after[s].jti == o.rotates.value && !after[s].active;
      }
  }

  /** The unfinished call a step belongs to. */
  function Mover(a: Action): Option<nat> { if a.Other? then None else Some(a.tx) }

  lemma OthersStay(w: World, a: Action, tx: nat)
    requires Mover(a) != Some(tx)
    ensures tx in Act(w, a).inflight <==> tx in w.inflight
    ensures tx in w.inflight ==> Act(w, a).inflight[tx] == w.inflight[tx]
  {}

  lemma MoverKept(w: World, a: Action, tx: nat)
    requires Kept(w) && Mover(a) == Some(tx) && tx in Act(w, a).inflight
    requires tx in w.inflight ==> Act(w, a).inflight[tx] != w.inflight[tx]
    ensures PhaseKept(Act(w, a).desk.sessions, Act(w, a).inflight[tx])
  {
    match a
    case Begin(_, _, _) =>
    case Consume(_, _, _, _, _) =>
      var pass := w.inflight[tx].pass;
      var after := Act(w, a).desk.sessions;
      assert after[pass.session].jti == pass.token.jti && !after[pass.session].active;
    case SignIn(_, _, _, _, _, _, _) =>
    case Insert(_) =>
    case Dies(_) =>
  }

  lemma ActKept(w: World, a: Action)
    requires Kept(w)
    ensures Kept(Act(w, a))
  {
    var w' := Act(w, a);
    ActGrows(w, a);
    GrowingKeepsUnique(w.desk.sessions, w'.desk.sessions);
    forall tx | tx in w'.inflight ensures PhaseKept(w'.desk.sessions, w'.inflight[tx]) {
      if Mover(a) != Some(tx) { OthersStay(w, a, tx); }
      if tx in w.inflight && w'.inflight[tx] == w.inflight[tx] {
        PhaseStaysKept(w.desk.sessions, w'.desk.sessions, w.inflight[tx]);
      } else {
        MoverKept(w, a, tx);
      }
    }
  }

  /** However refreshes, sign-ins and other calls overlap, no two sessions share an identifier. */
  lemma {:induction false} RaceKept(actions: seq<Action>)
    ensures Kept(Race(QUIET, actions))
  {
    if actions != [] {
      var n := |actions| - 1;
      RaceKept(actions[..n]);
      ActKept(Race(QUIET, actions[..n]), actions[n]);
    }
  }

  // ---------------------------------------------------------------- one active session per device class

  /** An active session of the user and device class of the one to be opened. */
  predicate Rival(s: Session, o: Opening) { Displaced(o.token.user, Mobile(o.device))(s) }

  predicate IsTracking(w: World, tx: nat) { tx in w.inflight && w.inflight[tx].Tracking? }

  /** A session is inserted while an active one of its user and class is not among those read. */
  predicate Intrudes(w: World, a: Action) {
    && a.Insert? && IsTracking(w, a.tx)
    && var o := w.inflight[a.tx].opening;
    && !Tracked(w.desk.sessions, o.token.jti)
    && exists i :: 0 <= i < |w.desk.sessions| && i !in o.read && Rival(w.desk.sessions[i], o)
  }

  lemma InsertOnePerClassExactly(desk: Desk, o: Opening)
    requires OnePerClass(desk.sessions) && !Tracked(desk.sessions, o.token.jti)
    ensures OnePerClass(InsertSession(desk, o).sessions) <==>
            forall i :: 0 <= i < |desk.sessions| && Rival(desk.sessions[i], o) ==> i in o.read
  {
    var n, after := |desk.sessions|, InsertSession(desk, o).sessions;
    assert after[n] == Session(o.token.user, o.token.jti, o.device, true, o.expires);
    forall i | 0 <= i < n
      ensures after[i].active && SameClass(after[i], after[n]) <==> i !in o.read && Rival(desk.sessions[i], o)
    {}
    if OnePerClass(after) {
      forall i | 0 <= i < n && Rival(desk.sessions[i], o) ensures i in o.read {
        assert !(after[i].active && SameClass(after[i], after[n]));
      }
    }
  }

  lemma OtherOnePerClass(w: World, c: Command)
    requires OnePerClass(w.desk.sessions)
    ensures OnePerClass(Act(w, Other(c)).desk.sessions)
  {
    var after := Act(w, Other(c)).desk.sessions;
    StepEvolves(w.desk, c);
    forall i, j | 0 <= i < j < |after| && after[i].active && after[j].active ensures !SameClass(after[i], after[j]) {
      if j < |w.desk.sessions| { assert !SameClass(w.desk.sessions[i], w.desk.sessions[j]); }
    }
  }

  /** The insert of a session that the query of another has not seen is the one step that leaves a user with two
      active sessions of a device class. */
  lemma StepOnePerClassExactly(w: World, a: Action)
    requires OnePerClass(w.desk.sessions)
    ensures OnePerClass(Act(w, a).desk.sessions) <==> !Intrudes(w, a)
  {
    match a
    case Begin(_, _, _) =>
    case Consume(_, _, _, _, _) =>
    case SignIn(_, _, _, _, _, _, _) =>
    case Insert(tx) =>
      if IsTracking(w, tx) {
        var o := w.inflight[tx].opening;
        if !Tracked(w.desk.sessions, o.token.jti) { InsertOnePerClassExactly(w.desk, o); }
      }
    case Dies(_) =>
    case Other(c) => OtherOnePerClass(w, c);
  }

  /** The step is the query of this call. */
  predicate Queries(w: World, a: Action, tx: nat) { !IsTracking(w, tx) && IsTracking(Act(w, a), tx) }

  lemma QueryReads(w: World, a: Action, tx: nat)
    requires Queries(w, a, tx)
    ensures var o := Act(w, a).inflight[tx].opening;
            forall i :: 0 <= i < |Act(w, a).desk.sessions| && Rival(Act(w, a).desk.sessions[i], o) ==> i in o.read
  {
    match a
    case Begin(_, _, _) =>
    case Consume(_, _, _, _, _) =>
    case SignIn(_, _, _, _, _, _, _) =>
    case Insert(_) =>
    case Dies(_) =>
    case Other(_) =>
  }

  lemma QueryReadsOnly(w: World, a: Action, tx: nat)
    requires Queries(w, a, tx)
    ensures forall i :: i in Act(w, a).inflight[tx].opening.read ==> i < |Act(w, a).desk.sessions|
  {}

  /** No step of the run is one of this call. */
  predicate Leaves(actions: seq<Action>, tx: nat) { forall i :: 0 <= i < |actions| ==> Mover(actions[i]) != Some(tx) }

  lemma {:induction false} RaceLeaves(w: World, actions: seq<Action>, tx: nat)
    requires Leaves(actions, tx) && tx in w.inflight
    ensures tx in Race(w, actions).inflight && Race(w, actions).inflight[tx] == w.inflight[tx]
    ensures OnlyDeactivated(w.desk.sessions, Race(w, actions).desk.sessions)
  {
    if actions != [] {
      var n := |actions| - 1;
      RaceLeaves(w, actions[..n], tx);
      OthersStay(Race(w, actions[..n]), actions[n], tx);
      ActGrows(Race(w, actions[..n]), actions[n]);
    }
  }

  /** A session is opened: its query, anything at all, its insert. There is still one active session per class
      exactly if none of its user and class that was inserted in between is still active. */
  lemma StaleInsertExact(w: World, query: Action, between: seq<Action>, tx: nat)
    requires Queries(w, query, tx) && Leaves(between, tx)
    requires var later := Race(Act(w, query), between);
             OnePerClass(later.desk.sessions) &&
             !Tracked(later.desk.sessions, Act(w, query).inflight[tx].opening.token.jti)
    ensures var later := Race(Act(w, query), between);
            OnePerClass(Act(later, Insert(tx)).desk.sessions) <==>
            forall i :: |Act(w, query).desk.sessions| <= i < |later.desk.sessions| ==>
              !Rival(later.desk.sessions[i], Act(w, query).inflight[tx].opening)
  {
    var queried, later := Act(w, query), Race(Act(w, query), between);
    var o := queried.inflight[tx].opening;
    QueryReads(w, query, tx);
    RaceLeaves(queried, between, tx);
    QueryReadsOnly(w, query, tx);
    InsertOnePerClassExactly(later.desk, o);
    assert Act(later, Insert(tx)).desk == InsertSession(later.desk, o);
    forall i | 0 <= i < |queried.desk.sessions| && Rival(later.desk.sessions[i], o) ensures i in o.read {
      assert Rival(queried.desk.sessions[i], o);
    }
  }

  /** No two sessions of one user and device class are being opened. */
  ghost predicate TrackedApart(w: World) {
    forall tx, tx' :: IsTracking(w, tx) && IsTracking(w, tx') && tx != tx' ==>
      Opposed(w.inflight[tx].opening, w.inflight[tx'].opening)
  }

  predicate Opposed(o: Opening, p: Opening) {
    o.token.user != p.token.user || Mobile(o.device) != Mobile(p.device)
  }

  ghost predicate AllTrackedApart(w: World, actions: seq<Action>) {
    TrackedApart(Race(w, actions)) && (actions != [] ==> AllTrackedApart(w, actions[..|actions| - 1]))
  }

  /** What an unfinished call has read is all that its session will displace. */
  ghost predicate Informed(w: World) {
    forall tx :: IsTracking(w, tx) ==> InformedOf(w.desk.sessions, w.inflight[tx].opening)
  }

  predicate InformedOf(sessions: seq<Session>, o: Opening) {
    forall i :: 0 <= i < |sessions| && Rival(sessions[i], o) ==> i in o.read
  }

  lemma InsertInforms(w: World, tx: nat, o: Opening)
    requires IsTracking(w, tx) && Opposed(w.inflight[tx].opening, o) && InformedOf(w.desk.sessions, o)
    ensures InformedOf(Act(w, Insert(tx)).desk.sessions, o)
  {
    var after := Act(w, Insert(tx)).desk.sessions;
    forall i | 0 <= i < |after| && Rival(after[i], o) ensures i in o.read {
      if i < |w.desk.sessions| { assert Rival(w.desk.sessions[i], o); }
    }
  }

  lemma OnlyInsertAdds(w: World, a: Action)
    requires !a.Insert?
    ensures |Act(w, a).desk.sessions| == |w.desk.sessions|
  {
    match a
    case Begin(_, _, _) =>
    case Consume(_, _, _, _, _) =>
    case SignIn(_, _, _, _, _, _, _) =>
    case Dies(_) =>
    case Other(c) =>
  }

  lemma StepInforms(w: World, a: Action, o: Opening)
    requires !a.Insert? && InformedOf(w.desk.sessions, o)
    ensures InformedOf(Act(w, a).desk.sessions, o)
  {
    var after := Act(w, a).desk.sessions;
    ActGrows(w, a);
    OnlyInsertAdds(w, a);
    forall i | 0 <= i < |after| && Rival(after[i], o) ensures i in o.read {
      assert Rival(w.desk.sessions[i], o);
    }
  }

  lemma ActInformed(w: World, a: Action)
    requires Informed(w) && TrackedApart(w)
    ensures Informed(Act(w, a))
  {
    var w' := Act(w, a);
    forall tx | IsTracking(w', tx) ensures InformedOf(w'.desk.sessions, w'.inflight[tx].opening) {
      if Queries(w, a, tx) {
        QueryReads(w, a, tx);
      } else {
        StaysTracking(w, a, tx);
        if a.Insert? {
          if IsTracking(w, a.tx) { InsertInforms(w, a.tx, w.inflight[tx].opening); }
        } else {
          StepInforms(w, a, w.inflight[tx].opening);
        }
      }
    }
  }

  lemma StaysTracking(w: World, a: Action, tx: nat)
    requires IsTracking(w, tx) && IsTracking(Act(w, a), tx)
    ensures Act(w, a).inflight[tx] == w.inflight[tx]
    ensures a.Insert? ==> a.tx != tx
  {}

  lemma ActKeepsOnePerClass(w: World, a: Action)
    requires Informed(w) && OnePerClass(w.desk.sessions)
    ensures OnePerClass(Act(w, a).desk.sessions)
  {
    if a.Insert? && IsTracking(w, a.tx) { assert InformedOf(w.desk.sessions, w.inflight[a.tx].opening); }
    StepOnePerClassExactly(w, a);
  }

  lemma {:induction false} ApartInformed(actions: seq<Action>)
    requires AllTrackedApart(QUIET, actions)
    ensures OnePerClass(Race(QUIET, actions).desk.sessions) && Informed(Race(QUIET, actions))
  {
    if actions != [] {
      var n := |actions| - 1;
      ApartInformed(actions[..n]);
      ActKeepsOnePerClass(Race(QUIET, actions[..n]), actions[n]);
      ActInformed(Race(QUIET, actions[..n]), actions[n]);
    }
  }

  /** While no two sessions of one user and device class are being opened at a time, a user has at most one active
      session per class, two in all, whatever else overlaps. */
  lemma ApartAtMostTwoActive(actions: seq<Action>, user: nat)
    requires AllTrackedApart(QUIET, actions)
    ensures forall mobile :: Sum(Race(QUIET, actions).desk.sessions, ActiveIn(user, mobile)) <= 1
    ensures Sum(Race(QUIET, actions).desk.sessions, ActiveOf(user)) <= 2
  {
    var sessions := Race(QUIET, actions).desk.sessions;
    ApartInformed(actions);
    forall mobile ensures Sum(sessions, ActiveIn(user, mobile)) <= 1 { AtMostOneActive(sessions, user, mobile); }
    ClassesAddUp(sessions, user);
  }

  /** Two sessions of one user and class whose queries both come before the inserts are both active afterwards. */
  lemma SecondInsertIntrudes(w: World, tx: nat, tx': nat)
    requires tx != tx' && IsTracking(w, tx) && IsTracking(w, tx')
    requires !Opposed(w.inflight[tx].opening, w.inflight[tx'].opening)
    requires w.inflight[tx].opening.token.jti != w.inflight[tx'].opening.token.jti
    requires !Tracked(w.desk.sessions, w.inflight[tx].opening.token.jti)
    requires !Tracked(w.desk.sessions, w.inflight[tx'].opening.token.jti)
    requires |w.desk.sessions| !in w.inflight[tx'].opening.read
    ensures var sessions := Act(Act(w, Insert(tx)), Insert(tx')).desk.sessions;
            var n := |w.desk.sessions|;
            && |sessions| == n + 2 && sessions[n].active && sessions[n + 1].active
            && SameClass(sessions[n], sessions[n + 1])
            && !OnePerClass(sessions)
    ensures var o, o' := w.inflight[tx].opening, w.inflight[tx'].opening;
            var after := Act(Act(w, Insert(tx)), Insert(tx')).desk;
            && after.issued == w.desk.issued + [o.token, o'.token]
            && (o.rotates.Some? && o'.rotates == o.rotates ==>
                  after.rotations == w.desk.rotations + [o.rotates.value, o.rotates.value])
  {
    var n, once := |w.desk.sessions|, Act(w, Insert(tx));
    var o, o' := w.inflight[tx].opening, w.inflight[tx'].opening;
    assert once.desk.sessions[n] == Session(o.token.user, o.token.jti, o.device, true, o.expires);
    forall i | 0 <= i < n ensures once.desk.sessions[i].jti == w.desk.sessions[i].jti {}
    var sessions := Act(once, Insert(tx')).desk.sessions;
    assert sessions[n + 1] == Session(o'.token.user, o'.token.jti, o'.device, true, o'.expires);
    assert sessions[n] == once.desk.sessions[n];
  }

  lemma RaceOfFive(w: World, actions: seq<Action>)
    requires |actions| == 5
    ensures Race(w, actions) ==
            Act(Act(Act(Act(Act(w, actions[0]), actions[1]), actions[2]), actions[3]), actions[4])
  {
    assert Race(w, actions[..0]) == w;
    forall i | 0 <= i < 5 ensures Race(w, actions[..i + 1]) == Act(Race(w, actions[..i]), actions[i]) {
      assert actions[..i + 1][..i] == actions[..i];
    }
    assert actions[..5] == actions;
  }

  function TwoSignIns(userAgent: string): seq<Action> {
    [Other(DoRegister(User(true, 0))), SignIn(0, 0, false, userAgent, 0, 1, 10),
     SignIn(1, 0, false, userAgent, 0, 2, 10), Insert(0), Insert(1)]
  }

  /** The user's session, about to be opened from a desk that tracks none. */
  function FirstOpening(jti: int, userAgent: string): Opening {
    Opening(Token(jti, 0, 0, 10), DeviceOf(userAgent), SESSION_INACTIVITY, {}, None)
  }

  lemma QueriesNothing(w: World, tx: nat, jti: int, userAgent: string)
    requires w.desk.users == [User(true, 0)] && w.desk.sessions == [] && jti !in w.desk.outstanding
    requires tx !in w.inflight
    ensures Act(w, SignIn(tx, 0, false, userAgent, 0, jti, 10)) ==
            World(w.desk.(outstanding := w.desk.outstanding[jti := Some(0)]),
                  w.inflight[tx := Tracking(FirstOpening(jti, userAgent))])
  {
    assert ReadRows([], 0, Mobile(DeviceOf(userAgent))) == {};
  }

  /** From an empty desk: one account that signs in twice at a time has two active sessions of one device class. */
  lemma TwoActiveOfOneClass(userAgent: string)
    ensures var sessions := Race(QUIET, TwoSignIns(userAgent)).desk.sessions;
            && |sessions| == 2 && sessions[0].active && sessions[1].active && SameClass(sessions[0], sessions[1])
            && !OnePerClass(sessions)
  {
    var account := World(NOBODY.(users := [User(true, 0)]), map[]);
    assert Act(QUIET, Other(DoRegister(User(true, 0)))) == account;
    QueriesNothing(account, 0, 1, userAgent);
    var one := Act(account, SignIn(0, 0, false, userAgent, 0, 1, 10));
    QueriesNothing(one, 1, 2, userAgent);
    SecondInsertIntrudes(Act(one, SignIn(1, 0, false, userAgent, 0, 2, 10)), 0, 1);
    RaceOfFive(QUIET, TwoSignIns(userAgent));
  }

  // ---------------------------------------------------------------- one refresh per token

  /** The identifier a step is recorded to have rotated. */
  function Rotates(w: World, a: Action): Option<int> {
    if a.Insert? && IsTracking(w, a.tx) && !Tracked(w.desk.sessions, w.inflight[a.tx].opening.token.jti)
    then w.inflight[a.tx].opening.rotates else None
  }

  lemma ActRotations(w: World, a: Action)
    ensures Act(w, a).desk.rotations == w.desk.rotations +
            (if Rotates(w, a).Some? then [Rotates(w, a).value] else [])
  {
    match a
    case Begin(_, _, _) =>
    case Consume(_, _, _, _, _) =>
    case SignIn(_, _, _, _, _, _, _) =>
    case Insert(_) =>
    case Dies(_) =>
    case Other(c) => StepRotations(w.desk, c);
  }

  lemma GrowingKeepsClosed(before: seq<Session>, after: seq<Session>, jti: int)
    requires Grows(before, after) && Closed(before, jti)
    ensures Closed(after, jti)
  {
    var s :| 0 <= s < |before| && before[s].jti == jti && !before[s].active;
    assert after[s].jti == jti && !after[s].active;
  }

  lemma RotatedOnceMore(before: Desk, after: Desk, jti: int)
    requires Rotated(before) && Grows(before.sessions, after.sessions) && Closed(before.sessions, jti)
    requires after.rotations == before.rotations + [jti]
    ensures Rotated(after) <==> jti !in before.rotations
  {
    var n := |before.rotations|;
    forall i | 0 <= i < |after.rotations| ensures Closed(after.sessions, after.rotations[i]) {
      assert Closed(before.sessions, after.rotations[i]);
      GrowingKeepsClosed(before.sessions, after.sessions, after.rotations[i]);
    }
    if Rotated(after) {
      forall i | 0 <= i < n ensures before.rotations[i] != jti {
        assert after.rotations[i] != after.rotations[n];
      }
    }
  }

  /** The insert that ends a second refresh of an identifier is the one step that breaks single use. */
  lemma SingleUseExactly(w: World, a: Action)
    requires Kept(w) && Rotated(w.desk)
    ensures Rotated(Act(w, a).desk) <==> (Rotates(w, a).Some? ==> Rotates(w, a).value !in w.desk.rotations)
  {
    ActGrows(w, a);
    ActRotations(w, a);
    if Rotates(w, a).Some? {
      assert PhaseKept(w.desk.sessions, w.inflight[a.tx]);
      RotatedOnceMore(w.desk, Act(w, a).desk, Rotates(w, a).value);
    } else {
      forall i | 0 <= i < |w.desk.rotations| ensures Closed(Act(w, a).desk.sessions, w.desk.rotations[i]) {
        GrowingKeepsClosed(w.desk.sessions, Act(w, a).desk.sessions, w.desk.rotations[i]);
      }
    }
  }

  predicate NoneRotates(w: World, actions: seq<Action>, jti: int) {
    actions == [] ||
    var n := |actions| - 1;
    NoneRotates(w, actions[..n], jti) && Rotates(Race(w, actions[..n]), actions[n]) != Some(jti)
  }

  lemma {:induction false} RaceRotations(w: World, actions: seq<Action>, jti: int)
    requires jti !in w.desk.rotations
    ensures jti in Race(w, actions).desk.rotations <==> !NoneRotates(w, actions, jti)
  {
    if actions != [] {
      var n := |actions| - 1;
      RaceRotations(w, actions[..n], jti);
      ActRotations(Race(w, actions[..n]), actions[n]);
    }
  }

  /** An identifier whose session is active has not been rotated. */
  lemma ActiveUnrotated(desk: Desk, s: nat)
    requires Rotated(desk) && UniqueJtis(desk.sessions) && s < |desk.sessions| && desk.sessions[s].active
    ensures desk.sessions[s].jti !in desk.rotations
  {
    forall i | 0 <= i < |desk.rotations| ensures desk.rotations[i] != desk.sessions[s].jti {
      assert Closed(desk.sessions, desk.rotations[i]);
    }
  }

  lemma {:induction false} RaceKeeps(w: World, actions: seq<Action>)
    requires Kept(w)
    ensures Kept(Race(w, actions))
  {
    if actions != [] {
      var n := |actions| - 1;
      RaceKeeps(w, actions[..n]);
      ActKept(Race(w, actions[..n]), actions[n]);
    }
  }

  /** A refresh passes its tests, anything at all happens, and it ends successfully. Its identifier is then rotated
      once exactly if no other refresh of it ended in between. */
  lemma StaleRefreshExact(w: World, tx: nat, presented: int, now: int, between: seq<Action>)
    requires Kept(w) && Rotated(w.desk) && tx !in w.inflight && Passes(w.desk, presented, now).Some?
    requires var later := Race(Act(w, Begin(tx, presented, now)), between);
             Rotated(later.desk) &&
             Rotates(later, Insert(tx)) == Some(Passes(w.desk, presented, now).value.token.jti)
    ensures var begun := Act(w, Begin(tx, presented, now));
            Rotated(Act(Race(begun, between), Insert(tx)).desk) <==>
            NoneRotates(begun, between, Passes(w.desk, presented, now).value.token.jti)
  {
    var begun := Act(w, Begin(tx, presented, now));
    var pass := Passes(w.desk, presented, now).value;
    ActKept(w, Begin(tx, presented, now));
    RaceKeeps(begun, between);
    ActiveUnrotated(w.desk, pass.session);
    RaceRotations(begun, between, pass.token.jti);
    SingleUseExactly(Race(begun, between), Insert(tx));
  }

  /** The identifier an unfinished refresh is about. */
  function IdOf(phase: Phase): Option<int> {
    match phase
    case Passed(pass) => Some(pass.token.jti)
    case Tracking(o) => o.rotates
  }

  /** No two unfinished refreshes are about the same identifier. */
  predicate RefreshesApart(w: World) {
    forall tx, tx' :: tx in w.inflight && tx' in w.inflight && tx != tx' && IdOf(w.inflight[tx]).Some? ==>
      IdOf(w.inflight[tx]) != IdOf(w.inflight[tx'])
  }

  predicate AllRefreshesApart(w: World, actions: seq<Action>) {
    RefreshesApart(Race(w, actions)) && (actions != [] ==> AllRefreshesApart(w, actions[..|actions| - 1]))
  }

  predicate Unrotated(rotations: seq<int>, phase: Phase) {
    IdOf(phase).Some? ==> IdOf(phase).value !in rotations
  }

  predicate Fresh(w: World) { forall tx :: tx in w.inflight ==> Unrotated(w.desk.rotations, w.inflight[tx]) }

  lemma MoverFresh(w: World, a: Action, tx: nat)
    requires Kept(w) && Rotated(w.desk) && Fresh(w) && Mover(a) == Some(tx) && tx in Act(w, a).inflight
    ensures Unrotated(Act(w, a).desk.rotations, Act(w, a).inflight[tx])
  {
    ActRotations(w, a);
    if tx in w.inflight { assert Unrotated(w.desk.rotations, w.inflight[tx]); }
    match a
    case Begin(_, presented, now) =>
      if tx !in w.inflight { ActiveUnrotated(w.desk, Passes(w.desk, presented, now).value.session); }
    case Consume(_, _, _, _, _) =>
    case SignIn(_, _, _, _, _, _, _) =>
    case Insert(_) =>
    case Dies(_) =>
  }

  lemma ActFresh(w: World, a: Action)
    requires Kept(w) && Rotated(w.desk) && Fresh(w) && RefreshesApart(w)
    ensures Fresh(Act(w, a))
  {
    var w' := Act(w, a);
    ActRotations(w, a);
    forall tx | tx in w'.inflight ensures Unrotated(w'.desk.rotations, w'.inflight[tx]) {
      if Mover(a) == Some(tx) {
        MoverFresh(w, a, tx);
      } else {
        OthersStay(w, a, tx);
        assert Unrotated(w.desk.rotations, w.inflight[tx]);
        if Rotates(w, a).Some? { assert IdOf(w.inflight[a.tx]) != IdOf(w.inflight[tx]); }
      }
    }
  }

  /** While no two refreshes of one identifier are unfinished at a time, each identifier yields at most one
      successful refresh, whatever else overlaps. */
  lemma {:induction false} AloneSingleUse(actions: seq<Action>)
    requires AllRefreshesApart(QUIET, actions)
    ensures Rotated(Race(QUIET, actions).desk) && Fresh(Race(QUIET, actions))
  {
    if actions != [] {
      var n := |actions| - 1;
      var w := Race(QUIET, actions[..n]);
      AloneSingleUse(actions[..n]);
      RaceKept(actions[..n]);
      SingleUseExactly(w, actions[n]);
      if Rotates(w, actions[n]).Some? { assert Unrotated(w.desk.rotations, w.inflight[actions[n].tx]); }
      ActFresh(w, actions[n]);
    }
  }

  lemma ConsumeStarts(w: World, tx: nat, pass: Pass, userAgent: string, now: int, jti: int, lifetime: int)
    requires tx in w.inflight && w.inflight[tx] == Passed(pass) && Fits(w.desk.sessions, pass)
    requires pass.token.roleVersion == pass.roleVersion && jti !in w.desk.outstanding && jti != pass.token.jti
    ensures var after := Act(w, Consume(tx, userAgent, now, jti, lifetime));
            && IsTracking(after, tx)
            && Starts(after, w, after.inflight[tx].opening, pass, userAgent, jti)
            && after.inflight == w.inflight[tx := after.inflight[tx]]
  {}

  /** What consuming the token leaves: a new identifier to be tracked, and the same rows with their identifiers. */
  predicate Starts(after: World, w: World, o: Opening, pass: Pass, userAgent: string, jti: int) {
    && o.token.jti == jti && o.token.user == pass.token.user && o.device == DeviceOf(userAgent)
    && o.rotates == Some(pass.token.jti) && |w.desk.sessions| !in o.read
    && SameIds(w.desk.sessions, after.desk.sessions)
    && after.desk.rotations == w.desk.rotations && after.desk.issued == w.desk.issued
    && after.desk.outstanding.Keys <= w.desk.outstanding.Keys + {jti, pass.token.jti}
  }

  predicate SameIds(before: seq<Session>, after: seq<Session>) {
    |after| == |before| && forall i :: 0 <= i < |before| ==> after[i].jti == before[i].jti
  }

  /** Both refreshes have passed their tests: consuming the token twice starts tracking two sessions. */
  lemma BothConsume(desk: Desk, pass: Pass, userAgent: string, now: int, jti: int, jti': int, lifetime: int)
    requires Fits(desk.sessions, pass) && pass.token.roleVersion == pass.roleVersion
    requires jti != jti' && jti !in desk.outstanding && jti' !in desk.outstanding
    requires jti != pass.token.jti && jti' != pass.token.jti
    ensures var one := Act(World(desk, map[0 := Passed(pass), 1 := Passed(pass)]),
                           Consume(0, userAgent, now, jti, lifetime));
            var both := Act(one, Consume(1, userAgent, now, jti', lifetime));
            && IsTracking(both, 0) && IsTracking(both, 1)
            && both.inflight[0].opening.token.jti == jti && both.inflight[1].opening.token.jti == jti'
            && both.inflight[0].opening.rotates == both.inflight[1].opening.rotates == Some(pass.token.jti)
            && !Opposed(both.inflight[0].opening, both.inflight[1].opening)
            && |desk.sessions| !in both.inflight[1].opening.read && SameIds(desk.sessions, both.desk.sessions)
            && both.desk.rotations == desk.rotations && both.desk.issued == desk.issued
  {
    var passed := World(desk, map[0 := Passed(pass), 1 := Passed(pass)]);
    ConsumeStarts(passed, 0, pass, userAgent, now, jti, lifetime);
    ConsumeStarts(Act(passed, Consume(0, userAgent, now, jti, lifetime)), 1, pass, userAgent, now, jti', lifetime);
  }

  lemma BothPass(desk: Desk, presented: int, userAgent: string, now: int, jti: int, lifetime: int)
    requires UniqueJtis(desk.sessions)
    requires Refresh(desk, presented, userAgent, now, jti, lifetime).error.None?
    ensures 0 <= presented < |desk.issued| && jti !in desk.outstanding && !Tracked(desk.sessions, jti)
    ensures Passes(desk, presented, now).Some?
    ensures var pass := Passes(desk, presented, now).value;
            && pass.token == desk.issued[presented] && Fits(desk.sessions, pass)
            && pass.token.roleVersion == pass.roleVersion && jti != pass.token.jti
  {
    RefreshExact(desk, presented, userAgent, now, jti, lifetime);
  }

  /** Two refreshes of one token at a time. */
  function Overlap(presented: int, userAgent: string, now: int, jti: int, jti': int, lifetime: int): seq<Action> {
    [Begin(0, presented, now), Begin(1, presented, now), Consume(0, userAgent, now, jti, lifetime),
     Consume(1, userAgent, now, jti', lifetime), Insert(0), Insert(1)]
  }

  lemma OverlapIs(w: World, presented: int, userAgent: string, now: int, jti: int, jti': int, lifetime: int)
    ensures Race(w, Overlap(presented, userAgent, now, jti, jti', lifetime)) ==
            Act(Act(Act(Act(Act(Act(w, Begin(0, presented, now)), Begin(1, presented, now)),
                            Consume(0, userAgent, now, jti, lifetime)),
                        Consume(1, userAgent, now, jti', lifetime)), Insert(0)), Insert(1))
  {
    RaceOfFive(w, Overlap(presented, userAgent, now, jti, jti', lifetime)[..5]);
  }

  /** The identifier is rotated twice, two tokens are handed out, and two sessions of one class are active. */
  predicate SuccessTwice(before: Desk, after: Desk, jti: int) {
    var n := |before.sessions|;
    && after.rotations == before.rotations + [jti, jti]
    && |after.issued| == |before.issued| + 2
    && |after.sessions| == n + 2 && after.sessions[n].active && after.sessions[n + 1].active
    && !OnePerClass(after.sessions) && !Rotated(after)
  }

  lemma BothBegin(desk: Desk, presented: int, now: int)
    requires Passes(desk, presented, now).Some?
    ensures var pass := Passes(desk, presented, now).value;
            Act(Act(World(desk, map[]), Begin(0, presented, now)), Begin(1, presented, now)) ==
              World(desk, map[0 := Passed(pass), 1 := Passed(pass)])
  {}

  lemma BothFinish(desk: Desk, both: World, pass: Pass, jti: int, jti': int)
    requires IsTracking(both, 0) && IsTracking(both, 1) && jti != jti'
    requires !Tracked(desk.sessions, jti) && !Tracked(desk.sessions, jti')
    requires both.inflight[0].opening.token.jti == jti && both.inflight[1].opening.token.jti == jti'
    requires both.inflight[0].opening.rotates == both.inflight[1].opening.rotates == Some(pass.token.jti)
    requires !Opposed(both.inflight[0].opening, both.inflight[1].opening)
    requires SameIds(desk.sessions, both.desk.sessions) && |desk.sessions| !in both.inflight[1].opening.read
    requires both.desk.rotations == desk.rotations && both.desk.issued == desk.issued
    ensures SuccessTwice(desk, Act(Act(both, Insert(0)), Insert(1)).desk, pass.token.jti)
  {
    SecondInsertIntrudes(both, 0, 1);
    var after, m := Act(Act(both, Insert(0)), Insert(1)).desk, |desk.rotations|;
    assert after.rotations[m] == after.rotations[m + 1];
  }

  /** A token that either of two refreshes could use alone is used by both if both are tested before either writes. */
  lemma BothSucceed(desk: Desk, presented: int, userAgent: string, now: int, jti: int, jti': int, lifetime: int)
    requires UniqueJtis(desk.sessions) && jti != jti'
    requires Refresh(desk, presented, userAgent, now, jti, lifetime).error.None?
    requires Refresh(desk, presented, userAgent, now, jti', lifetime).error.None?
    ensures 0 <= presented < |desk.issued|
    ensures SuccessTwice(desk, Race(World(desk, map[]), Overlap(presented, userAgent, now, jti, jti', lifetime)).desk,
                         desk.issued[presented].jti)
  {
    BothPass(desk, presented, userAgent, now, jti, lifetime);
    BothPass(desk, presented, userAgent, now, jti', lifetime);
    var pass := Passes(desk, presented, now).value;
    var passed := World(desk, map[0 := Passed(pass), 1 := Passed(pass)]);
    BothBegin(desk, presented, now);
    BothConsume(desk, pass, userAgent, now, jti, jti', lifetime);
    var both := Act(Act(passed, Consume(0, userAgent, now, jti, lifetime)), Consume(1, userAgent, now, jti', lifetime));
    BothFinish(desk, both, pass, jti, jti');
    OverlapIs(World(desk, map[]), presented, userAgent, now, jti, jti', lifetime);
  }

  /** One sign-in from an empty desk. */
  function SignedInBy(userAgent: string): seq<Command> { [DoRegister(User(true, 0)), DoLogin(0, userAgent, 0, 1, 10)] }

  lemma SignedIn(userAgent: string)
    ensures var account := Step(NOBODY, DoRegister(User(true, 0)));
            var desk := Run(NOBODY, SignedInBy(userAgent));
            && account.users == [User(true, 0)] && account.sessions == [] && account.outstanding == map[]
            && desk == Login(account, 0, userAgent, 0, 1, 10).desk
            && Login(account, 0, userAgent, 0, 1, 10).error.None?
            && desk.issued == [Token(1, 0, 0, 10)] && desk.outstanding == map[1 := Some(0)]
            && |desk.sessions| == 1 && desk.sessions[0].jti == 1 && UniqueJtis(desk.sessions)
  {
    var commands := SignedInBy(userAgent);
    assert commands[..1] == [DoRegister(User(true, 0))];
    assert Run(NOBODY, commands[..0]) == NOBODY;
    assert Run(NOBODY, commands[..1]) == Step(NOBODY, DoRegister(User(true, 0)));
  }

  lemma TokenUsable(userAgent: string, jti: int)
    requires jti > 1
    ensures Refresh(Run(NOBODY, SignedInBy(userAgent)), 0, userAgent, 5, jti, 10).error.None?
  {
    SignedIn(userAgent);
    SignInThenRefresh(Step(NOBODY, DoRegister(User(true, 0))), 0, userAgent, 0, 1, 10, userAgent, 5, jti, 10);
  }

  /** From an empty desk, the token of one sign-in is used by two overlapping refreshes. */
  lemma OneTokenTwice(userAgent: string)
    ensures var desk := Run(NOBODY, SignedInBy(userAgent));
            SuccessTwice(desk, Race(World(desk, map[]), Overlap(0, userAgent, 5, 2, 3, 10)).desk, 1)
  {
    SignedIn(userAgent);
    TokenUsable(userAgent, 2);
    TokenUsable(userAgent, 3);
    BothSucceed(Run(NOBODY, SignedInBy(userAgent)), 0, userAgent, 5, 2, 3, 10);
  }
}
