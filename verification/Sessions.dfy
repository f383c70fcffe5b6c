/** Sign-in sessions, refresh tokens and their rotation. None of these calls is a transaction: what a
    failing call has written by then stays written. */
module Sessions {
  import opened Prelude

  datatype User = User(active: bool, roleVersion: int)

  /** A tracked session; its identifier is that of the refresh token it was opened with. */
  datatype Session = Session(user: nat, jti: int, device: string, active: bool, expires: int)

  /** A refresh token in a client's hands. */
  datatype Token = Token(jti: int, user: nat, roleVersion: int, expires: int)

  /** `outstanding` and `blacklisted` are the token library's tables, keyed by identifier; an outstanding
      token that the library records on blacklisting has no user. `rotations` holds the old identifiers of
      the successful refreshes, as the audit log has them. */
  datatype Desk = Desk(users: seq<User>, sessions: seq<Session>, outstanding: map<int, Option<nat>>,
                       blacklisted: set<int>, issued: seq<Token>, rotations: seq<int>)

  /** The tables after a call, and its error if it failed. */
  datatype Answer = Answer(desk: Desk, error: Option<Error>)

  const SESSION_INACTIVITY: int := 20 * DAY

  // ---------------------------------------------------------------- device classes

  predicate Mentions(text: string, word: string) {
    exists i :: 0 <= i <= |text| && word <= text[i..]
  }

  function DeviceOf(userAgent: string): string {
    if Mentions(userAgent, "Mobile") then "Mobile"
    else if Mentions(userAgent, "iPhone") then "iPhone"
    else if Mentions(userAgent, "Android") then "Android"
    else "Desktop"
  }

  predicate Mobile(device: string) { device in ["Mobile", "iPhone", "Android"] }

  // ---------------------------------------------------------------- table operations

  function Deactivate(sessions: seq<Session>, p: Session -> bool): (after: seq<Session>)
    ensures |after| == |sessions|
    ensures forall i :: 0 <= i < |sessions| ==>
              after[i] == if p(sessions[i]) then sessions[i].(active := false) else sessions[i]
  {
    if sessions == [] then []
    else
      var n := |sessions| - 1;
      Deactivate(sessions[..n], p) + [if p(sessions[n]) then sessions[n].(active := false) else sessions[n]]
  }

  function WithJti(jti: int): Session -> bool { (s: Session) => s.jti == jti }
  function OfUser(user: nat): Session -> bool { (s: Session) => s.user == user }
  function OfUserActive(user: nat): Session -> bool { (s: Session) => s.user == user && s.active }
  function Displaced(user: nat, mobile: bool): Session -> bool {
    (s: Session) => s.user == user && s.active && Mobile(s.device) == mobile
  }

  predicate Tracked(sessions: seq<Session>, jti: int) { exists i :: 0 <= i < |sessions| && sessions[i].jti == jti }

  /** The library's `blacklist()`: it records the token as outstanding first if it no longer is. */
  function Blacklist(desk: Desk, jti: int): Desk {
    desk.(outstanding := if jti in desk.outstanding then desk.outstanding else desk.outstanding[jti := None],
          blacklisted := desk.blacklisted + {jti})
  }

  /** The identifiers `track_session` blacklists: displaced sessions whose token is outstanding for the user. */
  function DisplacedJtis(desk: Desk, user: nat, mobile: bool): set<int> {
    set i | 0 <= i < |desk.sessions| && Displaced(user, mobile)(desk.sessions[i]) &&
            desk.sessions[i].jti in desk.outstanding && desk.outstanding[desk.sessions[i].jti] == Some(user)
          :: desk.sessions[i].jti
  }

  function Track(desk: Desk, token: Token, userAgent: string, now: int): Answer {
    var device := DeviceOf(userAgent);
    var cleared := desk.(sessions := Deactivate(desk.sessions, Displaced(token.user, Mobile(device))),
                         blacklisted := desk.blacklisted + DisplacedJtis(desk, token.user, Mobile(device)));
    if Tracked(desk.sessions, token.jti) then Answer(cleared, Some(Conflict))
    else
      var session := Session(token.user, token.jti, device, true, now + SESSION_INACTIVITY);
      Answer(cleared.(sessions := cleared.sessions + [session]), None)
  }

  /** `RefreshToken.for_user` and `track_session`; the token reaches the client if both succeed. */
  function Issue(desk: Desk, user: nat, roleVersion: int, userAgent: string, now: int, jti: int, lifetime: int)
    : Answer
  {
    if jti in desk.outstanding then Answer(desk, Some(Conflict))
    else
      var token := Token(jti, user, roleVersion, now + lifetime);
      var tracked := Track(desk.(outstanding := desk.outstanding[jti := Some(user)]), token, userAgent, now);
      if tracked.error.Some? then tracked
      else Answer(tracked.desk.(issued := tracked.desk.issued + [token]), None)
  }

  // ---------------------------------------------------------------- calls

  function Login(desk: Desk, user: int, userAgent: string, now: int, jti: int, lifetime: int): Answer {
    if !(0 <= user < |desk.users|) || !desk.users[user].active then Answer(desk, Some(Denied))
    else Issue(desk, user, desk.users[user].roleVersion, userAgent, now, jti, lifetime)
  }

  /** Completing the second factor does not look at the account again. */
  function VerifyMfa(desk: Desk, user: int, userAgent: string, now: int, jti: int, lifetime: int): Answer {
    if !(0 <= user < |desk.users|) then Answer(desk, Some(Denied))
    else Issue(desk, user, desk.users[user].roleVersion, userAgent, now, jti, lifetime)
  }

  predicate Usable(desk: Desk, token: Token, now: int) { now < token.expires && token.jti !in desk.blacklisted }

  /** The row a refresh looks up by its unique identifier. */
  function SessionOf(desk: Desk, jti: int): Option<nat> { FindFirst(desk.sessions, WithJti(jti)) }

  function Refresh(desk: Desk, presented: int, userAgent: string, now: int, jti: int, lifetime: int): Answer {
    if !(0 <= presented < |desk.issued|) || !Usable(desk, desk.issued[presented], now) then Answer(desk, Some(Denied))
    else
      var token := desk.issued[presented];
      match SessionOf(desk, token.jti)
      case None => Answer(desk, Some(Denied))
      case Some(s) =>
        if !desk.sessions[s].active then Answer(desk, Some(Denied))
        else
          var closed := desk.(sessions := desk.sessions[s := desk.sessions[s].(active := false)]);
          if desk.sessions[s].expires < now then Answer(closed, Some(Denied))
          else if token.user >= |desk.users| || !desk.users[token.user].active then Answer(desk, Some(Denied))
          else
            var consumed := Blacklist(closed, token.jti);
            if token.roleVersion != desk.users[token.user].roleVersion then Answer(consumed, Some(Denied))
            else
              var next := Issue(consumed, token.user, token.roleVersion, userAgent, now, jti, lifetime);
              if next.error.Some? then Answer(next.desk, Some(Denied))
              else Answer(next.desk.(rotations := next.desk.rotations + [token.jti]), None)
  }

  function Logout(desk: Desk, presented: int, now: int): Answer {
    if !(0 <= presented < |desk.issued|) || !Usable(desk, desk.issued[presented], now) then Answer(desk, Some(Denied))
    else
      var jti := desk.issued[presented].jti;
      var revoked := Blacklist(desk, jti);
      Answer(revoked.(sessions := Deactivate(revoked.sessions, WithJti(jti))), None)
  }

  function JtisOf(desk: Desk, user: nat): set<int> {
    set jti | jti in desk.outstanding && desk.outstanding[jti] == Some(user)
  }

  function LogoutAll(desk: Desk, user: nat): Desk {
    desk.(blacklisted := desk.blacklisted + JtisOf(desk, user), sessions := Deactivate(desk.sessions, OfUser(user)))
  }

  /** `revoke_all_sessions`: deleting the outstanding rows takes their blacklist entries along. */
  function RevokeAll(desk: Desk, user: nat): Desk {
    var gone := JtisOf(desk, user);
    desk.(sessions := Deactivate(desk.sessions, OfUserActive(user)),
          outstanding := desk.outstanding - gone, blacklisted := desk.blacklisted - gone)
  }

  /** A rejected role request closes the sessions of the user it was about. */
  function CloseSessions(desk: Desk, user: nat): Desk {
    desk.(sessions := Deactivate(desk.sessions, OfUserActive(user)))
  }

  datatype Command =
    | DoRegister(profile: User)
    | DoLogin(user: int, userAgent: string, now: int, jti: int, lifetime: int)
    | DoVerifyMfa(user: int, userAgent: string, now: int, jti: int, lifetime: int)
    | DoRefresh(presented: int, userAgent: string, now: int, jti: int, lifetime: int)
    | DoLogout(presented: int, now: int)
    | DoLogoutAll(account: nat)
    | DoRevokeAll(account: nat)
    | DoCloseSessions(account: nat)
    | DoChangeUser(account: nat, profile: User)

  function Step(desk: Desk, c: Command): Desk {
    match c
    case DoRegister(profile) => desk.(users := desk.users + [profile])
    case DoLogin(user, ua, now, jti, lifetime) => Login(desk, user, ua, now, jti, lifetime).desk
    case DoVerifyMfa(user, ua, now, jti, lifetime) => VerifyMfa(desk, user, ua, now, jti, lifetime).desk
    case DoRefresh(presented, ua, now, jti, lifetime) => Refresh(desk, presented, ua, now, jti, lifetime).desk
    case DoLogout(presented, now) => Logout(desk, presented, now).desk
    case DoLogoutAll(user) => LogoutAll(desk, user)
    case DoRevokeAll(user) => RevokeAll(desk, user)
    case DoCloseSessions(user) => CloseSessions(desk, user)
    case DoChangeUser(user, profile) =>
      if user < |desk.users| then desk.(users := desk.users[user := profile]) else desk
  }

  function Run(desk: Desk, commands: seq<Command>): Desk {
    if commands == [] then desk else Step(Run(desk, commands[..|commands| - 1]), commands[|commands| - 1])
  }

  const NOBODY: Desk := Desk([], [], map[], {}, [], [])

  // ---------------------------------------------------------------- one active session per device class

  predicate SameClass(a: Session, b: Session) { a.user == b.user && Mobile(a.device) == Mobile(b.device) }

  /** Rows stay where they are; all that can change about them is that they become inactive. */
  predicate OnlyDeactivated(before: seq<Session>, after: seq<Session>) {
    && |before| <= |after|
    && forall i :: 0 <= i < |before| ==> after[i] == before[i] || after[i] == before[i].(active := false)
  }

  predicate OnePerClass(sessions: seq<Session>) {
    forall i, j :: 0 <= i < j < |sessions| && sessions[i].active && sessions[j].active ==>
      !SameClass(sessions[i], sessions[j])
  }

  predicate UniqueJtis(sessions: seq<Session>) {
    forall i, j :: 0 <= i < j < |sessions| ==> sessions[i].jti != sessions[j].jti
  }

  /** What any call does to the session table: deactivations, and at most one new row with an identifier
      of its own that shares its device class with no active session. */
  predicate Evolves(before: seq<Session>, after: seq<Session>) {
    && OnlyDeactivated(before, after)
    && |after| <= |before| + 1
    && (|after| == |before| + 1 ==>
          var made := after[|before|];
          (forall i :: 0 <= i < |before| ==> before[i].jti != made.jti) &&
          (forall i :: 0 <= i < |before| && after[i].active ==> !SameClass(after[i], made)))
  }

  lemma TrackEvolves(desk: Desk, token: Token, userAgent: string, now: int)
    ensures Evolves(desk.sessions, Track(desk, token, userAgent, now).desk.sessions)
  {}

  lemma IssueEvolves(desk: Desk, user: nat, roleVersion: int, userAgent: string, now: int, jti: int, lifetime: int)
    ensures Evolves(desk.sessions, Issue(desk, user, roleVersion, userAgent, now, jti, lifetime).desk.sessions)
  {
    var token := Token(jti, user, roleVersion, now + lifetime);
    TrackEvolves(desk.(outstanding := desk.outstanding[jti := Some(user)]), token, userAgent, now);
  }

  lemma ClosingThenEvolving(before: seq<Session>, closed: seq<Session>, after: seq<Session>)
    requires OnlyDeactivated(before, closed) && |before| == |closed| && Evolves(closed, after)
    ensures Evolves(before, after)
  {}

  lemma RefreshEvolves(desk: Desk, presented: int, userAgent: string, now: int, jti: int, lifetime: int)
    ensures Evolves(desk.sessions, Refresh(desk, presented, userAgent, now, jti, lifetime).desk.sessions)
  {
    if 0 <= presented < |desk.issued| {
      var token := desk.issued[presented];
      var s := SessionOf(desk, token.jti);
      if s.Some? && token.user < |desk.users| {
        var closed := desk.(sessions := desk.sessions[s.value := desk.sessions[s.value].(active := false)]);
        var consumed := Blacklist(closed, token.jti);
        var next := Issue(consumed, token.user, token.roleVersion, userAgent, now, jti, lifetime).desk;
        IssueEvolves(consumed, token.user, token.roleVersion, userAgent, now, jti, lifetime);
        ClosingThenEvolving(desk.sessions, closed.sessions, next.sessions);
      }
    }
  }

  lemma StepEvolves(desk: Desk, c: Command)
    ensures Evolves(desk.sessions, Step(desk, c).sessions)
  {
    match c
    case DoRegister(_) =>
    case DoLogin(user, ua, now, jti, lifetime) =>
      if 0 <= user < |desk.users| { IssueEvolves(desk, user, desk.users[user].roleVersion, ua, now, jti, lifetime); }
    case DoVerifyMfa(user, ua, now, jti, lifetime) =>
      if 0 <= user < |desk.users| { IssueEvolves(desk, user, desk.users[user].roleVersion, ua, now, jti, lifetime); }
    case DoRefresh(presented, ua, now, jti, lifetime) => RefreshEvolves(desk, presented, ua, now, jti, lifetime);
    case DoLogout(_, _) =>
    case DoLogoutAll(_) =>
    case DoRevokeAll(_) =>
    case DoCloseSessions(_) =>
    case DoChangeUser(_, _) =>
  }

  lemma EvolutionKeeps(before: seq<Session>, after: seq<Session>)
    requires OnePerClass(before) && UniqueJtis(before) && Evolves(before, after)
    ensures OnePerClass(after) && UniqueJtis(after)
  {
    forall i, j | 0 <= i < j < |after|
      ensures after[i].jti != after[j].jti
      ensures after[i].active && after[j].active ==> !SameClass(after[i], after[j])
    {
      assert j < |before| ==> SameClass(after[i], after[j]) == SameClass(before[i], before[j]);
    }
  }

  function ActiveOf(user: nat): Session -> int { (s: Session) => if s.active && s.user == user then 1 else 0 }
  function ActiveIn(user: nat, mobile: bool): Session -> int {
    (s: Session) => if s.active && s.user == user && Mobile(s.device) == mobile then 1 else 0
  }

  lemma {:induction false} AtMostOneActive(sessions: seq<Session>, user: nat, mobile: bool)
    requires OnePerClass(sessions)
    ensures 0 <= Sum(sessions, ActiveIn(user, mobile)) <= 1
    ensures Sum(sessions, ActiveIn(user, mobile)) == 1 ==>
              exists i :: 0 <= i < |sessions| && ActiveIn(user, mobile)(sessions[i]) == 1
  {
    if sessions != [] {
      var n := |sessions| - 1;
      AtMostOneActive(sessions[..n], user, mobile);
      if Sum(sessions[..n], ActiveIn(user, mobile)) == 1 {
        var i :| 0 <= i < n && ActiveIn(user, mobile)(sessions[..n][i]) == 1;
        assert sessions[i] == sessions[..n][i];
      }
      if ActiveIn(user, mobile)(sessions[n]) == 1 { assert 0 <= n < |sessions|; }
    }
  }

  lemma {:induction false} ClassesAddUp(sessions: seq<Session>, user: nat)
    ensures Sum(sessions, ActiveOf(user)) == Sum(sessions, ActiveIn(user, true)) + Sum(sessions, ActiveIn(user, false))
  {
    if sessions != [] { ClassesAddUp(sessions[..|sessions| - 1], user); }
  }

  lemma {:induction false} RunUnique(commands: seq<Command>)
    ensures OnePerClass(Run(NOBODY, commands).sessions) && UniqueJtis(Run(NOBODY, commands).sessions)
  {
    if commands != [] {
      var n := |commands| - 1;
      RunUnique(commands[..n]);
      StepEvolves(Run(NOBODY, commands[..n]), commands[n]);
      EvolutionKeeps(Run(NOBODY, commands[..n]).sessions, Run(NOBODY, commands).sessions);
    }
  }

  /** After any run a user has at most one active session per device class, two in all. */
  lemma AtMostTwoActive(commands: seq<Command>, user: nat)
    ensures forall mobile :: Sum(Run(NOBODY, commands).sessions, ActiveIn(user, mobile)) <= 1
    ensures Sum(Run(NOBODY, commands).sessions, ActiveOf(user)) <= 2
  {
    var sessions := Run(NOBODY, commands).sessions;
    RunUnique(commands);
    forall mobile ensures Sum(sessions, ActiveIn(user, mobile)) <= 1 { AtMostOneActive(sessions, user, mobile); }
    ClassesAddUp(sessions, user);
  }

  /** An inactive session stays inactive, in every run. */
  lemma {:induction false} InactiveForever(desk: Desk, commands: seq<Command>, s: nat)
    requires s < |desk.sessions| && !desk.sessions[s].active
    ensures s < |Run(desk, commands).sessions| && Run(desk, commands).sessions[s] == desk.sessions[s]
  {
    if commands != [] {
      var n := |commands| - 1;
      InactiveForever(desk, commands[..n], s);
      StepEvolves(Run(desk, commands[..n]), commands[n]);
    }
  }

  // ---------------------------------------------------------------- one refresh per token

  /** Refresh succeeds exactly for a live token whose session is active and not timed out, whose user is
      active with the role version it was issued under, when the new identifier is fresh. */
  lemma RefreshExact(desk: Desk, presented: int, userAgent: string, now: int, jti: int, lifetime: int)
    requires UniqueJtis(desk.sessions)
    ensures Refresh(desk, presented, userAgent, now, jti, lifetime).error.None? <==>
            && 0 <= presented < |desk.issued|
            && var token := desk.issued[presented];
            && now < token.expires && token.jti !in desk.blacklisted
            && (exists s :: 0 <= s < |desk.sessions| && desk.sessions[s].jti == token.jti &&
                            desk.sessions[s].active && now <= desk.sessions[s].expires)
            && token.user < |desk.users| && desk.users[token.user].active
            && desk.users[token.user].roleVersion == token.roleVersion
            && jti !in desk.outstanding && !Tracked(desk.sessions, jti)
  {
    if 0 <= presented < |desk.issued| {
      var token := desk.issued[presented];
      var s := SessionOf(desk, token.jti);
      if s.Some? {
        var closed := desk.sessions[s.value := desk.sessions[s.value].(active := false)];
        assert forall i :: 0 <= i < |closed| ==> closed[i].jti == desk.sessions[i].jti;
        assert Tracked(closed, jti) <==> Tracked(desk.sessions, jti);
        assert forall i :: 0 <= i < |desk.sessions| && desk.sessions[i].jti == token.jti ==> i == s.value;
      }
    }
  }

  /** The token a sign-in hands out refreshes exactly until the token or its session times out. */
  lemma SignInThenRefresh(desk: Desk, user: int, userAgent: string, now: int, jti: int, lifetime: int,
                          userAgent': string, later: int, jti': int, lifetime': int)
    requires UniqueJtis(desk.sessions) && jti !in desk.blacklisted
    requires Login(desk, user, userAgent, now, jti, lifetime).error.None?
    ensures var signedIn := Login(desk, user, userAgent, now, jti, lifetime).desk;
            Refresh(signedIn, |signedIn.issued| - 1, userAgent', later, jti', lifetime').error.None? <==>
              later < now + lifetime && later <= now + 20 * DAY &&
              jti' !in signedIn.outstanding && !Tracked(signedIn.sessions, jti')
  {
    var signedIn := Login(desk, user, userAgent, now, jti, lifetime).desk;
    var s := |desk.sessions|;
    StepEvolves(desk, DoLogin(user, userAgent, now, jti, lifetime));
    assert forall i :: 0 <= i < s ==> signedIn.sessions[i].jti == desk.sessions[i].jti != jti;
    assert signedIn.sessions[s] == Session(user, jti, DeviceOf(userAgent), true, now + SESSION_INACTIVITY);
    assert signedIn.issued[|signedIn.issued| - 1] == Token(jti, user, desk.users[user].roleVersion, now + lifetime);
    RefreshExact(signedIn, |signedIn.issued| - 1, userAgent', later, jti', lifetime');
  }

  /** Whatever becomes of it, a refresh that finds an active session of an active account closes it. */
  lemma RefreshConsumes(desk: Desk, presented: int, userAgent: string, now: int, jti: int, lifetime: int, s: nat)
    requires UniqueJtis(desk.sessions)
    requires 0 <= presented < |desk.issued| && Usable(desk, desk.issued[presented], now)
    requires s < |desk.sessions| && desk.sessions[s].jti == desk.issued[presented].jti
    requires desk.issued[presented].user < |desk.users| && desk.users[desk.issued[presented].user].active
    ensures !Refresh(desk, presented, userAgent, now, jti, lifetime).desk.sessions[s].active
  {
    RefreshEvolves(desk, presented, userAgent, now, jti, lifetime);
    assert SessionOf(desk, desk.issued[presented].jti) == Some(s);
  }

  /** The identifier belongs to a session that is closed. */
  predicate Closed(sessions: seq<Session>, jti: int) {
    exists s :: 0 <= s < |sessions| && sessions[s].jti == jti && !sessions[s].active
  }

  /** Rotated identifiers are distinct, and the session of each is tracked and closed. */
  predicate Rotated(desk: Desk) {
    && (forall i, j :: 0 <= i < j < |desk.rotations| ==> desk.rotations[i] != desk.rotations[j])
    && (forall i :: 0 <= i < |desk.rotations| ==> Closed(desk.sessions, desk.rotations[i]))
  }

  lemma EvolutionKeepsClosed(before: seq<Session>, after: seq<Session>, jti: int)
    requires Evolves(before, after)
    requires Closed(before, jti)
    ensures Closed(after, jti)
  {
    var s :| 0 <= s < |before| && before[s].jti == jti && !before[s].active;
    assert after[s].jti == jti && !after[s].active;
  }

  lemma StepRotations(desk: Desk, c: Command)
    ensures Step(desk, c).rotations == desk.rotations ||
            (c.DoRefresh? && Refresh(desk, c.presented, c.userAgent, c.now, c.jti, c.lifetime).error.None? &&
             0 <= c.presented < |desk.issued| &&
             Step(desk, c).rotations == desk.rotations + [desk.issued[c.presented].jti])
  {
    match c
    case DoRegister(_) =>
    case DoLogin(_, _, _, _, _) =>
    case DoVerifyMfa(_, _, _, _, _) =>
    case DoRefresh(_, _, _, _, _) =>
    case DoLogout(_, _) =>
    case DoLogoutAll(_) =>
    case DoRevokeAll(_) =>
    case DoCloseSessions(_) =>
    case DoChangeUser(_, _) =>
  }

  lemma RefreshRotated(desk: Desk, c: Command)
    requires Rotated(desk) && UniqueJtis(desk.sessions) && c.DoRefresh?
    requires Refresh(desk, c.presented, c.userAgent, c.now, c.jti, c.lifetime).error.None?
    requires 0 <= c.presented < |desk.issued|
    ensures desk.issued[c.presented].jti !in desk.rotations
    ensures Closed(Step(desk, c).sessions, desk.issued[c.presented].jti)
  {
    RefreshExact(desk, c.presented, c.userAgent, c.now, c.jti, c.lifetime);
    var jti := desk.issued[c.presented].jti;
    var s :| 0 <= s < |desk.sessions| && desk.sessions[s].jti == jti && desk.sessions[s].active;
    forall i | 0 <= i < |desk.rotations| ensures desk.rotations[i] != jti {
      assert Closed(desk.sessions, desk.rotations[i]);
      var closed :| 0 <= closed < |desk.sessions| && desk.sessions[closed].jti == desk.rotations[i] &&
                    !desk.sessions[closed].active;
    }
    RefreshConsumes(desk, c.presented, c.userAgent, c.now, c.jti, c.lifetime, s);
    RefreshEvolves(desk, c.presented, c.userAgent, c.now, c.jti, c.lifetime);
    assert Step(desk, c).sessions[s].jti == jti;
  }

  lemma StepRotated(desk: Desk, c: Command)
    requires Rotated(desk) && UniqueJtis(desk.sessions)
    ensures Rotated(Step(desk, c))
  {
    var after := Step(desk, c);
    StepEvolves(desk, c);
    StepRotations(desk, c);
    if after.rotations != desk.rotations { RefreshRotated(desk, c); }
    forall i | 0 <= i < |after.rotations|
      ensures Closed(after.sessions, after.rotations[i])
    {
      if i < |desk.rotations| { EvolutionKeepsClosed(desk.sessions, after.sessions, desk.rotations[i]); }
    }
  }

  /** Each refresh identifier yields at most one successful refresh in any run, although a failed refresh,
      a logout or a newer sign-in may have used it up without one. */
  lemma {:induction false} SingleUse(commands: seq<Command>)
    ensures Rotated(Run(NOBODY, commands))
  {
    if commands != [] {
      var n := |commands| - 1;
      SingleUse(commands[..n]);
      RunUnique(commands[..n]);
      StepRotated(Run(NOBODY, commands[..n]), commands[n]);
    }
  }

  /** A token whose session is closed never refreshes again, even after `revoke_all_sessions` has dropped
      its blacklist entry. */
  lemma ClosedNeverRefreshes(early: seq<Command>, late: seq<Command>, s: nat, presented: int, userAgent: string,
                             now: int, jti: int, lifetime: int)
    requires s < |Run(NOBODY, early).sessions| && !Run(NOBODY, early).sessions[s].active
    requires var desk := Run(Run(NOBODY, early), late);
             0 <= presented < |desk.issued| && desk.issued[presented].jti == Run(NOBODY, early).sessions[s].jti
    ensures Refresh(Run(Run(NOBODY, early), late), presented, userAgent, now, jti, lifetime).error.Some?
  {
    var desk := Run(Run(NOBODY, early), late);
    InactiveForever(Run(NOBODY, early), late, s);
    RunConcat(NOBODY, early, late);
    RunUnique(early + late);
    RefreshExact(desk, presented, userAgent, now, jti, lifetime);
    forall i | 0 <= i < |desk.sessions| && desk.sessions[i].jti == desk.issued[presented].jti
      ensures !desk.sessions[i].active
    {
      assert i == s;
    }
  }

  lemma {:induction false} RunConcat(desk: Desk, early: seq<Command>, late: seq<Command>)
    ensures Run(desk, early + late) == Run(Run(desk, early), late)
    decreases |late|
  {
    if late == [] {
      assert early + late == early;
    } else {
      var n := |late| - 1;
      assert (early + late)[..|early + late| - 1] == early + late[..n];
      RunConcat(desk, early, late[..n]);
    }
  }
}
