/** What sign-ins open, what ends sessions, and that tokens which were signed out stay out. */
module SessionEnds {
  import opened Prelude
  import opened Sessions

  ghost predicate Contains(text: string, word: string) { exists a, b :: text == a + word + b }

  lemma MentionsIsContains(text: string, word: string)
    ensures Mentions(text, word) <==> Contains(text, word)
  {
    if Mentions(text, word) {
      var i :| 0 <= i <= |text| && word <= text[i..];
      assert text == text[..i] + word + text[i + |word|..];
    }
    if Contains(text, word) {
      var a, b :| text == a + word + b;
      assert text[|a|..] == word + b;
    }
  }

  /** A device is of the mobile class if and only if its user agent names a mobile one. */
  lemma DeviceClassExact(userAgent: string)
    ensures Mobile(DeviceOf(userAgent)) <==>
            Contains(userAgent, "Mobile") || Contains(userAgent, "iPhone") || Contains(userAgent, "Android")
  {
    MentionsIsContains(userAgent, "Mobile");
    MentionsIsContains(userAgent, "iPhone");
    MentionsIsContains(userAgent, "Android");
  }

  // ---------------------------------------------------------------- sign-ins

  predicate FreshId(desk: Desk, jti: int) {
    jti !in desk.outstanding && forall i :: 0 <= i < |desk.sessions| ==> desk.sessions[i].jti != jti
  }

  /** A sign-in succeeds for an active account, the second factor for any, if the identifier is fresh. */
  lemma SignInExact(desk: Desk, user: int, userAgent: string, now: int, jti: int, lifetime: int)
    ensures Login(desk, user, userAgent, now, jti, lifetime).error.None? <==>
            0 <= user < |desk.users| && desk.users[user].active && FreshId(desk, jti)
    ensures VerifyMfa(desk, user, userAgent, now, jti, lifetime).error.None? <==>
            0 <= user < |desk.users| && FreshId(desk, jti)
  {}

  /** The session is one the new one takes the place of. */
  predicate Replaced(s: Session, user: nat, userAgent: string) {
    s.user == user && s.active && (Mobile(s.device) <==> Mobile(DeviceOf(userAgent)))
  }

  /** The rows after a session was opened: those it takes the place of are closed, and it comes last. */
  predicate Opened(before: seq<Session>, after: seq<Session>, user: nat, jti: int, userAgent: string, now: int) {
    && |after| == |before| + 1
    && after[|before|] == Session(user, jti, DeviceOf(userAgent), true, now + 20 * DAY)
    && forall i :: 0 <= i < |before| ==>
         after[i] == if Replaced(before[i], user, userAgent) then before[i].(active := false) else before[i]
  }

  /** The identifiers used up along with the sessions that were replaced: those outstanding for the user. */
  ghost predicate UsedUp(desk: Desk, after: set<int>, user: nat, userAgent: string) {
    forall jti :: jti in after <==>
      jti in desk.blacklisted ||
      (jti in desk.outstanding && desk.outstanding[jti] == Some(user) &&
       exists i :: 0 <= i < |desk.sessions| && desk.sessions[i].jti == jti &&
                   Replaced(desk.sessions[i], user, userAgent))
  }

  lemma IssueWrites(desk: Desk, user: nat, roleVersion: int, userAgent: string, now: int, jti: int, lifetime: int)
    requires Issue(desk, user, roleVersion, userAgent, now, jti, lifetime).error.None?
    ensures var after := Issue(desk, user, roleVersion, userAgent, now, jti, lifetime).desk;
            && after.users == desk.users && after.rotations == desk.rotations
            && after.outstanding == desk.outstanding[jti := Some(user)]
            && after.issued == desk.issued + [Token(jti, user, roleVersion, now + lifetime)]
            && Opened(desk.sessions, after.sessions, user, jti, userAgent, now)
            && UsedUp(desk, after.blacklisted, user, userAgent)
  {}

  /** A sign-in that succeeds hands out one token under the account's role version, opens its session for twenty days,
      and closes the account's sessions of the same device class, using up their tokens. */
  lemma SignInWrites(desk: Desk, user: int, second: bool, userAgent: string, now: int, jti: int, lifetime: int)
    requires (if second then VerifyMfa(desk, user, userAgent, now, jti, lifetime)
              else Login(desk, user, userAgent, now, jti, lifetime)).error.None?
    ensures var after := (if second then VerifyMfa(desk, user, userAgent, now, jti, lifetime)
                          else Login(desk, user, userAgent, now, jti, lifetime)).desk;
            && 0 <= user < |desk.users| && after.users == desk.users && after.rotations == desk.rotations
            && after.outstanding == desk.outstanding[jti := Some(user)]
            && after.issued == desk.issued + [Token(jti, user, desk.users[user].roleVersion, now + lifetime)]
            && Opened(desk.sessions, after.sessions, user, jti, userAgent, now)
            && UsedUp(desk, after.blacklisted, user, userAgent)
  {
    IssueWrites(desk, user, desk.users[user].roleVersion, userAgent, now, jti, lifetime);
  }

  // ---------------------------------------------------------------- refreshes

  /** The token can be used: neither expired nor used up. */
  predicate Live(desk: Desk, presented: int, now: int) {
    && 0 <= presented < |desk.issued| && now < desk.issued[presented].expires
    && desk.issued[presented].jti !in desk.blacklisted
  }

  /** The active session of a token. */
  predicate SessionAt(desk: Desk, presented: int, s: nat) {
    && 0 <= presented < |desk.issued| && s < |desk.sessions|
    && desk.sessions[s].jti == desk.issued[presented].jti && desk.sessions[s].active
  }

  lemma SessionFound(desk: Desk, presented: int, s: nat)
    requires UniqueJtis(desk.sessions) && SessionAt(desk, presented, s)
    ensures SessionOf(desk, desk.issued[presented].jti) == Some(s)
  {
    assert WithJti(desk.issued[presented].jti)(desk.sessions[s]);
  }

  /** What the refresh leaves of a token's session and of the token once it is past its tests. */
  predicate Consumed(desk: Desk, after: Desk, s: nat)
    requires s < |desk.sessions|
  {
    && after.sessions == desk.sessions[s := desk.sessions[s].(active := false)]
    && after.blacklisted == desk.blacklisted + {desk.sessions[s].jti}
    && after.users == desk.users && after.issued == desk.issued && after.rotations == desk.rotations
  }

  /** A refresh of a token that is not live, or has no active session, is refused and changes nothing. */
  lemma DeadTokenRefused(desk: Desk, presented: int, userAgent: string, now: int, jti: int, lifetime: int)
    requires Live(desk, presented, now) ==> forall s :: 0 <= s < |desk.sessions| ==> !SessionAt(desk, presented, s)
    ensures Refresh(desk, presented, userAgent, now, jti, lifetime) == Answer(desk, Some(Denied))
  {
    if 0 <= presented < |desk.issued| {
      var found := SessionOf(desk, desk.issued[presented].jti);
      assert found.Some? && desk.sessions[found.value].active ==> SessionAt(desk, presented, found.value);
    }
  }

  /** A refresh of a live token that finds its session timed out closes it, and nothing else. One for an inactive
      account changes nothing. One under an old role version uses the token up and closes its session, and nothing else;
      any other does that too, whatever becomes of it. */
  lemma RefusedRefreshWrites(desk: Desk, presented: int, userAgent: string, now: int, jti: int, lifetime: int, s: nat)
    requires UniqueJtis(desk.sessions) && Live(desk, presented, now) && SessionAt(desk, presented, s)
    ensures var answer := Refresh(desk, presented, userAgent, now, jti, lifetime);
            var token := desk.issued[presented];
            if desk.sessions[s].expires < now then
              answer == Answer(desk.(sessions := desk.sessions[s := desk.sessions[s].(active := false)]), Some(Denied))
            else if token.user >= |desk.users| || !desk.users[token.user].active then
              answer == Answer(desk, Some(Denied))
            else if desk.users[token.user].roleVersion != token.roleVersion then
              answer.error == Some(Denied) && Consumed(desk, answer.desk, s)
            else
              s < |answer.desk.sessions| && !answer.desk.sessions[s].active && token.jti in answer.desk.blacklisted
  {
    SessionFound(desk, presented, s);
    RefreshEvolves(desk, presented, userAgent, now, jti, lifetime);
  }

  /** A refresh that succeeds is the sign-in of the token's user, under the same role version, on the desk where the
      token is used up and its session closed; it is recorded as a rotation of the token. */
  lemma RefreshWrites(desk: Desk, presented: int, userAgent: string, now: int, jti: int, lifetime: int)
    returns (consumed: Desk, s: nat)
    requires UniqueJtis(desk.sessions)
    requires Refresh(desk, presented, userAgent, now, jti, lifetime).error.None?
    ensures SessionAt(desk, presented, s) && Consumed(desk, consumed, s)
    ensures var token := desk.issued[presented];
            var after := Refresh(desk, presented, userAgent, now, jti, lifetime).desk;
            && after.users == desk.users && after.rotations == desk.rotations + [token.jti]
            && after.issued == desk.issued + [Token(jti, token.user, token.roleVersion, now + lifetime)]
            && after.outstanding == consumed.outstanding[jti := Some(token.user)]
            && Opened(consumed.sessions, after.sessions, token.user, jti, userAgent, now)
            && UsedUp(consumed, after.blacklisted, token.user, userAgent)
  {
    var token := desk.issued[presented];
    s := SessionOf(desk, token.jti).value;
    var closed := desk.(sessions := desk.sessions[s := desk.sessions[s].(active := false)]);
    consumed := Blacklist(closed, token.jti);
    IssueWrites(consumed, token.user, token.roleVersion, userAgent, now, jti, lifetime);
  }

  // ---------------------------------------------------------------- what ends sessions

  /** A logout succeeds if and only if the token is live; then its identifier is used up and its session closed, and
      otherwise nothing changes. */
  lemma LogoutExact(desk: Desk, presented: int, now: int)
    ensures Logout(desk, presented, now).error.None? <==> Live(desk, presented, now)
    ensures var after := Logout(desk, presented, now).desk;
            if Live(desk, presented, now) then
              var jti := desk.issued[presented].jti;
              && after.users == desk.users && after.issued == desk.issued && after.rotations == desk.rotations
              && after.blacklisted == desk.blacklisted + {jti} && jti in after.outstanding
              && |after.sessions| == |desk.sessions|
              && forall i :: 0 <= i < |desk.sessions| ==>
                   after.sessions[i] ==
                     if desk.sessions[i].jti == jti then desk.sessions[i].(active := false) else desk.sessions[i]
            else after == desk
  {}

  /** The calls that sign a user out everywhere. */
  predicate SignsOut(c: Command, user: nat) {
    c == DoLogoutAll(user) || c == DoRevokeAll(user) || c == DoCloseSessions(user)
  }

  lemma NoneActive(sessions: seq<Session>, user: nat)
    requires forall i :: 0 <= i < |sessions| && sessions[i].user == user ==> !sessions[i].active
    ensures Sum(sessions, ActiveOf(user)) == 0
  {
    SumZero(sessions, ActiveOf(user));
  }

  /** All sessions of the user are closed, and the others are as before. */
  predicate ClosedAll(before: seq<Session>, after: seq<Session>, user: nat) {
    && |after| == |before|
    && forall i :: 0 <= i < |before| ==>
         after[i] == if before[i].user == user then before[i].(active := false) else before[i]
  }

  /** The calls close all sessions of the user and touch no other. */
  lemma SignedOutEverywhere(desk: Desk, c: Command, user: nat)
    requires SignsOut(c, user)
    ensures var after := Step(desk, c);
            && Sum(after.sessions, ActiveOf(user)) == 0 && ClosedAll(desk.sessions, after.sessions, user)
            && after.users == desk.users && after.issued == desk.issued && after.rotations == desk.rotations
  {
    var after := Step(desk, c).sessions;
    assert ClosedAll(desk.sessions, after, user);
    NoneActive(after, user);
  }

  /** Signing out uses up the user's outstanding tokens, revoking forgets them and that they were used up, and closing
      the sessions leaves them; tokens of others stay as they are. */
  lemma SignedOutTokens(desk: Desk, c: Command, user: nat, jti: int)
    requires SignsOut(c, user)
    ensures jti in Step(desk, c).blacklisted <==>
            if jti in desk.outstanding && desk.outstanding[jti] == Some(user)
            then c.DoLogoutAll? || (c.DoCloseSessions? && jti in desk.blacklisted)
            else jti in desk.blacklisted
    ensures jti in Step(desk, c).outstanding <==>
            jti in desk.outstanding && !(c.DoRevokeAll? && desk.outstanding[jti] == Some(user))
    ensures jti in Step(desk, c).outstanding ==> Step(desk, c).outstanding[jti] == desk.outstanding[jti]
  {}

  // ---------------------------------------------------------------- signed out for good

  /** The session of a token, active or not. */
  predicate HasSession(sessions: seq<Session>, token: Token) {
    exists s :: 0 <= s < |sessions| && sessions[s].jti == token.jti && sessions[s].user == token.user
  }

  predicate AllHaveSessions(desk: Desk) {
    forall k :: 0 <= k < |desk.issued| ==> HasSession(desk.sessions, desk.issued[k])
  }

  lemma SessionKept(before: seq<Session>, after: seq<Session>, token: Token)
    requires OnlyDeactivated(before, after) && HasSession(before, token)
    ensures HasSession(after, token)
  {
    var s :| 0 <= s < |before| && before[s].jti == token.jti && before[s].user == token.user;
    assert after[s].jti == token.jti && after[s].user == token.user;
  }

  /** A call hands out no token, or one, whose session it has put last. */
  predicate HandsOut(desk: Desk, after: Desk) {
    || after.issued == desk.issued
    || (|after.sessions| > 0 && |after.issued| == |desk.issued| + 1 && after.issued[..|desk.issued|] == desk.issued &&
        var token, session := after.issued[|desk.issued|], after.sessions[|after.sessions| - 1];
        session.jti == token.jti && session.user == token.user)
  }

  lemma SignInHandsOut(desk: Desk, c: Command)
    requires c.DoLogin? || c.DoVerifyMfa?
    ensures HandsOut(desk, Step(desk, c))
  {
    var second := c.DoVerifyMfa?;
    var answer := if second then VerifyMfa(desk, c.user, c.userAgent, c.now, c.jti, c.lifetime)
                  else Login(desk, c.user, c.userAgent, c.now, c.jti, c.lifetime);
    if answer.error.None? { SignInWrites(desk, c.user, second, c.userAgent, c.now, c.jti, c.lifetime); }
  }

  lemma RefreshHandsOut(desk: Desk, c: Command)
    requires UniqueJtis(desk.sessions) && c.DoRefresh?
    ensures HandsOut(desk, Step(desk, c))
  {
    if Refresh(desk, c.presented, c.userAgent, c.now, c.jti, c.lifetime).error.None? {
      var _, _ := RefreshWrites(desk, c.presented, c.userAgent, c.now, c.jti, c.lifetime);
    }
  }

  lemma StepHandsOut(desk: Desk, c: Command)
    requires UniqueJtis(desk.sessions)
    ensures HandsOut(desk, Step(desk, c))
  {
    if c.DoLogin? || c.DoVerifyMfa? {
      SignInHandsOut(desk, c);
    } else if c.DoRefresh? {
      RefreshHandsOut(desk, c);
    }
  }

  lemma SessionsKept(desk: Desk, after: Desk)
    requires AllHaveSessions(desk) && OnlyDeactivated(desk.sessions, after.sessions) && HandsOut(desk, after)
    ensures AllHaveSessions(after)
  {
    forall k | 0 <= k < |after.issued| ensures HasSession(after.sessions, after.issued[k]) {
      if k < |desk.issued| {
        assert after.issued[k] == desk.issued[k];
        SessionKept(desk.sessions, after.sessions, desk.issued[k]);
      } else {
        assert after.sessions[|after.sessions| - 1].jti == after.issued[k].jti;
      }
    }
  }

  /** In every run each token handed out has a session of its user. */
  lemma {:induction false} RunHasSessions(commands: seq<Command>)
    ensures AllHaveSessions(Run(NOBODY, commands))
  {
    if commands != [] {
      var n := |commands| - 1;
      var desk := Run(NOBODY, commands[..n]);
      RunHasSessions(commands[..n]);
      RunUnique(commands[..n]);
      StepHandsOut(desk, commands[n]);
      StepEvolves(desk, commands[n]);
      SessionsKept(desk, Step(desk, commands[n]));
    }
  }

  /** A token logged out never refreshes again, whatever happens later. */
  lemma LoggedOutForever(early: seq<Command>, presented: int, now: int, late: seq<Command>, again: int,
                         userAgent: string, later: int, jti: int, lifetime: int)
    requires Logout(Run(NOBODY, early), presented, now).error.None?
    requires var desk := Run(Run(NOBODY, early + [DoLogout(presented, now)]), late);
             0 <= again < |desk.issued| && desk.issued[again].jti == Run(NOBODY, early).issued[presented].jti
    ensures Refresh(Run(Run(NOBODY, early + [DoLogout(presented, now)]), late), again, userAgent, later, jti,
                    lifetime).error.Some?
  {
    var desk, out := Run(NOBODY, early), early + [DoLogout(presented, now)];
    RunHasSessions(early);
    LogoutExact(desk, presented, now);
    assert out[..|early|] == early;
    assert HasSession(desk.sessions, desk.issued[presented]);
    var s :| 0 <= s < |desk.sessions| && desk.sessions[s].jti == desk.issued[presented].jti;
    ClosedNeverRefreshes(out, late, s, again, userAgent, later, jti, lifetime);
  }

  /** Of the tokens a user had when signed out everywhere, none ever refreshes again. */
  lemma SignedOutForever(early: seq<Command>, c: Command, user: nat, presented: nat, late: seq<Command>, again: int,
                         userAgent: string, later: int, jti: int, lifetime: int)
    requires SignsOut(c, user)
    requires presented < |Run(NOBODY, early).issued| && Run(NOBODY, early).issued[presented].user == user
    requires var desk := Run(Run(NOBODY, early + [c]), late);
             0 <= again < |desk.issued| && desk.issued[again].jti == Run(NOBODY, early).issued[presented].jti
    ensures Refresh(Run(Run(NOBODY, early + [c]), late), again, userAgent, later, jti, lifetime).error.Some?
  {
    var desk, out := Run(NOBODY, early), early + [c];
    RunHasSessions(early);
    SignedOutEverywhere(desk, c, user);
    assert out[..|early|] == early;
    assert HasSession(desk.sessions, desk.issued[presented]);
    var s :| 0 <= s < |desk.sessions| && desk.sessions[s].jti == desk.issued[presented].jti &&
             desk.sessions[s].user == user;
    ClosedNeverRefreshes(out, late, s, again, userAgent, later, jti, lifetime);
  }

  // ---------------------------------------------------------------- accounts

  /** Registering adds an account, and changing one rewrites it; neither touches anything else. */
  lemma AccountsWrite(desk: Desk, user: nat, profile: User)
    ensures Step(desk, DoRegister(profile)) == desk.(users := desk.users + [profile])
    ensures Step(desk, DoChangeUser(user, profile)) ==
            if user < |desk.users| then desk.(users := desk.users[user := profile]) else desk
  {}

  /** Once an account is made inactive or changes its role version, no token it had under another version refreshes. */
  lemma ChangedAccountRefuses(desk: Desk, user: nat, profile: User, presented: nat, userAgent: string, now: int,
                              jti: int, lifetime: int)
    requires UniqueJtis(desk.sessions) && user < |desk.users|
    requires presented < |desk.issued| && desk.issued[presented].user == user
    requires !profile.active || profile.roleVersion != desk.issued[presented].roleVersion
    ensures Refresh(Step(desk, DoChangeUser(user, profile)), presented, userAgent, now, jti, lifetime).error.Some?
  {
    AccountsWrite(desk, user, profile);
    RefreshExact(Step(desk, DoChangeUser(user, profile)), presented, userAgent, now, jti, lifetime);
  }
}
