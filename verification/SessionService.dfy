/** The authentication service as it runs: statement by statement over the session and token tables, with
    no transaction around them. */
module SessionService {
  import opened Prelude
  import opened Sessions

  lemma DisplacedOneMore(desk: Desk, rows: seq<Session>, i: nat, user: nat, mobile: bool)
    requires i < |rows|
    ensures var s := rows[i];
            DisplacedJtis(desk.(sessions := rows[..i + 1]), user, mobile) ==
              DisplacedJtis(desk.(sessions := rows[..i]), user, mobile) +
              (if Displaced(user, mobile)(s) && s.jti in desk.outstanding && desk.outstanding[s.jti] == Some(user)
               then {s.jti} else {})
  {
    var shorter, longer := desk.(sessions := rows[..i]), desk.(sessions := rows[..i + 1]);
    assert forall k :: 0 <= k < i ==> longer.sessions[k] == shorter.sessions[k];
    assert longer.sessions[i] == rows[i];
  }

  lemma TrackedStays(rows: seq<Session>, p: Session -> bool, jti: int)
    ensures Tracked(Deactivate(rows, p), jti) <==> Tracked(rows, jti)
  {
    var after := Deactivate(rows, p);
    assert forall k :: 0 <= k < |rows| ==> after[k].jti == rows[k].jti;
  }

  class AuthDesk {
    var users: seq<User>
    var sessions: seq<Session>
    var outstanding: map<int, Option<nat>>
    var blacklisted: set<int>
    var issued: seq<Token>
    var rotations: seq<int>

    constructor ()
      ensures Rows() == NOBODY
    {
      users, sessions, outstanding, blacklisted, issued, rotations := [], [], map[], {}, [], [];
    }

    function Rows(): Desk
      reads this
    {
      Desk(users, sessions, outstanding, blacklisted, issued, rotations)
    }

    /** `UserSession.objects.filter(...).update(is_active=False)` */
    method CloseWhere(p: Session -> bool)
      modifies this`sessions
      ensures Rows() == old(Rows()).(sessions := Deactivate(old(sessions), p))
    {
      sessions := Deactivate(sessions, p);
    }

    method BlacklistToken(jti: int)
      modifies this`outstanding, this`blacklisted
      ensures Rows() == Blacklist(old(Rows()), jti)
    {
      if jti !in outstanding {
        outstanding := outstanding[jti := None];
      }
      blacklisted := blacklisted + {jti};
    }

    /** One turn of the loop below: closes the row if it is displaced, and blacklists its token. */
    method DisplaceRow(i: nat, user: nat, mobile: bool)
      requires i < |sessions|
      modifies this`sessions, this`blacklisted
      ensures var s := old(sessions)[i];
              && sessions == old(sessions)[i := if Displaced(user, mobile)(s) then s.(active := false) else s]
              && blacklisted == old(blacklisted) +
                   (if Displaced(user, mobile)(s) && s.jti in outstanding && outstanding[s.jti] == Some(user)
                    then {s.jti} else {})
    {
      var s := sessions[i];
      if s.user == user && s.active && Mobile(s.device) == mobile {
        sessions := sessions[i := s.(active := false)];
        if s.jti in outstanding && outstanding[s.jti] == Some(user) {
          blacklisted := blacklisted + {s.jti};
        }
      }
    }

    /** The loop over the user's active sessions: those of the given device class are closed one at a time
        and their tokens blacklisted. */
    method Displace(user: nat, mobile: bool)
      modifies this`sessions, this`blacklisted
      ensures Rows() == old(Rows()).(sessions := Deactivate(old(sessions), Displaced(user, mobile)),
                                     blacklisted := old(blacklisted) + DisplacedJtis(old(Rows()), user, mobile))
    {
      ghost var before := sessions;
      var i := 0;
      while i < |sessions|
        invariant 0 <= i <= |sessions| == |before|
        invariant forall k :: 0 <= k < i ==>
                    sessions[k] == if Displaced(user, mobile)(before[k]) then before[k].(active := false) else before[k]
        invariant forall k :: i <= k < |sessions| ==> sessions[k] == before[k]
        invariant blacklisted == old(blacklisted) + DisplacedJtis(old(Rows()).(sessions := before[..i]), user, mobile)
      {
        DisplaceRow(i, user, mobile);
        DisplacedOneMore(old(Rows()), before, i, user, mobile);
        i := i + 1;
      }
      assert before[..i] == before;
      assert sessions == Deactivate(before, Displaced(user, mobile));
    }

    method TrackSession(token: Token, userAgent: string, now: int) returns (error: Option<Error>)
      modifies this`sessions, this`blacklisted
      ensures Answer(Rows(), error) == Track(old(Rows()), token, userAgent, now)
    {
      var device := DeviceOf(userAgent);
      Displace(token.user, Mobile(device));
      TrackedStays(old(sessions), Displaced(token.user, Mobile(device)), token.jti);
      if Tracked(sessions, token.jti) {
        return Some(Conflict);
      }
      sessions := sessions + [Session(token.user, token.jti, device, true, now + SESSION_INACTIVITY)];
      error := None;
    }

    method IssueToken(user: nat, roleVersion: int, userAgent: string, now: int, jti: int, lifetime: int)
      returns (error: Option<Error>)
      modifies this`sessions, this`blacklisted, this`outstanding, this`issued
      ensures Answer(Rows(), error) == Issue(old(Rows()), user, roleVersion, userAgent, now, jti, lifetime)
    {
      if jti in outstanding {
        return Some(Conflict);
      }
      outstanding := outstanding[jti := Some(user)];
      var token := Token(jti, user, roleVersion, now + lifetime);
      error := TrackSession(token, userAgent, now);
      if error.None? {
        issued := issued + [token];
      }
    }

    method LogIn(user: int, userAgent: string, now: int, jti: int, lifetime: int) returns (error: Option<Error>)
      modifies this`sessions, this`blacklisted, this`outstanding, this`issued
      ensures Answer(Rows(), error) == Login(old(Rows()), user, userAgent, now, jti, lifetime)
    {
      if !(0 <= user < |users|) || !users[user].active {
        return Some(Denied);
      }
      error := IssueToken(user, users[user].roleVersion, userAgent, now, jti, lifetime);
    }

    method CompleteSecondFactor(user: int, userAgent: string, now: int, jti: int, lifetime: int)
      returns (error: Option<Error>)
      modifies this`sessions, this`blacklisted, this`outstanding, this`issued
      ensures Answer(Rows(), error) == VerifyMfa(old(Rows()), user, userAgent, now, jti, lifetime)
    {
      if !(0 <= user < |users|) {
        return Some(Denied);
      }
      error := IssueToken(user, users[user].roleVersion, userAgent, now, jti, lifetime);
    }

    method RotateToken(presented: int, userAgent: string, now: int, jti: int, lifetime: int)
      returns (error: Option<Error>)
      modifies this`sessions, this`blacklisted, this`outstanding, this`issued, this`rotations
      ensures Answer(Rows(), error) == Refresh(old(Rows()), presented, userAgent, now, jti, lifetime)
    {
      if !(0 <= presented < |issued|) || !Usable(Rows(), issued[presented], now) {
        return Some(Denied);
      }
      var token := issued[presented];
      var found := SessionOf(Rows(), token.jti);
      if found.None? || !sessions[found.value].active {
        return Some(Denied);
      }
      var session := sessions[found.value];
      if session.expires < now {
        sessions := sessions[found.value := session.(active := false)];
        return Some(Denied);
      }
      if token.user >= |users| || !users[token.user].active {
        return Some(Denied);
      }
      sessions := sessions[found.value := session.(active := false)];
      BlacklistToken(token.jti);
      if token.roleVersion != users[token.user].roleVersion {
        return Some(Denied);
      }
      var failure := IssueToken(token.user, users[token.user].roleVersion, userAgent, now, jti, lifetime);
      if failure.Some? {
        return Some(Denied);
      }
      rotations := rotations + [token.jti];
      error := None;
    }

    method LogOut(presented: int, now: int) returns (error: Option<Error>)
      modifies this`sessions, this`blacklisted, this`outstanding
      ensures Answer(Rows(), error) == Logout(old(Rows()), presented, now)
    {
      if !(0 <= presented < |issued|) || !Usable(Rows(), issued[presented], now) {
        return Some(Denied);
      }
      var jti := issued[presented].jti;
      BlacklistToken(jti);
      CloseWhere(WithJti(jti));
      error := None;
    }

    /** The given outstanding tokens are blacklisted one after the other. */
    method BlacklistEach(jtis: set<int>)
      modifies this`blacklisted
      ensures Rows() == old(Rows()).(blacklisted := old(blacklisted) + jtis)
    {
      var left := jtis;
      while left != {}
        invariant left <= jtis
        invariant blacklisted == old(blacklisted) + (jtis - left)
        decreases left
      {
        SomeMember(left);
        var jti :| jti in left;
        blacklisted := blacklisted + {jti};
        left := left - {jti};
      }
    }

    method LogOutEverywhere(user: nat)
      modifies this`sessions, this`blacklisted
      ensures Rows() == LogoutAll(old(Rows()), user)
    {
      BlacklistEach(JtisOf(Rows(), user));
      CloseWhere(OfUser(user));
    }

    method RevokeAllSessions(user: nat)
      modifies this`sessions, this`blacklisted, this`outstanding
      ensures Rows() == RevokeAll(old(Rows()), user)
    {
      CloseWhere(OfUserActive(user));
      var gone := JtisOf(Rows(), user);
      outstanding := outstanding - gone;
      blacklisted := blacklisted - gone;
    }
  }
}
