/** The token table and its database calls as they mutate it. Each method is one call, taken as
    atomic, and does to the fields what the matching step does to a state. */
module TokenStore {
  import opened Common
  import opened TokenRotation

  class Store {
    var rows: map<int, Token>
    var ops: map<int, Op>
    var now: int
    // What has left the server, and which password checks it rests on: history, not state.
    ghost var handed: set<int>
    ghost var successors: set<(int, int)>
    ghost var claims: set<Claim>
    ghost var checks: set<(int, int)>
    ghost var signIns: map<int, SignIn>

    ghost function View(): State
      reads this
    {
      State(rows, ops, now, handed, successors, claims, checks, signIns)
    }

    constructor ()
      ensures View() == EMPTY && Inv(View())
    {
      rows, ops, now := map[], map[], 0;
      handed, successors, claims, checks, signIns := {}, {}, {}, {}, map[];
    }

    /** `findUnique` by the token's hash, then the reuse test on the row as read. Whatever is
        presented is unknown or was handed out. */
    method ReadForRefresh(op: int, token: int) returns (known: bool)
      requires op !in ops && (token in rows ==> token in handed)
      modifies this`ops
      ensures View() == RefreshRead(old(View()), op, token)
      ensures known <==> token in rows
      ensures known ==> op in ops && (ops[op].Loaded? <==> LiveToken(View(), token) && rows[token].replacedBy.None?)
      ensures !known ==> ops == old(ops)
    {
      known := token in rows;
      if !known { return; }
      var stored := rows[token];
      if stored.replacedBy.Some? || stored.revoked {
        ops := ops[op := Replaying(stored.family)];
      } else {
        ops := ops[op := Loaded(token, stored)];
      }
    }

    method RevokeReplayed(op: int)
      requires op in ops && ops[op].Replaying?
      modifies this`rows, this`ops
      ensures View() == RefreshReplay(old(View()), op)
      ensures forall id :: LiveToken(View(), id) ==> rows[id].family != old(ops)[op].family
    {
      rows := RevokeFamily(rows, ops[op].family);
      ops := ops - {op};
    }

    method CheckUser(op: int, active: bool)
      requires op in ops && ops[op].Loaded?
      modifies this`ops
      ensures View() == RefreshCheckUser(old(View()), op, active)
      ensures op in ops <==> active
    {
      if active {
        ops := ops[op := Checked(ops[op].parent, ops[op].stored)];
      } else {
        ops := ops - {op};
      }
    }

    /** `issueRefreshToken` with the family and authentication time of the stored row. */
    method IssueSuccessor(op: int, child: int)
      requires op in ops && ops[op].Checked? && child !in rows
      modifies this`rows, this`ops
      ensures View() == RefreshIssue(old(View()), op, child)
      ensures child in rows && SameLogin(rows[child], old(ops)[op].stored) && !rows[child].revoked
    {
      var parent, stored := ops[op].parent, ops[op].stored;
      rows := rows[child := Token(stored.user, stored.family, stored.authTime, false, None)];
      ops := ops[op := Issued(parent, stored, child)];
    }

    /** `updateMany` guarded by `revokedAt: null, replacedByTokenID: null`; the count decides. */
    method Rotate(op: int) returns (count: nat)
      requires op in ops && ops[op].Issued?
      modifies this`rows, this`ops, this`handed, this`successors, this`claims
      ensures View() == RefreshRotate(old(View()), op)
      ensures count == 1 <==> op !in ops
      ensures count == 0 <==> op in ops && ops[op] == Losing(old(ops)[op].child)
    {
      var parent, stored, child := ops[op].parent, ops[op].stored, ops[op].child;
      count := 0;
      if parent in rows && !rows[parent].revoked && rows[parent].replacedBy.None? {
        rows := rows[parent := rows[parent].(revoked := true, replacedBy := Some(child))];
        count := 1;
      }
      if count == 0 {
        ops := ops[op := Losing(child)];
      } else {
        ops := ops - {op};
        handed := handed + {child};
        successors := successors + {(parent, child)};
        claims := claims + {Claim(stored.user, stored.authTime / 1000)};
      }
    }

    method RevokeLoser(op: int)
      requires op in ops && ops[op].Losing?
      modifies this`rows, this`ops
      ensures View() == RefreshDiscard(old(View()), op)
      ensures !LiveToken(View(), old(ops)[op].child)
    {
      var child := ops[op].child;
      if child in rows { rows := rows[child := Revoked(rows[child])]; }
      ops := ops - {op};
    }

    /** `findUnique` by the token's hash; an unknown token is ignored. */
    method ReadForLogout(op: int, token: int) returns (known: bool)
      requires op !in ops && (token in rows ==> token in handed)
      modifies this`ops
      ensures View() == LogoutRead(old(View()), op, token)
      ensures known <==> token in rows
      ensures ops == if known then old(ops)[op := LoggingOut(token)] else old(ops)
    {
      known := token in rows;
      if known { ops := ops[op := LoggingOut(token)]; }
    }

    method RevokeLoggedOut(op: int)
      requires op in ops && ops[op].LoggingOut?
      modifies this`rows, this`ops
      ensures View() == LogoutRevoke(old(View()), op)
      ensures !LiveToken(View(), old(ops)[op].token)
    {
      var token := ops[op].token;
      if token in rows { rows := rows[token := Revoked(rows[token])]; }
      ops := ops - {op};
    }

    /** `findFirst` or `findUnique` on the user: the row, hash included, as it is now. */
    method ReadUser(op: int, user: int, endsSessions: bool)
      requires op !in ops
      modifies this`ops
      ensures View() == UserRead(old(View()), op, user, endsSessions)
      ensures SigningIn(ops[op], user)
    {
      ops := ops[op := Known(user, endsSessions)];
    }

    /** `argon2.verify` against the hash that was read. */
    method VerifyPassword(op: int, valid: bool)
      requires op in ops && ops[op].Known?
      modifies this`ops, this`checks
      ensures View() == PasswordCheck(old(View()), op, valid)
      ensures op in ops <==> valid
      ensures valid ==> (old(ops)[op].user, now) in checks && SigningIn(ops[op], old(ops)[op].user)
    {
      var user, endsSessions := ops[op].user, ops[op].endsSessions;
      if valid {
        ops := ops[op := Verified(user, now, endsSessions)];
        checks := checks + {(user, now)};
      } else {
        ops := ops - {op};
      }
    }

    /** The transaction of `changePassword`. */
    method ChangePassword(op: int)
      requires op in ops && ops[op].Verified? && ops[op].endsSessions
      modifies this`rows, this`ops
      ensures View() == EndSessions(old(View()), op)
      ensures LoggedOut(View(), old(ops)[op].user)
    {
      rows := RevokeUser(rows, ops[op].user);
      ops := ops[op := Verified(ops[op].user, ops[op].checkedAt, false)];
    }

    method StampAuthTime(op: int)
      requires op in ops && ops[op].Verified? && !ops[op].endsSessions
      modifies this`ops
      ensures View() == Stamp(old(View()), op)
      ensures op in ops && ops[op].Stamped? && ops[op].authTime == now
      ensures Inv(old(View())) ==> FromCheck(View(), SignIn(ops[op].user, ops[op].checkedAt, now))
    {
      ops := ops[op := Stamped(ops[op].user, ops[op].checkedAt, now)];
    }

    /** `issueRefreshToken` with a new family, and the pair it returns. */
    method IssueFamily(op: int, id: int, family: int)
      requires op in ops && ops[op].Stamped? && id !in rows && FamilyUnused(View(), family)
      modifies this`rows, this`ops, this`handed, this`claims, this`signIns
      ensures View() == SignInIssue(old(View()), op, id, family)
      ensures LiveToken(View(), id) && Continues(rows[id], signIns) && ClaimOf(signIns[family]) in claims
    {
      var user, checkedAt, authTime := ops[op].user, ops[op].checkedAt, ops[op].authTime;
      rows := rows[id := Token(user, family, authTime, false, None)];
      ops := ops - {op};
      handed := handed + {id};
      claims := claims + {Claim(user, authTime / 1000)};
      signIns := signIns[family := SignIn(user, checkedAt, authTime)];
    }

    /** The transactions of `resetPassword` and `confirmEmailChange`. */
    method EndAllSessions(user: int)
      modifies this`rows
      ensures View() == ResetSessions(old(View()), user)
      ensures LoggedOut(View(), user)
    {
      rows := RevokeUser(rows, user);
    }

    /** The guarded update and, if it missed, the revocation of the own child. */
    method RotateOrRevoke(op: int) returns (won: bool)
      requires Inv(View()) && op in ops && ops[op].Issued?
      modifies this
      ensures Inv(View()) && ops == old(ops) - {op}
      ensures won <==> LiveToken(old(View()), old(ops)[op].parent)
      ensures View()
        == if won then RefreshRotate(old(View()), op) else RefreshDiscard(RefreshRotate(old(View()), op), op)
    {
      GuardDecides(View(), op);
      RotateKeeps(View(), op);
      var count := Rotate(op);
      won := count == 1;
      if !won {
        DiscardKeeps(View(), op);
        RevokeLoser(op);
      }
    }

    /** Issue the successor, then rotate or revoke it. */
    method IssueAndRotate(op: int, child: int) returns (won: bool)
      requires Inv(View()) && op in ops && ops[op].Checked? && child !in rows
      modifies this
      ensures Inv(View()) && ops == old(ops) - {op}
      ensures won <==> LiveToken(old(View()), old(ops)[op].parent)
      ensures won ==> LiveToken(View(), child) && (old(ops)[op].parent, child) in successors
      ensures won ==> SameLogin(rows[child], old(ops)[op].stored) && !LiveToken(View(), old(ops)[op].parent)
      ensures !won ==> handed == old(handed) && successors == old(successors) && claims == old(claims)
      ensures !won ==> child in rows && rows[child].revoked
    {
      IssueKeeps(View(), op, child);
      IssueSuccessor(op, child);
      won := RotateOrRevoke(op);
    }

    /** `refresh` after the row was found fresh; others may have used the token meanwhile. */
    method Exchange(op: int, active: bool, child: int) returns (r: Option<int>)
      requires Inv(View()) && op in ops && ops[op].Loaded? && child !in rows
      modifies this
      ensures Inv(View()) && ops == old(ops) - {op}
      ensures r == if active && LiveToken(old(View()), old(ops)[op].parent) then Some(child) else None
      ensures r.Some? ==> LiveToken(View(), child) && (old(ops)[op].parent, child) in successors
      ensures r.Some? ==> SameLogin(rows[child], old(ops)[op].stored) && !LiveToken(View(), old(ops)[op].parent)
      ensures r.None? ==> handed == old(handed) && successors == old(successors) && claims == old(claims)
      ensures r.None? && child in rows ==> rows[child].revoked
    {
      CheckUserKeeps(View(), op, active);
      CheckUser(op, active);
      if !active { return None; }
      var won := IssueAndRotate(op, child);
      r := if won then Some(child) else None;
    }

    /** `logout` from its first call to its last, when nothing comes between them. */
    method Logout(op: int, token: int)
      requires Inv(View()) && op !in ops && (token in rows ==> token in handed)
      modifies this
      ensures Inv(View()) && ops == old(ops) && !LiveToken(View(), token)
      ensures rows == if token in old(rows) then old(rows)[token := Revoked(old(rows)[token])] else old(rows)
    {
      LogoutReadKeeps(View(), op, token);
      var known := ReadForLogout(op, token);
      if known {
        LogoutKeeps(View(), op);
        RevokeLoggedOut(op);
      }
    }

    /** `refresh` from its first call to its last, when nothing comes between them: an unknown
        token is refused, a used one ends its family, a live one is exchanged. */
    method Refresh(op: int, token: int, active: bool, child: int) returns (r: Option<int>)
      requires Inv(View()) && op !in ops && (token in rows ==> token in handed) && child !in rows
      modifies this
      ensures Inv(View()) && ops == old(ops)
      ensures r == if active && LiveToken(old(View()), token) then Some(child) else None
      ensures r.Some? ==> LiveToken(View(), child) && (token, child) in successors
      ensures r.Some? ==> SameLogin(rows[child], old(rows)[token]) && !LiveToken(View(), token)
      ensures token !in old(rows) ==> View() == old(View())
      ensures token in old(rows) && !LiveToken(old(View()), token) ==> Dead(View(), old(rows)[token].family)
    {
      ghost var start := View();
      ReadKeeps(View(), op, token);
      var known := ReadForRefresh(op, token);
      if !known { return None; }
      if ops[op].Replaying? {
        UsedTokenIsReplay(start, op, token);
        ReplayKeeps(View(), op);
        RevokeReplayed(op);
        return None;
      }
      r := Exchange(op, active, child);
    }
  }
}
