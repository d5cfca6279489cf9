/** Refresh-token rotation as concurrent steps (backend/src/modules/auth/auth.service.ts):
    every database call, password comparison and stamp is one step, and the steps of any number
    of operations interleave freely. */
module TokenRotation {
  import opened Common

  /** A stored refresh token. Times are epoch milliseconds. */
  datatype Token = Token(user: int, family: int, authTime: int, revoked: bool, replacedBy: Option<int>)

  /** Where an operation in flight has got to. */
  datatype Op =
    | Loaded(parent: int, stored: Token)              // refresh: read the row, found it fresh
    | Replaying(family: int)                          // refresh: read the row, found it used
    | Checked(parent: int, stored: Token)             // refresh: the user is still active
    | Issued(parent: int, stored: Token, child: int)  // refresh: the successor is stored
    | Losing(child: int)                              // refresh: the guarded update missed
    | LoggingOut(token: int)
    | Known(user: int, endsSessions: bool)            // sign-in: read the user row, password hash included
    | Verified(user: int, checkedAt: int, endsSessions: bool)  // ... the password matched that hash
    | Stamped(user: int, checkedAt: int, authTime: int)

  /** What an access token claims. */
  datatype Claim = Claim(user: int, authSeconds: int)

  /** How a family began: a password check and the moment it was stamped. */
  datatype SignIn = SignIn(user: int, checkedAt: int, stampedAt: int)

  /** The token table, the clock, the operations in flight, and what has left the server. */
  datatype State = State(rows: map<int, Token>, ops: map<int, Op>, now: int, handed: set<int>,
                         successors: set<(int, int)>, claims: set<Claim>, checks: set<(int, int)>,
                         signIns: map<int, SignIn>)

  const EMPTY := State(map[], map[], 0, {}, {}, {}, {}, map[])

  // --- Table updates --------------------------------------------------------------------------

  function Revoked(t: Token): Token { t.(revoked := true) }

  /** `updateMany({ where: { familyID, revokedAt: null } })` */
  function RevokeFamily(rows: map<int, Token>, family: int): map<int, Token> {
    map id | id in rows :: if rows[id].family == family then Revoked(rows[id]) else rows[id]
  }

  /** `updateMany({ where: { userID, revokedAt: null } })` */
  function RevokeUser(rows: map<int, Token>, user: int): map<int, Token> {
    map id | id in rows :: if rows[id].user == user then Revoked(rows[id]) else rows[id]
  }

  function Without(ops: map<int, Op>, op: int): map<int, Op> { ops - {op} }

  // --- Refresh --------------------------------------------------------------------------------

  /** Only a token that was handed out can be presented. */
  function RefreshRead(s: State, op: int, token: int): State {
    if op in s.ops || token !in s.handed || token !in s.rows then s
    else
      var stored := s.rows[token];
      var used := stored.replacedBy.Some? || stored.revoked;
      s.(ops := s.ops[op := if used then Replaying(stored.family) else Loaded(token, stored)])
  }

  function RefreshReplay(s: State, op: int): State {
    if op in s.ops && s.ops[op].Replaying?
    then s.(rows := RevokeFamily(s.rows, s.ops[op].family), ops := Without(s.ops, op))
    else s
  }

  function RefreshCheckUser(s: State, op: int, active: bool): State {
    if op in s.ops && s.ops[op].Loaded?
    then s.(ops := if active then s.ops[op := Checked(s.ops[op].parent, s.ops[op].stored)] else Without(s.ops, op))
    else s
  }

  /** The successor carries the family and the authentication time of the row as it was read. */
  function RefreshIssue(s: State, op: int, child: int): State {
    if op in s.ops && s.ops[op].Checked? && child !in s.rows
    then
      var stored := s.ops[op].stored;
      s.(rows := s.rows[child := Token(stored.user, stored.family, stored.authTime, false, None)],
         ops := s.ops[op := Issued(s.ops[op].parent, stored, child)])
    else s
  }

  /** The guarded update: only a row still unrotated and unrevoked is rotated, and only then
      does the successor leave the server. */
  function RefreshRotate(s: State, op: int): State {
    if op in s.ops && s.ops[op].Issued?
    then
      var parent, stored, child := s.ops[op].parent, s.ops[op].stored, s.ops[op].child;
      if parent in s.rows && !s.rows[parent].revoked && s.rows[parent].replacedBy.None?
      then s.(rows := s.rows[parent := s.rows[parent].(revoked := true, replacedBy := Some(child))],
              ops := Without(s.ops, op), handed := s.handed + {child}, successors := s.successors + {(parent, child)},
              claims := s.claims + {Claim(stored.user, stored.authTime / 1000)})
      else s.(ops := s.ops[op := Losing(child)])
    else s
  }

  function RefreshDiscard(s: State, op: int): State {
    if op in s.ops && s.ops[op].Losing?
    then
      var child := s.ops[op].child;
      s.(rows := if child in s.rows then s.rows[child := Revoked(s.rows[child])] else s.rows, ops := Without(s.ops, op))
    else s
  }

  // --- Logout -----------------------------------------------------------------------------------

  function LogoutRead(s: State, op: int, token: int): State {
    if op in s.ops || token !in s.handed || token !in s.rows then s else s.(ops := s.ops[op := LoggingOut(token)])
  }

  function LogoutRevoke(s: State, op: int): State {
    if op in s.ops && s.ops[op].LoggingOut?
    then
      var token := s.ops[op].token;
      s.(rows := if token in s.rows then s.rows[token := Revoked(s.rows[token])] else s.rows, ops := Without(s.ops, op))
    else s
  }

  // --- Sign-in, step-up, change of password, reset, change of email -------------------------------

  /** The read of the user row: at either login door, at step-up, or for changing the password. */
  function UserRead(s: State, op: int, user: int, endsSessions: bool): State {
    if op in s.ops then s else s.(ops := s.ops[op := Known(user, endsSessions)])
  }

  /** The comparison with the hash as it was read, current or not; a wrong password ends the operation. */
  function PasswordCheck(s: State, op: int, valid: bool): State {
    if op in s.ops && s.ops[op].Known?
    then
      var user := s.ops[op].user;
      if valid
      then s.(ops := s.ops[op := Verified(user, s.now, s.ops[op].endsSessions)], checks := s.checks + {(user, s.now)})
      else s.(ops := Without(s.ops, op))
    else s
  }

  /** The transaction of a password change. */
  function EndSessions(s: State, op: int): State {
    if op in s.ops && s.ops[op].Verified? && s.ops[op].endsSessions
    then s.(rows := RevokeUser(s.rows, s.ops[op].user),
            ops := s.ops[op := Verified(s.ops[op].user, s.ops[op].checkedAt, false)])
    else s
  }

  /** `const authTime = new Date()` */
  function Stamp(s: State, op: int): State {
    if op in s.ops && s.ops[op].Verified? && !s.ops[op].endsSessions
    then s.(ops := s.ops[op := Stamped(s.ops[op].user, s.ops[op].checkedAt, s.now)])
    else s
  }

  function FamilyUnused(s: State, family: int): bool {
    family !in s.signIns && forall id :: id in s.rows ==> s.rows[id].family != family
  }

  function SignInIssue(s: State, op: int, id: int, family: int): State {
    if op in s.ops && s.ops[op].Stamped? && id !in s.rows && FamilyUnused(s, family)
    then
      var user, checkedAt, authTime := s.ops[op].user, s.ops[op].checkedAt, s.ops[op].authTime;
      s.(rows := s.rows[id := Token(user, family, authTime, false, None)], ops := Without(s.ops, op),
         handed := s.handed + {id}, claims := s.claims + {Claim(user, authTime / 1000)},
         signIns := s.signIns[family := SignIn(user, checkedAt, authTime)])
    else s
  }

  /** The transaction of a password reset or of a confirmed change of email. */
  function ResetSessions(s: State, user: int): State { s.(rows := RevokeUser(s.rows, user)) }

  function Tick(s: State, ms: nat): State { s.(now := s.now + ms) }

  // --- Runs ------------------------------------------------------------------------------------------

  datatype Step =
    | DoRefreshRead(op: int, token: int)
    | DoRefreshReplay(op: int)
    | DoRefreshCheckUser(op: int, active: bool)
    | DoRefreshIssue(op: int, child: int)
    | DoRefreshRotate(op: int)
    | DoRefreshDiscard(op: int)
    | DoLogoutRead(op: int, token: int)
    | DoLogoutRevoke(op: int)
    | DoUserRead(op: int, user: int, endsSessions: bool)
    | DoPasswordCheck(op: int, valid: bool)
    | DoEndSessions(op: int)
    | DoStamp(op: int)
    | DoSignInIssue(op: int, id: int, family: int)
    | DoResetSessions(user: int)
    | DoTick(ms: nat)

  function Apply(s: State, step: Step): State {
    match step
    case DoRefreshRead(op, token) => RefreshRead(s, op, token)
    case DoRefreshReplay(op) => RefreshReplay(s, op)
    case DoRefreshCheckUser(op, active) => RefreshCheckUser(s, op, active)
    case DoRefreshIssue(op, child) => RefreshIssue(s, op, child)
    case DoRefreshRotate(op) => RefreshRotate(s, op)
    case DoRefreshDiscard(op) => RefreshDiscard(s, op)
    case DoLogoutRead(op, token) => LogoutRead(s, op, token)
    case DoLogoutRevoke(op) => LogoutRevoke(s, op)
    case DoUserRead(op, user, endsSessions) => UserRead(s, op, user, endsSessions)
    case DoPasswordCheck(op, valid) => PasswordCheck(s, op, valid)
    case DoEndSessions(op) => EndSessions(s, op)
    case DoStamp(op) => Stamp(s, op)
    case DoSignInIssue(op, id, family) => SignInIssue(s, op, id, family)
    case DoResetSessions(user) => ResetSessions(s, user)
    case DoTick(ms) => Tick(s, ms)
  }

  function Run(s: State, steps: seq<Step>): State
    decreases |steps|
  {
    if steps == [] then s else Run(Apply(s, steps[0]), steps[1..])
  }

  // --- The invariant -----------------------------------------------------------------------------------

  function ChildOf(op: Op): Option<int> {
    match op
    case Issued(_, _, child) => Some(child)
    case Losing(child) => Some(child)
    case _ => None
  }

  ghost predicate SameLogin(a: Token, b: Token) { a.user == b.user && a.family == b.family && a.authTime == b.authTime }

  /** A child in flight is stored, was never handed out and belongs to one operation. */
  ghost predicate ChildrenPrivate(s: State) {
    && (forall o :: o in s.ops && ChildOf(s.ops[o]).Some? ==>
         ChildOf(s.ops[o]).value in s.rows && ChildOf(s.ops[o]).value !in s.handed)
    && forall o, p :: o in s.ops && p in s.ops && o != p && ChildOf(s.ops[o]).Some? ==>
      ChildOf(s.ops[o]) != ChildOf(s.ops[p])
  }

  ghost predicate Holds(s: State, parent: int, stored: Token) {
    parent in s.handed && parent in s.rows && SameLogin(stored, s.rows[parent])
  }

  /** A refresh in flight holds a handed-out parent, and its child continues the same login. */
  ghost predicate RefreshesHold(s: State) {
    forall o :: o in s.ops ==>
      match s.ops[o]
      case Loaded(parent, stored) => Holds(s, parent, stored)
      case Checked(parent, stored) => Holds(s, parent, stored)
      case Issued(parent, stored, child) =>
        Holds(s, parent, stored) && child in s.rows && SameLogin(stored, s.rows[child])
        && s.rows[child].replacedBy.None?
      case LoggingOut(token) => token in s.rows
      case _ => true
  }

  /** A live row that was never handed out. */
  ghost predicate Stray(s: State, id: int) { id in s.rows && id !in s.handed && !s.rows[id].revoked }

  ghost predicate InFlight(s: State, id: int) { exists o :: o in s.ops && ChildOf(s.ops[o]) == Some(id) }

  /** Every live row was handed out or is the child of an operation in flight. */
  ghost predicate NoStrays(s: State) {
    forall id :: Stray(s, id) ==> InFlight(s, id)
  }

  /** Successors handed out are exactly the recorded rotations, and a rotated row is revoked. */
  ghost predicate SuccessorsRecorded(s: State) {
    && (forall p, c :: (p, c) in s.successors <==> p in s.rows && s.rows[p].replacedBy == Some(c))
    && (forall p :: p in s.rows && s.rows[p].replacedBy.Some? ==> s.rows[p].revoked)
    && (forall p, c :: (p, c) in s.successors ==> c in s.handed)
    && forall p, q, c :: (p, c) in s.successors && (q, c) in s.successors ==> p == q
  }

  /** A token in a client's hands that still works. */
  ghost predicate LiveToken(s: State, id: int) { id in s.handed && id in s.rows && !s.rows[id].revoked }

  ghost predicate OneLive(s: State) {
    && s.handed <= s.rows.Keys
    && forall i, j :: LiveToken(s, i) && LiveToken(s, j) && s.rows[i].family == s.rows[j].family ==> i == j
  }

  ghost predicate FromCheck(s: State, signIn: SignIn) {
    signIn.checkedAt <= signIn.stampedAt <= s.now && (signIn.user, signIn.checkedAt) in s.checks
  }

  ghost predicate Continues(t: Token, signIns: map<int, SignIn>) {
    t.family in signIns && signIns[t.family].user == t.user && signIns[t.family].stampedAt == t.authTime
  }

  /** What the access token of a sign-in, and of every refresh after it, claims. */
  function ClaimOf(signIn: SignIn): Claim { Claim(signIn.user, signIn.stampedAt / 1000) }

  ghost predicate Repeats(c: Claim, signIns: map<int, SignIn>) {
    exists f :: f in signIns && signIns[f].user == c.user && signIns[f].stampedAt / 1000 == c.authSeconds
  }

  /** Every row continues the sign-in that began its family; every claim repeats one. */
  ghost predicate Traced(s: State) {
    && (forall id :: id in s.rows ==> Continues(s.rows[id], s.signIns))
    && (forall f :: f in s.signIns ==> FromCheck(s, s.signIns[f]) && ClaimOf(s.signIns[f]) in s.claims)
    && (forall c :: c in s.claims ==> Repeats(c, s.signIns))
    && forall o :: o in s.ops ==>
         match s.ops[o]
         case Verified(user, checkedAt, _) => checkedAt <= s.now && (user, checkedAt) in s.checks
         case Stamped(user, checkedAt, authTime) => FromCheck(s, SignIn(user, checkedAt, authTime))
         case _ => true
  }

  ghost predicate Inv(s: State) {
    OneLive(s) && ChildrenPrivate(s) && RefreshesHold(s) && NoStrays(s) && SuccessorsRecorded(s) && Traced(s)
  }

  /** No step strays that keeps every child it does not revoke or hand out with its operation. */
  lemma StraysKept(s: State, t: State)
    requires NoStrays(s)
    requires forall id :: Stray(t, id) ==> Stray(s, id) || InFlight(t, id)
    requires forall o :: o in s.ops && ChildOf(s.ops[o]).Some? && Stray(t, ChildOf(s.ops[o]).value) ==>
      o in t.ops && ChildOf(t.ops[o]) == ChildOf(s.ops[o])
    ensures NoStrays(t)
  {
    forall id | Stray(t, id) ensures InFlight(t, id) {
      if Stray(s, id) {
        assert InFlight(s, id);
        var o :| o in s.ops && ChildOf(s.ops[o]) == Some(id);
        assert o in t.ops && ChildOf(t.ops[o]) == Some(id);
      }
    }
  }

  lemma ReadKeeps(s: State, op: int, token: int)
    requires Inv(s)
    ensures Inv(RefreshRead(s, op, token))
  {
    StraysKept(s, RefreshRead(s, op, token));
  }

  lemma LogoutReadKeeps(s: State, op: int, token: int)
    requires Inv(s)
    ensures Inv(LogoutRead(s, op, token))
  {
    StraysKept(s, LogoutRead(s, op, token));
  }

  lemma ReplayKeeps(s: State, op: int)
    requires Inv(s)
    ensures Inv(RefreshReplay(s, op))
  {
    StraysKept(s, RefreshReplay(s, op));
  }

  lemma CheckUserKeeps(s: State, op: int, active: bool)
    requires Inv(s)
    ensures Inv(RefreshCheckUser(s, op, active))
  {
    StraysKept(s, RefreshCheckUser(s, op, active));
  }

  lemma IssueKeeps(s: State, op: int, child: int)
    requires Inv(s)
    ensures Inv(RefreshIssue(s, op, child))
  {
    var t := RefreshIssue(s, op, child);
    if op in s.ops && s.ops[op].Checked? && child !in s.rows {
      assert op in t.ops && ChildOf(t.ops[op]) == Some(child);
    }
    StraysKept(s, t);
  }

  lemma RotateKeepsTokens(s: State, op: int)
    requires Inv(s)
    ensures OneLive(RefreshRotate(s, op)) && SuccessorsRecorded(RefreshRotate(s, op))
  {
    if op in s.ops && s.ops[op].Issued? { assert Holds(s, s.ops[op].parent, s.ops[op].stored); }
  }

  lemma RotateKeepsOps(s: State, op: int)
    requires Inv(s)
    ensures ChildrenPrivate(RefreshRotate(s, op)) && RefreshesHold(RefreshRotate(s, op))
  {
  }

  lemma RotateKeepsStrays(s: State, op: int)
    requires Inv(s)
    ensures NoStrays(RefreshRotate(s, op))
  {
    StraysKept(s, RefreshRotate(s, op));
  }

  lemma RotateKeepsOrigins(s: State, op: int)
    requires Inv(s)
    ensures Traced(RefreshRotate(s, op))
  {
    if op in s.ops && s.ops[op].Issued? {
      var parent, stored := s.ops[op].parent, s.ops[op].stored;
      assert Holds(s, parent, stored) && Continues(s.rows[parent], s.signIns);
      assert Repeats(Claim(stored.user, stored.authTime / 1000), s.signIns);
    }
  }

  lemma RotateKeeps(s: State, op: int)
    requires Inv(s)
    ensures Inv(RefreshRotate(s, op))
  {
    RotateKeepsTokens(s, op);
    RotateKeepsOps(s, op);
    RotateKeepsStrays(s, op);
    RotateKeepsOrigins(s, op);
  }

  lemma RepeatsKept(c: Claim, signIns: map<int, SignIn>, family: int, signIn: SignIn)
    requires Repeats(c, signIns) && family !in signIns
    ensures Repeats(c, signIns[family := signIn])
  {
    var f :| f in signIns && signIns[f].user == c.user && signIns[f].stampedAt / 1000 == c.authSeconds;
    assert signIns[family := signIn][f] == signIns[f];
  }

  /** An operation that ends by revoking one row: its own child, or the one logged out. */
  function RevokeAndEnd(s: State, op: int, id: int): State
    requires id in s.rows
  {
    s.(rows := s.rows[id := Revoked(s.rows[id])], ops := Without(s.ops, op))
  }

  lemma RevokeAndEndKeepsTable(s: State, op: int, id: int)
    requires Inv(s) && id in s.rows
    ensures OneLive(RevokeAndEnd(s, op, id)) && SuccessorsRecorded(RevokeAndEnd(s, op, id))
    ensures ChildrenPrivate(RevokeAndEnd(s, op, id)) && RefreshesHold(RevokeAndEnd(s, op, id))
  {
  }

  lemma RevokeAndEndKeeps(s: State, op: int, id: int)
    requires Inv(s) && id in s.rows && op in s.ops && (ChildOf(s.ops[op]).None? || ChildOf(s.ops[op]) == Some(id))
    ensures Inv(RevokeAndEnd(s, op, id))
  {
    RevokeAndEndKeepsTable(s, op, id);
    StraysKept(s, RevokeAndEnd(s, op, id));
  }

  lemma DiscardKeeps(s: State, op: int)
    requires Inv(s)
    ensures Inv(RefreshDiscard(s, op))
  {
    if op in s.ops && s.ops[op].Losing? { RevokeAndEndKeeps(s, op, s.ops[op].child); }
  }

  lemma LogoutKeeps(s: State, op: int)
    requires Inv(s)
    ensures Inv(LogoutRevoke(s, op))
  {
    if op in s.ops && s.ops[op].LoggingOut? { RevokeAndEndKeeps(s, op, s.ops[op].token); }
  }

  lemma UserReadKeeps(s: State, op: int, user: int, endsSessions: bool)
    requires Inv(s)
    ensures Inv(UserRead(s, op, user, endsSessions))
  {
    StraysKept(s, UserRead(s, op, user, endsSessions));
  }

  lemma PasswordKeeps(s: State, op: int, valid: bool)
    requires Inv(s)
    ensures Inv(PasswordCheck(s, op, valid))
  {
    StraysKept(s, PasswordCheck(s, op, valid));
  }

  /** A sign-in that moves on without touching the table. */
  lemma SignInProgressKeeps(s: State, op: int, next: Op)
    requires Inv(s) && op in s.ops && s.ops[op].Verified?
    requires next == Verified(s.ops[op].user, s.ops[op].checkedAt, false)
      || next == Stamped(s.ops[op].user, s.ops[op].checkedAt, s.now)
    ensures Inv(s.(ops := s.ops[op := next]))
  {
    StraysKept(s, s.(ops := s.ops[op := next]));
  }

  lemma StampKeeps(s: State, op: int)
    requires Inv(s)
    ensures Inv(Stamp(s, op))
  {
    if op in s.ops && s.ops[op].Verified? && !s.ops[op].endsSessions {
      SignInProgressKeeps(s, op, Stamped(s.ops[op].user, s.ops[op].checkedAt, s.now));
    }
  }

  lemma EndSessionsKeeps(s: State, op: int)
    requires Inv(s)
    ensures Inv(EndSessions(s, op))
  {
    if op in s.ops && s.ops[op].Verified? && s.ops[op].endsSessions {
      var user, checkedAt := s.ops[op].user, s.ops[op].checkedAt;
      ResetKeeps(s, user);
      SignInProgressKeeps(ResetSessions(s, user), op, Verified(user, checkedAt, false));
    }
  }

  lemma ResetKeeps(s: State, user: int)
    requires Inv(s)
    ensures Inv(ResetSessions(s, user))
  {
    StraysKept(s, ResetSessions(s, user));
  }

  lemma SignInKeepsTokens(s: State, op: int, id: int, family: int)
    requires Inv(s)
    ensures OneLive(SignInIssue(s, op, id, family)) && SuccessorsRecorded(SignInIssue(s, op, id, family))
  {
  }

  lemma SignInKeepsOps(s: State, op: int, id: int, family: int)
    requires Inv(s)
    ensures ChildrenPrivate(SignInIssue(s, op, id, family)) && RefreshesHold(SignInIssue(s, op, id, family))
  {
  }

  lemma SignInKeepsStrays(s: State, op: int, id: int, family: int)
    requires Inv(s)
    ensures NoStrays(SignInIssue(s, op, id, family))
  {
    StraysKept(s, SignInIssue(s, op, id, family));
  }

  lemma SignInKeepsOrigins(s: State, op: int, id: int, family: int)
    requires Inv(s)
    ensures Traced(SignInIssue(s, op, id, family))
  {
    if op in s.ops && s.ops[op].Stamped? && id !in s.rows && FamilyUnused(s, family) {
      var t := SignInIssue(s, op, id, family);
      var signIn := SignIn(s.ops[op].user, s.ops[op].checkedAt, s.ops[op].authTime);
      assert t.signIns[family] == signIn;
      forall c | c in s.claims ensures Repeats(c, t.signIns) { RepeatsKept(c, s.signIns, family, signIn); }
      assert Repeats(ClaimOf(signIn), t.signIns);
    }
  }

  lemma SignInKeeps(s: State, op: int, id: int, family: int)
    requires Inv(s)
    ensures Inv(SignInIssue(s, op, id, family))
  {
    SignInKeepsTokens(s, op, id, family);
    SignInKeepsOps(s, op, id, family);
    SignInKeepsOrigins(s, op, id, family);
    SignInKeepsStrays(s, op, id, family);
  }

  lemma TickKeeps(s: State, ms: nat)
    requires Inv(s)
    ensures Inv(Tick(s, ms))
  {
    StraysKept(s, Tick(s, ms));
  }

  /** The steps of a refresh. */
  predicate OfRefresh(step: Step) {
    step.DoRefreshRead? || step.DoRefreshReplay? || step.DoRefreshCheckUser? || step.DoRefreshIssue?
    || step.DoRefreshRotate? || step.DoRefreshDiscard?
  }

  lemma RefreshStepKeepsInv(s: State, step: Step)
    requires Inv(s) && OfRefresh(step)
    ensures Inv(Apply(s, step))
  {
    match step
    case DoRefreshRead(op, token) => ReadKeeps(s, op, token);
    case DoRefreshReplay(op) => ReplayKeeps(s, op);
    case DoRefreshCheckUser(op, active) => CheckUserKeeps(s, op, active);
    case DoRefreshIssue(op, child) => IssueKeeps(s, op, child);
    case DoRefreshRotate(op) => RotateKeeps(s, op);
    case DoRefreshDiscard(op) => DiscardKeeps(s, op);
  }

  lemma OtherStepKeepsInv(s: State, step: Step)
    requires Inv(s) && !OfRefresh(step)
    ensures Inv(Apply(s, step))
  {
    match step
    case DoLogoutRead(op, token) => LogoutReadKeeps(s, op, token);
    case DoLogoutRevoke(op) => LogoutKeeps(s, op);
    case DoUserRead(op, user, endsSessions) => UserReadKeeps(s, op, user, endsSessions);
    case DoPasswordCheck(op, valid) => PasswordKeeps(s, op, valid);
    case DoEndSessions(op) => EndSessionsKeeps(s, op);
    case DoStamp(op) => StampKeeps(s, op);
    case DoSignInIssue(op, id, family) => SignInKeeps(s, op, id, family);
    case DoResetSessions(user) => ResetKeeps(s, user);
    case DoTick(ms) => TickKeeps(s, ms);
  }

  lemma StepKeepsInv(s: State, step: Step)
    requires Inv(s)
    ensures Inv(Apply(s, step))
  {
    if OfRefresh(step) { RefreshStepKeepsInv(s, step); } else { OtherStepKeepsInv(s, step); }
  }

  /** The race argument as an invariant of every interleaving. */
  lemma {:induction false} EveryRunKeepsInv(s: State, steps: seq<Step>)
    requires Inv(s)
    ensures Inv(Run(s, steps))
    decreases |steps|
  {
    if steps != [] {
      StepKeepsInv(s, steps[0]);
      EveryRunKeepsInv(Apply(s, steps[0]), steps[1..]);
    }
  }

  lemma Reachable(steps: seq<Step>)
    ensures Inv(Run(EMPTY, steps))
  {
    EveryRunKeepsInv(EMPTY, steps);
  }

  // --- What holds in every interleaving -----------------------------------------------------------------

  /** No operation still has a child of its own in the table. */
  ghost predicate Quiet(s: State) { forall o :: o in s.ops ==> ChildOf(s.ops[o]).None? }

  /** A token gets at most one successor that ever leaves the server, and no two tokens share one. */
  lemma AtMostOneSuccessor(steps: seq<Step>, p: int, q: int, c: int, d: int)
    ensures (p, c) in Run(EMPTY, steps).successors && (p, d) in Run(EMPTY, steps).successors ==> c == d
    ensures (p, c) in Run(EMPTY, steps).successors && (q, c) in Run(EMPTY, steps).successors ==> p == q
  {
    Reachable(steps);
  }

  /** Of all the tokens of a family that were ever handed out, at most one still works. */
  lemma AtMostOneLivePerFamily(steps: seq<Step>, i: int, j: int)
    ensures var s := Run(EMPTY, steps);
      LiveToken(s, i) && LiveToken(s, j) && s.rows[i].family == s.rows[j].family ==> i == j
  {
    Reachable(steps);
  }

  /** Once no refresh holds a child, every token that was not handed out is revoked. */
  lemma LosersEndRevoked(steps: seq<Step>, id: int)
    requires Quiet(Run(EMPTY, steps)) && id in Run(EMPTY, steps).rows && id !in Run(EMPTY, steps).handed
    ensures Run(EMPTY, steps).rows[id].revoked
  {
    Reachable(steps);
    var s := Run(EMPTY, steps);
    assert !InFlight(s, id);
    assert !Stray(s, id);
  }

  /** All tokens of a family belong to one user and one password check. */
  lemma FamilySharesLogin(steps: seq<Step>, i: int, j: int)
    requires i in Run(EMPTY, steps).rows && j in Run(EMPTY, steps).rows
    requires Run(EMPTY, steps).rows[i].family == Run(EMPTY, steps).rows[j].family
    ensures SameLogin(Run(EMPTY, steps).rows[i], Run(EMPTY, steps).rows[j])
  {
    Reachable(steps);
    var s := Run(EMPTY, steps);
    assert Continues(s.rows[i], s.signIns) && Continues(s.rows[j], s.signIns);
  }

  /** The guarded update hands out the successor exactly when the parent was still live. */
  lemma GuardDecides(s: State, op: int)
    requires Inv(s) && op in s.ops && s.ops[op].Issued?
    ensures var t, parent, child := RefreshRotate(s, op), s.ops[op].parent, s.ops[op].child;
      && (child in t.handed <==> LiveToken(s, parent))
      && ((parent, child) in t.successors <==> LiveToken(s, parent))
      && t.rows[parent].revoked
      && (!LiveToken(s, parent) ==>
        op in t.ops && t.ops[op] == Losing(child) && RefreshDiscard(t, op).rows[child].revoked)
  {
    assert Holds(s, s.ops[op].parent, s.ops[op].stored);
  }

  lemma FourSteps(s: State, a: Step, b: Step, c: Step, d: Step)
    ensures Run(s, [a, b, c, d]) == Apply(Apply(Apply(Apply(s, a), b), c), d)
  {
    assert [a, b, c, d][1..] == [b, c, d] && [b, c, d][1..] == [c, d] && [c, d][1..] == [d];
    assert Run(Apply(Apply(Apply(s, a), b), c), [d]) == Apply(Apply(Apply(Apply(s, a), b), c), d);
    assert Run(Apply(Apply(s, a), b), [c, d]) == Apply(Apply(Apply(Apply(s, a), b), c), d);
    assert Run(Apply(s, a), [b, c, d]) == Apply(Apply(Apply(Apply(s, a), b), c), d);
  }

  /** Undisturbed, a refresh of a live token always ends with one live token of the same login. */
  lemma UndisturbedRefreshWorks(s: State, op: int, token: int, child: int)
    requires Inv(s) && LiveToken(s, token) && op !in s.ops && child !in s.rows
    ensures var t :=
      Run(s, [DoRefreshRead(op, token), DoRefreshCheckUser(op, true), DoRefreshIssue(op, child), DoRefreshRotate(op)]);
      && t.ops == s.ops && !LiveToken(t, token) && LiveToken(t, child) && (token, child) in t.successors
      && SameLogin(t.rows[child], s.rows[token])
  {
    var a := RefreshRead(s, op, token);
    assert s.rows[token].replacedBy.None?;
    var b := RefreshCheckUser(a, op, true);
    var c := RefreshIssue(b, op, child);
    var d := RefreshRotate(c, op);
    FourSteps(s, DoRefreshRead(op, token), DoRefreshCheckUser(op, true), DoRefreshIssue(op, child),
      DoRefreshRotate(op));
    assert d.ops == s.ops;
  }

  // --- Revoked families stay dead ------------------------------------------------------------------------

  /** No token of the family that was handed out works any more. */
  ghost predicate Dead(s: State, family: int) {
    family in s.signIns && forall id :: LiveToken(s, id) ==> s.rows[id].family != family
  }

  lemma StepKeepsDead(s: State, step: Step, family: int)
    requires Inv(s) && Dead(s, family)
    ensures Dead(Apply(s, step), family)
  {
    if step.DoRefreshRotate? && step.op in s.ops && s.ops[step.op].Issued? {
      assert Holds(s, s.ops[step.op].parent, s.ops[step.op].stored);
    }
  }

  lemma {:induction false} RunKeepsDead(s: State, steps: seq<Step>, family: int)
    requires Inv(s) && Dead(s, family)
    ensures Inv(Run(s, steps)) && Dead(Run(s, steps), family)
    decreases |steps|
  {
    if steps != [] {
      StepKeepsInv(s, steps[0]);
      StepKeepsDead(s, steps[0], family);
      RunKeepsDead(Apply(s, steps[0]), steps[1..], family);
    }
  }

  /** The step revokes the whole family: replay detection, or a user-wide revocation. */
  ghost predicate Kills(s: State, step: Step, family: int) {
    family in s.signIns &&
    match step
    case DoRefreshReplay(op) => op in s.ops && s.ops[op] == Replaying(family)
    case DoEndSessions(op) =>
      op in s.ops && s.ops[op].Verified? && s.ops[op].endsSessions && s.ops[op].user == s.signIns[family].user
    case DoResetSessions(user) => user == s.signIns[family].user
    case _ => false
  }

  lemma KillingStep(s: State, step: Step, family: int)
    requires Inv(s) && Kills(s, step, family)
    ensures Dead(Apply(s, step), family)
    ensures forall id :: id in s.rows && s.rows[id].family == family ==> Apply(s, step).rows[id].revoked
  {
    forall id | id in s.rows && s.rows[id].family == family ensures Apply(s, step).rows[id].revoked {
      assert Continues(s.rows[id], s.signIns);
    }
  }

  /** Once a family is revoked, by replay detection or with all of its user's sessions, no
      refresh in flight at any step and nothing that happens later leaves one of its tokens
      live in a client's hands; and when no refresh is in flight none is live at all. */
  lemma RevokedFamilyStaysDead(before: seq<Step>, step: Step, after: seq<Step>, family: int)
    requires Kills(Run(EMPTY, before), step, family)
    ensures var s := Run(Apply(Run(EMPTY, before), step), after);
      && Dead(s, family)
      && (Quiet(s) ==> forall id :: id in s.rows && s.rows[id].family == family ==> s.rows[id].revoked)
  {
    var start := Run(EMPTY, before);
    Reachable(before);
    KillingStep(start, step, family);
    StepKeepsInv(start, step);
    RunKeepsDead(Apply(start, step), after, family);
    var s := Run(Apply(start, step), after);
    if Quiet(s) {
      forall id | id in s.rows && s.rows[id].family == family ensures s.rows[id].revoked {
        assert !InFlight(s, id);
        assert !Stray(s, id) && !LiveToken(s, id);
      }
    }
  }

  /** Presenting a token that was rotated or revoked leads to the replay branch, whose update
      revokes its family. */
  lemma UsedTokenIsReplay(s: State, op: int, token: int)
    requires Inv(s) && op !in s.ops && token in s.handed && !LiveToken(s, token)
    ensures Kills(RefreshRead(s, op, token), DoRefreshReplay(op), s.rows[token].family)
    ensures Dead(RefreshReplay(RefreshRead(s, op, token), op), s.rows[token].family)
  {
    ReadKeeps(s, op, token);
    assert Continues(s.rows[token], s.signIns);
    KillingStep(RefreshRead(s, op, token), DoRefreshReplay(op), s.rows[token].family);
  }

  lemma {:induction false} RevokedForever(s: State, steps: seq<Step>, id: int)
    requires id in s.rows && s.rows[id].revoked
    ensures id in Run(s, steps).rows && Run(s, steps).rows[id].revoked
    decreases |steps|
  {
    if steps != [] { RevokedForever(Apply(s, steps[0]), steps[1..], id); }
  }

  /** A token that was logged out never works again, whatever was in flight. */
  lemma LoggedOutForGood(before: seq<Step>, op: int, after: seq<Step>, token: int)
    requires op in Run(EMPTY, before).ops && Run(EMPTY, before).ops[op] == LoggingOut(token)
    ensures !LiveToken(Run(LogoutRevoke(Run(EMPTY, before), op), after), token)
  {
    var s := Run(EMPTY, before);
    Reachable(before);
    RevokedForever(LogoutRevoke(s, op), after, token);
  }

  // --- Fresh authentication --------------------------------------------------------------------------------

  /** `requireFreshAuth`, backend/src/middleware/step-up.middleware.ts; a token minted before
      the claim existed counts as never. */
  predicate RequireFreshAuth(authSeconds: Option<int>, now: int, maxAgeSeconds: int) {
    var authTime := match authSeconds case Some(t) => t case None => 0;
    authTime != 0 && !(now / 1000 - authTime > maxAgeSeconds)
  }

  /** Exactly when the gate lets a request through: it carries a time other than zero that is, in whole
      seconds, no more than the limit ago. A claim with no time never passes. */
  lemma GateMeans(authSeconds: Option<int>, now: int, maxAgeSeconds: int)
    ensures RequireFreshAuth(authSeconds, now, maxAgeSeconds) <==>
      authSeconds.Some? && authSeconds.value != 0 && now < (authSeconds.value + maxAgeSeconds + 1) * 1000
  {
    assert now == 1000 * (now / 1000) + now % 1000;
  }

  lemma FreshSeconds(stampedAt: int, now: int, maxAgeSeconds: int)
    requires now / 1000 - stampedAt / 1000 <= maxAgeSeconds
    ensures now - stampedAt < (maxAgeSeconds + 1) * 1000
  {
    assert now == 1000 * (now / 1000) + now % 1000;
    assert stampedAt == 1000 * (stampedAt / 1000) + stampedAt % 1000;
  }

  /** A sign-in behind a claim: the password was right at `checkedAt`, and was stamped later. */
  ghost predicate Behind(s: State, c: Claim, signIn: SignIn) {
    && signIn.user == c.user && signIn.stampedAt / 1000 == c.authSeconds
    && signIn.checkedAt <= signIn.stampedAt <= s.now && (c.user, signIn.checkedAt) in s.checks
  }

  /** However many refreshes lie between, a request that passes the gate rests on a password
      check of that very user, stamped less than maxAge + 1 seconds ago; the check itself is
      that recent too when it was stamped in the second it was made. */
  lemma FreshAuthRestsOnCheck(steps: seq<Step>, c: Claim, maxAgeSeconds: int) returns (signIn: SignIn)
    requires c in Run(EMPTY, steps).claims
    requires RequireFreshAuth(Some(c.authSeconds), Run(EMPTY, steps).now, maxAgeSeconds)
    ensures Behind(Run(EMPTY, steps), c, signIn)
    ensures Run(EMPTY, steps).now - signIn.stampedAt < (maxAgeSeconds + 1) * 1000
    ensures signIn.checkedAt / 1000 == signIn.stampedAt / 1000 ==>
      Run(EMPTY, steps).now - signIn.checkedAt < (maxAgeSeconds + 1) * 1000
  {
    Reachable(steps);
    var s := Run(EMPTY, steps);
    assert Repeats(c, s.signIns);
    var f :| f in s.signIns && s.signIns[f].user == c.user && s.signIns[f].stampedAt / 1000 == c.authSeconds;
    assert FromCheck(s, s.signIns[f]);
    signIn := s.signIns[f];
    FreshSeconds(signIn.stampedAt, s.now, maxAgeSeconds);
    if signIn.checkedAt / 1000 == signIn.stampedAt / 1000 { FreshSeconds(signIn.checkedAt, s.now, maxAgeSeconds); }
  }

  /** Whether a request with the claim of this sign-in passes `ms` milliseconds from now. */
  predicate PassesAfter(s: State, signIn: SignIn, ms: nat, maxAgeSeconds: int) {
    RequireFreshAuth(Some(ClaimOf(signIn).authSeconds), Tick(s, ms).now, maxAgeSeconds)
  }

  /** ... and whether the password was checked less than maxAge + 1 seconds before that. */
  predicate CheckedWithin(s: State, signIn: SignIn, ms: nat, maxAgeSeconds: int) {
    Tick(s, ms).now - signIn.checkedAt < (maxAgeSeconds + 1) * 1000
  }

  /** In every reachable state, for every sign-in whose claim still passes: from here on each
      passing request comes less than maxAge + 1 seconds after the password check itself exactly
      when the check and its stamp fall in the same second. */
  lemma FreshCheckExactlyWhen(steps: seq<Step>, family: int, maxAgeSeconds: int)
    requires family in Run(EMPTY, steps).signIns
    requires PassesAfter(Run(EMPTY, steps), Run(EMPTY, steps).signIns[family], 0, maxAgeSeconds)
    ensures var s, signIn := Run(EMPTY, steps), Run(EMPTY, steps).signIns[family];
      && ClaimOf(signIn) in s.claims && Behind(s, ClaimOf(signIn), signIn)
      && (signIn.checkedAt / 1000 == signIn.stampedAt / 1000 <==>
          forall ms: nat :: PassesAfter(s, signIn, ms, maxAgeSeconds) ==> CheckedWithin(s, signIn, ms, maxAgeSeconds))
  {
    Reachable(steps);
    var s := Run(EMPTY, steps);
    var signIn := s.signIns[family];
    assert FromCheck(s, signIn);
    if signIn.checkedAt / 1000 == signIn.stampedAt / 1000 {
      forall ms: nat | PassesAfter(s, signIn, ms, maxAgeSeconds) ensures CheckedWithin(s, signIn, ms, maxAgeSeconds) {
        FreshSeconds(signIn.checkedAt, s.now + ms, maxAgeSeconds);
      }
    } else {
      EarlierSecond(signIn.checkedAt, signIn.stampedAt);
      LastPassing(signIn.stampedAt, s.now, maxAgeSeconds);
      var last := LastMoment(signIn.stampedAt, maxAgeSeconds);
      assert PassesAfter(s, signIn, last - s.now, maxAgeSeconds);
      assert !CheckedWithin(s, signIn, last - s.now, maxAgeSeconds);
    }
  }

  lemma EarlierSecond(checkedAt: int, stampedAt: int)
    requires checkedAt <= stampedAt && checkedAt / 1000 != stampedAt / 1000
    ensures checkedAt <= stampedAt / 1000 * 1000 - 1
  {
    assert checkedAt == 1000 * (checkedAt / 1000) + checkedAt % 1000;
    assert stampedAt == 1000 * (stampedAt / 1000) + stampedAt % 1000;
  }

  /** The last millisecond at which the claim still passes. */
  function LastMoment(stampedAt: int, maxAgeSeconds: int): int { (stampedAt / 1000 + maxAgeSeconds + 1) * 1000 - 1 }

  lemma LastPassing(stampedAt: int, now: int, maxAgeSeconds: int)
    requires RequireFreshAuth(Some(stampedAt / 1000), now, maxAgeSeconds)
    ensures LastMoment(stampedAt, maxAgeSeconds) >= now
    ensures RequireFreshAuth(Some(stampedAt / 1000), LastMoment(stampedAt, maxAgeSeconds), maxAgeSeconds)
  {
    var q := stampedAt / 1000;
    assert now == 1000 * (now / 1000) + now % 1000;
    assert ((q + maxAgeSeconds + 1) * 1000 - 1) / 1000 == q + maxAgeSeconds;
  }

  /** The steps of a password change whose writes take `delay` milliseconds. */
  function SlowChange(delay: nat): seq<Step> {
    [DoTick(1000), DoUserRead(1, 7, true), DoPasswordCheck(1, true), DoTick(delay)]
    + [DoEndSessions(1), DoStamp(1), DoSignInIssue(1, 10, 20)]
  }

  lemma {:induction false} RunAppend(s: State, a: seq<Step>, b: seq<Step>)
    ensures Run(s, a + b) == Run(Run(s, a), b)
    decreases |a|
  {
    if a == [] {
      assert a + b == b;
    } else {
      assert (a + b)[1..] == a[1..] + b;
      RunAppend(Apply(s, a[0]), a[1..], b);
    }
  }

  lemma ThreeSteps(s: State, a: Step, b: Step, c: Step)
    ensures Run(s, [a, b, c]) == Apply(Apply(Apply(s, a), b), c)
  {
    assert [a, b, c][1..] == [b, c] && [b, c][1..] == [c];
    assert Run(Apply(Apply(s, a), b), [c]) == Apply(Apply(Apply(s, a), b), c);
    assert Run(Apply(s, a), [b, c]) == Apply(Apply(Apply(s, a), b), c);
  }

  /** The state in which the slow change starts to write. */
  function SlowlyChecked(delay: nat): State {
    EMPTY.(ops := map[1 := Verified(7, 1000, true)], now := 1000 + delay, checks := {(7, 1000)})
  }

  lemma SlowCheck(delay: nat)
    ensures Run(EMPTY, [DoTick(1000), DoUserRead(1, 7, true), DoPasswordCheck(1, true), DoTick(delay)])
      == SlowlyChecked(delay)
  {
    FourSteps(EMPTY, DoTick(1000), DoUserRead(1, 7, true), DoPasswordCheck(1, true), DoTick(delay));
    var a := UserRead(Tick(EMPTY, 1000), 1, 7, true);
    assert a.ops == map[1 := Known(7, true)];
    var b := PasswordCheck(a, 1, true);
    assert b.ops == map[1 := Verified(7, 1000, true)] && b.checks == {(7, 1000)};
  }

  lemma SlowStamp(delay: nat)
    ensures var s := Run(SlowlyChecked(delay), [DoEndSessions(1), DoStamp(1), DoSignInIssue(1, 10, 20)]);
      && Claim(7, (1000 + delay) / 1000) in s.claims && s.now == 1000 + delay && s.checks == {(7, 1000)}
  {
    ThreeSteps(SlowlyChecked(delay), DoEndSessions(1), DoStamp(1), DoSignInIssue(1, 10, 20));
    var a := EndSessions(SlowlyChecked(delay), 1);
    assert a.ops[1] == Verified(7, 1000, false) && a.rows == map[];
    var c := Stamp(a, 1);
    assert c.ops[1] == Stamped(7, 1000, 1000 + delay);
    assert FamilyUnused(c, 20) && 10 !in c.rows;
  }

  /** Such a run: the new claim passes even with no age allowed, although the only password
      check there ever was lies `delay` milliseconds back. */
  lemma CheckMayBeOlder(delay: nat, maxAgeSeconds: nat)
    ensures var s := Run(EMPTY, SlowChange(delay));
      && Claim(7, (1000 + delay) / 1000) in s.claims
      && RequireFreshAuth(Some((1000 + delay) / 1000), s.now, maxAgeSeconds)
      && s.checks == {(7, 1000)} && s.now - 1000 == delay
  {
    RunAppend(EMPTY, [DoTick(1000), DoUserRead(1, 7, true), DoPasswordCheck(1, true), DoTick(delay)],
      [DoEndSessions(1), DoStamp(1), DoSignInIssue(1, 10, 20)]);
    SlowCheck(delay);
    SlowStamp(delay);
  }

  // --- What ending all sessions leaves behind --------------------------------------------------------------

  /** The operation is signing this user in on the strength of a user row already read. */
  predicate SigningIn(op: Op, user: int) {
    match op
    case Known(u, _) => u == user
    case Verified(u, _, _) => u == user
    case Stamped(u, _, _) => u == user
    case _ => false
  }

  /** Nothing from here on reads the user's row again to sign in, or moves the operations set aside. */
  predicate Sparing(steps: seq<Step>, user: int, aside: set<int>) {
    forall i :: 0 <= i < |steps| ==>
      match steps[i]
      case DoUserRead(_, u, _) => u != user
      case DoStamp(op) => op !in aside
      case DoSignInIssue(op, _, _) => op !in aside
      case _ => true
  }

  ghost predicate LoggedOut(s: State, user: int) { forall id :: LiveToken(s, id) ==> s.rows[id].user != user }

  ghost predicate NoOtherSignIn(s: State, user: int, aside: set<int>) {
    forall o :: o in s.ops && o !in aside ==> !SigningIn(s.ops[o], user)
  }

  lemma SparingStep(s: State, step: Step, user: int, aside: set<int>)
    requires Inv(s) && LoggedOut(s, user) && NoOtherSignIn(s, user, aside) && Sparing([step], user, aside)
    ensures LoggedOut(Apply(s, step), user) && NoOtherSignIn(Apply(s, step), user, aside)
  {
    assert step == [step][0];
    if step.DoRefreshRotate? && step.op in s.ops && s.ops[step.op].Issued? {
      assert Holds(s, s.ops[step.op].parent, s.ops[step.op].stored);
    }
  }

  lemma {:induction false} SparingRun(s: State, steps: seq<Step>, user: int, aside: set<int>)
    requires Inv(s) && LoggedOut(s, user) && NoOtherSignIn(s, user, aside) && Sparing(steps, user, aside)
    ensures LoggedOut(Run(s, steps), user)
    decreases |steps|
  {
    if steps != [] {
      StepKeepsInv(s, steps[0]);
      assert steps[0] == [steps[0]][0] && forall i :: 0 <= i < |steps[1..]| ==> steps[1..][i] == steps[i + 1];
      SparingStep(s, steps[0], user, aside);
      SparingRun(Apply(s, steps[0]), steps[1..], user, aside);
    }
  }

  lemma {:induction false} Unused(used: set<int>) returns (x: int)
    ensures forall y :: y in used ==> y < x
  {
    x := 0;
    if y :| y in used {
      var rest := used - {y};
      var m := Unused(rest);
      x := Max(m, y + 1);
      forall z | z in used ensures z < x {
        if z != y { assert z in rest; }
      }
    }
  }

  lemma AfterCheck(s: State, o: int, user: int) returns (t: State)
    requires o in s.ops && SigningIn(s.ops[o], user)
    ensures t == Apply(s, DoPasswordCheck(o, true)) && t.rows == s.rows && t.signIns == s.signIns
    ensures o in t.ops && SigningIn(t.ops[o], user) && !t.ops[o].Known?
  {
    t := PasswordCheck(s, o, true);
  }

  lemma AfterWrites(s: State, o: int, user: int) returns (t: State)
    requires o in s.ops && SigningIn(s.ops[o], user) && !s.ops[o].Known?
    ensures t == Apply(s, DoEndSessions(o)) && t.rows.Keys == s.rows.Keys && t.signIns == s.signIns
    ensures forall id :: id in t.rows ==> t.rows[id].family == s.rows[id].family
    ensures o in t.ops && SigningIn(t.ops[o], user)
    ensures t.ops[o].Stamped? || (t.ops[o].Verified? && !t.ops[o].endsSessions)
  {
    t := EndSessions(s, o);
  }

  lemma AfterStamp(s: State, o: int, user: int) returns (t: State)
    requires o in s.ops && SigningIn(s.ops[o], user)
    requires s.ops[o].Stamped? || (s.ops[o].Verified? && !s.ops[o].endsSessions)
    ensures t == Apply(s, DoStamp(o)) && t.rows == s.rows && t.signIns == s.signIns
    ensures o in t.ops && t.ops[o].Stamped? && t.ops[o].user == user
  {
    t := Stamp(s, o);
  }

  lemma FreshNames(s: State) returns (id: int, family: int)
    requires Inv(s)
    ensures id !in s.rows && FamilyUnused(s, family)
  {
    id := Unused(s.rows.Keys);
    family := Unused(s.signIns.Keys);
    assert id !in s.rows && family !in s.signIns;
    forall i | i in s.rows ensures s.rows[i].family != family { assert Continues(s.rows[i], s.signIns); }
  }

  lemma IssueLogsIn(s: State, o: int, user: int, id: int, family: int)
    requires o in s.ops && s.ops[o].Stamped? && s.ops[o].user == user && id !in s.rows && FamilyUnused(s, family)
    ensures !LoggedOut(SignInIssue(s, o, id, family), user)
  {
    var t := SignInIssue(s, o, id, family);
    assert LiveToken(t, id) && t.rows[id].user == user;
  }

  /** The steps that carry a sign-in in flight through to its token. */
  function Completion(o: int, id: int, family: int): seq<Step> {
    [DoPasswordCheck(o, true), DoEndSessions(o), DoStamp(o), DoSignInIssue(o, id, family)]
  }

  /** A sign-in in flight, its hash not yet compared or just compared, can always get its token. */
  lemma CompletionLogsIn(s: State, o: int, user: int, id: int, family: int)
    requires o in s.ops && SigningIn(s.ops[o], user) && id !in s.rows && FamilyUnused(s, family)
    ensures !LoggedOut(Run(s, Completion(o, id, family)), user)
  {
    FourSteps(s, DoPasswordCheck(o, true), DoEndSessions(o), DoStamp(o), DoSignInIssue(o, id, family));
    var a := AfterCheck(s, o, user);
    var b := AfterWrites(a, o, user);
    var c := AfterStamp(b, o, user);
    IssueLogsIn(c, o, user, id, family);
  }

  lemma CompletionSpares(o: int, id: int, family: int, user: int, aside: set<int>)
    requires o !in aside
    ensures Sparing(Completion(o, id, family), user, aside)
  {
  }

  ghost predicate StaysLoggedOut(s: State, user: int, aside: set<int>) {
    forall steps :: Sparing(steps, user, aside) ==> LoggedOut(Run(s, steps), user)
  }

  lemma OnlySignInsReturn(s: State, user: int, aside: set<int>)
    requires Inv(s) && LoggedOut(s, user)
    ensures StaysLoggedOut(s, user, aside) <==> NoOtherSignIn(s, user, aside)
  {
    if NoOtherSignIn(s, user, aside) {
      forall steps | Sparing(steps, user, aside) ensures LoggedOut(Run(s, steps), user) {
        SparingRun(s, steps, user, aside);
      }
    } else {
      var o :| o in s.ops && o !in aside && SigningIn(s.ops[o], user);
      var id, family := FreshNames(s);
      CompletionLogsIn(s, o, user, id, family);
      CompletionSpares(o, id, family, user, aside);
    }
  }

  /** After a reset or change of email, and until some sign-in reads the user row anew, the user
      gets no token exactly when no sign-in of that user was in flight with the row already
      read, whether or not it had compared the password yet. */
  lemma ResetIsFinalExactlyWhen(steps: seq<Step>, user: int)
    ensures LoggedOut(ResetSessions(Run(EMPTY, steps), user), user)
    ensures StaysLoggedOut(ResetSessions(Run(EMPTY, steps), user), user, {})
      <==> NoOtherSignIn(Run(EMPTY, steps), user, {})
  {
    Reachable(steps);
    ResetKeeps(Run(EMPTY, steps), user);
    OnlySignInsReturn(ResetSessions(Run(EMPTY, steps), user), user, {});
  }

  /** A password change likewise, its own new session set aside. */
  lemma PasswordChangeIsFinalExactlyWhen(steps: seq<Step>, op: int)
    requires op in Run(EMPTY, steps).ops && Run(EMPTY, steps).ops[op].Verified?
    requires Run(EMPTY, steps).ops[op].endsSessions
    ensures var s, user := Run(EMPTY, steps), Run(EMPTY, steps).ops[op].user;
      && LoggedOut(EndSessions(s, op), user)
      && (StaysLoggedOut(EndSessions(s, op), user, {op}) <==> NoOtherSignIn(s, user, {op}))
  {
    Reachable(steps);
    var s, user := Run(EMPTY, steps), Run(EMPTY, steps).ops[op].user;
    EndSessionsKeeps(s, op);
    OnlySignInsReturn(EndSessions(s, op), user, {op});
  }

  /** A login that has read the user row, hash included, when the password is reset. */
  function StaleLogin(user: int): State { ResetSessions(Run(EMPTY, [DoUserRead(1, user, false)]), user) }

  lemma StaleLoginIs(user: int)
    ensures StaleLogin(user) == EMPTY.(ops := map[1 := Known(user, false)])
  {
    var read := UserRead(EMPTY, 1, user, false);
    assert read.ops == map[1 := Known(user, false)];
    assert Run(EMPTY, [DoUserRead(1, user, false)]) == Run(read, []) == read;
    assert RevokeUser(read.rows, user) == map[];
  }

  /** It has compared nothing yet, still passes with the password the reset replaced, and ends
      with a live token. */
  lemma StaleHashStillSignsIn(user: int)
    ensures StaleLogin(user).ops == map[1 := Known(user, false)] && LoggedOut(StaleLogin(user), user)
    ensures !LoggedOut(Run(StaleLogin(user), [DoPasswordCheck(1, true), DoStamp(1), DoSignInIssue(1, 10, 20)]), user)
  {
    StaleLoginIs(user);
    var s := StaleLogin(user);
    ThreeSteps(s, DoPasswordCheck(1, true), DoStamp(1), DoSignInIssue(1, 10, 20));
    var b := Stamp(PasswordCheck(s, 1, true), 1);
    assert 1 in b.ops && b.ops[1] == Stamped(user, 0, 0) && b.rows == map[] && b.signIns == map[];
    IssueLogsIn(b, 1, user, 10, 20);
  }

  // --- Some caller wins ------------------------------------------------------------------------------------

  /** The step revokes this token other than by rotating it: logout, replay detection, or the
      revocation of all of the user's sessions. */
  ghost predicate Removes(s: State, step: Step, id: int) {
    id in s.rows &&
    match step
    case DoLogoutRevoke(op) => op in s.ops && s.ops[op] == LoggingOut(id)
    case DoRefreshReplay(op) => op in s.ops && s.ops[op] == Replaying(s.rows[id].family)
    case DoEndSessions(op) =>
      op in s.ops && s.ops[op].Verified? && s.ops[op].endsSessions && s.ops[op].user == s.rows[id].user
    case DoResetSessions(user) => user == s.rows[id].user
    case _ => false
  }

  ghost predicate NeverRemoved(s: State, steps: seq<Step>, id: int)
    decreases |steps|
  {
    steps == [] || (!Removes(s, steps[0], id) && NeverRemoved(Apply(s, steps[0]), steps[1..], id))
  }

  /** A handed-out token that is revoked was rotated, and a child awaiting its rotation is live. */
  ghost predicate RevokedByRotation(s: State, id: int) {
    && (id in s.handed && id in s.rows && s.rows[id].revoked ==> s.rows[id].replacedBy.Some?)
    && forall o :: o in s.ops && s.ops[o].Issued? && s.ops[o].child == id ==> id in s.rows && !s.rows[id].revoked
  }

  lemma StepKeepsRotation(s: State, step: Step, id: int)
    requires Inv(s) && RevokedByRotation(s, id) && !Removes(s, step, id)
    ensures RevokedByRotation(Apply(s, step), id)
  {
  }

  lemma {:induction false} RunKeepsRotation(s: State, steps: seq<Step>, id: int)
    requires Inv(s) && RevokedByRotation(s, id) && NeverRemoved(s, steps, id)
    ensures Inv(Run(s, steps)) && RevokedByRotation(Run(s, steps), id)
    decreases |steps|
  {
    if steps != [] {
      StepKeepsInv(s, steps[0]);
      StepKeepsRotation(s, steps[0], id);
      RunKeepsRotation(Apply(s, steps[0]), steps[1..], id);
    }
  }

  /** Exactly one caller wins: a handed-out token that stopped working with no logout, replay or
      user-wide revocation behind it has one successor, and that was handed out. */
  lemma ExactlyOneWins(steps: seq<Step>, id: int) returns (winner: int)
    requires NeverRemoved(EMPTY, steps, id) && id in Run(EMPTY, steps).handed && !LiveToken(Run(EMPTY, steps), id)
    ensures (id, winner) in Run(EMPTY, steps).successors && winner in Run(EMPTY, steps).handed
    ensures forall other :: (id, other) in Run(EMPTY, steps).successors ==> other == winner
  {
    Reachable(steps);
    RunKeepsRotation(EMPTY, steps, id);
    winner := Run(EMPTY, steps).rows[id].replacedBy.value;
  }

  // --- What one step does to a token -------------------------------------------------------------------------

  /** The step rotates this token: its refresh makes the guarded update while it still works. */
  ghost predicate Rotates(s: State, step: Step, id: int) {
    step.DoRefreshRotate? && step.op in s.ops && s.ops[step.op].Issued? && s.ops[step.op].parent == id
  }

  /** The step hands this token out: as the child of a parent that still works, or as the first of a family. */
  ghost predicate HandsOut(s: State, step: Step, id: int) {
    match step
    case DoRefreshRotate(op) =>
      op in s.ops && s.ops[op].Issued? && s.ops[op].child == id && LiveToken(s, s.ops[op].parent)
    case DoSignInIssue(op, first, family) =>
      op in s.ops && s.ops[op].Stamped? && first == id && id !in s.rows && FamilyUnused(s, family)
    case _ => false
  }

  /** A working token stops working exactly when it is rotated, logged out, its family replayed or its
      user's sessions ended; every other token goes on working. */
  lemma TokenEndsExactlyWhen(s: State, step: Step, id: int)
    requires Inv(s) && LiveToken(s, id)
    ensures LiveToken(Apply(s, step), id) <==> !Removes(s, step, id) && !Rotates(s, step, id)
  {
    if step.DoRefreshDiscard? && step.op in s.ops && s.ops[step.op].Losing? {
      assert ChildOf(s.ops[step.op]) == Some(s.ops[step.op].child);
    }
  }

  /** A token starts working exactly when a step hands it out, provided it was not revoked first. */
  lemma TokenBeginsExactlyWhen(s: State, step: Step, id: int)
    requires Inv(s) && !LiveToken(s, id)
    ensures LiveToken(Apply(s, step), id) <==>
      HandsOut(s, step, id) && (id in s.rows ==> !s.rows[id].revoked)
  {
    if step.DoRefreshRotate? && step.op in s.ops && s.ops[step.op].Issued? {
      assert Holds(s, s.ops[step.op].parent, s.ops[step.op].stored);
    }
  }
}
