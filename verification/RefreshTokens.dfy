/** Refresh-token rotation: login starts a family, each refresh replaces its token, replays revoke the family. */
module RefreshTokens {
  import opened Text

  /** A stored token. Its id is its position; presenting a token string finds the row of its hash. */
  datatype Token = Token(user: nat, family: nat, expiresAt: int, revokedAt: Option<int>, replacedBy: Option<nat>)

  datatype Store = Store(rows: seq<Token>, nextFamily: nat)

  const EMPTY := Store([], 0)

  const GRACE := 60

  function RevokeFamily(rows: seq<Token>, family: nat, now: int): seq<Token> {
    Map((t: Token) => if t.family == family && t.revokedAt.None? then t.(revokedAt := Some(now)) else t, rows)
  }

  datatype Call =
    | Login(user: nat, now: int)
    | Refresh(token: nat, now: int, active: bool)   // a token with no row is an unknown token
    | Logout(token: nat, now: int)

  predicate Live(rows: seq<Token>, i: nat) { i < |rows| && rows[i].revokedAt.None? }

  /** A revoked token presented again within the grace period after its replacement. */
  predicate InGrace(t: Token, now: int) {
    t.revokedAt.Some? && t.replacedBy.Some? && now - t.revokedAt.value <= GRACE
  }

  predicate Refused(rows: seq<Token>, token: nat, now: int) { token >= |rows| || rows[token].expiresAt < now }

  predicate Issues(s: Store, call: Call) {
    match call
    case Login(_, _) => true
    case Refresh(token, now, active) => !Refused(s.rows, token, now) && Live(s.rows, token) && active
    case Logout(_, _) => false
  }

  function Step(s: Store, call: Call, ttl: nat): Store {
    match call
    case Login(user, now) => Store(s.rows + [Token(user, s.nextFamily, now + ttl, None, None)], s.nextFamily + 1)
    case Refresh(token, now, active) =>
      if Refused(s.rows, token, now) then s
      else
        var row := s.rows[token];
        if row.revokedAt.Some? then
          if InGrace(row, now) then s else s.(rows := RevokeFamily(s.rows, row.family, now))
        else if !active then s
        else
          s.(rows := s.rows[token := row.(revokedAt := Some(now), replacedBy := Some(|s.rows|))]
             + [Token(row.user, row.family, now + ttl, None, None)])
    case Logout(token, now) =>
      if token >= |s.rows| then s else s.(rows := RevokeFamily(s.rows, s.rows[token].family, now))
  }

  function Run(s: Store, calls: seq<Call>, ttl: nat): Store {
    if calls == [] then s else Step(Run(s, calls[..|calls| - 1], ttl), calls[|calls| - 1], ttl)
  }

  // --- the service -----------------------------------------------------------

  class AuthService {
    const ttl: nat
    var rows: seq<Token>
    var nextFamily: nat

    function Contents(): Store
      reads this
    {
      Store(rows, nextFamily)
    }

    constructor (ttl: nat)
      ensures this.ttl == ttl && Contents() == EMPTY
    {
      this.ttl := ttl;
      rows, nextFamily := [], 0;
    }

    /** `_issue`: a new row, whose id is returned. */
    method Issue(user: nat, family: nat, now: int) returns (id: nat)
      modifies this`rows
      ensures id == |old(rows)| && rows == old(rows) + [Token(user, family, now + ttl, None, None)]
    {
      id := |rows|;
      rows := rows + [Token(user, family, now + ttl, None, None)];
    }

    method LoginUser(user: nat, now: int) returns (issued: nat)
      modifies this
      ensures Contents() == Step(old(Contents()), Login(user, now), ttl) && issued == |old(rows)|
    {
      var family := nextFamily;
      nextFamily := nextFamily + 1;
      issued := Issue(user, family, now);
    }

    method RefreshToken(token: nat, now: int, active: bool) returns (issued: Option<nat>)
      modifies this
      ensures Contents() == Step(old(Contents()), Refresh(token, now, active), ttl)
      ensures issued == if Issues(old(Contents()), Refresh(token, now, active)) then Some(|old(rows)|) else None
    {
      if token >= |rows| || rows[token].expiresAt < now {
        return None;
      }
      var row := rows[token];
      if row.revokedAt.Some? {
        if row.replacedBy.Some? && now - row.revokedAt.value <= GRACE {
          return None;
        }
        rows := RevokeFamily(rows, row.family, now);
        return None;
      }
      if !active {
        return None;
      }
      var id := Issue(row.user, row.family, now);
      rows := rows[token := row.(revokedAt := Some(now), replacedBy := Some(id))];
      return Some(id);
    }

    method LogoutToken(token: Option<nat>, now: int)
      modifies this
      ensures Contents() == if token.None? then old(Contents())
          else Step(old(Contents()), Logout(token.value, now), ttl)
    {
      if token.Some? && token.value < |rows| {
        rows := RevokeFamily(rows, rows[token.value].family, now);
      }
    }
  }

  // --- the chain -------------------------------------------------------------

  /** The next token of the same family at or after `from`. */
  function NextOf(rows: seq<Token>, family: nat, from: nat): (r: Option<nat>)
    requires from <= |rows|
    decreases |rows| - from
  {
    if from == |rows| then None
    else if rows[from].family == family then Some(from)
    else NextOf(rows, family, from + 1)
  }

  lemma {:induction false} NextIsNext(rows: seq<Token>, family: nat, from: nat)
    requires from <= |rows|
    ensures var r := NextOf(rows, family, from);
            && (r.Some? ==> from <= r.value < |rows| && rows[r.value].family == family)
            && forall j | from <= j < (if r.Some? then r.value else |rows|) :: rows[j].family != family
    decreases |rows| - from
  {
    if from < |rows| && rows[from].family != family { NextIsNext(rows, family, from + 1); }
  }

  /** Only families matter to what is next, and appending a token of another family changes nothing. */
  lemma {:induction false} NextFrame(rows: seq<Token>, more: seq<Token>, family: nat, from: nat)
    requires from <= |rows| <= |more|
    requires forall j | 0 <= j < |rows| :: more[j].family == rows[j].family
    ensures NextOf(more, family, from)
         == if NextOf(rows, family, from).Some? then NextOf(rows, family, from) else NextOf(more, family, |rows|)
    decreases |rows| - from
  {
    if from < |rows| { NextFrame(rows, more, family, from + 1); }
  }

  /**
   * A token points to the next token of its family, and to nothing if it is the last: so a family is
   * one chain in order of issue. Every token but the last is revoked.
   */
  ghost predicate Chained(s: Store) {
    forall i | 0 <= i < |s.rows| :: Linked(s, i)
  }

  predicate Linked(s: Store, i: nat)
    requires i < |s.rows|
  {
    && s.rows[i].replacedBy == NextOf(s.rows, s.rows[i].family, i + 1)
    && (s.rows[i].replacedBy.Some? ==> s.rows[i].revokedAt.Some?)
    && s.rows[i].family < s.nextFamily
  }

  lemma {:induction false} AppendKeepsNext(rows: seq<Token>, more: seq<Token>, i: nat)
    requires i < |rows| && |more| == |rows| + 1
    requires forall j | 0 <= j < |rows| :: more[j].family == rows[j].family
    ensures NextOf(more, rows[i].family, i + 1)
         == if NextOf(rows, rows[i].family, i + 1).Some? then NextOf(rows, rows[i].family, i + 1)
            else if more[|rows|].family == rows[i].family then Some(|rows|) else None
  {
    NextFrame(rows, more, rows[i].family, i + 1);
  }

  lemma {:induction false} RevokingKeepsNext(rows: seq<Token>, family: nat, now: int, i: nat)
    requires i < |rows|
    ensures NextOf(RevokeFamily(rows, family, now), rows[i].family, i + 1) == NextOf(rows, rows[i].family, i + 1)
  {
    NextFrame(rows, RevokeFamily(rows, family, now), rows[i].family, i + 1);
  }

  lemma {:induction false} RevokingKeepsChain(s: Store, family: nat, now: int)
    requires Chained(s)
    ensures Chained(s.(rows := RevokeFamily(s.rows, family, now)))
  {
    var after := s.(rows := RevokeFamily(s.rows, family, now));
    forall i | 0 <= i < |after.rows| ensures Linked(after, i) {
      assert Linked(s, i);
      RevokingKeepsNext(s.rows, family, now, i);
    }
  }

  /** In a chained store a live token is the last of its family. */
  lemma {:induction false} LiveIsLast(s: Store, i: nat, j: nat)
    requires Chained(s) && Live(s.rows, i) && i < j < |s.rows|
    ensures s.rows[j].family != s.rows[i].family
  {
    assert Linked(s, i);
    NextIsNext(s.rows, s.rows[i].family, i + 1);
  }

  lemma {:induction false} RotationKeepsChain(s: Store, token: nat, now: int, ttl: nat)
    requires Chained(s) && Live(s.rows, token)
    ensures Chained(Step(s, Refresh(token, now, true), ttl))
  {
    if !Refused(s.rows, token, now) {
      var after := Step(s, Refresh(token, now, true), ttl);
      forall i | 0 <= i < |after.rows| ensures Linked(after, i) {
        assert Linked(s, token);
        if i < |s.rows| {
          assert Linked(s, i);
          AppendKeepsNext(s.rows, after.rows, i);
          if s.rows[i].family == s.rows[token].family && i < token { NextIsNext(s.rows, s.rows[i].family, i + 1); }
          if i > token { LiveIsLast(s, token, i); }
        }
      }
    }
  }

  lemma {:induction false} StepKeepsChain(s: Store, call: Call, ttl: nat)
    requires Chained(s)
    ensures Chained(Step(s, call, ttl))
  {
    match call
    case Login(user, now) =>
      var after := Step(s, call, ttl);
      forall i | 0 <= i < |after.rows| ensures Linked(after, i) {
        if i < |s.rows| {
          assert Linked(s, i);
          AppendKeepsNext(s.rows, after.rows, i);
        }
      }
    case Refresh(token, now, active) =>
      if !Refused(s.rows, token, now) {
        RevokingKeepsChain(s, s.rows[token].family, now);
        if s.rows[token].revokedAt.None? { RotationKeepsChain(s, token, now, ttl); }
      }
    case Logout(token, now) =>
      if token < |s.rows| { RevokingKeepsChain(s, s.rows[token].family, now); }
  }

  /** In every run each family is one chain. */
  lemma {:induction false} RunsAreChained(calls: seq<Call>, ttl: nat)
    ensures Chained(Run(EMPTY, calls, ttl))
  {
    if calls != [] {
      RunsAreChained(calls[..|calls| - 1], ttl);
      StepKeepsChain(Run(EMPTY, calls[..|calls| - 1], ttl), calls[|calls| - 1], ttl);
    }
  }

  /**
   * A login starts a family of its own: the token issued is live, no earlier token is of its family,
   * and every earlier token is left as it was.
   */
  lemma {:induction false} LoginStartsFamily(calls: seq<Call>, ttl: nat, user: nat, now: int)
    ensures var s := Run(EMPTY, calls, ttl);
            var after := Step(s, Login(user, now), ttl).rows;
            && Live(after, |s.rows|) && after[|s.rows|].user == user && after[|s.rows|].expiresAt == now + ttl
            && after[..|s.rows|] == s.rows
            && forall i | 0 <= i < |s.rows| :: s.rows[i].family != after[|s.rows|].family
  {
    var s := Run(EMPTY, calls, ttl);
    RunsAreChained(calls, ttl);
    forall i | 0 <= i < |s.rows| ensures s.rows[i].family < s.nextFamily {
      assert Linked(s, i);
    }
  }

  /** A family has at most one live token, and it is the latest issued. */
  lemma {:induction false} AtMostOneLive(calls: seq<Call>, ttl: nat, i: nat, j: nat)
    requires var rows := Run(EMPTY, calls, ttl).rows;
             Live(rows, i) && j < |rows| && j != i && rows[j].family == rows[i].family
    ensures var rows := Run(EMPTY, calls, ttl).rows; !Live(rows, j) && j < i
  {
    var s := Run(EMPTY, calls, ttl);
    RunsAreChained(calls, ttl);
    if j > i { LiveIsLast(s, i, j); }
    if Live(s.rows, j) { LiveIsLast(s, j, i); }
  }

  lemma {:induction false} UniquePredecessor(s: Store, j: nat, i: nat, k: nat)
    requires Chained(s) && i < |s.rows| && k < |s.rows| && s.rows[i].replacedBy == Some(j)
        && s.rows[k].replacedBy == Some(j)
    ensures i == k && i < j < |s.rows| && s.rows[i].family == s.rows[j].family
  {
    assert Linked(s, i) && Linked(s, k);
    NextIsNext(s.rows, s.rows[i].family, i + 1);
    NextIsNext(s.rows, s.rows[k].family, k + 1);
  }

  lemma {:induction false} Predecessor(s: Store, first: nat, j: nat) returns (i: nat)
    requires Chained(s) && first < j < |s.rows| && s.rows[first].family == s.rows[j].family
    ensures i < j && s.rows[i].replacedBy == Some(j)
    decreases j - first
  {
    var next := NextOf(s.rows, s.rows[first].family, first + 1);
    NextIsNext(s.rows, s.rows[first].family, first + 1);
    assert Linked(s, first);
    if next == Some(j) {
      i := first;
    } else {
      i := Predecessor(s, next.value, j);
    }
  }

  /** Links run forward only, from one token to one token: every token but a family's first replaces exactly one. */
  lemma {:induction false} EveryTokenReplacesOne(calls: seq<Call>, ttl: nat, first: nat, j: nat) returns (i: nat)
    requires var rows := Run(EMPTY, calls, ttl).rows; first < j < |rows| && rows[first].family == rows[j].family
    ensures var rows := Run(EMPTY, calls, ttl).rows;
            && i < j && rows[i].replacedBy == Some(j) && rows[i].family == rows[j].family
            && forall k | 0 <= k < |rows| && rows[k].replacedBy == Some(j) :: k == i
  {
    var s := Run(EMPTY, calls, ttl);
    RunsAreChained(calls, ttl);
    i := Predecessor(s, first, j);
    forall k | 0 <= k < |s.rows| && s.rows[k].replacedBy == Some(j) ensures k == i {
      UniquePredecessor(s, j, i, k);
    }
    UniquePredecessor(s, j, i, i);
  }

  // --- what calls change -----------------------------------------------------

  /** Tokens are only added; a revocation time and a link are written once and never change. */
  lemma {:induction false} RevokedOnce(s: Store, call: Call, ttl: nat, i: nat)
    requires Chained(s) && i < |s.rows|
    ensures var after := Step(s, call, ttl).rows;
            && |s.rows| <= |after| && after[i].user == s.rows[i].user && after[i].family == s.rows[i].family
            && after[i].expiresAt == s.rows[i].expiresAt
            && (s.rows[i].revokedAt.Some? || s.rows[i].replacedBy.Some? ==> after[i] == s.rows[i])
  {
    assert Linked(s, i);
  }

  ghost predicate Dead(rows: seq<Token>, family: nat) {
    forall i | 0 <= i < |rows| && rows[i].family == family :: rows[i].revokedAt.Some?
  }

  /**
   * A refresh succeeds exactly for a known, unexpired, live token of an active user; its successor
   * is then the family's one live token.
   */
  lemma {:induction false} RefreshSucceedsIff(calls: seq<Call>, ttl: nat, token: nat, now: int, active: bool)
    ensures var s := Run(EMPTY, calls, ttl);
            var after := Step(s, Refresh(token, now, active), ttl).rows;
            if token < |s.rows| && s.rows[token].expiresAt >= now && Live(s.rows, token) && active then
              && |after| == |s.rows| + 1 && after[token].replacedBy == Some(|s.rows|)
                  && after[token].revokedAt == Some(now)
              && after[|s.rows|] == Token(s.rows[token].user, s.rows[token].family, now + ttl, None, None)
              && forall j | 0 <= j < |s.rows| && s.rows[j].family == s.rows[token].family :: !Live(after, j)
            else |after| == |s.rows|
  {
    var s := Run(EMPTY, calls, ttl);
    RunsAreChained(calls, ttl);
    if token < |s.rows| && s.rows[token].expiresAt >= now && Live(s.rows, token) && active {
      forall j | 0 <= j < |s.rows| && s.rows[j].family == s.rows[token].family && j != token ensures !Live(s.rows, j) {
        AtMostOneLive(calls, ttl, token, j);
      }
    }
  }

  /** Replaying a rotated token: within the grace period nothing changes; later its whole family is dead. */
  lemma {:induction false} ReplayOfRotated(s: Store, token: nat, now: int, active: bool, ttl: nat)
    requires token < |s.rows| && s.rows[token].revokedAt.Some? && s.rows[token].replacedBy.Some?
        && s.rows[token].expiresAt >= now
    ensures now - s.rows[token].revokedAt.value <= GRACE ==> Step(s, Refresh(token, now, active), ttl) == s
    ensures now - s.rows[token].revokedAt.value > GRACE
        ==> Dead(Step(s, Refresh(token, now, active), ttl).rows, s.rows[token].family)
  {
  }

  /** Logging out, like the replay of a token revoked without a successor, leaves no live token in the family. */
  lemma {:induction false} RevocationKillsFamily(s: Store, token: nat, now: int, active: bool, ttl: nat)
    requires token < |s.rows|
    ensures Dead(Step(s, Logout(token, now), ttl).rows, s.rows[token].family)
    ensures s.rows[token].revokedAt.Some? && s.rows[token].replacedBy.None? && s.rows[token].expiresAt >= now ==>
              Dead(Step(s, Refresh(token, now, active), ttl).rows, s.rows[token].family)
  {
  }

  /** A call that revokes: logging out with a known token, or presenting a revoked one that no grace period excuses. */
  predicate Revokes(s: Store, call: Call) {
    match call
    case Login(_, _) => false
    case Logout(token, _) => token < |s.rows|
    case Refresh(token, now, _) =>
      token < |s.rows| && s.rows[token].expiresAt >= now && s.rows[token].revokedAt.Some?
      && (s.rows[token].replacedBy.None? || now - s.rows[token].revokedAt.value > 60)
  }

  /** Such a call revokes the live tokens of the token's own family, now, and leaves every other token as it is. */
  lemma {:induction false} RevocationIsExact(s: Store, call: Call, ttl: nat, i: nat)
    requires Revokes(s, call) && i < |s.rows|
    ensures var after := Step(s, call, ttl);
            && |after.rows| == |s.rows| && after.nextFamily == s.nextFamily
            && after.rows[i] == if s.rows[i].family == s.rows[call.token].family && s.rows[i].revokedAt.None?
                                then s.rows[i].(revokedAt := Some(call.now)) else s.rows[i]
  {
  }

  /**
   * Any other refresh or logout that issues nothing, be it of an unknown, expired, graced or disabled
   * user's token, changes nothing; one that issues a token touches no row but the one it replaces.
   */
  lemma {:induction false} OthersAreUntouched(s: Store, call: Call, ttl: nat)
    requires !call.Login? && !Revokes(s, call)
    ensures !Issues(s, call) ==> Step(s, call, ttl) == s
    ensures Issues(s, call) ==>
      forall i | 0 <= i < |s.rows| && i != call.token :: Step(s, call, ttl).rows[i] == s.rows[i]
  {
  }

  /** The call presents a token of the family. */
  predicate Presents(s: Store, call: Call, family: nat) {
    !call.Login? && call.token < |s.rows| && s.rows[call.token].family == family
  }

  predicate RowsOfFamilyKept(s: Store, after: Store, family: nat) {
    && |s.rows| <= |after.rows| && family < after.nextFamily
    && (forall i | 0 <= i < |s.rows| && s.rows[i].family == family :: after.rows[i] == s.rows[i])
    && forall i | |s.rows| <= i < |after.rows| :: after.rows[i].family != family
  }

  /** Whatever is done to other families, in any number of calls, a family keeps its tokens exactly as they are. */
  lemma {:induction false} FamiliesAreIsolated(s: Store, calls: seq<Call>, ttl: nat, family: nat)
    requires family < s.nextFamily
    requires forall k | 0 <= k < |calls| :: !Presents(Run(s, calls[..k], ttl), calls[k], family)
    ensures RowsOfFamilyKept(s, Run(s, calls, ttl), family)
  {
    if calls != [] {
      var n := |calls| - 1;
      forall k | 0 <= k < n ensures !Presents(Run(s, calls[..n][..k], ttl), calls[k], family) {
        assert calls[..n][..k] == calls[..k];
      }
      FamiliesAreIsolated(s, calls[..n], ttl, family);
      OneCallIsolated(Run(s, calls[..n], ttl), calls[n], ttl, family);
    }
  }

  lemma {:induction false} OneCallIsolated(s: Store, call: Call, ttl: nat, family: nat)
    requires family < s.nextFamily && !Presents(s, call, family)
    ensures RowsOfFamilyKept(s, Step(s, call, ttl), family)
  {
    if Revokes(s, call) {
      forall i | 0 <= i < |s.rows| ensures Step(s, call, ttl).rows[i].family == s.rows[i].family {
        RevocationIsExact(s, call, ttl, i);
      }
    }
  }

  /** A family without a live token never gets one again. */
  lemma {:induction false} DeadStaysDead(s: Store, calls: seq<Call>, ttl: nat, family: nat)
    requires Dead(s.rows, family) && family < s.nextFamily
    ensures Dead(Run(s, calls, ttl).rows, family) && family < Run(s, calls, ttl).nextFamily
  {
    if calls != [] {
      DeadStaysDead(s, calls[..|calls| - 1], ttl, family);
    }
  }
}
