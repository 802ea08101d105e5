/** Sessions and device pairing: the tokens and device_login tables of
    server/handlers_auth.go. Every SQL statement is one atomic step; requests run
    between one another's statements. Tokens, row ids and device codes are drawn
    from counters: fresh ones are unique. */
module SessionsSpec {
  import opened Wrappers

  const REFRESH_REUSE_GRACE: int := 30

  datatype Row = Row(token: nat, expiresAt: int, refresh: nat, refreshExpiresAt: int, prev: Option<nat>,
      prevUsedAt: int)

  datatype Status = Pending | Approved | Expired

  datatype Device = Device(userCode: string, status: Status, user: string, expiresAt: int)

  /** A request between two of its statements; next is the statement it runs next. */
  datatype Request =
    | ExpireDevice(code: nat)
    | ClaimDevice(code: nat, user: string)
    | FindUser(code: nat, user: string)
    | InsertSession(code: nat, user: string)
    | RestoreDevice(code: nat)
    | ExpireUserCode(userCode: string)
    | ApproveUserCode(userCode: string, user: string)
    | FindReplay(refresh: nat)
    | RevokeSession(id: nat)
    | PruneExpired(refresh: nat)

  /** exchanged and minted are the history: refresh tokens exchanged for new ones,
      and device codes that got a session. */
  datatype Db = Db(
    tokens: map<nat, Row>, devices: map<nat, Device>, requests: map<nat, Request>,
    nextToken: nat, nextId: nat, nextCode: nat, exchanged: seq<nat>, minted: seq<nat>)

  const EMPTY: Db := Db(map[], map[], map[], 0, 0, 0, [], [])

  // ----- tokens -----

  predicate Renewable(row: Row, refresh: nat, now: int) {
    row.refresh == refresh && (row.refreshExpiresAt == 0 || row.refreshExpiresAt > now)
  }

  function RenewableIds(tokens: map<nat, Row>, refresh: nat, now: int): set<nat> {
    set id | id in tokens && Renewable(tokens[id], refresh, now)
  }

  function Renew(row: Row, token: nat, expiresAt: int, refreshExpiresAt: int, now: int): Row {
    Row(token, expiresAt, token + 1, refreshExpiresAt, Some(row.refresh), now)
  }

  function RotateRows(tokens: map<nat, Row>, ids: set<nat>, token: nat, expiresAt: int, refreshExpiresAt: int,
                      now: int): map<nat, Row>
  {
    map id | id in tokens :: if id in ids then Renew(tokens[id], token, expiresAt, refreshExpiresAt, now)
      else tokens[id]
  }

  /** The first statement of handleRefresh, its only one when it succeeds. */
  function Refresh(d: Db, req: nat, refresh: nat, accessTTL: int, refreshTTL: int, now: int): (Db, bool) {
    var ids := RenewableIds(d.tokens, refresh, now);
    var d1 := d.(tokens := RotateRows(d.tokens, ids, d.nextToken, now + accessTTL, now + refreshTTL, now),
                 nextToken := d.nextToken + 2);
    if |ids| == 1 then (d1.(exchanged := d.exchanged + [refresh]), true)
    else (d1.(requests := d.requests[req := FindReplay(refresh)]), false)
  }

  /** A password login's INSERT. */
  function Login(d: Db, accessTTL: int, refreshTTL: int, now: int): Db {
    d.(tokens := d.tokens[d.nextId := Row(d.nextToken, now + accessTTL, d.nextToken + 1, now + refreshTTL, None, 0)],
       nextToken := d.nextToken + 2, nextId := d.nextId + 1)
  }

  /** cleanupExpiredTokens. */
  function Prune(d: Db, cut: int): Db {
    d.(tokens := map id | id in d.tokens && d.tokens[id].refreshExpiresAt >= cut :: d.tokens[id])
  }

  // ----- device codes -----

  function Create(d: Db, userCode: string, now: int): Db {
    d.(devices := d.devices[d.nextCode := Device(userCode, Pending, "", now + 300)], nextCode := d.nextCode + 1)
  }

  function Cleanup(d: Db, now: int): Db {
    d.(devices := map c | c in d.devices && d.devices[c].expiresAt >= now :: d.devices[c])
  }

  function WithStatus(d: Db, code: nat, status: Status): Db {
    if code in d.devices then d.(devices := d.devices[code := d.devices[code].(status := status)]) else d
  }

  /** handleCheckDevice reads the row. */
  function Poll(d: Db, req: nat, code: nat, now: int): Db {
    if code !in d.devices || d.devices[code].status.Expired? then d
    else if d.devices[code].expiresAt < now then d.(requests := d.requests[req := ExpireDevice(code)])
    else if d.devices[code].status.Approved? then
      d.(requests := d.requests[req := ClaimDevice(code, d.devices[code].user)])
    else d
  }

  /** handleVerifyDevice reads a row with the user code; which one is up to the
      table when there are several. */
  function Verify(d: Db, req: nat, row: nat, userCode: string, user: string, now: int): Db {
    if row !in d.devices || d.devices[row].userCode != userCode || !d.devices[row].status.Pending? then d
    else if d.devices[row].expiresAt < now then d.(requests := d.requests[req := ExpireUserCode(userCode)])
    else d.(requests := d.requests[req := ApproveUserCode(userCode, user)])
  }

  function ApproveRows(devices: map<nat, Device>, userCode: string, user: string, now: int): map<nat, Device> {
    map c | c in devices ::
      if devices[c].userCode == userCode && devices[c].status.Pending? && devices[c].expiresAt >= now
      then devices[c].(status := Approved, user := user) else devices[c]
  }

  function ExpireRows(devices: map<nat, Device>, userCode: string): map<nat, Device> {
    map c | c in devices ::
      if devices[c].userCode == userCode then devices[c].(status := Expired) else devices[c]
  }

  /** What a statement meets: its clock, whether it works, the user's flag, and
      which matching row a query returns. */
  datatype World = World(now: int, works: bool, mustChange: bool, row: nat, accessTTL: int, refreshTTL: int)

  predicate Replayed(tokens: map<nat, Row>, id: nat, refresh: nat) {
    id in tokens && tokens[id].prev == Some(refresh)
  }

  /** The next statement of request req. */
  function Continue(d: Db, req: nat, w: World): Db {
    if req !in d.requests then d
    else
      var done := d.(requests := d.requests - {req});
      match d.requests[req]
      case ExpireDevice(code) => if w.works then WithStatus(done, code, Expired) else done
      case ClaimDevice(code, user) =>
        if w.works && code in d.devices && d.devices[code].status.Approved?
        then WithStatus(d.(requests := d.requests[req := FindUser(code, user)]), code, Expired)
        else done
      case FindUser(code, user) =>
        if !w.works then d.(requests := d.requests[req := RestoreDevice(code)])
        else if w.mustChange then done
        else d.(requests := d.requests[req := InsertSession(code, user)])
      case InsertSession(code, user) =>
        if w.works then Login(done, w.accessTTL, w.refreshTTL, w.now).(minted := d.minted + [code])
        else d.(requests := d.requests[req := RestoreDevice(code)])
      case RestoreDevice(code) =>
        if w.works && code in d.devices && d.devices[code].status.Expired?
        then WithStatus(done, code, Approved)
        else done
      case ExpireUserCode(userCode) => if w.works then done.(devices := ExpireRows(d.devices, userCode)) else done
      case ApproveUserCode(userCode, user) =>
        if w.works then done.(devices := ApproveRows(d.devices, userCode, user, w.now)) else done
      case FindReplay(refresh) =>
        if !w.works then done
        else if forall id | id in d.tokens :: !Replayed(d.tokens, id, refresh) then
          d.(requests := d.requests[req := PruneExpired(refresh)])
        else if !Replayed(d.tokens, w.row, refresh) then d
        else if w.now - d.tokens[w.row].prevUsedAt > REFRESH_REUSE_GRACE then
          d.(requests := d.requests[req := RevokeSession(w.row)])
        else done
      case RevokeSession(id) => if w.works then done.(tokens := d.tokens - {id}) else done
      case PruneExpired(refresh) =>
        if w.works then
          done.(tokens := map id | id in d.tokens
                                   && !(d.tokens[id].refresh == refresh
                                        && 0 < d.tokens[id].refreshExpiresAt < w.now) :: d.tokens[id])
        else done
  }

  datatype Event =
    | DoRefresh(req: nat, refresh: nat, accessTTL: int, refreshTTL: int, now: int)
    | DoLogin(accessTTL: int, refreshTTL: int, now: int)
    | DoLogout(id: nat)
    | DoPrune(cut: int)
    | DoCreate(userCode: string, now: int)
    | DoCleanup(now: int)
    | DoPoll(req: nat, code: nat, now: int)
    | DoVerify(req: nat, row: nat, userCode: string, user: string, now: int)
    | DoNext(req: nat, w: World)
    | Vanish(req: nat)

  function Step(d: Db, e: Event): Db {
    match e
    case DoRefresh(req, refresh, access, ttl, now) =>
      if req in d.requests then d else Refresh(d, req, refresh, access, ttl, now).0
    case DoLogin(access, ttl, now) => Login(d, access, ttl, now)
    case DoLogout(id) => d.(tokens := d.tokens - {id})
    case DoPrune(cut) => Prune(d, cut)
    case DoCreate(userCode, now) => Create(d, userCode, now)
    case DoCleanup(now) => Cleanup(d, now)
    case DoPoll(req, code, now) => if req in d.requests then d else Poll(d, req, code, now)
    case DoVerify(req, row, userCode, user, now) =>
      if req in d.requests then d else Verify(d, req, row, userCode, user, now)
    case DoNext(req, w) => Continue(d, req, w)
    case Vanish(req) => d.(requests := d.requests - {req})
  }

  function Run(d: Db, events: seq<Event>): Db
    decreases |events|
  {
    if events == [] then d else Run(Step(d, events[0]), events[1..])
  }
}

module SessionsProofs {
  import opened Wrappers
  import opened SessionsSpec

  // ----- refresh tokens -----

  ghost predicate Drawn(tokens: map<nat, Row>, nextId: nat, nextToken: nat) {
    forall id | id in tokens :: id < nextId && tokens[id].refresh < nextToken
  }

  ghost predicate CurrentDistinct(tokens: map<nat, Row>) {
    forall i, j | i in tokens && j in tokens && tokens[i].refresh == tokens[j].refresh :: i == j
  }

  /** A consumed token is kept on one row at most. */
  ghost predicate ConsumedOk(tokens: map<nat, Row>, exchanged: seq<nat>) {
    && (forall id | id in tokens && tokens[id].prev.Some? :: tokens[id].prev.value in exchanged)
    && (forall i, j | i in tokens && j in tokens && tokens[i].prev.Some? && tokens[i].prev == tokens[j].prev :: i == j)
  }

  /** A token that was exchanged is no row's current one any more. */
  ghost predicate ExchangedGone(tokens: map<nat, Row>, exchanged: seq<nat>, nextToken: nat) {
    && (forall r | r in exchanged :: r < nextToken)
    && (forall id | id in tokens :: tokens[id].refresh !in exchanged)
    && (forall i, j | 0 <= i < j < |exchanged| :: exchanged[i] != exchanged[j])
  }

  ghost predicate TokensOk(d: Db) {
    && Drawn(d.tokens, d.nextId, d.nextToken) && CurrentDistinct(d.tokens)
    && ConsumedOk(d.tokens, d.exchanged) && ExchangedGone(d.tokens, d.exchanged, d.nextToken)
  }

  // ----- device codes -----

  predicate Claims(r: Request, code: nat) {
    (r.FindUser? || r.InsertSession? || r.RestoreDevice?) && r.code == code
  }

  ghost predicate Claimed(d: Db, code: nat) {
    exists req :: req in d.requests && Claims(d.requests[req], code)
  }

  /** Of a live row, an approval being turned into a session, and a session minted,
      a code has at most one. */
  ghost predicate CodeOk(d: Db, code: nat) {
    && (code in d.devices || code in d.minted || Claimed(d, code) ==> code < d.nextCode)
    && (code in d.devices && !d.devices[code].status.Expired? ==> !Claimed(d, code) && code !in d.minted)
    && (forall p, q | p in d.requests && q in d.requests && Claims(d.requests[p], code)
      && Claims(d.requests[q], code) :: p == q)
    && (Claimed(d, code) ==> code !in d.minted)
  }

  ghost predicate CodesOk(d: Db) {
    && (forall code :: CodeOk(d, code))
    && (forall i, j | 0 <= i < j < |d.minted| :: d.minted[i] != d.minted[j])
  }

  ghost predicate Inv(d: Db) {
    TokensOk(d) && CodesOk(d)
  }

  // ----- every statement keeps both -----

  /** A refresh that finds a row changes that row alone. */
  lemma RefreshesOne(d: Db, req: nat, refresh: nat, accessTTL: int, refreshTTL: int, now: int, id: nat)
    requires CurrentDistinct(d.tokens) && id in d.tokens && Renewable(d.tokens[id], refresh, now)
    ensures Refresh(d, req, refresh, accessTTL, refreshTTL, now) ==
      (d.(tokens := d.tokens[id := Renew(d.tokens[id], d.nextToken, now + accessTTL, now + refreshTTL, now)],
          nextToken := d.nextToken + 2, exchanged := d.exchanged + [refresh]), true)
  {
    var ids := RenewableIds(d.tokens, refresh, now);
    assert ids == {id};
    assert RotateRows(d.tokens, ids, d.nextToken, now + accessTTL, now + refreshTTL, now)
        == d.tokens[id := Renew(d.tokens[id], d.nextToken, now + accessTTL, now + refreshTTL, now)];
  }

  lemma RefreshesNone(d: Db, req: nat, refresh: nat, accessTTL: int, refreshTTL: int, now: int)
    requires forall id | id in d.tokens :: !Renewable(d.tokens[id], refresh, now)
    ensures Refresh(d, req, refresh, accessTTL, refreshTTL, now) ==
      (d.(nextToken := d.nextToken + 2, requests := d.requests[req := FindReplay(refresh)]), false)
  {
    var ids := RenewableIds(d.tokens, refresh, now);
    assert ids == {};
    assert RotateRows(d.tokens, ids, d.nextToken, now + accessTTL, now + refreshTTL, now) == d.tokens;
  }

  lemma RenewedConsumed(tokens: map<nat, Row>, exchanged: seq<nat>, nextToken: nat, id: nat, row: Row)
    requires id in tokens && ConsumedOk(tokens, exchanged) && ExchangedGone(tokens, exchanged, nextToken)
    requires row.prev == Some(tokens[id].refresh)
    ensures ConsumedOk(tokens[id := row], exchanged + [tokens[id].refresh])
  {
    assert tokens[id].refresh !in exchanged;
    forall k | k in tokens ensures tokens[k].prev != row.prev {
      if tokens[k].prev.Some? { assert tokens[k].prev.value in exchanged; }
    }
  }

  lemma RenewedGone(tokens: map<nat, Row>, exchanged: seq<nat>, nextToken: nat, id: nat, row: Row)
    requires id in tokens && CurrentDistinct(tokens) && ExchangedGone(tokens, exchanged, nextToken)
    requires tokens[id].refresh < nextToken && row.refresh == nextToken + 1
    ensures ExchangedGone(tokens[id := row], exchanged + [tokens[id].refresh], nextToken + 2)
  {
    assert tokens[id].refresh !in exchanged;
  }

  lemma RefreshOk(d: Db, req: nat, refresh: nat, accessTTL: int, refreshTTL: int, now: int)
    requires TokensOk(d)
    ensures TokensOk(Refresh(d, req, refresh, accessTTL, refreshTTL, now).0)
  {
    if id :| id in d.tokens && Renewable(d.tokens[id], refresh, now) {
      RefreshesOne(d, req, refresh, accessTTL, refreshTTL, now, id);
      var row := Renew(d.tokens[id], d.nextToken, now + accessTTL, now + refreshTTL, now);
      RenewedConsumed(d.tokens, d.exchanged, d.nextToken, id, row);
      RenewedGone(d.tokens, d.exchanged, d.nextToken, id, row);
      hide ConsumedOk;
      hide ExchangedGone;
    } else {
      RefreshesNone(d, req, refresh, accessTTL, refreshTTL, now);
    }
    hide Refresh;
  }

  lemma LoginOk(d: Db, accessTTL: int, refreshTTL: int, now: int)
    requires TokensOk(d)
    ensures TokensOk(Login(d, accessTTL, refreshTTL, now))
  {
    assert d.nextId !in d.tokens;
  }

  /** Fewer rows are as good. */
  lemma FewerRows(d: Db, d1: Db)
    requires TokensOk(d) && d1.nextToken == d.nextToken && d1.nextId == d.nextId && d1.exchanged == d.exchanged
    requires forall id | id in d1.tokens :: id in d.tokens && d1.tokens[id] == d.tokens[id]
    ensures TokensOk(d1)
  {
  }

  lemma ContinueTokens(d: Db, req: nat, w: World)
    requires TokensOk(d)
    ensures TokensOk(Continue(d, req, w))
  {
    hide Drawn;
    hide CurrentDistinct;
    hide ConsumedOk;
    hide ExchangedGone;
    if req in d.requests && d.requests[req].InsertSession? && w.works {
      LoginOk(d, w.accessTTL, w.refreshTTL, w.now);
    } else {
      ContinueDeletes(d, req, w);
      FewerRows(d, Continue(d, req, w));
    }
  }

  /** But for the INSERT, a statement leaves rows alone or deletes them. */
  lemma ContinueDeletes(d: Db, req: nat, w: World)
    requires !(req in d.requests && d.requests[req].InsertSession? && w.works)
    ensures var d1 := Continue(d, req, w);
      && d1.nextToken == d.nextToken && d1.nextId == d.nextId && d1.exchanged == d.exchanged
      && forall id | id in d1.tokens :: id in d.tokens && d1.tokens[id] == d.tokens[id]
  {
    hide Replayed;
    hide ExpireRows;
    hide ApproveRows;
    hide Login;
  }

  // ----- device codes -----

  /** Codes of which nothing was added: no live row, claim or session is new. */
  ghost predicate Quiet(d: Db, d1: Db) {
    && d1.minted == d.minted && d1.nextCode >= d.nextCode
    && (forall c | c in d1.devices :: c in d.devices || (c == d.nextCode && d1.nextCode > c))
    && (forall c | c in d1.devices && c in d.devices && !d1.devices[c].status.Expired? :: !d.devices[c].status.Expired?)
    && (forall r, c | r in d1.requests && Claims(d1.requests[r], c) :: r in d.requests && Claims(d.requests[r], c))
  }

  lemma QuietOk(d: Db, d1: Db)
    requires CodesOk(d) && Quiet(d, d1)
    ensures CodesOk(d1)
  {
    forall code ensures CodeOk(d1, code) {
      assert CodeOk(d, code);
      if Claimed(d1, code) {
        var r :| r in d1.requests && Claims(d1.requests[r], code);
        assert r in d.requests && Claims(d.requests[r], code);
      }
    }
  }

  /** An approved code is claimed. */
  lemma ClaimOk(d: Db, req: nat, w: World)
    requires CodesOk(d) && req in d.requests && d.requests[req].ClaimDevice?
    ensures CodesOk(Continue(d, req, w))
  {
    var c := d.requests[req].code;
    var d1 := Continue(d, req, w);
    assert CodeOk(d, c);
    if w.works && c in d.devices && d.devices[c].status.Approved? {
      assert d1 == d.(requests := d.requests[req := d1.requests[req]], devices := d.devices[c := d1.devices[c]]);
      assert d1.devices[c].status.Expired? && Claims(d1.requests[req], c);
      hide Continue;
      forall code ensures CodeOk(d1, code) {
        assert CodeOk(d, code);
        forall r | r in d1.requests && Claims(d1.requests[r], code)
          ensures r == req || (r in d.requests && Claims(d.requests[r], code)) {}
        if code == c { assert !Claimed(d, c); }
      }
    } else {
      QuietOk(d, d1);
    }
  }

  /** A claim goes on: to the next statement, to a session, or back to approved. */
  lemma ClaimedOk(d: Db, req: nat, w: World)
    requires CodesOk(d) && req in d.requests
    requires d.requests[req].FindUser? || d.requests[req].InsertSession? || d.requests[req].RestoreDevice?
    ensures CodesOk(Continue(d, req, w))
  {
    var c := d.requests[req].code;
    var d1 := Continue(d, req, w);
    ClaimMoves(d, req, w);
    hide Continue;
    assert CodeOk(d, c) && Claims(d.requests[req], c) && Claimed(d, c);
    forall code ensures CodeOk(d1, code) {
      assert CodeOk(d, code);
      if Claimed(d1, code) {
        var r :| r in d1.requests && Claims(d1.requests[r], code);
        if r == req { assert code == c; } else { assert Claims(d.requests[r], code); }
        assert Claimed(d, code);
      }
    }
  }

  lemma ClaimMoves(d: Db, req: nat, w: World)
    requires req in d.requests
    requires d.requests[req].FindUser? || d.requests[req].InsertSession? || d.requests[req].RestoreDevice?
    ensures var c, d1 := d.requests[req].code, Continue(d, req, w);
      && d1.nextCode == d.nextCode
      && (forall r | r in d1.requests && r != req :: r in d.requests && d1.requests[r] == d.requests[r])
      && (req in d1.requests ==> Claims(d1.requests[req], c) && d1.minted == d.minted && d1.devices == d.devices)
      && (forall k | k in d1.devices :: k in d.devices && (k != c ==> d1.devices[k] == d.devices[k]))
      && (d1.minted == d.minted || (d1.minted == d.minted + [c] && req !in d1.requests && d1.devices == d.devices))
  {
  }

  lemma ContinueCodes(d: Db, req: nat, w: World)
    requires CodesOk(d)
    ensures CodesOk(Continue(d, req, w))
  {
    if req in d.requests {
      var r := d.requests[req];
      if r.ClaimDevice? {
        ClaimOk(d, req, w);
      } else if r.FindUser? || r.InsertSession? || r.RestoreDevice? {
        ClaimedOk(d, req, w);
      } else {
        assert Quiet(d, Continue(d, req, w));
        QuietOk(d, Continue(d, req, w));
      }
    }
    hide CodesOk;
  }

  /** Everything else touches neither a claim nor a refresh token. */
  lemma OtherQuiet(d: Db, e: Event)
    requires CodeOk(d, d.nextCode) && !e.DoRefresh? && !e.DoLogin? && !e.DoNext?
    ensures Quiet(d, Step(d, e))
  {
    hide Continue;
    hide Refresh;
    hide Login;
  }

  lemma OtherTokens(d: Db, e: Event)
    requires TokensOk(d) && !e.DoRefresh? && !e.DoLogin? && !e.DoNext?
    ensures TokensOk(Step(d, e))
  {
    hide Continue;
    hide Refresh;
    hide Login;
    FewerRows(d, Step(d, e));
    hide TokensOk;
  }

  lemma RefreshQuiet(d: Db, req: nat, refresh: nat, accessTTL: int, refreshTTL: int, now: int)
    ensures Quiet(d, Refresh(d, req, refresh, accessTTL, refreshTTL, now).0)
    ensures Quiet(d, Login(d, accessTTL, refreshTTL, now))
  {
    hide RotateRows;
    hide RenewableIds;
  }

  lemma StepOk(d: Db, e: Event)
    requires Inv(d)
    ensures Inv(Step(d, e))
  {
    match e
    case DoRefresh(req, refresh, access, ttl, now) =>
      RefreshOk(d, req, refresh, access, ttl, now);
      RefreshQuiet(d, req, refresh, access, ttl, now);
      QuietOk(d, Refresh(d, req, refresh, access, ttl, now).0);
    case DoLogin(access, ttl, now) =>
      LoginOk(d, access, ttl, now);
      RefreshQuiet(d, 0, 0, access, ttl, now);
      QuietOk(d, Login(d, access, ttl, now));
    case DoNext(req, w) =>
      ContinueTokens(d, req, w);
      ContinueCodes(d, req, w);
    case _ =>
      OtherTokens(d, e);
      assert CodeOk(d, d.nextCode);
      OtherQuiet(d, e);
      QuietOk(d, Step(d, e));
      hide TokensOk;
      hide CodesOk;
      hide Step;
  }

  lemma {:induction false} RunOk(d: Db, events: seq<Event>)
    requires Inv(d)
    ensures Inv(Run(d, events))
    decreases |events|
  {
    if events != [] {
      StepOk(d, events[0]);
      hide Inv;
      RunOk(Step(d, events[0]), events[1..]);
    }
  }

  /** Over every interleaving of polls, approvals, refreshes, logins, logouts,
      cleanups and failed statements: a device code mints at most one session, and a
      refresh token is exchanged at most once. */
  lemma ExchangedAtMostOnce(events: seq<Event>)
    ensures var d := Run(EMPTY, events);
      && (forall i, j | 0 <= i < j < |d.minted| :: d.minted[i] != d.minted[j])
      && (forall i, j | 0 <= i < j < |d.exchanged| :: d.exchanged[i] != d.exchanged[j])
      && (forall c | c in d.minted && c in d.devices :: d.devices[c].status.Expired?)
  {
    RunOk(EMPTY, events);
    var d := Run(EMPTY, events);
    hide Run;
    forall c | c in d.minted && c in d.devices ensures d.devices[c].status.Expired? { assert CodeOk(d, c); }
  }

  /** In every reachable state a refresh succeeds exactly when some session holds the
      token unexpired; then it changes that one session, which keeps its place, and
      otherwise none. */
  lemma RefreshKeepsSessions(events: seq<Event>, req: nat, refresh: nat, accessTTL: int, refreshTTL: int, now: int)
    ensures var d := Run(EMPTY, events);
      var (d1, ok) := Refresh(d, req, refresh, accessTTL, refreshTTL, now);
      && (ok <==> exists id :: id in d.tokens && d.tokens[id].refresh == refresh
                               && (d.tokens[id].refreshExpiresAt == 0 || d.tokens[id].refreshExpiresAt > now))
      && d1.tokens.Keys == d.tokens.Keys
      && (forall id | id in d.tokens && !(ok && d.tokens[id].refresh == refresh) :: d1.tokens[id] == d.tokens[id])
      && (forall id | id in d.tokens && ok && d.tokens[id].refresh == refresh ::
            && d1.tokens[id].token == d.nextToken && d1.tokens[id].expiresAt == now + accessTTL
            && d1.tokens[id].refresh == d.nextToken + 1 != refresh && d1.tokens[id].refreshExpiresAt == now + refreshTTL
            && d1.tokens[id].prev == Some(refresh) && d1.tokens[id].prevUsedAt == now)
  {
    RunOk(EMPTY, events);
    var d := Run(EMPTY, events);
    hide Run;
    if id :| id in d.tokens && Renewable(d.tokens[id], refresh, now) {
      RefreshesOne(d, req, refresh, accessTTL, refreshTTL, now, id);
    } else {
      RefreshesNone(d, req, refresh, accessTTL, refreshTTL, now);
    }
    hide Refresh;
  }

  /** Presented again, a consumed token ends the session it last renewed when that
      was more than 30 seconds ago, and changes nothing before. */
  lemma ReplayRevokes(d: Db, req: nat, id: nat, refresh: nat, w: World)
    requires Inv(d) && req !in d.requests && w.works && w.row == id && Replayed(d.tokens, id, refresh)
    ensures var refused := Refresh(d, req, refresh, w.accessTTL, w.refreshTTL, w.now);
      var looked := Continue(refused.0, req, w);
      var late := w.now - d.tokens[id].prevUsedAt > REFRESH_REUSE_GRACE;
      && !refused.1
      && (late ==> Continue(looked, req, w).tokens == d.tokens - {id})
      && (!late ==> looked.tokens == d.tokens && req !in looked.requests)
  {
    assert refresh in d.exchanged;
    RefreshesNone(d, req, refresh, w.accessTTL, w.refreshTTL, w.now);
    hide Refresh;
  }

  /** A failed INSERT does not cost the pairing: the code is approved again, and a
      poll after that can claim it. */
  lemma FailedInsertPutsBack(d: Db, req: nat, code: nat, user: string, w: World, now: int)
    requires Inv(d) && req in d.requests && d.requests[req] == InsertSession(code, user) && code in d.devices
    requires w.works && d.devices[code].expiresAt >= now
    ensures var failed := Continue(d, req, w.(works := false));
      var back := Continue(failed, req, w);
      && back.tokens == d.tokens && back.minted == d.minted
      && back.devices == d.devices[code := d.devices[code].(status := Approved)]
      && Poll(back, req, code, now).requests == back.requests[req := ClaimDevice(code, d.devices[code].user)]
  {
    assert CodeOk(d, code) && Claims(d.requests[req], code) && Claimed(d, code);
  }

  // ----- what a session takes -----

  /** A pairing that nothing fails: created, approved under its user code before it
      expires, polled, claimed and turned into one new session; the code is spent. */
  lemma PairingMints(d: Db, userCode: string, user: string, req: nat, w: World)
    requires req !in d.requests && w.works && !w.mustChange && d.nextCode !in d.devices
    ensures var c, created := d.nextCode, Create(d, userCode, w.now);
      var approved := Continue(Verify(created, req, c, userCode, user, w.now), req, w);
      var minted := Continue(Continue(Continue(Poll(approved, req, c, w.now), req, w), req, w), req, w);
      && c in approved.devices && approved.devices[c] == Device(userCode, Approved, user, w.now + 300)
      && approved.tokens == d.tokens
      && minted.tokens == d.tokens[d.nextId := Row(d.nextToken, w.now + w.accessTTL, d.nextToken + 1,
                                                   w.now + w.refreshTTL, None, 0)]
      && minted.minted == d.minted + [c] && minted.requests == d.requests
      && c in minted.devices && minted.devices[c].status.Expired?
  {
    var c := d.nextCode;
    Approves(d, userCode, user, req, w);
    var approved := Continue(Verify(Create(d, userCode, w.now), req, c, userCode, user, w.now), req, w);
    hide Create;
    hide Verify;
    Mints(approved, c, req, w);
    hide Continue;
    hide Poll;
  }

  lemma Approves(d: Db, userCode: string, user: string, req: nat, w: World)
    requires req !in d.requests && w.works && d.nextCode !in d.devices
    ensures var c, created := d.nextCode, Create(d, userCode, w.now);
      var d1 := Continue(Verify(created, req, c, userCode, user, w.now), req, w);
      && c in d1.devices && d1.devices[c] == Device(userCode, Approved, user, w.now + 300)
      && d1 == d.(devices := d1.devices, nextCode := c + 1)
  {
    var c := d.nextCode;
    var v := Verify(Create(d, userCode, w.now), req, c, userCode, user, w.now);
    assert v.requests == d.requests[req := ApproveUserCode(userCode, user)];
    assert v.requests - {req} == d.requests;
  }

  lemma Mints(d: Db, c: nat, req: nat, w: World)
    requires req !in d.requests && w.works && !w.mustChange
    requires c in d.devices && d.devices[c].status.Approved? && d.devices[c].expiresAt >= w.now
    ensures var d1 := Continue(Continue(Continue(Poll(d, req, c, w.now), req, w), req, w), req, w);
      && d1.tokens == d.tokens[d.nextId := Row(d.nextToken, w.now + w.accessTTL, d.nextToken + 1,
                                               w.now + w.refreshTTL, None, 0)]
      && d1.minted == d.minted + [c] && d1.requests == d.requests
      && c in d1.devices && d1.devices[c].status.Expired?
  {
    var user := d.devices[c].user;
    var spent := d.devices[c := d.devices[c].(status := Expired)];
    var d2 := d.(devices := spent, requests := d.requests[req := FindUser(c, user)]);
    var d3 := d2.(requests := d.requests[req := InsertSession(c, user)]);
    ClaimStep(d, c, req, w);
    assert d2.requests[req := InsertSession(c, user)] == d3.requests && d3.requests - {req} == d.requests;
    assert Continue(d2, req, w) == d3;
    hide Poll;
  }

  lemma ClaimStep(d: Db, c: nat, req: nat, w: World)
    requires req !in d.requests && w.works
    requires c in d.devices && d.devices[c].status.Approved? && d.devices[c].expiresAt >= w.now
    ensures var user := d.devices[c].user;
      Continue(Poll(d, req, c, w.now), req, w)
      == d.(devices := d.devices[c := d.devices[c].(status := Expired)],
            requests := d.requests[req := FindUser(c, user)])
  {
    var user := d.devices[c].user;
    var p := Poll(d, req, c, w.now);
    assert p.requests == d.requests[req := ClaimDevice(c, user)];
    assert p.requests[req := FindUser(c, user)] == d.requests[req := FindUser(c, user)];
  }

  /** A poll claims an approved code that has not expired, notes that a code has, and
      otherwise changes nothing; a user who must change the password gets no session;
      a cleanup drops the codes that have expired. */
  lemma PollsAndCleanups(d: Db, req: nat, code: nat, now: int, w: World)
    ensures var d1, known := Poll(d, req, code, now), code in d.devices && !d.devices[code].status.Expired?;
      && (known && d.devices[code].status.Approved? && now <= d.devices[code].expiresAt ==>
            d1 == d.(requests := d.requests[req := ClaimDevice(code, d.devices[code].user)]))
      && (known && now > d.devices[code].expiresAt ==> d1 == d.(requests := d.requests[req := ExpireDevice(code)]))
      && (!known || (d.devices[code].status.Pending? && now <= d.devices[code].expiresAt) ==> d1 == d)
    ensures req in d.requests && d.requests[req].FindUser? && w.works && w.mustChange ==>
      Continue(d, req, w) == d.(requests := d.requests - {req})
    ensures var d1 := Cleanup(d, now);
      && d1 == d.(devices := d1.devices)
      && (code in d1.devices <==> code in d.devices && now <= d.devices[code].expiresAt)
      && (code in d1.devices ==> d1.devices[code] == d.devices[code])
  {
    hide ExpireRows;
    hide ApproveRows;
    hide Replayed;
    hide Login;
  }

  /** No step turns an unapproved code into a session: a claim starts on an approved row;
      a row is approved by its user code while it is pending and not expired, or put
      back by its own claim; a code is minted by its claim. */
  lemma SessionsNeedApproval(d: Db, e: Event, code: nat)
    ensures var d1 := Step(d, e);
      && (Claimed(d1, code) && !Claimed(d, code) ==> code in d.devices && d.devices[code].status.Approved?)
      && (IsApproved(d1, code) && !IsApproved(d, code) ==>
            && code in d.devices && e.DoNext? && e.req in d.requests
            && (d.requests[e.req] == RestoreDevice(code)
                || (d.devices[code].status.Pending? && d.devices[code].expiresAt >= e.w.now
                    && d.requests[e.req] == ApproveUserCode(d.devices[code].userCode, d1.devices[code].user))))
      && (code in d1.minted && code !in d.minted ==> Claimed(d, code))
  {
    if e.DoNext? {
      NextClaims(d, e.req, e.w, code);
      NextApproves(d, e.req, e.w, code);
      hide Continue;
    } else {
      OtherClaims(d, e, code);
      hide Step;
    }
    hide Claimed;
  }

  lemma OtherClaims(d: Db, e: Event, code: nat)
    requires !e.DoNext?
    ensures var d1 := Step(d, e);
      && (Claimed(d1, code) ==> Claimed(d, code)) && d1.minted == d.minted
      && (IsApproved(d1, code) ==> IsApproved(d, code))
  {
    var d1 := Step(d, e);
    if e.DoRefresh? {
      hide RotateRows;
      hide RenewableIds;
    }
    if Claimed(d1, code) {
      var r :| r in d1.requests && Claims(d1.requests[r], code);
      assert r in d.requests && Claims(d.requests[r], code);
    }
  }

  lemma NextClaims(d: Db, req: nat, w: World, code: nat)
    ensures var d1 := Continue(d, req, w);
      && (Claimed(d1, code) && !Claimed(d, code) ==> code in d.devices && d.devices[code].status.Approved?)
      && (code in d1.minted && code !in d.minted ==> Claimed(d, code))
  {
    NextRequest(d, req, w, code);
    var d1 := Continue(d, req, w);
    hide Continue;
    if Claimed(d1, code) {
      var r :| r in d1.requests && Claims(d1.requests[r], code);
      if r != req { assert r in d.requests && Claims(d.requests[r], code); }
    }
    if code in d1.minted && code !in d.minted { assert Claims(d.requests[req], code); }
  }

  lemma NextRequest(d: Db, req: nat, w: World, code: nat)
    ensures var d1 := Continue(d, req, w);
      && (forall r | r in d1.requests && r != req :: r in d.requests && d1.requests[r] == d.requests[r])
      && (req in d1.requests && Claims(d1.requests[req], code) ==>
            || (req in d.requests && Claims(d.requests[req], code))
            || (code in d.devices && d.devices[code].status.Approved?))
      && (code in d1.minted && code !in d.minted ==> req in d.requests && Claims(d.requests[req], code))
  {
    hide ExpireRows;
    hide ApproveRows;
    hide Replayed;
  }

  lemma NextApproves(d: Db, req: nat, w: World, code: nat)
    ensures var d1 := Continue(d, req, w);
      IsApproved(d1, code) && !IsApproved(d, code) ==>
        && code in d.devices && req in d.requests
        && (d.requests[req] == RestoreDevice(code)
            || (d.devices[code].status.Pending? && d.devices[code].expiresAt >= w.now
                && d.requests[req] == ApproveUserCode(d.devices[code].userCode, d1.devices[code].user)))
  {
    hide Replayed;
    hide Login;
    LoginDevices(d.(requests := d.requests - {req}), w);
  }

  lemma LoginDevices(d: Db, w: World)
    ensures Login(d, w.accessTTL, w.refreshTTL, w.now).devices == d.devices
  {
  }

  /** A session ends by a logout, by a late replay, or once its refresh token expired;
      the cleanup takes one without an expiry, 0, for expired. */
  lemma SessionsEnd(d: Db, e: Event, id: nat)
    requires id in d.tokens && id !in Step(d, e).tokens
    ensures || e == DoLogout(id) || (e.DoPrune? && d.tokens[id].refreshExpiresAt < e.cut)
      || (e.DoNext? && e.req in d.requests
          && (d.requests[e.req] == RevokeSession(id)
              || (d.requests[e.req] == PruneExpired(d.tokens[id].refresh)
                  && 0 < d.tokens[id].refreshExpiresAt < e.w.now)))
  {
    if e.DoNext? {
      hide ExpireRows;
      hide ApproveRows;
      hide Replayed;
    } else {
      hide Continue;
      hide RenewableIds;
    }
  }

  predicate IsApproved(d: Db, code: nat) {
    code in d.devices && d.devices[code].status.Approved?
  }
}

/** The two tables and the requests working on them. */
module Sessions {
  import opened Wrappers
  import opened SessionsSpec

  class Tables {
    var tokens: map<nat, Row>
    var devices: map<nat, Device>
    var requests: map<nat, Request>
    var nextToken: nat
    var nextId: nat
    var nextCode: nat
    ghost var exchanged: seq<nat>
    ghost var minted: seq<nat>

    constructor ()
      ensures State() == EMPTY
    {
      tokens, devices, requests, nextToken, nextId, nextCode := map[], map[], map[], 0, 0, 0;
      exchanged, minted := [], [];
    }

    ghost function State(): Db
      reads this
    {
      Db(tokens, devices, requests, nextToken, nextId, nextCode, exchanged, minted)
    }

    /** UPDATE tokens SET ... WHERE refresh_token = ? AND not expired, row by row. */
    method Rotate(refresh: nat, token: nat, expiresAt: int, refreshExpiresAt: int, now: int) returns (affected: nat)
      modifies `tokens
      ensures affected == |RenewableIds(old(tokens), refresh, now)|
      ensures tokens == RotateRows(old(tokens), RenewableIds(old(tokens), refresh, now), token, expiresAt,
          refreshExpiresAt, now)
    {
      ghost var was := tokens;
      var todo, hit := tokens.Keys, {};
      while todo != {}
        invariant todo <= was.Keys == tokens.Keys
        invariant hit == set id | id in was && id !in todo && Renewable(was[id], refresh, now)
        invariant forall id | id in was ::
          tokens[id] == if id in hit then Renew(was[id], token, expiresAt, refreshExpiresAt, now) else was[id]
        decreases |todo|
      {
        var id :| id in todo;
        todo := todo - {id};
        if Renewable(tokens[id], refresh, now) {
          tokens := tokens[id := Renew(tokens[id], token, expiresAt, refreshExpiresAt, now)];
          hit := hit + {id};
        }
      }
      assert hit == RenewableIds(was, refresh, now);
      affected := |hit|;
    }

    /** handleRefresh, up to its answer or its next statement. */
    method Refresh(req: nat, refresh: nat, accessTTL: int, refreshTTL: int, now: int) returns (ok: bool)
      modifies this
      ensures (State(), ok) == SessionsSpec.Refresh(old(State()), req, refresh, accessTTL, refreshTTL, now)
    {
      var token := nextToken;
      nextToken := nextToken + 2;
      var n := Rotate(refresh, token, now + accessTTL, now + refreshTTL, now);
      ok := n == 1;
      if ok { exchanged := exchanged + [refresh]; } else { requests := requests[req := FindReplay(refresh)]; }
    }

    /** INSERT INTO tokens. */
    method Insert(accessTTL: int, refreshTTL: int, now: int)
      modifies `tokens, `nextToken, `nextId
      ensures State() == Login(old(State()), accessTTL, refreshTTL, now)
    {
      tokens := tokens[nextId := Row(nextToken, now + accessTTL, nextToken + 1, now + refreshTTL, None, 0)];
      nextToken, nextId := nextToken + 2, nextId + 1;
    }

    /** UPDATE device_login SET status = ? WHERE device_code = ? AND, unless any
        status will do, status = ?. */
    method SetStatus(code: nat, from: Option<Status>, status: Status) returns (affected: bool)
      modifies `devices
      ensures affected <==> code in old(devices) && (from.Some? ==> old(devices)[code].status == from.value)
      ensures State() == if affected then WithStatus(old(State()), code, status) else old(State())
    {
      affected := code in devices && (from.Some? ==> devices[code].status == from.value);
      if affected { devices := devices[code := devices[code].(status := status)]; }
    }

    /** handleCheckDevice reads the row. */
    method Poll(req: nat, code: nat, now: int)
      modifies `requests
      ensures State() == SessionsSpec.Poll(old(State()), req, code, now)
    {
      if code !in devices { return; }
      var row := devices[code];
      if row.status.Expired? { return; }
      if row.expiresAt < now {
        requests := requests[req := ExpireDevice(code)];
      } else if row.status.Approved? {
        requests := requests[req := ClaimDevice(code, row.user)];
      }
    }

    /** The atomic claim of an approval. */
    method Claim(req: nat, w: World)
      requires req in requests && requests[req].ClaimDevice?
      modifies `requests, `devices
      ensures State() == Continue(old(State()), req, w)
    {
      var code, user := requests[req].code, requests[req].user;
      requests := requests - {req};
      if !w.works { return; }
      var claimed := SetStatus(code, Some(Approved), Expired);
      if claimed {
        requests := requests[req := FindUser(code, user)];
        assert requests == old(requests)[req := FindUser(code, user)];
      }
    }

    /** The INSERT of the claimed session, or its failure. */
    method Mint(req: nat, w: World)
      requires req in requests && requests[req].InsertSession?
      modifies this
      ensures State() == Continue(old(State()), req, w)
    {
      var code := requests[req].code;
      if !w.works {
        requests := requests[req := RestoreDevice(code)];
        return;
      }
      requests := requests - {req};
      Insert(w.accessTTL, w.refreshTTL, w.now);
      minted := minted + [code];
    }

    /** Puts a claimed code back. */
    method Restore(req: nat, w: World)
      requires req in requests && requests[req].RestoreDevice?
      modifies `requests, `devices
      ensures State() == Continue(old(State()), req, w)
    {
      var code := requests[req].code;
      requests := requests - {req};
      if w.works { var _ := SetStatus(code, Some(Expired), Approved); }
    }

    /** UPDATE device_login SET status = 'approved' WHERE user_code = ? AND it is
        pending and not expired, row by row. */
    method Approve(req: nat, w: World)
      requires req in requests && requests[req].ApproveUserCode?
      modifies `requests, `devices
      ensures State() == Continue(old(State()), req, w)
    {
      var userCode, user := requests[req].userCode, requests[req].user;
      requests := requests - {req};
      if !w.works { return; }
      ghost var was := devices;
      var todo := devices.Keys;
      while todo != {}
        invariant todo <= was.Keys == devices.Keys && requests == old(requests) - {req}
        invariant forall c | c in was ::
          devices[c] == if c in todo then was[c] else ApproveRows(was, userCode, user, w.now)[c]
        decreases |todo|
      {
        var c :| c in todo;
        todo := todo - {c};
        if devices[c].userCode == userCode && devices[c].status.Pending? && devices[c].expiresAt >= w.now {
          devices := devices[c := devices[c].(status := Approved, user := user)];
        }
      }
      assert devices == ApproveRows(was, userCode, user, w.now);
    }
  }
}
