/** The failed-authentication throttle of server/ratelimit.go. Times are
    nanoseconds of one clock. */
module ThrottleSpec {

  const STRIKE_WINDOW: int := 300_000_000_000
  const MAX_FAILS_PER_IP: int := 20
  const MAX_FAILS_PER_USER: int := 10
  const INFLIGHT_RETRY: int := 1_000_000_000
  const SWEEP_OVER: nat := 4096

  /** The "ip:" and "user:" keys. */
  datatype Key = Ip(ip: string) | User(user: string)

  datatype Entry = Entry(count: int, resetAt: int)

  /** What begin hands out: the pair of keys, and whether it was released. */
  datatype Reservation = Reservation(ip: Key, user: Key, released: bool)

  datatype Throttle = Throttle(strikes: map<Key, Entry>, inflight: map<Key, int>, given: seq<Reservation>)

  datatype Answer = Granted | Refused(wait: int)

  predicate Expired(strikes: map<Key, Entry>, k: Key, now: int) {
    k in strikes && now > strikes[k].resetAt
  }

  function Drop(strikes: map<Key, Entry>, k: Key, now: int): map<Key, Entry> {
    if Expired(strikes, k, now) then strikes - {k} else strikes
  }

  /** strikesLocked: the strikes still counting. */
  function Live(strikes: map<Key, Entry>, k: Key, now: int): int {
    if k in strikes && !Expired(strikes, k, now) then strikes[k].count else 0
  }

  function ResetAt(strikes: map<Key, Entry>, k: Key): int {
    if k in strikes then strikes[k].resetAt else 0
  }

  function Busy(inflight: map<Key, int>, k: Key): int {
    if k in inflight then inflight[k] else 0
  }

  function Begin(t: Throttle, ip: string, user: string, now: int): (Throttle, Answer) {
    var i, u := Ip(ip), User(user);
    var strikes := Drop(Drop(t.strikes, i, now), u, now);
    var t1 := t.(strikes := strikes);
    var ipStrikes, userStrikes := Live(t.strikes, i, now), Live(t.strikes, u, now);
    var ipBusy, userBusy := Busy(t.inflight, i), Busy(t.inflight, u);
    if ipStrikes + ipBusy >= MAX_FAILS_PER_IP then
      (t1, Refused(if ipStrikes >= MAX_FAILS_PER_IP then ResetAt(strikes, i) - now else INFLIGHT_RETRY))
    else if userStrikes + userBusy >= MAX_FAILS_PER_USER && (ipStrikes > 0 || ipBusy > 0) then
      (t1, Refused(if userStrikes >= MAX_FAILS_PER_USER then ResetAt(strikes, u) - now else INFLIGHT_RETRY))
    else
      (t1.(inflight := t.inflight[i := ipBusy + 1][u := userBusy + 1], given := t.given + [Reservation(i, u, false)]),
        Granted)
  }

  function Less(inflight: map<Key, int>, k: Key): map<Key, int> {
    if Busy(inflight, k) - 1 <= 0 then inflight - {k} else inflight[k := Busy(inflight, k) - 1]
  }

  function Sweep(strikes: map<Key, Entry>, now: int): map<Key, Entry> {
    if |strikes| > SWEEP_OVER then map k | k in strikes && !Expired(strikes, k, now) :: strikes[k] else strikes
  }

  function Strike(strikes: map<Key, Entry>, k: Key, now: int): map<Key, Entry> {
    if k in strikes && !Expired(strikes, k, now) then strikes[k := strikes[k].(count := strikes[k].count + 1)]
    else strikes[k := Entry(1, now + STRIKE_WINDOW)]
  }

  /** The release function of reservation r; only its first call counts. */
  function Release(t: Throttle, r: nat, failed: bool, now: int): Throttle {
    if r >= |t.given| || t.given[r].released then t
    else
      var i, u := t.given[r].ip, t.given[r].user;
      Throttle(
        if failed then Strike(Strike(Sweep(t.strikes, now), i, now), u, now) else t.strikes - {u},
        Less(Less(t.inflight, i), u), t.given[r := t.given[r].(released := true)])
  }

  datatype Call = Try(ip: string, user: string, now: int) | Done(r: nat, failed: bool, now: int)

  function Step(t: Throttle, c: Call): Throttle {
    match c
    case Try(ip, user, now) => Begin(t, ip, user, now).0
    case Done(r, failed, now) => Release(t, r, failed, now)
  }

  function Run(t: Throttle, calls: seq<Call>): Throttle
    decreases |calls|
  {
    if calls == [] then t else Run(Step(t, calls[0]), calls[1..])
  }

  const EMPTY: Throttle := Throttle(map[], map[], [])
}

module ThrottleProofs {
  import opened Wrappers
  import opened ThrottleSpec

  /** The reservations of a key not released yet. */
  function Held(given: seq<Reservation>, k: Key): nat {
    if given == [] then 0
    else
      Held(given[..|given| - 1], k)
      + if !Last(given).released && (Last(given).ip == k || Last(given).user == k) then 1 else 0
  }

  ghost predicate Inv(t: Throttle) {
    && (forall r | r in t.given :: r.ip.Ip? && r.user.User?)
    && (forall k :: Busy(t.inflight, k) == Held(t.given, k))
    && (forall k | k in t.inflight :: t.inflight[k] > 0)
    && (forall k | k in t.strikes :: t.strikes[k].count >= 1)
    && (forall k: Key | k.Ip? ::
          Stored(t.strikes, k) + Busy(t.inflight, k) <= MAX_FAILS_PER_IP)
  }

  lemma {:induction false} HeldAfterRelease(given: seq<Reservation>, r: nat, k: Key)
    requires r < |given| && !given[r].released
    ensures Held(given[r := given[r].(released := true)], k)
            == Held(given, k) - if given[r].ip == k || given[r].user == k then 1 else 0
  {
    var after := given[r := given[r].(released := true)];
    var init := given[..|given| - 1];
    if r < |init| {
      assert after[..|given| - 1] == init[r := init[r].(released := true)];
      HeldAfterRelease(init, r, k);
    } else {
      assert after[..|given| - 1] == init;
    }
  }

  lemma BeginOk(t: Throttle, ip: string, user: string, now: int)
    requires Inv(t)
    ensures Inv(Begin(t, ip, user, now).0)
  {
    DropKeeps(t.strikes, Ip(ip), now);
    DropKeeps(Drop(t.strikes, Ip(ip), now), User(user), now);
    var t1 := Begin(t, ip, user, now).0;
    hide Drop;
    if |t1.given| > |t.given| {
      var r := Last(t1.given);
      HeldGrows(t.given, r);
      hide Held;
      forall k ensures Busy(t1.inflight, k) == Held(t1.given, k) {}
    }
  }

  lemma HeldGrows(given: seq<Reservation>, r: Reservation)
    requires !r.released
    ensures forall k :: Held(given + [r], k) == Held(given, k) + if r.ip == k || r.user == k then 1 else 0
  {
    assert (given + [r])[..|given|] == given;
  }

  /** Dropping an expired entry raises no count. */
  lemma DropKeeps(strikes: map<Key, Entry>, k: Key, now: int)
    ensures forall j | j in Drop(strikes, k, now) :: j in strikes && Drop(strikes, k, now)[j] == strikes[j]
    ensures k in strikes ==> (k in Drop(strikes, k, now) <==> !Expired(strikes, k, now))
  {
  }

  function Stored(strikes: map<Key, Entry>, k: Key): int {
    if k in strikes then strikes[k].count else 0
  }

  lemma SweepKeeps(strikes: map<Key, Entry>, now: int, later: int, k: Key)
    requires now <= later
    ensures k in Sweep(strikes, now) ==> k in strikes && Sweep(strikes, now)[k] == strikes[k]
    ensures Live(Sweep(strikes, now), k, later) == Live(strikes, k, later)
    ensures Lapses(Sweep(strikes, now), k, now) == Lapses(strikes, k, now)
  {
  }

  lemma StrikeCounts(strikes: map<Key, Entry>, hit: Key, now: int, later: int, k: Key)
    requires now <= later && (k in strikes ==> strikes[k].count >= 1)
    ensures var s1 := Strike(strikes, hit, now);
      && (k in s1 ==> s1[k].count >= 1)
      && Stored(s1, k) <= Stored(strikes, k) + (if hit == k then 1 else 0)
      && (hit != k ==> Live(s1, k, later) == Live(strikes, k, later) && Stored(s1, k) == Stored(strikes, k))
      && (hit == k ==> Live(s1, k, now) == Live(strikes, k, now) + 1)
      && (hit == k ==>
            Live(s1, k, later) == if later <= Lapses(strikes, k, now) then Live(strikes, k, now) + 1 else 0)
  {
  }

  lemma StruckOk(t: Throttle, r: nat, now: int, k: Key)
    requires Inv(t) && r < |t.given| && !t.given[r].released
    ensures var t1 := Release(t, r, true, now);
      && (k in t1.strikes ==> t1.strikes[k].count >= 1)
      && (k.Ip? ==> Stored(t1.strikes, k) <= Stored(t.strikes, k) + (if t.given[r].ip == k then 1 else 0))
  {
    hide Less;
    hide Held;
    hide Sweep;
    hide Strike;
    assert t.given[r] in t.given;
    var swept := Sweep(t.strikes, now);
    SweepKeeps(t.strikes, now, now, k);
    StrikeCounts(swept, t.given[r].ip, now, now, k);
    StrikeCounts(Strike(swept, t.given[r].ip, now), t.given[r].user, now, now, k);
  }

  lemma LeftOk(t: Throttle, r: nat, failed: bool, now: int, k: Key)
    requires Inv(t) && r < |t.given| && !t.given[r].released
    ensures var t1 := Release(t, r, failed, now);
      && Busy(t1.inflight, k) == Held(t1.given, k)
      && Busy(t1.inflight, k) == Busy(t.inflight, k) - (if t.given[r].ip == k || t.given[r].user == k then 1 else 0)
      && (k in t1.inflight ==> t1.inflight[k] > 0)
  {
    hide Sweep;
    hide Strike;
    assert t.given[r] in t.given;
    HeldAfterRelease(t.given, r, k);
    hide Held;
  }

  lemma ReleaseOk(t: Throttle, r: nat, failed: bool, now: int)
    requires Inv(t)
    ensures Inv(Release(t, r, failed, now))
  {
    if r < |t.given| && !t.given[r].released {
      var t1 := Release(t, r, failed, now);
      assert t.given[r] in t.given;
      forall q | q in t1.given ensures q.ip.Ip? && q.user.User? {}
      forall k
        ensures && Busy(t1.inflight, k) == Held(t1.given, k) && (k in t1.inflight ==> t1.inflight[k] > 0)
                && (k in t1.strikes ==> t1.strikes[k].count >= 1)
                && (k.Ip? ==> Stored(t1.strikes, k) + Busy(t1.inflight, k) <= MAX_FAILS_PER_IP)
      {
        LeftOk(t, r, failed, now, k);
        if failed { StruckOk(t, r, now, k); }
        hide Held;
        hide Less;
        hide Sweep;
        hide Strike;
      }
      hide Release;
      hide Held;
    }
  }

  lemma {:induction false} RunOk(t: Throttle, calls: seq<Call>)
    requires Inv(t)
    ensures Inv(Run(t, calls))
    decreases |calls|
  {
    if calls != [] {
      match calls[0] {
        case Try(ip, user, now) => BeginOk(t, ip, user, now);
        case Done(r, failed, now) => ReleaseOk(t, r, failed, now);
      }
      hide Inv;
      RunOk(Step(t, calls[0]), calls[1..]);
    }
  }

  /** In every reachable state, whatever the clock reads: the in-flight count of a
      key is the number of its unreleased reservations, and an IP's stored strikes
      and attempts in flight together never exceed 20. */
  lemma NeverOverTheCap(calls: seq<Call>, k: Key)
    ensures var t := Run(EMPTY, calls);
      && Busy(t.inflight, k) == Held(t.given, k)
      && (k in t.inflight <==> Held(t.given, k) > 0)
      && (k.Ip? ==> Stored(t.strikes, k) + Held(t.given, k) <= MAX_FAILS_PER_IP)
  {
    RunOk(EMPTY, calls);
  }

  /** A source with no live strike and no attempt in flight is never refused, and any
      other exactly when it or the account it tries is at its cap. */
  lemma WhoIsRefused(calls: seq<Call>, ip: string, user: string, now: int)
    ensures var t := Run(EMPTY, calls);
      var (mine, theirs) := (Live(t.strikes, Ip(ip), now) + Held(t.given, Ip(ip)),
                             Live(t.strikes, User(user), now) + Held(t.given, User(user)));
      && mine >= 0
      && (Begin(t, ip, user, now).1.Refused? <==>
            mine >= MAX_FAILS_PER_IP || (mine > 0 && theirs >= MAX_FAILS_PER_USER))
      && (forall k :: Live(Begin(t, ip, user, now).0.strikes, k, now) == Live(t.strikes, k, now))
  {
    RunOk(EMPTY, calls);
    var t := Run(EMPTY, calls);
    hide Run;
    assert Busy(t.inflight, Ip(ip)) == Held(t.given, Ip(ip))
        && Busy(t.inflight, User(user)) == Held(t.given, User(user));
  }

  /** A grant holds one more reservation of its source and of its account; a refusal
      holds nothing. */
  lemma GrantsAreHeld(t: Throttle, ip: string, user: string, now: int, k: Key)
    ensures var (t1, answer) := Begin(t, ip, user, now);
      Held(t1.given, k) == Held(t.given, k) + if answer.Granted? && (k == Ip(ip) || k == User(user)) then 1 else 0
  {
    HeldGrows(t.given, Reservation(Ip(ip), User(user), false));
    hide Held;
    hide Drop;
    hide Live;
  }

  /** A refused caller is told to wait until the strikes it was refused for stop
      counting, or a second when attempts are still being verified. */
  lemma WaitIsEnough(calls: seq<Call>, ip: string, user: string, now: int, later: int)
    ensures var t := Run(EMPTY, calls);
      var answer := Begin(t, ip, user, now).1;
      var k := if Live(t.strikes, Ip(ip), now) + Held(t.given, Ip(ip)) >= MAX_FAILS_PER_IP then Ip(ip) else User(user);
      var cap := if k.Ip? then MAX_FAILS_PER_IP else MAX_FAILS_PER_USER;
      answer.Refused? ==>
        && answer.wait >= 0
        && (Live(t.strikes, k, now) < cap ==> answer.wait == INFLIGHT_RETRY && Held(t.given, k) > 0)
        && (Live(t.strikes, k, now) >= cap && now <= later ==>
              (Live(t.strikes, k, later) == 0 <==> later > now + answer.wait))
  {
    RunOk(EMPTY, calls);
    var t := Run(EMPTY, calls);
    hide Run;
    assert Busy(t.inflight, Ip(ip)) == Held(t.given, Ip(ip))
        && Busy(t.inflight, User(user)) == Held(t.given, User(user));
    hide Held;
  }

  /** What a release does to what counts from now on: a failure is one more strike
      against the source and the account; a success wipes the account's. No other
      key's live strikes change, however many entries are swept. */
  lemma ReleaseCounts(t: Throttle, r: nat, failed: bool, now: int, later: int, k: Key)
    requires Inv(t) && r < |t.given| && !t.given[r].released && now <= later
    ensures var t1 := Release(t, r, failed, now);
      var mine := k == t.given[r].ip || k == t.given[r].user;
      && (failed ==> Live(t1.strikes, k, now) == Live(t.strikes, k, now) + if mine then 1 else 0)
      && (!failed ==> Live(t1.strikes, k, now) == if k == t.given[r].user then 0 else Live(t.strikes, k, now))
      && (!mine ==> Live(t1.strikes, k, later) == Live(t.strikes, k, later))
      && (failed && mine ==>
            Live(t1.strikes, k, later)
            == if later <= Lapses(t.strikes, k, now) then Live(t.strikes, k, now) + 1 else 0)
      && Release(t1, r, failed, later) == t1
  {
    hide Less;
    hide Sweep;
    hide Strike;
    assert t.given[r] in t.given;
    var swept := Sweep(t.strikes, now);
    SweepKeeps(t.strikes, now, now, k);
    SweepKeeps(t.strikes, now, later, k);
    StrikeCounts(swept, t.given[r].ip, now, now, k);
    StrikeCounts(swept, t.given[r].ip, now, later, k);
    StrikeCounts(Strike(swept, t.given[r].ip, now), t.given[r].user, now, now, k);
    StrikeCounts(Strike(swept, t.given[r].ip, now), t.given[r].user, now, later, k);
    hide Live;
    hide Lapses;
  }

  /** Strikes lapse together, five minutes after the first of them. */
  function Lapses(strikes: map<Key, Entry>, k: Key, now: int): int {
    if Live(strikes, k, now) > 0 then ResetAt(strikes, k) else now + 300 * 1_000_000_000
  }

  /** Once more than 4096 entries are kept a failure clears out every lapsed one. */
  lemma FailureSweeps(t: Throttle, r: nat, now: int, k: Key)
    requires r < |t.given| && !t.given[r].released && |t.strikes| > 4096
    ensures var t1 := Release(t, r, true, now); k in t1.strikes ==> now <= t1.strikes[k].resetAt
  {
    hide Less;
  }
}

/** The throttle in its own form. */
module Throttle {
  import opened ThrottleSpec

  class AuthThrottle {
    var strikes: map<Key, Entry>
    var inflight: map<Key, int>
    var given: seq<Reservation>

    constructor ()
      ensures State() == EMPTY
    {
      strikes, inflight, given := map[], map[], [];
    }

    function State(): ThrottleSpec.Throttle
      reads this
    {
      ThrottleSpec.Throttle(strikes, inflight, given)
    }

    method StrikesLocked(k: Key, now: int) returns (count: int, resetAt: int)
      modifies `strikes
      ensures strikes == Drop(old(strikes), k, now)
      ensures count == Live(old(strikes), k, now) && resetAt == ResetAt(strikes, k)
    {
      if k !in strikes { return 0, 0; }
      var e := strikes[k];
      if now > e.resetAt {
        strikes := strikes - {k};
        return 0, 0;
      }
      return e.count, e.resetAt;
    }

    /** The release function of a grant is Release with the index it got. */
    method Begin(ip: string, user: string, now: int) returns (answer: Answer)
      modifies this
      ensures (State(), answer) == ThrottleSpec.Begin(old(State()), ip, user, now)
    {
      var ipKey, userKey := Ip(ip), User(user);
      var ipStrikes, ipReset := StrikesLocked(ipKey, now);
      var userStrikes, userReset := StrikesLocked(userKey, now);
      var ipBusy, userBusy := Busy(inflight, ipKey), Busy(inflight, userKey);
      if ipStrikes + ipBusy >= MAX_FAILS_PER_IP {
        if ipStrikes >= MAX_FAILS_PER_IP { return Refused(ipReset - now); }
        return Refused(INFLIGHT_RETRY);
      }
      if userStrikes + userBusy >= MAX_FAILS_PER_USER && (ipStrikes > 0 || ipBusy > 0) {
        if userStrikes >= MAX_FAILS_PER_USER { return Refused(userReset - now); }
        return Refused(INFLIGHT_RETRY);
      }
      inflight := inflight[ipKey := ipBusy + 1];
      inflight := inflight[userKey := userBusy + 1];
      given := given + [Reservation(ipKey, userKey, false)];
      answer := Granted;
    }

    method Leave(k: Key)
      modifies `inflight
      ensures inflight == Less(old(inflight), k)
    {
      inflight := inflight[k := Busy(inflight, k) - 1];
      if inflight[k] <= 0 { inflight := inflight - {k}; }
    }

    method AddStrike(k: Key, now: int)
      modifies `strikes
      ensures strikes == Strike(old(strikes), k, now)
    {
      if k !in strikes || now > strikes[k].resetAt {
        strikes := strikes[k := Entry(1, now + STRIKE_WINDOW)];
      } else {
        strikes := strikes[k := strikes[k].(count := strikes[k].count + 1)];
      }
    }

    /** Drops expired entries, in the map's own order. */
    method SweepExpired(now: int)
      modifies `strikes
      ensures strikes == Sweep(old(strikes), now)
    {
      if |strikes| <= SWEEP_OVER { return; }
      var todo := strikes.Keys;
      while todo != {}
        invariant todo <= strikes.Keys <= old(strikes).Keys
        invariant forall k | k in old(strikes) :: k in strikes <==> k in todo || !Expired(old(strikes), k, now)
        invariant forall k | k in strikes :: strikes[k] == old(strikes)[k]
        decreases |todo|
      {
        var k :| k in todo;
        todo := todo - {k};
        if now > strikes[k].resetAt { strikes := strikes - {k}; }
      }
    }

    /** finish, behind the once of the release function. */
    method Release(r: nat, failed: bool, now: int)
      requires r < |given|
      modifies this
      ensures State() == ThrottleSpec.Release(old(State()), r, failed, now)
    {
      if given[r].released { return; }
      given := given[r := given[r].(released := true)];
      Leave(given[r].ip);
      Leave(given[r].user);
      if !failed {
        strikes := strikes - {given[r].user};
        return;
      }
      SweepExpired(now);
      AddStrike(given[r].ip, now);
      AddStrike(given[r].user, now);
    }
  }
}
