/**
 Step-up verification kept in the login session: a WebAuthn finish leaves a short-lived marker, a verify
 request turns the marker (or a one-time code) into a verification, and gates let a request pass
 while the verification is fresh. Login sets the user of the session and keeps the other keys; logout
 clears all of them. A change of the session counts only if it is saved. Requests of one session are
 served one after another, and those without a user are refused.
*/
module StepUp {
  import opened Options

  datatype Method = TwoFactor | Passkey

  const SECURE_VERIFICATION_TIMEOUT := 300

  const PASSKEY_READY_TIMEOUT := 60

  /** The session keys. */
  datatype Keys = Keys(user: Option<int>, readyAt: Option<int>, verifiedAt: Option<int>, verifiedBy: Option<Method>)

  const NO_KEYS := Keys(None, None, None, None)

  /** A request, with the clock values it reads and what fails during it. */
  datatype Event =
    | Login(time: int, user: int, saved: bool)
    | Logout(time: int, saved: bool)
    | Finish(time: int, saved: bool)                                            // WebAuthn assertion accepted
    | VerifyCode(time: int, valid: bool, saved: bool)                            // one-time code
    | VerifyPasskey(consumed: int, time: int, enrolled: bool, consumeSaved: bool, saved: bool)
    | Gate(time: int, needed: Option<Method>, saved: bool)                       // None: any method will do
    | Clear(time: int, saved: bool)                                              // forced re-verification

  predicate Fresh(k: Keys, now: int) {
    k.verifiedAt.Some? && now - k.verifiedAt.value < SECURE_VERIFICATION_TIMEOUT
  }

  predicate Passes(k: Keys, now: int, needed: Option<Method>) {
    k.user.Some? && Fresh(k, now) && (needed.Some? ==> k.verifiedBy == needed)
  }

  predicate MarkerFresh(k: Keys, now: int) {
    k.readyAt.Some? && now - k.readyAt.value < PASSKEY_READY_TIMEOUT
  }

  predicate Verified(k: Keys, e: Event) {
    match e
    case VerifyCode(_, valid, saved) => k.user.Some? && valid && saved
    case VerifyPasskey(consumed, _, enrolled, consumeSaved, saved) =>
      k.user.Some? && enrolled && consumeSaved && saved && MarkerFresh(k, consumed)
    case _ => false
  }

  function MethodOf(e: Event): Method {
    if e.VerifyPasskey? then Passkey else TwoFactor
  }

  function Step(k: Keys, e: Event): Keys {
    match e
    case Login(_, user, saved) => if saved then Keys(Some(user), k.readyAt, k.verifiedAt, k.verifiedBy) else k
    case Logout(_, saved) => if saved then NO_KEYS else k
    case Finish(time, saved) => if saved && k.user.Some? then Keys(k.user, Some(time), None, None) else k
    case VerifyCode(time, _, _) => if Verified(k, e) then Keys(k.user, None, Some(time), Some(TwoFactor)) else k
    case VerifyPasskey(_, time, enrolled, consumeSaved, _) =>
      if Verified(k, e) then Keys(k.user, None, Some(time), Some(Passkey))
      else if k.user.Some? && enrolled && consumeSaved then Keys(k.user, None, k.verifiedAt, k.verifiedBy)
      else k
    case Gate(time, _, saved) =>
      if saved && k.user.Some? && !Fresh(k, time) then Keys(k.user, k.readyAt, None, None) else k
    case Clear(_, saved) => if saved then Keys(k.user, k.readyAt, None, None) else k
  }

  class Session {
    var user: Option<int>
    var readyAt: Option<int>
    var verifiedAt: Option<int>
    var verifiedBy: Option<Method>

    function Value(): Keys
      reads this
    {
      Keys(user, readyAt, verifiedAt, verifiedBy)
    }

    constructor ()
      ensures Value() == NO_KEYS
    {
      user, readyAt, verifiedAt, verifiedBy := None, None, None, None;
    }

    /** Writes the session back; a failed save leaves what was stored. */
    method Save(keys: Keys, saved: bool)
      modifies this
      ensures Value() == if saved then keys else old(Value())
    {
      if saved {
        user, readyAt, verifiedAt, verifiedBy := keys.user, keys.readyAt, keys.verifiedAt, keys.verifiedBy;
      }
    }

    method SetupLogin(time: int, id: int, saved: bool)
      modifies this
      ensures Value() == Step(old(Value()), Login(time, id, saved))
    {
      Save(Keys(Some(id), readyAt, verifiedAt, verifiedBy), saved);
    }

    method LogOut(time: int, saved: bool)
      modifies this
      ensures Value() == Step(old(Value()), Logout(time, saved))
    {
      Save(NO_KEYS, saved);
    }

    method PasskeyVerifyFinish(time: int, saved: bool)
      modifies this
      ensures Value() == Step(old(Value()), Finish(time, saved))
    {
      if user.None? {
        return;
      }
      Save(Keys(user, Some(time), None, None), saved);
    }

    method ConsumePasskeyReady(now: int, saved: bool) returns (ok: bool)
      modifies this
      ensures ok == (saved && MarkerFresh(old(Value()), now))
      ensures Value() == if saved then Keys(old(user), None, old(verifiedAt), old(verifiedBy)) else old(Value())
    {
      if readyAt.None? {
        return false;
      }
      var ready := readyAt.value;
      Save(Keys(user, None, verifiedAt, verifiedBy), saved);
      if !saved {
        return false;
      }
      return now - ready < PASSKEY_READY_TIMEOUT;
    }

    method SetSecureVerification(now: int, m: Method, saved: bool)
      modifies this
      ensures Value() == if saved then Keys(old(user), None, Some(now), Some(m)) else old(Value())
    {
      Save(Keys(user, None, Some(now), Some(m)), saved);
    }

    method UniversalVerify(e: Event) returns (ok: bool)
      requires e.VerifyCode? || e.VerifyPasskey?
      modifies this
      ensures ok == Verified(old(Value()), e) && Value() == Step(old(Value()), e)
    {
      if user.None? {
        return false;
      }
      var verified := e.VerifyCode? && e.valid;
      if e.VerifyPasskey? {
        if !e.enrolled {
          return false;
        }
        verified := ConsumePasskeyReady(e.consumed, e.consumeSaved);
      }
      if !verified {
        return false;
      }
      SetSecureVerification(e.time, MethodOf(e), e.saved);
      return e.saved;
    }

    method RequireVerification(now: int, needed: Option<Method>, saved: bool) returns (ok: bool)
      modifies this
      ensures ok == Passes(old(Value()), now, needed) && Value() == Step(old(Value()), Gate(now, needed, saved))
      ensures ok ==> Value() == old(Value())
      ensures old(user).Some? && saved && (old(verifiedAt).None? || now - old(verifiedAt).value >= 300) ==>
                verifiedAt == None && verifiedBy == None && readyAt == old(readyAt) && user == old(user)
    {
      if user.None? {
        return false;
      }
      if verifiedAt.None? || now - verifiedAt.value >= SECURE_VERIFICATION_TIMEOUT {
        Save(Keys(user, readyAt, None, None), saved);
        return false;
      }
      if needed.Some? && verifiedBy != needed {
        return false;
      }
      return true;
    }
  }

  // ---- runs, described by their events alone

  function Run(es: seq<Event>, n: nat): Keys
    requires n <= |es|
  {
    if n == 0 then NO_KEYS else Step(Run(es, n - 1), es[n - 1])
  }

  /** The user after `n` events: the last login not followed by a logout. */
  function UserAt(es: seq<Event>, n: nat): Option<int>
    requires n <= |es|
  {
    if n == 0 then None
    else if es[n - 1].Login? && es[n - 1].saved then Some(es[n - 1].user)
    else if LogsOut(es[n - 1]) then None
    else UserAt(es, n - 1)
  }

  predicate LogsOut(e: Event) {
    e.Logout? && e.saved
  }

  /** Event `i` removes the marker, whether or not there is one. */
  predicate Takes(es: seq<Event>, i: nat)
    requires i < |es|
  {
    var e := es[i];
    || LogsOut(e)
    || (UserAt(es, i).Some? && e.VerifyCode? && e.valid && e.saved)
    || (UserAt(es, i).Some? && e.VerifyPasskey? && e.enrolled && e.consumeSaved)
  }

  predicate Marks(es: seq<Event>, i: nat)
    requires i < |es|
  {
    es[i].Finish? && es[i].saved && UserAt(es, i).Some?
  }

  /** The finish whose marker is still there after `n` events. */
  function Marker(es: seq<Event>, n: nat): (f: Option<nat>)
    requires n <= |es|
    ensures f.Some? ==> f.value < n && Marks(es, f.value)
    ensures f.Some? ==> forall j :: f.value < j < n ==> !Marks(es, j) && !Takes(es, j)
    ensures f.None? ==> forall i :: 0 <= i < n && Marks(es, i) ==> exists j :: i < j < n && Takes(es, j)
  {
    if n == 0 then None
    else if Marks(es, n - 1) then Some(n - 1)
    else if Takes(es, n - 1) then None
    else Marker(es, n - 1)
  }

  /** Event `v` verifies: a valid code, or a passkey request less than 60 seconds after its own finish. */
  predicate Confirms(es: seq<Event>, v: nat)
    requires v < |es|
  {
    match es[v]
    case VerifyCode(_, valid, saved) => UserAt(es, v).Some? && valid && saved
    case VerifyPasskey(consumed, _, enrolled, consumeSaved, saved) =>
      && UserAt(es, v).Some? && enrolled && consumeSaved && saved && Marker(es, v).Some?
      && consumed - es[Marker(es, v).value].time < 60
    case _ => false
  }

  predicate Revokes(es: seq<Event>, i: nat)
    requires i < |es|
  {
    Marks(es, i) || LogsOut(es[i]) || (es[i].Clear? && es[i].saved)
  }

  /** The latest verification after `n` events that no later finish, clear or logout revoked. */
  function Standing(es: seq<Event>, n: nat): (v: Option<nat>)
    requires n <= |es|
    ensures v.Some? ==> v.value < n && Confirms(es, v.value)
    ensures v.Some? ==> forall j :: v.value < j < n ==> !Confirms(es, j) && !Revokes(es, j)
    ensures v.None? ==> forall i :: 0 <= i < n && Confirms(es, i) ==> exists j :: i < j < n && Revokes(es, j)
  {
    if n == 0 then None
    else if Confirms(es, n - 1) then Some(n - 1)
    else if Revokes(es, n - 1) then None
    else Standing(es, n - 1)
  }

  function Begin(e: Event): int {
    if e.VerifyPasskey? then e.consumed else e.time
  }

  /** The clock never runs backwards. */
  ghost predicate Clocked(es: seq<Event>) {
    && (forall i :: 0 <= i < |es| ==> Begin(es[i]) <= es[i].time)
    && (forall i, j :: 0 <= i < j < |es| ==> es[i].time <= Begin(es[j]))
  }

  lemma {:induction false} UserIsLoggedIn(es: seq<Event>, n: nat)
    requires n <= |es|
    ensures Run(es, n).user == UserAt(es, n)
  {
    if n > 0 {
      UserIsLoggedIn(es, n - 1);
    }
  }

  lemma {:induction false} MarkerIsReadyAt(es: seq<Event>, n: nat)
    requires n <= |es|
    ensures Run(es, n).readyAt == (if Marker(es, n).Some? then Some(es[Marker(es, n).value].time) else None)
    ensures n < |es| ==> (Verified(Run(es, n), es[n]) <==> Confirms(es, n))
  {
    UserIsLoggedIn(es, n);
    if n > 0 {
      UserIsLoggedIn(es, n - 1);
      MarkerIsReadyAt(es, n - 1);
    }
  }

  /** The verification in the session is the standing one, or that one has expired and was cleared. */
  ghost predicate Tracks(es: seq<Event>, n: nat, k: Keys)
    requires n <= |es|
  {
    match Standing(es, n)
    case None => k.verifiedAt.None? && k.verifiedBy.None?
    case Some(v) =>
      || (k.verifiedAt == Some(es[v].time) && k.verifiedBy == Some(MethodOf(es[v])))
      || (k.verifiedAt.None? && k.verifiedBy.None? && es[n - 1].time - es[v].time >= SECURE_VERIFICATION_TIMEOUT)
  }

  lemma {:induction false} RunTracks(es: seq<Event>, n: nat)
    requires Clocked(es) && n <= |es|
    ensures Tracks(es, n, Run(es, n))
  {
    if n > 0 {
      RunTracks(es, n - 1);
      MarkerIsReadyAt(es, n - 1);
      UserIsLoggedIn(es, n - 1);
      StepTracks(es, n, Run(es, n - 1));
    }
  }

  lemma StepTracks(es: seq<Event>, n: nat, k: Keys)
    requires Clocked(es) && 0 < n <= |es| && Tracks(es, n - 1, k) && k.user == UserAt(es, n - 1)
    requires Verified(k, es[n - 1]) <==> Confirms(es, n - 1)
    ensures Tracks(es, n, Step(k, es[n - 1]))
  {
    match es[n - 1]
    case Login(_, _, _) =>
    case Logout(_, _) =>
    case Finish(_, _) =>
    case VerifyCode(_, _, _) =>
    case VerifyPasskey(_, _, _, _, _) =>
    case Gate(_, _, _) =>
    case Clear(_, _) =>
  }

  /** Someone stays logged in as long as a verification stands. */
  lemma {:induction false} StandingHasUser(es: seq<Event>, n: nat)
    requires n <= |es| && Standing(es, n).Some?
    ensures UserAt(es, n).Some?
  {
    if !Confirms(es, n - 1) {
      StandingHasUser(es, n - 1);
    }
  }

  /** A gate passes exactly when a verification by the needed method stands and is younger than 300
      seconds: in terms of the events of the run, never of the session keys. */
  lemma GatePassesIff(es: seq<Event>, n: nat, now: int, needed: Option<Method>)
    requires Clocked(es) && n <= |es| && (n > 0 ==> es[n - 1].time <= now)
    ensures Passes(Run(es, n), now, needed) <==>
            && Standing(es, n).Some?
            && now - es[Standing(es, n).value].time < 300
            && (needed.Some? ==> needed == Some(MethodOf(es[Standing(es, n).value])))
  {
    RunTracks(es, n);
    UserIsLoggedIn(es, n);
    if Standing(es, n).Some? {
      StandingHasUser(es, n);
    }
  }

  /** Behind every passkey-gated pass are a passkey verify and its own finish. */
  lemma PasskeyGateIsBacked(es: seq<Event>, n: nat, now: int)
    requires Clocked(es) && n <= |es| && (n > 0 ==> es[n - 1].time <= now)
    requires Passes(Run(es, n), now, Some(Passkey))
    ensures exists f: nat, v: nat :: f < v < n && Backs(es, f, v) && Latest(es, n, v, now)
  {
    GatePassesIff(es, n, now, Some(Passkey));
    var v := Standing(es, n).value;
    assert Backs(es, Marker(es, v).value, v) && Latest(es, n, v, now);
  }

  /** Event `v` is the latest verification, nothing revoked it, and it is younger than 300 seconds. */
  ghost predicate Latest(es: seq<Event>, n: nat, v: nat, now: int)
    requires v < n <= |es|
  {
    && now - es[v].time < 300
    && forall j :: v < j < n ==> !Confirms(es, j) && !Revokes(es, j)
  }

  ghost predicate Backs(es: seq<Event>, f: nat, v: nat)
    requires f < v < |es|
  {
    && Marks(es, f) && es[v].VerifyPasskey? && Confirms(es, v) && Marker(es, v) == Some(f)
    && es[v].consumed - es[f].time < 60
  }

  /** Each finish backs at most one verify. */
  lemma BacksOnce(es: seq<Event>, f: nat, v: nat, w: nat)
    requires f < v < |es| && f < w < |es| && Backs(es, f, v) && Backs(es, f, w)
    ensures v == w
  {
    assert Takes(es, v) && Takes(es, w);
  }

  // ---- how old the finish may be

  /** In the run `es`, the finish `f` backs the verify `v`, which is stamped `delay` after it consumed the
      marker. */
  ghost predicate BackedWithDelay(es: seq<Event>, f: nat, v: nat, delay: nat) {
    Clocked(es) && f < v < |es| && Backs(es, f, v) && es[v].time == es[v].consumed + delay
  }

  /** The marker is younger than 60 seconds when it is consumed; the stamp is read from the clock again. */
  lemma StampBound(es: seq<Event>, f: nat, v: nat, delay: nat)
    requires BackedWithDelay(es, f, v, delay)
    ensures es[f].time <= es[v].time < es[f].time + 60 + delay
  {
  }

  function Ticking(user: int, delay: nat): seq<Event> {
    [Login(0, user, true), Finish(0, true), VerifyPasskey(59, 59 + delay, true, true, true)]
  }

  /** The bound is reached: a marker consumed in its last second, stamped `delay` later. */
  lemma StampBoundReached(user: int, delay: nat)
    ensures var es := Ticking(user, delay);
            BackedWithDelay(es, 1, 2, delay) && es[2].time - es[1].time == 59 + delay
  {
    var es := Ticking(user, delay);
    assert UserAt(es, 1) == Some(user);
    assert UserAt(es, 2) == UserAt(es, 1);
    assert Marker(es, 2) == Some(1);
  }

  /** The stamp is within 60 seconds of the finish in every run exactly when no time passes between the two
      clock readings. */
  lemma StampWithinMinuteIff(delay: nat)
    ensures delay == 0 <==>
            forall es: seq<Event>, f: nat, v: nat ::
              BackedWithDelay(es, f, v, delay) ==> es[v].time - es[f].time < 60
  {
    StampBoundReached(0, delay);
    if delay == 0 {
      forall es: seq<Event>, f: nat, v: nat | BackedWithDelay(es, f, v, delay)
        ensures es[v].time - es[f].time < 60
      {
        StampBound(es, f, v, delay);
      }
    }
  }

  // ---- whose verification it is

  /** The last login among the events from `lo` to `n`. */
  function LoginSince(es: seq<Event>, lo: nat, n: nat): (l: Option<nat>)
    requires lo <= n <= |es|
    ensures l.Some? ==> lo <= l.value < n && es[l.value].Login? && es[l.value].saved
    ensures forall j :: (if l.Some? then l.value + 1 else lo) <= j < n ==> !(es[j].Login? && es[j].saved)
    decreases n
  {
    if n == lo then None
    else if es[n - 1].Login? && es[n - 1].saved then Some(n - 1)
    else LoginSince(es, lo, n - 1)
  }

  lemma {:induction false} UserSince(es: seq<Event>, lo: nat, n: nat)
    requires lo <= n <= |es| && forall j :: lo <= j < n ==> !LogsOut(es[j])
    ensures UserAt(es, n) ==
            if LoginSince(es, lo, n).Some? then Some(es[LoginSince(es, lo, n).value].user) else UserAt(es, lo)
    decreases n
  {
    if lo < n {
      UserSince(es, lo, n - 1);
    }
  }

  lemma StandingStays(es: seq<Event>, n: nat)
    requires n <= |es| && Standing(es, n).Some?
    ensures forall j :: Standing(es, n).value <= j < n ==> !LogsOut(es[j])
  {
    var v := Standing(es, n).value;
    forall j | v <= j < n
      ensures !LogsOut(es[j])
    {
      assert j == v || !Revokes(es, j);
    }
  }

  lemma MarkerStays(es: seq<Event>, n: nat)
    requires n <= |es| && Marker(es, n).Some?
    ensures forall j :: Marker(es, n).value <= j < n ==> !LogsOut(es[j])
  {
    var f := Marker(es, n).value;
    forall j | f <= j < n
      ensures !LogsOut(es[j])
    {
      assert j == f || !Takes(es, j);
    }
  }

  /** The last login since event `lo`, if there is one, is by the user of that time. */
  predicate NoOtherLogin(es: seq<Event>, lo: nat, n: nat)
    requires lo <= n <= |es|
  {
    var l := LoginSince(es, lo, n);
    l.Some? ==> Some(es[l.value].user) == UserAt(es, lo)
  }

  /** A pass is by the user who verified exactly when the last login since the verification, if any, was
      theirs: login keeps the verification of the session. */
  lemma PassBelongsIff(es: seq<Event>, n: nat)
    requires n <= |es| && Standing(es, n).Some?
    ensures var v := Standing(es, n).value; UserAt(es, n) == UserAt(es, v) <==> NoOtherLogin(es, v, n)
  {
    StandingStays(es, n);
    UserSince(es, Standing(es, n).value, n);
  }

  /** The same for the finish behind a passkey verify. */
  lemma FinishBelongsIff(es: seq<Event>, f: nat, v: nat)
    requires f < v < |es| && Backs(es, f, v)
    ensures UserAt(es, v) == UserAt(es, f) <==> NoOtherLogin(es, f, v)
  {
    MarkerStays(es, v);
    UserSince(es, f, v);
  }

  /** Logins happen only in sessions without a user, or by the same user again. */
  ghost predicate NoSwitch(es: seq<Event>) {
    forall i :: 0 <= i < |es| && es[i].Login? && es[i].saved && UserAt(es, i).Some? ==> UserAt(es, i) == Some(es[i].user)
  }

  lemma {:induction false} NoSwitchSameUser(es: seq<Event>, lo: nat, n: nat)
    requires NoSwitch(es) && lo <= n <= |es| && UserAt(es, lo).Some? && forall j :: lo <= j < n ==> !LogsOut(es[j])
    ensures UserAt(es, n) == UserAt(es, lo)
    decreases n
  {
    if lo < n {
      NoSwitchSameUser(es, lo, n - 1);
    }
  }

  /** Without such a switch, one user finished, verified and passed. */
  lemma OneUserThroughout(es: seq<Event>, n: nat)
    requires NoSwitch(es) && n <= |es| && Standing(es, n).Some?
    ensures var v := Standing(es, n).value;
            && UserAt(es, n) == UserAt(es, v)
            && (es[v].VerifyPasskey? ==> UserAt(es, Marker(es, v).value) == UserAt(es, v))
  {
    var v := Standing(es, n).value;
    StandingStays(es, n);
    NoSwitchSameUser(es, v, n);
    if es[v].VerifyPasskey? {
      MarkerStays(es, v);
      NoSwitchSameUser(es, Marker(es, v).value, v);
    }
  }

  /** A second login without a logout keeps the verification of the first user. */
  lemma SwitchKeepsVerification(a: int, b: int)
    requires a != b
    ensures var es := [Login(0, a, true), VerifyCode(0, true, true), Login(0, b, true)];
            && Clocked(es) && Passes(Run(es, 3), 0, None)
            && Standing(es, 3) == Some(1) && UserAt(es, 1) == Some(a) && UserAt(es, 3) == Some(b)
  {
    var es := [Login(0, a, true), VerifyCode(0, true, true), Login(0, b, true)];
    assert UserAt(es, 1) == Some(a);
    assert Confirms(es, 1) && Standing(es, 2) == Some(1);
    assert !Confirms(es, 2) && !Revokes(es, 2);
    assert Standing(es, 3) == Some(1);
    GatePassesIff(es, 3, 0, None);
  }
}
