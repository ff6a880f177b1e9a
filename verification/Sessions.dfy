/**
 * Login sessions that expire and the database objects that go with them, as atomic steps
 * (SimpleUser.java, SimpleUserManager.java, SimpleDBManager.java, NodeServiceGrpc.java).
 */
module Sessions {
  import opened Wrappers

  const TIME_TO_LIVE_SECONDS := 60

  /** What the node remembers about its users. */
  datatype State<U(==)> = State(
    deque: seq<U>, loggedIn: set<U>, lastLogin: map<U, int>, objects: map<U, map<string, string>>, now: int)

  /** The queue without its first occurrence of u. */
  function Remove<U(==)>(q: seq<U>, u: U): (r: seq<U>)
    ensures |r| == if u in q then |q| - 1 else |q|
  {
    if q == [] then [] else if q[0] == u then q[1..] else [q[0]] + Remove(q[1..], u)
  }

  /** A login, or a login renewed, moves the user to the end of the queue. */
  function Login<U(==)>(s: State<U>, u: U, time: int): State<U>
  {
    State(Remove(s.deque, u) + [u], s.loggedIn + {u}, s.lastLogin[u := time], s.objects, time)
  }

  /** A logout drops the user's objects as well. */
  function Logout<U(==)>(s: State<U>, u: U): State<U>
  {
    s.(deque := Remove(s.deque, u), loggedIn := s.loggedIn - {u}, objects := s.objects - {u})
  }

  function ObjectsOf<U(==)>(objects: map<U, map<string, string>>, u: U): map<string, string>
  {
    if u in objects then objects[u] else map[]
  }

  function Register<U(==)>(
    objects: map<U, map<string, string>>, u: U, requested: string, actual: string): map<U, map<string, string>>
  {
    objects[u := ObjectsOf(objects, u)[requested := actual]]
  }

  predicate Expired(lastLogin: int, time: int)
  {
    lastLogin < time - TIME_TO_LIVE_SECONDS
  }

  /** Whether a check of the queue's head at `time` finds it expired. */
  predicate HeadExpired<U(==)>(s: State<U>, time: int)
  {
    s.deque != [] && s.deque[0] in s.lastLogin && Expired(s.lastLogin[s.deque[0]], time)
  }

  /** One check of the cleaner. */
  function Check<U(==)>(s: State<U>, time: int): State<U>
  {
    if HeadExpired(s, time) then Logout(s, s.deque[0]).(now := time) else s.(now := time)
  }

  /** The steps a node takes; the requests log their user in first, whether or not they then succeed. */
  datatype Step<U> =
    | LoginStep(u: U)
    | LogoutStep(u: U)
    | CreateStep(u: U, requested: string, actual: string, created: bool)
    | TranslateStep(u: U, name: string)
    | CheckStep
    | TickStep

  /** A step at a moment no earlier than the previous one. */
  function Next<U(==)>(s: State<U>, step: Step<U>, time: int): State<U>
  {
    match step
    case LoginStep(u) => Login(s, u, time)
    case LogoutStep(u) => Logout(s, u).(now := time)
    case CreateStep(u, requested, actual, created) =>
      var l := Login(s, u, time);
      if created then l.(objects := Register(l.objects, u, requested, actual)) else l
    case TranslateStep(u, name) =>
      var l := Login(s, u, time);
      l.(objects := l.objects[u := ObjectsOf(l.objects, u)])
    case CheckStep => Check(s, time)
    case TickStep => s.(now := time)
  }

  /** What a translation request is answered with. */
  function Lookup<U(==)>(s: State<U>, u: U, name: string): Option<string>
  {
    var names := ObjectsOf(s.objects, u);
    if name in names then Some(names[name]) else None
  }

  // ----- the invariant -----

  ghost predicate NoRepeats<U>(q: seq<U>)
  {
    forall i, j :: 0 <= i < j < |q| ==> q[i] != q[j]
  }

  /**
   * The queue holds exactly the logged-in users, each once, in the order of their last logins, none later than now;
   * and only logged-in users have objects.
   */
  ghost predicate Inv<U>(s: State<U>)
  {
    NoRepeats(s.deque) &&
    (forall u :: u in s.deque ==> u in s.loggedIn) &&
    (forall u :: u in s.loggedIn ==> u in s.deque) &&
    s.loggedIn <= s.lastLogin.Keys &&
    (forall i, j :: 0 <= i < j < |s.deque| ==> s.lastLogin[s.deque[i]] <= s.lastLogin[s.deque[j]]) &&
    (forall u :: u in s.loggedIn ==> s.lastLogin[u] <= s.now) &&
    s.objects.Keys <= s.loggedIn
  }

  lemma {:induction false} RemoveKeepsOrder<U>(q: seq<U>, u: U)
    requires NoRepeats(q)
    ensures NoRepeats(Remove(q, u))
    ensures forall x :: x in Remove(q, u) <==> x in q && x != u
  {
    if q != [] {
      assert q == [q[0]] + q[1..];
      var rest := Remove(q[1..], u);
      RemoveKeepsOrder(q[1..], u);
      if q[0] == u {
        assert forall i :: 1 <= i < |q| ==> q[i] != u;
      } else {
        forall i, j | 0 <= i < j < |rest| + 1 ensures ([q[0]] + rest)[i] != ([q[0]] + rest)[j] {
          assert rest[j - 1] in rest;
        }
      }
    }
  }

  ghost predicate Ordered<U>(q: seq<U>, key: map<U, int>)
  {
    (forall u :: u in q ==> u in key) && forall i, j :: 0 <= i < j < |q| ==> key[q[i]] <= key[q[j]]
  }

  lemma {:induction false} RemoveOrdered<U>(q: seq<U>, u: U, key: map<U, int>)
    requires NoRepeats(q) && Ordered(q, key)
    ensures Ordered(Remove(q, u), key)
  {
    RemoveKeepsOrder(q, u);
    if q != [] && q[0] != u {
      var rest := Remove(q[1..], u);
      RemoveOrdered(q[1..], u, key);
      RemoveKeepsOrder(q[1..], u);
      forall i, j | 0 <= i < j < |rest| + 1
        ensures key[([q[0]] + rest)[i]] <= key[([q[0]] + rest)[j]]
      {
        assert rest[j - 1] in rest;
        if i > 0 { assert rest[i - 1] in rest; }
      }
    }
  }

  lemma OrderedUpdate<U>(q: seq<U>, u: U, key: map<U, int>, time: int)
    requires Ordered(q, key) && u !in q && forall x :: x in q ==> key[x] <= time
    ensures Ordered(q + [u], key[u := time])
  {
    var r, k := q + [u], key[u := time];
    forall i, j | 0 <= i < j < |r| ensures k[r[i]] <= k[r[j]] {
      assert r[i] in q;
    }
  }

  lemma LoginInv<U>(s: State<U>, u: U, time: int)
    requires Inv(s) && s.now <= time
    ensures Inv(Login(s, u, time))
  {
    RemoveKeepsOrder(s.deque, u);
    RemoveOrdered(s.deque, u, s.lastLogin);
    OrderedUpdate(Remove(s.deque, u), u, s.lastLogin, time);
    var t := Login(s, u, time);
    hide Remove;
    assert Ordered(t.deque, t.lastLogin);
    assert forall x :: x in t.deque <==> x in s.deque || x == u;
  }

  lemma LogoutInv<U>(s: State<U>, u: U, time: int)
    requires Inv(s) && s.now <= time
    ensures Inv(Logout(s, u).(now := time))
  {
    RemoveKeepsOrder(s.deque, u);
    RemoveOrdered(s.deque, u, s.lastLogin);
    assert Ordered(Remove(s.deque, u), s.lastLogin);
  }

  lemma NextInv<U>(s: State<U>, step: Step<U>, time: int)
    requires Inv(s) && s.now <= time
    ensures Inv(Next(s, step, time)) && Next(s, step, time).now == time
  {
    match step
    case LoginStep(u) => LoginInv(s, u, time);
    case LogoutStep(u) => LogoutInv(s, u, time);
    case CreateStep(u, requested, actual, created) => LoginInv(s, u, time);
    case TranslateStep(u, name) => LoginInv(s, u, time);
    case CheckStep => if HeadExpired(s, time) { LogoutInv(s, s.deque[0], time); }
    case TickStep =>
  }

  lemma HeadHasLoggedIn<U>(s: State<U>)
    requires Inv(s) && s.deque != []
    ensures s.deque[0] in s.lastLogin
  {
    assert s.deque[0] in s.deque;
  }

  // ----- runs -----

  datatype Event<U> = Event(step: Step<U>, time: int)

  function Run<U(==)>(s: State<U>, events: seq<Event<U>>): State<U>
  {
    if events == [] then s
    else
      var last := events[|events| - 1];
      Next(Run(s, events[..|events| - 1]), last.step, last.time)
  }

  /** The clock never runs backwards. */
  ghost predicate Clocked<U>(start: int, events: seq<Event<U>>)
  {
    events == [] ||
    var k := |events| - 1;
    Clocked(start, events[..k]) && EndTime(start, events[..k]) <= events[k].time
  }

  function EndTime<U>(start: int, events: seq<Event<U>>): int
  {
    if events == [] then start else events[|events| - 1].time
  }

  function Initial<U(==)>(now: int): State<U>
  {
    State([], {}, map[], map[], now)
  }

  /** In every run, after every step, the invariant holds. */
  lemma {:induction false} EveryRun<U>(start: int, events: seq<Event<U>>)
    requires Clocked(start, events)
    ensures Inv(Run(Initial<U>(start), events))
    ensures Run(Initial<U>(start), events).now == EndTime(start, events)
  {
    if events != [] {
      var k := |events| - 1;
      var prefix := events[..k];
      EveryRun(start, prefix);
      NextInv(Run(Initial<U>(start), prefix), events[k].step, events[k].time);
    }
  }

  /** A check that finds the head in time certifies the whole queue: that is why the cleaner looks no further. */
  lemma CheckCertifies<U>(s: State<U>, time: int)
    requires Inv(s) && !HeadExpired(s, time)
    ensures forall u :: u in s.loggedIn ==> time - s.lastLogin[u] <= 60
  {
    forall u | u in s.loggedIn ensures time - s.lastLogin[u] <= 60 {
      assert u in s.deque;
      var i :| 0 <= i < |s.deque| && s.deque[i] == u;
      assert s.lastLogin[s.deque[0]] <= s.lastLogin[u];
    }
  }

  /** A check leaves the queue alone while the head's login is at most 60 seconds old, and otherwise takes the head. */
  lemma CheckIsExact<U>(s: State<U>, time: int)
    requires Inv(s) && s.deque != []
    ensures s.deque[0] in s.lastLogin
    ensures Check(s, time).deque == if time - s.lastLogin[s.deque[0]] <= 60 then s.deque else s.deque[1..]
  {
    HeadHasLoggedIn(s);
  }

  // ----- when users were last heard of -----

  /** Whether a step is a login or a request of u. */
  predicate Hears<U(==)>(step: Step<U>, u: U)
  {
    match step
    case LoginStep(x) => x == u
    case CreateStep(x, _, _, _) => x == u
    case TranslateStep(x, _) => x == u
    case _ => false
  }

  /** Event i is the last login or request of u in the run. */
  ghost predicate LastHeard<U>(events: seq<Event<U>>, u: U, i: nat)
  {
    i < |events| && Hears(events[i].step, u) && forall j :: i < j < |events| ==> !Hears(events[j].step, u)
  }

  lemma LoginTimeNext<U>(s: State<U>, step: Step<U>, time: int, u: U)
    ensures var kept := Next(s, step, time).lastLogin;
            if Hears(step, u) then u in kept && kept[u] == time
            else (u in kept <==> u in s.lastLogin) && (u in kept ==> kept[u] == s.lastLogin[u])
  {}

  lemma LastHeardNext<U>(events: seq<Event<U>>, u: U, i: nat)
    requires events != []
    ensures var k := |events| - 1;
            LastHeard(events, u, i) <==>
            if i == k then Hears(events[k].step, u) else LastHeard(events[..k], u, i) && !Hears(events[k].step, u)
  {
    hide Hears;
  }

  /** In every run the login time kept for a user is that of the last login or request, if there was one. */
  lemma {:induction false} LoginTimeIsLastHeard<U>(start: int, events: seq<Event<U>>, u: U) returns (i: int)
    ensures forall j: nat :: LastHeard(events, u, j) <==> j == i
    ensures var s := Run(Initial<U>(start), events);
            (u in s.lastLogin <==> i >= 0) && (i >= 0 ==> i < |events| && s.lastLogin[u] == events[i].time)
  {
    hide Hears;
    i := -1;
    if events != [] {
      var k := |events| - 1;
      var s := Run(Initial<U>(start), events[..k]);
      i := LoginTimeIsLastHeard(start, events[..k], u);
      LoginTimeNext(s, events[k].step, events[k].time, u);
      forall j: nat ensures LastHeard(events, u, j) <==>
                            if j == k then Hears(events[k].step, u)
                            else LastHeard(events[..k], u, j) && !Hears(events[k].step, u)
      {
        LastHeardNext(events, u, j);
      }
      hide Next, LastHeard;
      i := if Hears(events[k].step, u) then k else i;
    }
  }

  /** So after any run a pass of the cleaner keeps only users heard of in the 60 seconds before its last check. */
  lemma PassKeepsTheRecent<U>(start: int, events: seq<Event<U>>, ts: seq<int>, u: U) returns (i: int)
    requires Clocked(start, events)
    requires var s := Run(Initial<U>(start), events); Rising(s.now, ts) && |ts| > |s.deque|
    ensures var s := Run(Initial<U>(start), events);
            var (t, n) := Pass(s, ts);
            u in t.deque ==> i >= 0 && LastHeard(events, u, i) && (n == 0 || ts[n - 1] - events[i].time <= 60)
    ensures var s := Run(Initial<U>(start), events);
            var (t, n) := Pass(s, ts);
            u in s.deque && u !in t.deque ==>
              i >= 0 && LastHeard(events, u, i) && n > 0 && ts[n - 1] - events[i].time > 60
  {
    var s := Run(Initial<U>(start), events);
    EveryRun(start, events);
    i := LoginTimeIsLastHeard(start, events, u);
    hide LastHeard, Run;
    PassIsExact(s, ts);
    hide Pass;
  }

  /** A logged-out user's names are gone, and nobody else's are. */
  lemma LogoutForgets<U>(s: State<U>, u: U, name: string)
    ensures Lookup(Logout(s, u), u, name) == None
    ensures forall v :: v != u ==> Lookup(Logout(s, u), v, name) == Lookup(s, v, name)
  {
    forall v | v != u ensures Lookup(Logout(s, u), v, name) == Lookup(s, v, name) {
      assert v in s.objects - {u} <==> v in s.objects;
    }
  }

  /** In any run, a name is answered only while its user is logged in. */
  lemma NamesNeedLogin<U>(start: int, events: seq<Event<U>>, u: U, name: string)
    requires Clocked(start, events)
    ensures var s := Run(Initial<U>(start), events);
            Lookup(s, u, name) != None ==> u in s.deque
  {
    EveryRun(start, events);
  }

  // ----- what names translate to -----

  /** A request of u that registers the name. */
  predicate Creates<U(==)>(step: Step<U>, u: U, name: string)
  {
    step.CreateStep? && step.u == u && step.requested == name && step.created
  }

  /** A step in state s that ends u's session: a logout, or a check that finds u at the head and expired. */
  predicate Ends<U(==)>(s: State<U>, step: Step<U>, time: int, u: U)
  {
    step == LogoutStep(u) || (step.CheckStep? && HeadExpired(s, time) && s.deque[0] == u)
  }

  lemma LookupNext<U>(s: State<U>, step: Step<U>, time: int, u: U, name: string)
    ensures Lookup(Next(s, step, time), u, name) ==
            if Creates(step, u, name) then Some(step.actual)
            else if Ends(s, step, time, u) then None
            else Lookup(s, u, name)
  {
    match step
    case LoginStep(x) =>
    case LogoutStep(x) => LogoutForgets(s, x, name);
    case CreateStep(x, requested, actual, created) =>
    case TranslateStep(x, requested) =>
    case CheckStep => if HeadExpired(s, time) { LogoutForgets(s, s.deque[0], name); }
    case TickStep =>
  }

  /** Event i registers the name, and nothing later in the run registers it again or ends u's session. */
  ghost predicate Stands<U>(start: int, events: seq<Event<U>>, u: U, name: string, i: nat)
  {
    i < |events| && Creates(events[i].step, u, name) &&
    forall j :: i < j < |events| ==>
      !Creates(events[j].step, u, name) &&
      !Ends(Run(Initial<U>(start), events[..j]), events[j].step, events[j].time, u)
  }

  /** A registration stands after one more event exactly if it is that event, or stood before and is spared by it. */
  lemma StandsNext<U>(start: int, events: seq<Event<U>>, u: U, name: string, i: nat)
    requires events != []
    ensures var k := |events| - 1;
            var ends := Ends(Run(Initial<U>(start), events[..k]), events[k].step, events[k].time, u);
            Stands(start, events, u, name, i) <==>
            if i == k then Creates(events[k].step, u, name)
            else Stands(start, events[..k], u, name, i) && !Creates(events[k].step, u, name) && !ends
  {
    hide Run, Ends, Creates;
    var k := |events| - 1;
    assert forall j :: 0 <= j <= k ==> events[..k][..j] == events[..j];
  }

  /** The registration that stands, or -1. */
  lemma {:induction false} Standing<U>(start: int, events: seq<Event<U>>, u: U, name: string) returns (i: int)
    ensures forall j: nat :: Stands(start, events, u, name, j) <==> j == i
    ensures -1 <= i < |events| && (i >= 0 ==> events[i].step.CreateStep?)
    ensures Lookup(Run(Initial<U>(start), events), u, name) ==
            if i >= 0 then Some(events[i].step.actual) else None
  {
    hide Lookup, Ends;
    if events == [] {
      NothingRegistered<U>(start, u, name);
      i := -1;
    } else {
      var k := |events| - 1;
      var s := Run(Initial<U>(start), events[..k]);
      i := Standing(start, events[..k], u, name);
      LookupNext(s, events[k].step, events[k].time, u, name);
      var registers := Creates(events[k].step, u, name);
      var ends := Ends(s, events[k].step, events[k].time, u);
      forall j: nat ensures Stands(start, events, u, name, j) <==>
                            if j == k then registers
                            else Stands(start, events[..k], u, name, j) && !registers && !ends
      {
        StandsNext(start, events, u, name, j);
      }
      hide Run, Stands, Next;
      i := if registers then k else if ends then -1 else i;
    }
  }

  /**
   * In every run a name translates exactly if its user has registered it in a session that has not ended since, by
   * logout or by expiry, and it translates to what it was registered for last.
   */
  lemma TranslatesWhatStands<U>(start: int, events: seq<Event<U>>, u: U, name: string)
    ensures var found := Lookup(Run(Initial<U>(start), events), u, name);
            (found.Some? <==> exists i: nat :: Stands(start, events, u, name, i)) &&
            (forall i: nat :: Stands(start, events, u, name, i) ==>
               i < |events| && events[i].step.CreateStep? && found == Some(events[i].step.actual))
  {
    hide Run, Stands, Lookup;
    var i := Standing(start, events, u, name);
    if i >= 0 { assert Stands(start, events, u, name, i); }
  }

  lemma NothingRegistered<U>(start: int, u: U, name: string)
    ensures Lookup(Initial<U>(start), u, name) == None
  {}

  // ----- a pass of the cleaner -----

  /** A pass checks the head at times ts until it is in time or nobody is left. */
  function Pass<U(==)>(s: State<U>, ts: seq<int>): (r: (State<U>, nat))
    ensures r.1 <= |ts|
    decreases |ts|
  {
    if ts == [] || s.deque == [] then (s, 0)
    else if HeadExpired(s, ts[0]) then
      var (t, n) := Pass(Check(s, ts[0]), ts[1..]);
      (t, n + 1)
    else (Check(s, ts[0]), 1)
  }

  /** A pass goes on with the head it has left. */
  lemma PassNext<U>(s: State<U>, ts: seq<int>)
    requires ts != [] && s.deque != []
    ensures var c := Check(s, ts[0]);
            |c.deque| == |s.deque| - (if HeadExpired(s, ts[0]) then 1 else 0) && c.now == ts[0] &&
            Pass(s, ts) == if HeadExpired(s, ts[0]) && c.deque != []
                           then (Pass(c, ts[1..]).0, Pass(c, ts[1..]).1 + 1) else (c, 1)
  {}

  lemma PassOfNobody<U>(s: State<U>, ts: seq<int>)
    ensures s.deque == [] ==> Pass(s, ts) == (s, 0)
  {}

  ghost predicate Rising(start: int, ts: seq<int>)
    decreases |ts|
  {
    ts == [] || (start <= ts[0] && Rising(ts[0], ts[1..]))
  }

  lemma {:induction false} RisingTo(start: int, ts: seq<int>, i: nat)
    requires Rising(start, ts) && i < |ts|
    ensures start <= ts[i]
    decreases |ts|
  {
    if i > 0 { RisingTo(ts[0], ts[1..], i - 1); }
  }

  /** What is left when the head has expired. */
  lemma CheckTakes<U>(s: State<U>, time: int)
    requires Inv(s) && HeadExpired(s, time)
    ensures var c := Check(s, time);
            s.deque[0] in s.loggedIn && c.deque == s.deque[1..] && c.loggedIn == s.loggedIn - {s.deque[0]} &&
            c.lastLogin == s.lastLogin && c.now == time
  {
    assert s.deque[0] in s.deque;
  }

  lemma NobodyLeft<U>(s: State<U>)
    requires Inv(s)
    ensures s.deque == [] ==> s.loggedIn == {}
  {}

  /**
   * A pass makes at most one check more than there are users, and then the users left are exactly those of the old
   * queue who have logged in at most 60 seconds before the last check.
   */
  lemma {:induction false} PassIsExact<U>(s: State<U>, ts: seq<int>)
    requires Inv(s) && Rising(s.now, ts) && |ts| > |s.deque|
    ensures var (t, n) := Pass(s, ts);
            Inv(t) && n <= |s.deque| + 1 && (s.deque != [] ==> n > 0) && t.lastLogin == s.lastLogin &&
            t.now == (if n == 0 then s.now else ts[n - 1]) &&
            (forall u :: u in t.loggedIn <==> u in s.loggedIn && (n == 0 || ts[n - 1] - s.lastLogin[u] <= 60))
    decreases |ts|
  {
    if s.deque != [] {
      NextInv(s, CheckStep, ts[0]);
      if HeadExpired(s, ts[0]) {
        CheckTakes(s, ts[0]);
        var h, c := s.deque[0], Check(s, ts[0]);
        PassIsExact(c, ts[1..]);
        var (t, n) := Pass(c, ts[1..]);
        RisingTo(ts[0], ts[1..], if n == 0 then 0 else n - 1);
        NobodyLeft(t);
        hide Check, Inv;
        if n == 0 { assert forall u :: u in s.loggedIn <==> u in c.loggedIn || u == h; }
      } else {
        CheckCertifies(s, ts[0]);
      }
    } else {
      NobodyLeft(s);
    }
  }

  ghost function Elements<U>(q: seq<U>): set<U>
  {
    set u | u in q
  }

  /** From s to t, the first k users of the queue were logged out and their objects dropped; nothing else changed. */
  ghost predicate Shed<U>(s: State<U>, t: State<U>, k: nat)
  {
    k <= |s.deque| && t.deque == s.deque[k..] && t.lastLogin == s.lastLogin &&
    t.loggedIn == s.loggedIn - Elements(s.deque[..k]) && t.objects == s.objects - Elements(s.deque[..k])
  }

  lemma ShedMore<U>(s: State<U>, c: State<U>, t: State<U>, k: nat)
    requires s.deque != [] && c.deque == s.deque[1..] && c.lastLogin == s.lastLogin
    requires c.loggedIn == s.loggedIn - {s.deque[0]} && c.objects == s.objects - {s.deque[0]}
    requires Shed(c, t, k)
    ensures Shed(s, t, k + 1)
  {
    var h, taken := s.deque[0], Elements(c.deque[..k]);
    assert s.deque[..k + 1] == [h] + c.deque[..k];
    assert Elements(s.deque[..k + 1]) == {h} + taken;
    assert s.objects - {h} - taken == s.objects - ({h} + taken);
  }

  /** A pass logs out a front part of the queue. */
  lemma {:induction false} PassTakesFromTheFront<U>(s: State<U>, ts: seq<int>)
    ensures var t := Pass(s, ts).0; |t.deque| <= |s.deque| && Shed(s, t, |s.deque| - |t.deque|)
    decreases |ts|
  {
    if ts != [] && s.deque != [] && HeadExpired(s, ts[0]) {
      var c := Check(s, ts[0]);
      PassTakesFromTheFront(c, ts[1..]);
      var t := Pass(c, ts[1..]).0;
      hide Shed;
      ShedMore(s, c, t, |c.deque| - |t.deque|);
    } else {
      ShedNone(s, Pass(s, ts).0);
    }
  }

  lemma ShedNone<U>(s: State<U>, t: State<U>)
    requires t == s.(now := t.now)
    ensures Shed(s, t, 0)
  {
    assert Elements(s.deque[..0]) == {};
    assert s.objects - {} == s.objects;
  }

  /** The name a database knows a user's object by. */
  function AssignedName(uid: string, requested: string): string
  {
    "\"" + uid + "_" + requested + "\""
  }

  /** The assigned name is quoted and shows user and name. */
  lemma NameParts(uid: string, requested: string)
    ensures var a := AssignedName(uid, requested);
            var n := |uid| + 1;
            |a| == n + |requested| + 2 && a[0] == '"' == a[|a| - 1] && a[n] == '_' &&
            a[1..n] == uid && a[n + 1..|a| - 1] == requested
  {}

  /** No two users, and no two names of one user, share an assigned name: a user number has no underscore. */
  lemma AssignedNamesDiffer(uid: string, requested: string, uid': string, requested': string)
    requires '_' !in uid && '_' !in uid'
    requires AssignedName(uid, requested) == AssignedName(uid', requested')
    ensures uid == uid' && requested == requested'
  {
    var a, b := AssignedName(uid, requested), AssignedName(uid', requested');
    assert a[|uid| + 1] == '_' && b[|uid'| + 1] == '_';
    assert forall k :: 0 <= k < |uid| ==> a[k + 1] == uid[k];
    assert forall k :: 0 <= k < |uid'| ==> b[k + 1] == uid'[k];
    assert |uid| == |uid'|;
    assert a[1..|uid| + 1] == uid && b[1..|uid| + 1] == uid';
    assert a[|uid| + 2..|a| - 1] == requested && b[|uid| + 2..|a| - 1] == requested';
  }
}
