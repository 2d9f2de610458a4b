/** The website's two forms over one database.  Handlers run concurrently: one step is
    one database statement, or the local code between two of them, and any handler may
    take the next step, fail at it, or never be resumed. */
module Intake {

  const DAY := 86_400

  type Id = nat
  type Digest = nat
  type Fingerprint = nat
  /** A running handler. */
  type Caller = nat

  datatype Request =
    | Inquiry(id: Id, digest: Digest, fingerprint: Fingerprint)
    | Trial(fingerprint: Fingerprint)

  datatype Response = Accepted | Conflict | RateLimited | ServerError

  /** Where a handler is.  `now`: the time it read before asking for a place; `createdAt`: the
      time it read for the row. */
  datatype Task =
    | Looking(request: Request)
    | Timing(request: Request)
    | Rating(request: Request, now: nat)
    | Granted(request: Request, now: nat)
    | Storing(request: Request, now: nat, createdAt: nat)
    | Won(request: Request, now: nat)
    | Rereading(request: Request)
    | Finished(request: Request, response: Response)

  datatype Notification = NotConfigured | Waiting | Sent | Failed

  /** The two times of a submission. */
  datatype Stamp = Stamp(now: nat, createdAt: nat)

  datatype Row = Row(digest: Digest, author: Caller, notification: Notification)

  datatype Key = Key(fingerprint: Fingerprint, start: nat)

  datatype Counter = Counter(count: nat, expires: nat)

  function WindowStart(now: nat, window: nat): nat
    requires window > 0
  {
    now / window * window
  }

  function KeyOf(request: Request, now: nat, window: nat): Key
    requires window > 0
  {
    Key(request.fingerprint, WindowStart(now, window))
  }

  /** Asked for a place already. */
  predicate PastRating(t: Task) {
    t.Granted? || t.Storing? || t.Won? || t.Rereading? || t.Finished?
  }

  /** The database, the handlers, and the record of what they did: `granted`, who was
      given a place in a window; `stored`, who used it, with the times it had read;
      `notifications`, who started one, in order. */
  datatype World = World(
    window: nat, maximum: nat, smtp: bool, clock: nat,
    tasks: map<Caller, Task>, rows: map<Id, Row>, rates: map<Key, Counter>,
    cleanups: set<nat>,
    notifications: seq<Caller>, granted: map<Key, set<Caller>>, stored: map<Caller, Stamp>)

  // ----------------------------------------------------------------- the invariant

  ghost predicate Holds(w: World, k: Key, c: Caller) {
    k in w.granted && c in w.granted[k]
  }

  /** No window is over-booked, and one whose counter is gone is long over. */
  ghost predicate RatesValid(w: World) {
    && 0 < w.window && 0 < w.maximum
    && (forall k | k in w.granted :: |w.granted[k]| <= w.maximum)
    && (forall k | k in w.granted && k in w.rates :: |w.granted[k]| <= w.rates[k].count)
    && (forall k | k in w.granted && k !in w.rates :: k.start + w.window + DAY < w.clock)
    && (forall k | k in w.rates :: w.rates[k].expires == k.start + w.window)
    && (forall n | n in w.cleanups :: n <= w.clock)
  }

  /** What a handler's position says about places. */
  ghost predicate PlaceValid(w: World, c: Caller, t: Task)
    requires 0 < w.window
  {
    && (t.Rating? || t.Granted? || t.Storing? || t.Won? ==> t.now <= w.clock)
    && (t.Granted? || t.Storing? ==> Holds(w, KeyOf(t.request, t.now, w.window), c))
    && (t.Storing? ==> t.now <= t.createdAt <= w.clock)
    && (c in w.stored ==>
          && (t.Won? || (t.Finished? && (t.response.Accepted? || t.response.ServerError?)))
          && Holds(w, KeyOf(t.request, w.stored[c].now, w.window), c)
          && w.stored[c].now <= w.stored[c].createdAt <= w.clock)
  }

  /** Places are held by handlers past the counter, and only they store. */
  ghost predicate PlacesValid(w: World)
    requires 0 < w.window
  {
    && (forall k, c | k in w.granted && c in w.granted[k] :: c in w.tasks && PastRating(w.tasks[c]))
    && (forall c | c in w.stored :: c in w.tasks)
    && (forall c | c in w.tasks :: PlaceValid(w, c, w.tasks[c]))
  }

  predicate IsConflict(t: Task) {
    t.Finished? && t.response.Conflict?
  }

  predicate IsAccepted(t: Task) {
    t.Finished? && t.response.Accepted?
  }

  /** What a handler's position says about the inquiries. */
  ghost predicate RowValid(w: World, c: Caller, t: Task) {
    if t.request.Trial? then !IsConflict(t) && !t.Looking? && !t.Rereading? && (t.Won? || IsAccepted(t) ==> c in w.stored)
    else
      && (t.Won? || IsAccepted(t) ==> t.request.id in w.rows && w.rows[t.request.id].digest == t.request.digest)
      && (IsConflict(t) ==> t.request.id in w.rows && w.rows[t.request.id].digest != t.request.digest)
      && (t.Won? ==> c in w.stored && w.rows[t.request.id].author == c)
      && (t.Rereading? ==> t.request.id in w.rows && w.rows[t.request.id].author != c)
  }

  /** Every row was stored by one handler, with its digest; whoever is accepted finds
      its own digest. */
  ghost predicate RowsValid(w: World) {
    && (forall i | i in w.rows :: var c := w.rows[i].author;
          && c in w.tasks && c in w.stored && w.tasks[c].request.Inquiry?
          && w.tasks[c].request.id == i && w.tasks[c].request.digest == w.rows[i].digest)
    && (forall c | c in w.tasks :: RowValid(w, c, w.tasks[c]))
  }

  /** Whoever notifies made the row, and notifies once; and whoever made the row and was
      accepted has notified, if mail is configured at all. */
  ghost predicate NotificationsValid(w: World) {
    && (forall n | 0 <= n < |w.notifications| :: var c := w.notifications[n];
          && c in w.tasks && w.tasks[c].Finished?
          && (w.tasks[c].request.Inquiry? ==> w.tasks[c].request.id in w.rows && w.rows[w.tasks[c].request.id].author == c))
    && (forall m, n | 0 <= m < n < |w.notifications| :: w.notifications[m] != w.notifications[n])
    && (!w.smtp ==> w.notifications == [])
    && (w.smtp ==> forall c | c in w.stored && c in w.tasks && IsAccepted(w.tasks[c]) :: c in w.notifications)
  }

  ghost predicate Valid(w: World) {
    RatesValid(w) && PlacesValid(w) && RowsValid(w) && NotificationsValid(w)
  }

  /** What no step undoes: rows keep their content, answers stay given. */
  ghost predicate Onward(v: World, w: World) {
    && v.window == w.window && v.maximum == w.maximum && v.smtp == w.smtp && v.clock <= w.clock
    && (forall i | i in v.rows :: i in w.rows && w.rows[i].digest == v.rows[i].digest && w.rows[i].author == v.rows[i].author)
    && (forall c | c in v.tasks :: c in w.tasks && w.tasks[c].request == v.tasks[c].request)
    && (forall c | c in v.tasks && v.tasks[c].Finished? :: w.tasks[c] == v.tasks[c])
    && v.notifications <= w.notifications
    && (forall c | c in v.stored :: c in w.stored && w.stored[c] == v.stored[c])
  }

  lemma OnwardTransitive(u: World, v: World, w: World)
    requires Onward(u, v) && Onward(v, w)
    ensures Onward(u, w)
  {
  }

  // ------------------------------------------------------------- what a step keeps

  function Moved(w: World, c: Caller, t: Task): World {
    w.(tasks := w.tasks[c := t])
  }

  /** Only handler `c`, new or still running, has moved. */
  ghost predicate OnlyMoves(w: World, v: World, c: Caller) {
    && v.window == w.window && v.maximum == w.maximum && v.smtp == w.smtp && v.clock == w.clock
    && c in v.tasks && v.tasks == w.tasks[c := v.tasks[c]]
    && (c in w.tasks ==> !w.tasks[c].Finished? && v.tasks[c].request == w.tasks[c].request)
    && (c in w.tasks && PastRating(w.tasks[c]) ==> PastRating(v.tasks[c]))
  }

  /** Only handler `c` has gained a place or used one. */
  ghost predicate PlacesGrow(w: World, v: World, c: Caller)
    requires c in v.tasks
  {
    && (forall k, d | Holds(v, k, d) :: Holds(w, k, d) || (d == c && PastRating(v.tasks[c])))
    && (forall k, d | Holds(w, k, d) :: Holds(v, k, d))
    && (forall d | d != c :: d in v.stored <==> d in w.stored)
    && (forall d | d in w.stored :: d in v.stored && v.stored[d] == w.stored[d])
  }

  /** Only handler `c` has added a row. */
  ghost predicate RowsGrow(w: World, v: World, c: Caller)
    requires c in v.tasks
  {
    && (forall i | i in w.rows :: i in v.rows && v.rows[i].digest == w.rows[i].digest && v.rows[i].author == w.rows[i].author)
    && (forall i | i in v.rows && i !in w.rows :: v.rows[i].author == c && c in v.stored && v.tasks[c].request.Inquiry?
          && v.tasks[c].request.id == i && v.tasks[c].request.digest == v.rows[i].digest)
  }

  lemma PlacesKept(w: World, v: World, c: Caller)
    requires 0 < w.window && PlacesValid(w) && OnlyMoves(w, v, c) && PlacesGrow(w, v, c)
    requires PlaceValid(v, c, v.tasks[c])
    ensures PlacesValid(v)
  {
    forall k, d | k in v.granted && d in v.granted[k] ensures d in v.tasks && PastRating(v.tasks[d]) {
      assert Holds(v, k, d);
    }
    forall d | d in v.tasks ensures PlaceValid(v, d, v.tasks[d]) {
      if d != c { assert PlaceValid(w, d, w.tasks[d]); }
    }
  }

  lemma RowsKept(w: World, v: World, c: Caller)
    requires RowsValid(w) && OnlyMoves(w, v, c) && RowsGrow(w, v, c) && PlacesGrow(w, v, c)
    requires RowValid(v, c, v.tasks[c])
    ensures RowsValid(v)
  {
    forall d | d in v.tasks ensures RowValid(v, d, v.tasks[d]) {
      if d != c { assert RowValid(w, d, w.tasks[d]); }
    }
  }

  lemma NotificationsKept(w: World, v: World, c: Caller)
    requires NotificationsValid(w) && OnlyMoves(w, v, c) && RowsGrow(w, v, c) && PlacesGrow(w, v, c)
    requires v.notifications == w.notifications && (c in v.stored ==> !IsAccepted(v.tasks[c]))
    ensures NotificationsValid(v)
  {
  }

  lemma MoveIsOnward(w: World, v: World, c: Caller)
    requires OnlyMoves(w, v, c) && RowsGrow(w, v, c) && PlacesGrow(w, v, c) && w.notifications <= v.notifications
    ensures Onward(w, v)
  {
  }

  /** No handler has moved. */
  lemma PlacesStay(w: World, v: World)
    requires 0 < w.window && PlacesValid(w)
    requires v.window == w.window && v.granted == w.granted && v.tasks == w.tasks && v.stored == w.stored && w.clock <= v.clock
    ensures PlacesValid(v)
  {
    forall d | d in v.tasks ensures PlaceValid(v, d, v.tasks[d]) {
      assert PlaceValid(w, d, w.tasks[d]);
    }
  }

  lemma RowsStay(w: World, v: World)
    requires RowsValid(w) && NotificationsValid(w)
    requires v.tasks == w.tasks && v.notifications == w.notifications && v.rows.Keys == w.rows.Keys
    requires v.stored == w.stored && v.smtp == w.smtp
    requires forall i | i in w.rows :: v.rows[i].digest == w.rows[i].digest && v.rows[i].author == w.rows[i].author
    ensures RowsValid(v) && NotificationsValid(v)
  {
    forall d | d in v.tasks ensures RowValid(v, d, v.tasks[d]) {
      assert RowValid(w, d, w.tasks[d]);
    }
  }

  /** A handler moves on and nothing else changes. */
  lemma MoveKeeps(w: World, c: Caller, t: Task)
    requires Valid(w)
    requires c in w.tasks ==> !w.tasks[c].Finished? && t.request == w.tasks[c].request
    requires c in w.tasks && PastRating(w.tasks[c]) ==> PastRating(t)
    requires PlaceValid(w, c, t) && RowValid(w, c, t) && (c in w.stored ==> !IsAccepted(t))
    ensures Valid(Moved(w, c, t)) && Onward(w, Moved(w, c, t))
  {
    hide PlacesValid, RowsValid, NotificationsValid, Onward;
    var v := Moved(w, c, t);
    PlacesKept(w, v, c);
    RowsKept(w, v, c);
    NotificationsKept(w, v, c);
    MoveIsOnward(w, v, c);
  }

  predicate Looks(w: World, c: Caller) {
    c in w.tasks && (w.tasks[c].Looking? || w.tasks[c].Rereading?)
  }

  /** The handler is about to read its inquiry's row. */
  predicate Reads(w: World, c: Caller) {
    Looks(w, c) && w.tasks[c].request.Inquiry?
  }

  /** The handler is about to ask for a place.  It is not resumed more than a day after
      it read the clock. */
  predicate Asks(w: World, c: Caller) {
    c in w.tasks && w.tasks[c].Rating? && w.clock <= w.tasks[c].now + DAY
  }

  function Count(w: World, k: Key): nat {
    if k in w.rates then w.rates[k].count else 0
  }

  lemma SameCounts(w: World, v: World)
    requires v.rates == w.rates
    ensures forall k :: Count(v, k) == Count(w, k)
  {
  }

  lemma TickKeeps(w: World, seconds: nat)
    requires Valid(w)
    ensures var v := w.(clock := w.clock + seconds); Valid(v) && Onward(w, v)
  {
    hide PlacesValid, RowsValid, NotificationsValid;
    var v := w.(clock := w.clock + seconds);
    PlacesStay(w, v);
    RowsStay(w, v);
  }

  /** The upsert, with the place it may give. */
  function Counted(w: World, c: Caller, k: Key, counter: Counter, allowed: bool): World {
    var places := (if k in w.granted then w.granted[k] else {}) + {c};
    w.(rates := w.rates[k := counter], granted := if allowed then w.granted[k := places] else w.granted)
  }

  lemma InWindow(now: nat, window: nat)
    requires window > 0
    ensures WindowStart(now, window) <= now < WindowStart(now, window) + window
  {
    assert now == now / window * window + now % window;
  }

  /** A counter that is gone belongs to a window no live handler asks for. */
  lemma CountKeeps(w: World, c: Caller, k: Key, counter: Counter, allowed: bool)
    requires Valid(w)
    requires c in w.tasks && w.tasks[c].Rating? && w.clock <= w.tasks[c].now + DAY
    requires k == KeyOf(w.tasks[c].request, w.tasks[c].now, w.window)
    requires counter == if k in w.rates then w.rates[k].(count := w.rates[k].count + 1) else Counter(1, k.start + w.window)
    requires allowed == (counter.count <= w.maximum)
    ensures RatesValid(Counted(w, c, k, counter, allowed))
  {
    var v := Counted(w, c, k, counter, allowed);
    InWindow(w.tasks[c].now, w.window);
    assert k in w.granted ==> k in w.rates;
    forall j | j in v.granted && j != k ensures |v.granted[j]| <= w.maximum { assert v.granted[j] == w.granted[j]; }
    if allowed {
      var places := if k in w.granted then w.granted[k] else {};
      assert |places + {c}| <= |places| + 1;
    }
  }

  lemma CountedPlaces(w: World, c: Caller, k: Key, counter: Counter, allowed: bool, t: Task)
    requires PastRating(t)
    ensures PlacesGrow(w, Moved(Counted(w, c, k, counter, allowed), c, t), c)
  {
  }

  lemma CountedMoves(w: World, c: Caller, k: Key, counter: Counter, allowed: bool, t: Task)
    requires Valid(w) && c in w.tasks && w.tasks[c].Rating?
    requires k == KeyOf(w.tasks[c].request, w.tasks[c].now, w.window)
    requires t == if allowed then Granted(w.tasks[c].request, w.tasks[c].now) else Finished(w.tasks[c].request, RateLimited)
    requires RatesValid(Counted(w, c, k, counter, allowed))
    ensures var v := Moved(Counted(w, c, k, counter, allowed), c, t); Valid(v) && Onward(w, v)
  {
    var v := Moved(Counted(w, c, k, counter, allowed), c, t);
    assert PlaceValid(w, c, w.tasks[c]) && RowValid(w, c, w.tasks[c]);
    assert RatesValid(v);
    assert PlacesGrow(w, v, c) by { CountedPlaces(w, c, k, counter, allowed, t); }
    hide RatesValid, PlacesValid, RowsValid, NotificationsValid, Onward, PlacesGrow;
    PlacesKept(w, v, c);
    RowsKept(w, v, c);
    NotificationsKept(w, v, c);
    MoveIsOnward(w, v, c);
  }

  function Inserted(w: World, c: Caller): World
    requires c in w.tasks && w.tasks[c].Storing?
  {
    var request, now := w.tasks[c].request, w.tasks[c].now;
    var row := Row(if request.Inquiry? then request.digest else 0, c, if w.smtp then Waiting else NotConfigured);
    w.(tasks := w.tasks[c := Won(request, now)], stored := w.stored[c := Stamp(now, w.tasks[c].createdAt)],
       rows := if request.Inquiry? then w.rows[request.id := row] else w.rows)
  }

  lemma StoreKeeps(w: World, c: Caller)
    requires Valid(w) && c in w.tasks && w.tasks[c].Storing?
    requires w.tasks[c].request.Inquiry? ==> w.tasks[c].request.id !in w.rows
    ensures Valid(Inserted(w, c)) && Onward(w, Inserted(w, c))
  {
    var v := Inserted(w, c);
    assert PlaceValid(w, c, w.tasks[c]);
    assert RatesValid(v);
    assert PlacesGrow(w, v, c) && RowsGrow(w, v, c);
    hide RatesValid, PlacesGrow, RowsGrow, PlacesValid, RowsValid, NotificationsValid, Onward;
    PlacesKept(w, v, c);
    RowsKept(w, v, c);
    NotificationsKept(w, v, c);
    MoveIsOnward(w, v, c);
  }

  function Concluded(w: World, c: Caller): World
    requires c in w.tasks && w.tasks[c].Won?
  {
    w.(tasks := w.tasks[c := Finished(w.tasks[c].request, Accepted)],
       cleanups := w.cleanups + {w.tasks[c].now},
       notifications := if w.smtp then w.notifications + [c] else w.notifications)
  }

  /** A winner that answers had not notified before. */
  lemma NotifiedOnce(w: World, c: Caller)
    requires NotificationsValid(w) && c in w.tasks && w.tasks[c].Won? && RowValid(w, c, w.tasks[c])
    ensures NotificationsValid(Concluded(w, c))
  {
  }

  lemma ConcludeKeeps(w: World, c: Caller)
    requires Valid(w) && c in w.tasks && w.tasks[c].Won?
    ensures Valid(Concluded(w, c)) && Onward(w, Concluded(w, c))
  {
    var v := Concluded(w, c);
    assert PlaceValid(w, c, w.tasks[c]) && RowValid(w, c, w.tasks[c]);
    NotifiedOnce(w, c);
    assert RatesValid(v);
    assert PlacesGrow(w, v, c) && RowsGrow(w, v, c);
    hide RatesValid, PlacesGrow, RowsGrow, PlacesValid, RowsValid, NotificationsValid, Onward;
    PlacesKept(w, v, c);
    RowsKept(w, v, c);
    MoveIsOnward(w, v, c);
  }

  function Cleaned(w: World, now: nat): World {
    w.(cleanups := w.cleanups - {now},
       rates := map k | k in w.rates && !(w.rates[k].expires < now - DAY) :: w.rates[k])
  }

  lemma CleanUpKeeps(w: World, now: nat)
    requires Valid(w) && now in w.cleanups
    ensures Valid(Cleaned(w, now)) && Onward(w, Cleaned(w, now))
  {
    hide PlacesValid, RowsValid, NotificationsValid;
    var v := Cleaned(w, now);
    PlacesStay(w, v);
    RowsStay(w, v);
  }

  function Reported(w: World, i: Id, sent: bool): World
    requires i in w.rows
  {
    w.(rows := w.rows[i := w.rows[i].(notification := if sent then Sent else Failed)])
  }

  lemma ReportKeeps(w: World, i: Id, sent: bool)
    requires Valid(w) && i in w.rows
    ensures Valid(Reported(w, i, sent)) && Onward(w, Reported(w, i, sent))
  {
    hide PlacesValid, RowsValid, NotificationsValid;
    var v := Reported(w, i, sent);
    PlacesStay(w, v);
    RowsStay(w, v);
  }

  lemma OnwardReflexive(w: World)
    ensures Onward(w, w)
  {
  }

  // ------------------------------------------------------------------ the handlers

  class Site {
    var world: World

    constructor (window: nat, maximum: nat, smtp: bool, clock: nat)
      requires 0 < window && 0 < maximum
      ensures Valid(world)
      ensures world == World(window, maximum, smtp, clock, map[], map[], map[], {}, [], map[], map[])
    {
      world := World(window, maximum, smtp, clock, map[], map[], map[], {}, [], map[], map[]);
    }

    /** A verified request arrives. */
    method Arrive(c: Caller, request: Request)
      requires Valid(world)
      modifies this
      ensures Valid(world) && Onward(old(world), world)
      ensures world == if c in old(world).tasks then old(world)
                       else Moved(old(world), c, if request.Inquiry? then Looking(request) else Timing(request))
    {
      if c !in world.tasks {
        var t := if request.Inquiry? then Looking(request) else Timing(request);
        MoveKeeps(world, c, t);
        world := Moved(world, c, t);
      }
    }

    method Tick(seconds: nat)
      requires Valid(world)
      modifies this
      ensures Valid(world) && Onward(old(world), world)
      ensures world == old(world).(clock := old(world).clock + seconds)
    {
      hide Valid, Onward;
      TickKeeps(world, seconds);
      world := world.(clock := world.clock + seconds);
    }

    /** The first read, or the one after losing the insert. */
    method Look(c: Caller)
      requires Valid(world)
      modifies this
      ensures Valid(world) && Onward(old(world), world)
      ensures !Reads(old(world), c) ==> world == old(world)
      ensures Reads(old(world), c) ==>
                var request := old(world).tasks[c].request;
                && world == Moved(old(world), c, world.tasks[c])
                && (world.tasks[c] == Timing(request) <==> request.id !in world.rows)
                && (world.tasks[c] == Finished(request, Accepted) <==> request.id in world.rows && world.rows[request.id].digest == request.digest)
                && (world.tasks[c] == Finished(request, Conflict) <==> request.id in world.rows && world.rows[request.id].digest != request.digest)
                && (old(world).tasks[c].Rereading? ==> request.id in world.rows)
    {
      if !Reads(world, c) { return; }
      var task := world.tasks[c];
      var request := task.request;
      assert PlaceValid(world, c, task) && RowValid(world, c, task);
      var t :=
        if request.id in world.rows && world.rows[request.id].digest == request.digest then Finished(request, Accepted)
        else if request.id in world.rows || task.Rereading? then Finished(request, Conflict)
        else Timing(request);
      MoveKeeps(world, c, t);
      world := Moved(world, c, t);
    }

    method ReadClock(c: Caller)
      requires Valid(world)
      modifies this
      ensures Valid(world) && Onward(old(world), world)
      ensures !(c in old(world).tasks && old(world).tasks[c].Timing?) ==> world == old(world)
      ensures c in old(world).tasks && old(world).tasks[c].Timing? ==>
                world == Moved(old(world), c, Rating(old(world).tasks[c].request, world.clock))
    {
      if c !in world.tasks || !world.tasks[c].Timing? { return; }
      var t := Rating(world.tasks[c].request, world.clock);
      assert PlaceValid(world, c, world.tasks[c]);
      MoveKeeps(world, c, t);
      world := Moved(world, c, t);
    }

    /** Counts the request in its window, by one statement. */
    method Consume(c: Caller)
      requires Valid(world)
      modifies this
      ensures Valid(world) && Onward(old(world), world)
      ensures !Asks(old(world), c) ==> world == old(world)
      ensures Asks(old(world), c) ==>
                var request, now := old(world).tasks[c].request, old(world).tasks[c].now;
                var k := KeyOf(request, now, world.window);
                && Count(world, k) == Count(old(world), k) + 1
                && (forall j | j != k :: Count(world, j) == Count(old(world), j))
                && world.tasks == old(world).tasks[c :=
                     if Count(old(world), k) < world.maximum then Granted(request, now) else Finished(request, RateLimited)]
                && world == old(world).(tasks := world.tasks, rates := world.rates, granted := world.granted)
    {
      hide PlacesValid, RowsValid, NotificationsValid, Onward;
      OnwardReflexive(world);
      if !Asks(world, c) { return; }
      var request, now := world.tasks[c].request, world.tasks[c].now;
      var start := WindowStart(now, world.window);
      var k := Key(request.fingerprint, start);
      var counter :=
        if k in world.rates then world.rates[k].(count := world.rates[k].count + 1)
        else Counter(1, start + world.window);
      var allowed := counter.count <= world.maximum;
      CountKeeps(world, c, k, counter, allowed);
      var t := if allowed then Granted(request, now) else Finished(request, RateLimited);
      CountedMoves(world, c, k, counter, allowed, t);
      world := Moved(Counted(world, c, k, counter, allowed), c, t);
    }

    /** Reads the time the row will carry. */
    method StampRow(c: Caller)
      requires Valid(world)
      modifies this
      ensures Valid(world) && Onward(old(world), world)
      ensures !(c in old(world).tasks && old(world).tasks[c].Granted?) ==> world == old(world)
      ensures c in old(world).tasks && old(world).tasks[c].Granted? ==>
                world == Moved(old(world), c, Storing(old(world).tasks[c].request, old(world).tasks[c].now, world.clock))
    {
      if c !in world.tasks || !world.tasks[c].Granted? { return; }
      var t := Storing(world.tasks[c].request, world.tasks[c].now, world.clock);
      assert PlaceValid(world, c, world.tasks[c]) && RowValid(world, c, world.tasks[c]);
      MoveKeeps(world, c, t);
      world := Moved(world, c, t);
    }

    /** Inserts the row, unless the id is taken. */
    method Store(c: Caller)
      requires Valid(world)
      modifies this
      ensures Valid(world) && Onward(old(world), world)
      ensures !(c in old(world).tasks && old(world).tasks[c].Storing?) ==> world == old(world)
      ensures c in old(world).tasks && old(world).tasks[c].Storing? ==>
                var request, now, createdAt := old(world).tasks[c].request, old(world).tasks[c].now, old(world).tasks[c].createdAt;
                if request.Inquiry? && request.id in old(world).rows then world == Moved(old(world), c, Rereading(request))
                else
                  && world == old(world).(tasks := world.tasks, stored := world.stored, rows := world.rows)
                  && world.tasks == old(world).tasks[c := Won(request, now)]
                  && world.stored == old(world).stored[c := Stamp(now, createdAt)]
                  && world.rows == if request.Trial? then old(world).rows
                                   else old(world).rows[request.id := Row(request.digest, c, if world.smtp then Waiting else NotConfigured)]
    {
      if c !in world.tasks || !world.tasks[c].Storing? { return; }
      var request, now := world.tasks[c].request, world.tasks[c].now;
      if request.Inquiry? && request.id in world.rows {
        assert PlaceValid(world, c, world.tasks[c]) && RowValid(world, c, world.tasks[c]);
        MoveKeeps(world, c, Rereading(request));
        world := Moved(world, c, Rereading(request));
        return;
      }
      StoreKeeps(world, c);
      world := Inserted(world, c);
    }

    /** The winner starts the notification and the cleanup, and answers. */
    method Conclude(c: Caller)
      requires Valid(world)
      modifies this
      ensures Valid(world) && Onward(old(world), world)
      ensures !(c in old(world).tasks && old(world).tasks[c].Won?) ==> world == old(world)
      ensures c in old(world).tasks && old(world).tasks[c].Won? ==>
                && world == old(world).(tasks := world.tasks, cleanups := world.cleanups, notifications := world.notifications)
                && world.tasks == old(world).tasks[c := Finished(old(world).tasks[c].request, Accepted)]
                && world.cleanups == old(world).cleanups + {old(world).tasks[c].now}
                && world.notifications == if world.smtp then old(world).notifications + [c] else old(world).notifications
    {
      if c !in world.tasks || !world.tasks[c].Won? { return; }
      ConcludeKeeps(world, c);
      world := Concluded(world, c);
    }

    /** A statement fails, before or after its effect, and the handler gives up. */
    method Fail(c: Caller)
      requires Valid(world)
      modifies this
      ensures Valid(world) && Onward(old(world), world)
      ensures c !in old(world).tasks || old(world).tasks[c].Finished? ==> world == old(world)
      ensures c in old(world).tasks && !old(world).tasks[c].Finished? ==>
                world == Moved(old(world), c, Finished(old(world).tasks[c].request, ServerError))
    {
      if c in world.tasks && !world.tasks[c].Finished? {
        var t := Finished(world.tasks[c].request, ServerError);
        assert PlaceValid(world, c, world.tasks[c]);
        MoveKeeps(world, c, t);
        world := Moved(world, c, t);
      }
    }

    /** Deletes the counters that expired more than a day before `now`. */
    method CleanUp(now: nat)
      requires Valid(world)
      modifies this
      ensures Valid(world) && Onward(old(world), world)
      ensures now !in old(world).cleanups ==> world == old(world)
      ensures now in old(world).cleanups ==>
                && world == old(world).(rates := world.rates, cleanups := old(world).cleanups - {now})
                && (forall k :: k in world.rates <==> k in old(world).rates && now <= old(world).rates[k].expires + DAY)
                && (forall k | k in world.rates :: world.rates[k] == old(world).rates[k])
    {
      if now !in world.cleanups { return; }
      CleanUpKeeps(world, now);
      world := Cleaned(world, now);
    }

    /** A notification ends. */
    method Report(i: Id, sent: bool)
      requires Valid(world)
      modifies this
      ensures Valid(world) && Onward(old(world), world)
      ensures i in old(world).rows && old(world).rows[i].author in old(world).notifications ==>
                && world == old(world).(rows := world.rows)
                && world.rows == old(world).rows[i := old(world).rows[i].(notification := if sent then Sent else Failed)]
      ensures i !in old(world).rows || old(world).rows[i].author !in old(world).notifications ==> world == old(world)
    {
      if i in world.rows && world.rows[i].author in world.notifications {
        ReportKeeps(world, i, sent);
        world := Reported(world, i, sent);
      }
    }
  }

  // ------------------------------------------------------------------- whole runs

  datatype Choice =
    | Arrival(caller: Caller, request: Request)
    | Pass(seconds: nat)
    | Advance(caller: Caller)
    | Break(caller: Caller)
    | Sweep(now: nat)
    | Settle(id: Id, sent: bool)

  /** How far a handler has got. */
  function Rank(t: Task): nat {
    match t
    case Looking(_) => 0
    case Timing(_) => 1
    case Rating(_, _) => 2
    case Granted(_, _) => 3
    case Storing(_, _, _) => 4
    case Won(_, _) => 5
    case Rereading(_) => 5
    case Finished(_, _) => 6
  }

  /** The handler read the clock more than a day ago and has not asked for a place since. */
  predicate Stale(w: World, c: Caller) {
    c in w.tasks && w.tasks[c].Rating? && w.clock > w.tasks[c].now + DAY
  }

  /** A handler that is not finished has got on with its request, and no other has moved. */
  predicate Advanced(w: World, c: Caller, v: World) {
    if c !in w.tasks || w.tasks[c].Finished? || Stale(w, c) then v == w
    else
      && c in v.tasks && v.tasks == w.tasks[c := v.tasks[c]]
      && v.tasks[c].request == w.tasks[c].request && Rank(v.tasks[c]) > Rank(w.tasks[c])
  }

  lemma AdvancedTo(w: World, c: Caller, t: Task, v: World)
    requires c in w.tasks && !w.tasks[c].Finished? && !Stale(w, c) && v.tasks == w.tasks[c := t]
    requires t.request == w.tasks[c].request && Rank(t) > Rank(w.tasks[c])
    ensures Advanced(w, c, v)
  {
  }

  lemma StaleStays(w: World, c: Caller)
    requires Stale(w, c)
    ensures Advanced(w, c, w)
  {
  }

  lemma LookersInquire(w: World, c: Caller)
    requires Valid(w) && Looks(w, c)
    ensures w.tasks[c].request.Inquiry?
  {
    assert RowValid(w, c, w.tasks[c]);
  }

  /** The next step of a handler that has no place yet. */
  method StepBefore(site: Site, c: Caller)
    requires Valid(site.world) && c in site.world.tasks && Rank(site.world.tasks[c]) <= 2
    modifies site
    ensures Valid(site.world) && Onward(old(site.world), site.world)
    ensures Advanced(old(site.world), c, site.world)
  {
    if Looks(site.world, c) { LookersInquire(site.world, c); }
    hide Valid, Onward, Count, KeyOf, Advanced;
    ghost var w := site.world;
    match site.world.tasks[c] {
      case Looking(_) => site.Look(c);
      case Timing(_) => site.ReadClock(c);
      case Rating(_, _) => site.Consume(c);
    }
    if Stale(w, c) { StaleStays(w, c); } else { AdvancedTo(w, c, site.world.tasks[c], site.world); }
  }

  /** The next step of a handler that has its place. */
  method StepAfter(site: Site, c: Caller)
    requires Valid(site.world) && c in site.world.tasks && 3 <= Rank(site.world.tasks[c]) <= 4
    modifies site
    ensures Valid(site.world) && Onward(old(site.world), site.world)
    ensures Advanced(old(site.world), c, site.world)
  {
    hide Valid, Onward, Advanced;
    ghost var w := site.world;
    match site.world.tasks[c] {
      case Granted(_, _) => site.StampRow(c);
      case Storing(_, _, _) => site.Store(c);
    }
    AdvancedTo(w, c, site.world.tasks[c], site.world);
  }

  /** The last step of a handler. */
  method StepLast(site: Site, c: Caller)
    requires Valid(site.world) && c in site.world.tasks && 5 <= Rank(site.world.tasks[c]) <= 5
    modifies site
    ensures Valid(site.world) && Onward(old(site.world), site.world)
    ensures Advanced(old(site.world), c, site.world)
  {
    if Looks(site.world, c) { LookersInquire(site.world, c); }
    hide Valid, Onward, Advanced;
    ghost var w := site.world;
    match site.world.tasks[c] {
      case Won(_, _) => site.Conclude(c);
      case Rereading(_) => site.Look(c);
    }
    AdvancedTo(w, c, site.world.tasks[c], site.world);
  }

  /** The next step of one handler. */
  method Step(site: Site, c: Caller)
    requires Valid(site.world)
    modifies site
    ensures Valid(site.world) && Onward(old(site.world), site.world)
    ensures Advanced(old(site.world), c, site.world)
  {
    hide Valid, Onward;
    OnwardReflexive(site.world);
    if c !in site.world.tasks || site.world.tasks[c].Finished? { return; }
    if Rank(site.world.tasks[c]) <= 2 {
      StepBefore(site, c);
    } else if Rank(site.world.tasks[c]) <= 4 {
      StepAfter(site, c);
    } else {
      StepLast(site, c);
    }
  }

  /** What one choice does. */
  predicate Follows(w: World, choice: Choice, v: World) {
    match choice
    case Arrival(c, request) =>
      v == if c in w.tasks then w else Moved(w, c, if request.Inquiry? then Looking(request) else Timing(request))
    case Pass(seconds) => v == w.(clock := w.clock + seconds)
    case Advance(c) => Advanced(w, c, v)
    case Break(c) => v == if c in w.tasks && !w.tasks[c].Finished?
                          then Moved(w, c, Finished(w.tasks[c].request, ServerError))
                          else w
    case Sweep(now) => v == w.(rates := v.rates, cleanups := w.cleanups - {now})
    case Settle(i, sent) =>
      v == if i in w.rows && w.rows[i].author in w.notifications
           then w.(rows := w.rows[i := w.rows[i].(notification := if sent then Sent else Failed)]) else w
  }

  /** Any interleaving of any requests, step by step, keeps the invariant and undoes nothing. */
  method Operate(site: Site, schedule: seq<Choice>) returns (ghost worlds: seq<World>)
    requires Valid(site.world)
    modifies site
    ensures Valid(site.world) && Onward(old(site.world), site.world)
    ensures |worlds| == |schedule| + 1 && worlds[0] == old(site.world) && worlds[|schedule|] == site.world
    ensures forall k | 0 <= k < |schedule| :: Follows(worlds[k], schedule[k], worlds[k + 1]) && Onward(worlds[k], worlds[k + 1])
  {
    hide Valid, Onward, Advanced;
    OnwardReflexive(site.world);
    worlds := [site.world];
    for n := 0 to |schedule|
      invariant Valid(site.world) && Onward(old(site.world), site.world)
      invariant |worlds| == n + 1 && worlds[0] == old(site.world) && worlds[n] == site.world
      invariant forall k | 0 <= k < n :: Follows(worlds[k], schedule[k], worlds[k + 1]) && Onward(worlds[k], worlds[k + 1])
    {
      ghost var before := site.world;
      match schedule[n] {
        case Arrival(c, request) => site.Arrive(c, request);
        case Pass(seconds) => site.Tick(seconds);
        case Advance(c) => Step(site, c);
        case Break(c) => site.Fail(c);
        case Sweep(now) => site.CleanUp(now);
        case Settle(i, sent) => site.Report(i, sent);
      }
      OnwardTransitive(old(site.world), before, site.world);
      worlds := worlds + [site.world];
    }
  }

  /** How often a handler gets its turn. */
  function Turns(schedule: seq<Choice>, c: Caller): nat {
    if |schedule| == 0 then 0
    else Turns(schedule[1..], c) + if schedule[0] == Advance(c) then 1 else 0
  }

  lemma {:induction false} TurnsAppend(schedule: seq<Choice>, choice: Choice, c: Caller)
    ensures Turns(schedule + [choice], c) == Turns(schedule, c) + if choice == Advance(c) then 1 else 0
  {
    if |schedule| > 0 {
      TurnsAppend(schedule[1..], choice, c);
      assert (schedule + [choice])[1..] == schedule[1..] + [choice];
    }
  }

  lemma {:induction false} RankGrows(schedule: seq<Choice>, worlds: seq<World>, c: Caller, n: nat)
    requires |worlds| == |schedule| + 1 && n <= |schedule| && c in worlds[0].tasks
    requires forall k | 0 <= k < |schedule| ::
               Follows(worlds[k], schedule[k], worlds[k + 1]) && (schedule[k] == Advance(c) ==> !Stale(worlds[k], c))
    ensures c in worlds[n].tasks && worlds[n].tasks[c].request == worlds[0].tasks[c].request
    ensures worlds[n].tasks[c].Finished? || Rank(worlds[n].tasks[c]) >= Rank(worlds[0].tasks[c]) + Turns(schedule[..n], c)
  {
    if n > 0 {
      RankGrows(schedule, worlds, c, n - 1);
      assert schedule[..n] == schedule[..n - 1] + [schedule[n - 1]];
      TurnsAppend(schedule[..n - 1], schedule[n - 1], c);
      assert Follows(worlds[n - 1], schedule[n - 1], worlds[n]);
    }
  }

  /** Whatever the other handlers do, a request that gets six turns is answered. */
  lemma SixTurnsAnswer(schedule: seq<Choice>, worlds: seq<World>, c: Caller)
    requires |worlds| == |schedule| + 1 && c in worlds[0].tasks && Turns(schedule, c) >= 6
    requires forall k | 0 <= k < |schedule| ::
               Follows(worlds[k], schedule[k], worlds[k + 1]) && (schedule[k] == Advance(c) ==> !Stale(worlds[k], c))
    ensures c in worlds[|schedule|].tasks && worlds[|schedule|].tasks[c].Finished?
    ensures worlds[|schedule|].tasks[c].request == worlds[0].tasks[c].request
  {
    assert schedule[..|schedule|] == schedule;
    RankGrows(schedule, worlds, c, |schedule|);
  }

  /** What a request that nothing interferes with is answered, and what it leaves behind. */
  predicate Answered(w: World, c: Caller, request: Request, v: World)
    requires w.window > 0
  {
    var k := KeyOf(request, w.clock, w.window);
    && c in v.tasks && v.tasks[c].Finished? && v.tasks == w.tasks[c := v.tasks[c]] && v.tasks[c].request == request
    && if request.Inquiry? && request.id in w.rows then
         && v == w.(tasks := v.tasks)
         && v.tasks[c].response == if w.rows[request.id].digest == request.digest then Accepted else Conflict
       else
         && Count(v, k) == Count(w, k) + 1
         && if Count(w, k) < w.maximum then
              && v.tasks[c].response == Accepted && v.stored == w.stored[c := Stamp(w.clock, w.clock)]
              && v.rows == (if request.Trial? then w.rows
                            else w.rows[request.id := Row(request.digest, c, if w.smtp then Waiting else NotConfigured)])
              && v.notifications == (if w.smtp then w.notifications + [c] else w.notifications)
              && v.cleanups == w.cleanups + {w.clock}
            else
              && v.tasks[c].response == RateLimited
              && v == w.(tasks := v.tasks, rates := v.rates, granted := v.granted)
  }

  /** Reads the clock and asks for a place. */
  method AskForPlace(site: Site, c: Caller)
    requires Valid(site.world) && site.world.window > 0 && c in site.world.tasks && site.world.tasks[c].Timing?
    modifies site
    ensures Valid(site.world)
    ensures site.world == old(site.world).(tasks := site.world.tasks, rates := site.world.rates, granted := site.world.granted)
    ensures var request := old(site.world).tasks[c].request;
            var k := KeyOf(request, site.world.clock, site.world.window);
            && Count(site.world, k) == Count(old(site.world), k) + 1
            && (forall j | j != k :: Count(site.world, j) == Count(old(site.world), j))
            && site.world.tasks == old(site.world).tasks[c :=
                 if Count(old(site.world), k) < site.world.maximum
                 then Granted(request, site.world.clock)
                 else Finished(request, RateLimited)]
  {
    hide Valid, Onward, KeyOf;
    site.ReadClock(c);
    site.Consume(c);
  }

  /** Stores the submission of a granted place under a free id, and answers. */
  method StoreAndAnswer(site: Site, c: Caller)
    requires Valid(site.world) && c in site.world.tasks && site.world.tasks[c].Granted?
    requires site.world.tasks[c].request.Inquiry? ==> site.world.tasks[c].request.id !in site.world.rows
    modifies site
    ensures Valid(site.world)
    ensures var w, v, request := old(site.world), site.world, old(site.world).tasks[c].request;
            && v == w.(tasks := w.tasks[c := Finished(request, Accepted)], stored := w.stored[c := Stamp(w.tasks[c].now, w.clock)],
                       rows := v.rows, notifications := v.notifications, cleanups := w.cleanups + {w.tasks[c].now})
            && v.rows == (if request.Trial? then w.rows
                          else w.rows[request.id := Row(request.digest, c, if w.smtp then Waiting else NotConfigured)])
            && v.notifications == (if w.smtp then w.notifications + [c] else w.notifications)
  {
    hide Valid, Onward;
    site.StampRow(c);
    site.Store(c);
    site.Conclude(c);
  }

  /** A request arrives, and an inquiry looks for its row. */
  method Begin(site: Site, c: Caller, request: Request)
    requires Valid(site.world) && c !in site.world.tasks
    modifies site
    ensures Valid(site.world)
    ensures site.world == Moved(old(site.world), c,
              if request.Trial? || request.id !in old(site.world).rows then Timing(request)
              else Finished(request, if old(site.world).rows[request.id].digest == request.digest then Accepted else Conflict))
  {
    hide Valid, Onward;
    site.Arrive(c, request);
    if request.Inquiry? { site.Look(c); }
  }

  /** Then it asks for a place, stores and answers. */
  method Finish(site: Site, c: Caller, ghost w: World, request: Request)
    requires Valid(site.world) && w.window > 0 && site.world == Moved(w, c, Timing(request))
    requires request.Inquiry? ==> request.id !in w.rows
    modifies site
    ensures Valid(site.world) && Answered(w, c, request, site.world)
  {
    hide Valid, Onward, KeyOf, Count;
    SameCounts(w, site.world);
    AskForPlace(site, c);
    if site.world.tasks[c].Finished? { return; }
    ghost var granted := site.world;
    StoreAndAnswer(site, c);
    SameCounts(granted, site.world);
  }

  /** The whole handler, when nothing interferes: look, ask for a place, store, answer. */
  method Handle(site: Site, c: Caller, request: Request)
    requires Valid(site.world) && site.world.window > 0 && c !in site.world.tasks
    modifies site
    ensures Valid(site.world) && Answered(old(site.world), c, request, site.world)
  {
    hide Valid, Count;
    Begin(site, c, request);
    if site.world.tasks[c].Timing? { Finish(site, c, old(site.world), request); }
  }

  /** An inquiry is accepted only against a row with its own digest, so all accepted
      inquiries of one id are the same. */
  lemma AcceptedShareOneDigest(w: World, c: Caller, d: Caller)
    requires Valid(w) && c in w.tasks && d in w.tasks && IsAccepted(w.tasks[c]) && IsAccepted(w.tasks[d])
    requires w.tasks[c].request.Inquiry? && w.tasks[d].request.Inquiry? && w.tasks[c].request.id == w.tasks[d].request.id
    ensures w.tasks[c].request.id in w.rows
    ensures w.rows[w.tasks[c].request.id].digest == w.tasks[c].request.digest == w.tasks[d].request.digest
  {
    assert RowValid(w, c, w.tasks[c]) && RowValid(w, d, w.tasks[d]);
  }

  /** Whoever stored its row and got an answer was accepted. */
  lemma StoredIsAccepted(w: World, c: Caller)
    requires Valid(w) && c in w.stored && c in w.tasks && w.tasks[c].Finished? && !w.tasks[c].response.ServerError?
    ensures IsAccepted(w.tasks[c])
  {
    assert PlaceValid(w, c, w.tasks[c]);
  }

  /** Whoever was accepted has its submission stored: a trial by itself, an inquiry by
      whichever handler of its id came first. */
  lemma AcceptedIsStored(w: World, c: Caller)
    requires Valid(w) && c in w.tasks && IsAccepted(w.tasks[c])
    ensures match w.tasks[c].request
            case Trial(_) => c in w.stored
            case Inquiry(id, digest, _) => id in w.rows && w.rows[id].author in w.stored && w.rows[id].digest == digest
  {
    assert RowValid(w, c, w.tasks[c]);
  }

  /** A conflict is answered only to an inquiry whose id has a row with another digest. */
  lemma ConflictIsReal(w: World, c: Caller)
    requires Valid(w) && c in w.tasks && IsConflict(w.tasks[c])
    ensures w.tasks[c].request.Inquiry?
    ensures w.tasks[c].request.id in w.rows && w.rows[w.tasks[c].request.id].digest != w.tasks[c].request.digest
  {
    assert RowValid(w, c, w.tasks[c]);
  }

  /** Of all inquiries with one id, at most one starts a notification, once. */
  lemma OneNotification(w: World, m: nat, n: nat)
    requires Valid(w) && m < |w.notifications| && n < |w.notifications|
    requires w.tasks[w.notifications[m]].request.Inquiry? && w.tasks[w.notifications[n]].request.Inquiry?
    requires w.tasks[w.notifications[m]].request.id == w.tasks[w.notifications[n]].request.id
    ensures m == n
  {
    assert w.notifications[m] == w.notifications[n];
  }

  /** With mail configured, a stored inquiry whose handler answered has its notification. */
  lemma StoredInquiryIsNotified(w: World, i: Id) returns (n: nat)
    requires Valid(w) && w.smtp && i in w.rows && IsAccepted(w.tasks[w.rows[i].author])
    ensures n < |w.notifications| && w.notifications[n] == w.rows[i].author
  {
    var c := w.rows[i].author;
    assert c in w.stored && c in w.notifications;
    n :| 0 <= n < |w.notifications| && w.notifications[n] == c;
  }

  /** While any handler may still ask for a place in a window that has given one, the
      window's counter is there: no cleanup has reset it. */
  lemma LiveWindowsAreNotReset(w: World, c: Caller)
    requires Valid(w) && Asks(w, c)
    ensures var k := KeyOf(w.tasks[c].request, w.tasks[c].now, w.window); k in w.granted ==> k in w.rates
  {
    InWindow(w.tasks[c].now, w.window);
  }

  /** The submissions of one client whose handlers asked for a place in `from .. to`. */
  ghost function AskedBetween(w: World, f: Fingerprint, from: nat, to: nat): set<Caller> {
    set c | c in w.stored && c in w.tasks && w.tasks[c].request.fingerprint == f && from <= w.stored[c].now < to
  }

  /** Those whose rows carry a time in `from .. to`. */
  ghost function CreatedBetween(w: World, f: Fingerprint, from: nat, to: nat): set<Caller> {
    set c | c in w.stored && c in w.tasks && w.tasks[c].request.fingerprint == f && from <= w.stored[c].createdAt < to
  }

  lemma SubsetSize<T>(a: set<T>, b: set<T>)
    requires a <= b
    ensures |a| <= |b|
  {
    assert b == a + (b - a);
  }

  lemma Multiples(m: nat, n: nat, window: nat)
    requires m <= n
    ensures m * window <= n * window
  {
    assert n * window == m * window + (n - m) * window;
  }

  lemma SameWindow(now: nat, n: nat, window: nat)
    requires window > 0 && n * window <= now < (n + 1) * window
    ensures WindowStart(now, window) == n * window
  {
    InWindow(now, window);
    var m := now / window;
    if m < n {
      Multiples(m + 1, n, window);
    } else if m > n {
      Multiples(n + 1, m, window);
    }
  }

  /** Trials and inquiries together: at most `maximum` ask in a window and are stored. */
  lemma AtMostMaximumPerWindow(w: World, f: Fingerprint, n: nat)
    requires Valid(w)
    ensures |AskedBetween(w, f, n * w.window, (n + 1) * w.window)| <= w.maximum
  {
    var k := Key(f, n * w.window);
    var inside := AskedBetween(w, f, n * w.window, (n + 1) * w.window);
    forall c | c in inside ensures Holds(w, k, c) {
      assert PlaceValid(w, c, w.tasks[c]);
      SameWindow(w.stored[c].now, n, w.window);
    }
    if c :| c in inside {
      SubsetSize(inside, w.granted[k]);
    }
  }

  /** Over consecutive windows the bound adds up. */
  lemma {:induction false} AtMostOverWindows(w: World, f: Fingerprint, n: nat, k: nat)
    requires Valid(w)
    ensures |AskedBetween(w, f, n * w.window, (n + k) * w.window)| <= k * w.maximum
    decreases k
  {
    hide PlacesValid, RowsValid, NotificationsValid;
    if k == 0 {
      assert AskedBetween(w, f, n * w.window, (n + k) * w.window) == {};
    } else {
      var first := AskedBetween(w, f, n * w.window, (n + k - 1) * w.window);
      var last := AskedBetween(w, f, (n + k - 1) * w.window, (n + k) * w.window);
      AtMostOverWindows(w, f, n, k - 1);
      AtMostMaximumPerWindow(w, f, n + k - 1);
      assert AskedBetween(w, f, n * w.window, (n + k) * w.window) <= first + last;
      SubsetSize(AskedBetween(w, f, n * w.window, (n + k) * w.window), first + last);
      assert (k - 1) * w.maximum + w.maximum == k * w.maximum;
    }
  }

  lemma Ordered(a: nat, b: nat, window: nat)
    requires window > 0 && a <= b
    ensures a / window <= b / window
  {
    InWindow(a, window);
    InWindow(b, window);
    if b / window < a / window {
      Multiples(b / window + 1, a / window, window);
    }
  }

  /** How many windows a stretch of time meets. */
  function WindowsMet(from: nat, to: nat, window: nat): nat
    requires window > 0 && from < to
  {
    Ordered(from, to - 1, window);
    (to - 1) / window - from / window + 1
  }

  /** In any stretch, at most `maximum` for every window it meets. */
  lemma AtMostInStretch(w: World, f: Fingerprint, from: nat, to: nat)
    requires Valid(w) && from < to
    ensures |AskedBetween(w, f, from, to)| <= WindowsMet(from, to, w.window) * w.maximum
  {
    hide PlacesValid, RowsValid, NotificationsValid;
    var n, k := from / w.window, WindowsMet(from, to, w.window);
    InWindow(from, w.window);
    InWindow(to - 1, w.window);
    AtMostOverWindows(w, f, n, k);
    assert n + k == (to - 1) / w.window + 1;
    assert ((to - 1) / w.window + 1) * w.window == (to - 1) / w.window * w.window + w.window;
    SubsetSize(AskedBetween(w, f, from, to), AskedBetween(w, f, n * w.window, (n + k) * w.window));
  }

  /** A stretch of at most one second more than the window meets at most two windows. */
  lemma TwoWindows(start: nat, to: nat, window: nat)
    requires window > 0 && start < to <= start + window + 1
    ensures WindowsMet(start, to, window) <= 2
  {
    InWindow(start, window);
    InWindow(to - 1, window);
    assert (start / window + 2) * window == start / window * window + 2 * window;
    if (to - 1) / window > start / window + 1 {
      Multiples(start / window + 2, (to - 1) / window, window);
    }
  }

  /** By the time asked, at most twice the maximum in any stretch of the window's length. */
  lemma AtMostTwiceInAnyStretch(w: World, f: Fingerprint, from: nat)
    requires Valid(w)
    ensures |AskedBetween(w, f, from, from + w.window)| <= 2 * w.maximum
  {
    hide PlacesValid, RowsValid, NotificationsValid;
    AtMostInStretch(w, f, from, from + w.window);
    TwoWindows(from, from + w.window, w.window);
    var k := WindowsMet(from, from + w.window, w.window);
    Multiples(k, 2, w.maximum);
  }

  /** No row carries a time more than `delay` after its handler asked. */
  ghost predicate Prompt(w: World, delay: nat) {
    forall c | c in w.stored :: w.stored[c].createdAt <= w.stored[c].now + delay
  }

  /** By the time on the rows: at most `maximum` for every window that the stretch, widened by
      the longest delay, meets. */
  lemma AtMostByCreation(w: World, f: Fingerprint, from: nat, to: nat, delay: nat)
    requires Valid(w) && Prompt(w, delay) && from < to
    ensures var start := if from < delay then 0 else from - delay;
            |CreatedBetween(w, f, from, to)| <= WindowsMet(start, to, w.window) * w.maximum
  {
    var start := if from < delay then 0 else from - delay;
    AtMostInStretch(w, f, start, to);
    forall c | c in CreatedBetween(w, f, from, to) ensures c in AskedBetween(w, f, start, to) {
      assert PlaceValid(w, c, w.tasks[c]);
    }
    SubsetSize(CreatedBetween(w, f, from, to), AskedBetween(w, f, start, to));
  }

  /** So the bound of twice the maximum holds by the time on the rows as long as no handler
      takes longer than a second from one reading of the clock to the other. */
  lemma AtMostTwiceIfPrompt(w: World, f: Fingerprint, from: nat)
    requires Valid(w) && Prompt(w, 1)
    ensures |CreatedBetween(w, f, from, from + w.window)| <= 2 * w.maximum
  {
    hide PlacesValid, RowsValid, NotificationsValid;
    var start := if from < 1 then 0 else from - 1;
    AtMostByCreation(w, f, from, from + w.window, 1);
    TwoWindows(start, from + w.window, w.window);
    Multiples(WindowsMet(start, from + w.window, w.window), 2, w.maximum);
  }

  /** The counter a trial of client 0 would be counted in now. */
  function Present(w: World): Key
    requires w.window > 0
  {
    KeyOf(Trial(0), w.clock, w.window)
  }

  /** Asks for a place in the present window, which has one. */
  method AskInTime(site: Site, c: Caller)
    requires Valid(site.world) && site.world.window > 0 && c !in site.world.tasks
    requires Count(site.world, Present(site.world)) < site.world.maximum
    modifies site
    ensures Valid(site.world)
    ensures site.world == old(site.world).(tasks := site.world.tasks, rates := site.world.rates, granted := site.world.granted)
    ensures site.world.tasks == old(site.world).tasks[c := Granted(Trial(0), site.world.clock)]
    ensures Count(site.world, Present(site.world)) == Count(old(site.world), Present(site.world)) + 1
    ensures forall k | k != Present(site.world) :: Count(site.world, k) == Count(old(site.world), k)
  {
    hide Valid, Onward, KeyOf, Count;
    ghost var w := site.world;
    site.Arrive(c, Trial(0));
    SameCounts(w, site.world);
    AskForPlace(site, c);
  }

  /** Fills the present window, in which nobody has asked yet. */
  method FillWindow(site: Site, first: Caller)
    requires Valid(site.world) && site.world.window > 0 && Count(site.world, Present(site.world)) == 0
    requires forall c | first <= c :: c !in site.world.tasks
    modifies site
    ensures Valid(site.world)
    ensures site.world == old(site.world).(tasks := site.world.tasks, rates := site.world.rates, granted := site.world.granted)
    ensures forall c | first <= c < first + site.world.maximum ::
              c in site.world.tasks && site.world.tasks[c] == Granted(Trial(0), site.world.clock)
    ensures forall c | first + site.world.maximum <= c :: c !in site.world.tasks
    ensures forall c | 0 <= c < first && c in old(site.world).tasks :: c in site.world.tasks && site.world.tasks[c] == old(site.world).tasks[c]
    ensures forall k | k != Present(site.world) :: Count(site.world, k) == Count(old(site.world), k)
  {
    hide Valid, Onward, Count;
    for n := 0 to site.world.maximum
      invariant Valid(site.world)
      invariant site.world == old(site.world).(tasks := site.world.tasks, rates := site.world.rates, granted := site.world.granted)
      invariant forall c | first <= c < first + n :: c in site.world.tasks && site.world.tasks[c] == Granted(Trial(0), site.world.clock)
      invariant forall c | first + n <= c :: c !in site.world.tasks
      invariant forall c | 0 <= c < first && c in old(site.world).tasks :: c in site.world.tasks && site.world.tasks[c] == old(site.world).tasks[c]
      invariant Count(site.world, Present(site.world)) == n
      invariant forall k | k != Present(site.world) :: Count(site.world, k) == Count(old(site.world), k)
    {
      AskInTime(site, first + n);
    }
  }

  /** Reads the row's time and stores it. */
  method StoreNow(site: Site, c: Caller)
    requires Valid(site.world) && c in site.world.tasks && site.world.tasks[c].Granted? && site.world.tasks[c].request == Trial(0)
    modifies site
    ensures Valid(site.world)
    ensures site.world == old(site.world).(tasks := site.world.tasks, stored := site.world.stored)
    ensures site.world.tasks == old(site.world).tasks[c := Won(Trial(0), old(site.world).tasks[c].now)]
    ensures site.world.stored == old(site.world).stored[c := Stamp(old(site.world).tasks[c].now, site.world.clock)]
  {
    hide Valid, Onward;
    site.StampRow(c);
    site.Store(c);
  }

  /** When each of the late handlers asks. */
  function AskedAt(window: nat, maximum: nat, c: Caller): nat
    requires window > 0
  {
    if c < maximum then window - 1 else if c < 2 * maximum then window else 2 * window
  }

  function Callers(n: nat): (r: set<Caller>)
    ensures |r| == n && forall c: Caller :: c in r <==> c < n
  {
    if n == 0 then {} else Callers(n - 1) + {n - 1}
  }

  predicate GrantedFrom(w: World, m: nat, n: nat)
    requires w.window > 0
  {
    forall c | m <= c < n :: c in w.tasks && w.tasks[c] == Granted(Trial(0), AskedAt(w.window, w.maximum, c))
  }

  predicate StoredUpTo(w: World, m: nat, at: nat)
    requires w.window > 0
  {
    && w.stored.Keys == Callers(m)
    && forall c | 0 <= c < m ::
         && c in w.tasks && w.tasks[c].request == Trial(0)
         && c in w.stored && w.stored[c] == Stamp(AskedAt(w.window, w.maximum, c), at)
  }

  lemma OneFewerGranted(w: World, v: World, m: nat, n: nat)
    requires w.window > 0 && m < n && GrantedFrom(w, m, n) && v.window == w.window && v.maximum == w.maximum
    requires forall c | m < c < n :: c in v.tasks && c in w.tasks && v.tasks[c] == w.tasks[c]
    ensures GrantedFrom(v, m + 1, n)
  {
    hide AskedAt;
  }

  lemma OneMoreStored(w: World, v: World, m: nat)
    requires w.window > 0 && StoredUpTo(w, m, w.clock) && v.window == w.window && v.maximum == w.maximum && v.clock == w.clock
    requires m in w.tasks && w.tasks[m] == Granted(Trial(0), AskedAt(w.window, w.maximum, m))
    requires v.tasks == w.tasks[m := Won(Trial(0), w.tasks[m].now)] && v.stored == w.stored[m := Stamp(w.tasks[m].now, w.clock)]
    ensures StoredUpTo(v, m + 1, v.clock)
  {
    hide Callers, AskedAt;
    assert v.stored.Keys == Callers(m + 1);
    forall c | 0 <= c < m + 1
      ensures c in v.tasks && v.tasks[c].request == Trial(0) && c in v.stored
      ensures v.stored[c] == Stamp(AskedAt(v.window, v.maximum, c), v.clock)
    {
      if c < m { assert c in w.tasks && c in w.stored; }
    }
  }

  lemma OneMoved(w: World, v: World, m: nat, n: nat)
    requires w.window > 0 && m < n && StoredUpTo(w, m, w.clock) && GrantedFrom(w, m, n)
    requires v == w.(tasks := w.tasks[m := Won(Trial(0), w.tasks[m].now)], stored := w.stored[m := Stamp(w.tasks[m].now, w.clock)])
    ensures StoredUpTo(v, m + 1, v.clock) && GrantedFrom(v, m + 1, n) && v.tasks.Keys == w.tasks.Keys
  {
    hide StoredUpTo, AskedAt;
    OneMoreStored(w, v, m);
    OneFewerGranted(w, v, m, n);
  }

  /** All the first `n` handlers store their rows at the same moment. */
  method StoreAll(site: Site, n: nat)
    requires Valid(site.world) && site.world.window > 0 && site.world.stored == map[] && GrantedFrom(site.world, 0, n)
    modifies site
    ensures Valid(site.world)
    ensures site.world == old(site.world).(tasks := site.world.tasks, stored := site.world.stored)
    ensures site.world.tasks.Keys == old(site.world).tasks.Keys
    ensures StoredUpTo(site.world, n, site.world.clock)
  {
    assert StoredUpTo(site.world, 0, site.world.clock);
    hide Valid, Onward, StoredUpTo;
    for m := 0 to n
      invariant Valid(site.world)
      invariant site.world == old(site.world).(tasks := site.world.tasks, stored := site.world.stored)
      invariant site.world.tasks.Keys == old(site.world).tasks.Keys
      invariant StoredUpTo(site.world, m, site.world.clock)
      invariant GrantedFrom(site.world, m, n)
    {
      ghost var w := site.world;
      assert m in w.tasks && w.tasks[m].Granted?;
      StoreNow(site, m);
      OneMoved(w, site.world, m, n);
    }
  }

  lemma NoneCounted(w: World)
    requires w.rates == map[]
    ensures forall k :: Count(w, k) == 0
  {
  }

  lemma PresentWindow(w: World, n: nat)
    requires w.window > 0 && n * w.window <= w.clock < (n + 1) * w.window
    ensures Present(w) == Key(0, n * w.window)
  {
    SameWindow(w.clock, n, w.window);
  }

  lemma TooMany(middle: World, w: World, window: nat, maximum: nat)
    requires 0 < window && middle.window == window && middle.maximum == maximum
    requires StoredUpTo(middle, 2 * maximum, window + 1)
    requires w.tasks == middle.tasks[2 * maximum := Won(Trial(0), 2 * window)]
    requires w.stored == middle.stored[2 * maximum := Stamp(2 * window, 2 * window)]
    ensures Prompt(w, 2)
    ensures |CreatedBetween(w, 0, window + 1, window + 1 + window)| > 2 * maximum
  {
    hide Callers;
    var late := CreatedBetween(w, 0, window + 1, window + 1 + window);
    forall c | c in w.stored ensures w.stored[c].createdAt <= w.stored[c].now + 2 {
      if c != 2 * maximum { assert c in middle.stored.Keys; }
    }
    forall c | c in Callers(2 * maximum + 1) ensures c in late {
      if c != 2 * maximum { assert c in middle.stored && c in middle.tasks; }
    }
    SubsetSize(Callers(2 * maximum + 1), late);
  }

  /** One client fills two windows in a row, at the end of one and the start of the next. */
  method FillTwice(window: nat, maximum: nat) returns (site: Site)
    requires 0 < window && 0 < maximum
    ensures fresh(site) && Valid(site.world) && site.world.window == window && site.world.maximum == maximum
    ensures site.world.clock == window && site.world.stored == map[]
    ensures GrantedFrom(site.world, 0, 2 * maximum)
    ensures forall c | 2 * maximum <= c :: c !in site.world.tasks
    ensures Count(site.world, Key(0, 2 * window)) == 0
  {
    hide Valid, Onward, Count, KeyOf, WindowStart;
    site := new Site(window, maximum, false, window - 1);
    NoneCounted(site.world);
    assert Present(site.world) == Key(0, 0) by { PresentWindow(site.world, 0); }
    FillWindow(site, 0);
    ghost var w := site.world;
    site.Tick(1);
    SameCounts(w, site.world);
    assert Present(site.world) == Key(0, window) by { PresentWindow(site.world, 1); }
    FillWindow(site, maximum);
  }

  /** With a delay of two seconds it does not, whatever the window and the maximum: handlers
      that filled two windows are held up and store at one moment, and one more comes in time
      for the next window. */
  method LateRows(window: nat, maximum: nat) returns (site: Site)
    requires 0 < window && 0 < maximum
    ensures fresh(site) && Valid(site.world) && site.world.window == window && site.world.maximum == maximum
    ensures Prompt(site.world, 2)
    ensures |CreatedBetween(site.world, 0, window + 1, window + 1 + window)| > 2 * maximum
  {
    hide Valid, Onward, Count, KeyOf, WindowStart, StoredUpTo, Prompt, CreatedBetween;
    site := FillTwice(window, maximum);
    ghost var filled := site.world;
    site.Tick(1);
    StoreAll(site, 2 * maximum);
    ghost var middle := site.world;
    site.Tick(window - 1);
    SameCounts(filled, site.world);
    assert Present(site.world) == Key(0, 2 * window) by { PresentWindow(site.world, 2); }
    AskInTime(site, 2 * maximum);
    StoreNow(site, 2 * maximum);
    TooMany(middle, site.world, window, maximum);
  }
}
