/** What the loop detector detects: repetition of what agents say, up to a collision of the digest. */
module LoopDetection {
  import opened Json
  import opened Policy
  import opened Events
  import opened RoomData
  import opened RoomSpec
  import opened Turns
  import opened Sequences
  import JsonRoundTrip

  /** What was said, up to the order of members and absent members: its canonical value. */
  function Meanings(bodies: seq<Body>): (r: seq<Value>)
    ensures |r| == |bodies| && forall i :: 0 <= i < |bodies| ==> r[i] == Normal(Said(bodies[i]))
  {
    if bodies == [] then [] else [Normal(Said(bodies[0]))] + Meanings(bodies[1..])
  }

  /** Two bodies of the window with different canonical texts and the same digest. */
  predicate Collision(digest: string -> string, bodies: seq<Body>) {
    exists a, b :: a in bodies && b in bodies && Text(Said(a)) != Text(Said(b)) && digest(Text(Said(a))) == digest(Text(Said(b)))
  }

  /** If nothing occurs more than twice, there are at most twice as many occurrences as different values. */
  lemma {:induction false} AtMostTwiceEach<T>(m: multiset<T>, s: set<T>)
    requires forall x :: x in m ==> x in s && m[x] <= 2
    ensures |m| <= 2 * |s|
    decreases s
  {
    if s == {} {
      assert m == multiset{};
    } else {
      var x :| x in s;
      var rest := m[x := 0];
      assert m == rest[x := m[x]];
      AtMostTwiceEach(rest, s - {x});
    }
  }

  lemma ElementsOfLonger<T>(xs: seq<T>, n: nat)
    requires |xs| == n + 1
    ensures Elements(xs) == Elements(xs[..n]) + {xs[n]}
    ensures |Elements(xs)| == |Elements(xs[..n])| + if xs[n] in xs[..n] then 0 else 1
  {
    assert xs == xs[..n] + [xs[n]];
    assert Elements(xs) == Elements(xs[..n]) + {xs[n]};
    if xs[n] in xs[..n] { assert Elements(xs) == Elements(xs[..n]); }
  }

  /** A list determined by another has no more different elements. */
  lemma {:induction false} NoMoreElements<T, U>(xs: seq<T>, ys: seq<U>)
    requires |xs| == |ys| && forall i, j :: 0 <= i < |xs| && 0 <= j < |xs| && xs[i] == xs[j] ==> ys[i] == ys[j]
    ensures |Elements(ys)| <= |Elements(xs)|
  {
    if |xs| > 0 {
      var n := |xs| - 1;
      NoMoreElements(xs[..n], ys[..n]);
      ElementsOfLonger(xs, n);
      ElementsOfLonger(ys, n);
      if xs[n] in xs[..n] {
        var i :| 0 <= i < n && xs[..n][i] == xs[n];
        assert xs[i] == xs[n] && ys[..n][i] == ys[n];
      }
    }
  }

  lemma {:induction false} SameCount<T, U>(xs: seq<T>, ys: seq<U>, x: T, y: U)
    requires |xs| == |ys| && forall i :: 0 <= i < |xs| ==> (xs[i] == x <==> ys[i] == y)
    ensures Count(xs, x) == Count(ys, y)
  {
    if |xs| > 0 {
      var n := |xs| - 1;
      assert xs == xs[..n] + [xs[n]] && ys == ys[..n] + [ys[n]];
      SameCount(xs[..n], ys[..n], x, y);
    }
  }

  /** Bodies with the same meaning have the same text, hence the same digest; without a collision, and only then. */
  lemma MeaningsDecide(digest: string -> string, bodies: seq<Body>, i: nat, j: nat)
    requires i < |bodies| && j < |bodies|
    ensures Meanings(bodies)[i] == Meanings(bodies)[j] ==> Digests(digest, bodies)[i] == Digests(digest, bodies)[j]
    ensures !Collision(digest, bodies) && Digests(digest, bodies)[i] == Digests(digest, bodies)[j] ==>
      Meanings(bodies)[i] == Meanings(bodies)[j]
  {
    JsonRoundTrip.SameTextIffSameNormal(Said(bodies[i]), Said(bodies[j]));
    assert bodies[i] in bodies && bodies[j] in bodies;
  }

  /** More than twice as many events in the window as different things said: the loop is detected. */
  lemma RepetitionIsDetected(digest: string -> string, events: seq<Event>)
    requires var window := LastEight(Spoken(events)); |window| > 2 * |Elements(Meanings(window))|
    ensures LoopDetected(digest, events)
  {
    var window := LastEight(Spoken(events));
    var vs, hs := Meanings(window), Digests(digest, window);
    forall i, j | 0 <= i < |vs| && 0 <= j < |vs| && vs[i] == vs[j] ensures hs[i] == hs[j] { MeaningsDecide(digest, window, i, j); }
    NoMoreElements(vs, hs);
    assert |multiset(hs)| == |hs|;
    if forall h :: h in hs ==> Count(hs, h) <= 2 { AtMostTwiceEach(multiset(hs), Elements(hs)); }
  }

  lemma RepeatedAlso<T, U>(xs: seq<T>, ys: seq<U>, x: T)
    requires |xs| == |ys| && forall i, j :: 0 <= i < |xs| && 0 <= j < |xs| ==> (xs[i] == xs[j] <==> ys[i] == ys[j])
    requires Count(xs, x) >= 3
    ensures exists y :: y in ys && Count(ys, y) >= 3
  {
    var k := LastOccurrence(xs, x);
    SameCount(xs, ys, x, ys[k]);
    assert ys[k] in ys && Count(ys, ys[k]) >= 3;
  }

  lemma ThreeTimesSaid(digest: string -> string, window: seq<Body>, h: string)
    requires !Collision(digest, window) && Count(Digests(digest, window), h) >= 3
    ensures exists v :: v in Meanings(window) && Count(Meanings(window), v) >= 3
  {
    var vs, hs := Meanings(window), Digests(digest, window);
    forall i, j | 0 <= i < |hs| && 0 <= j < |hs| ensures hs[i] == hs[j] <==> vs[i] == vs[j] { MeaningsDecide(digest, window, i, j); }
    RepeatedAlso(hs, vs, h);
  }

  /** A detected loop is one: something was said at least three times in the window, or two different things said there
      have the same digest. */
  lemma DetectionIsRepetition(digest: string -> string, events: seq<Event>)
    requires LoopDetected(digest, events)
    ensures var window := LastEight(Spoken(events));
      Collision(digest, window) || exists v :: v in Meanings(window) && Count(Meanings(window), v) >= 3
  {
    var window := LastEight(Spoken(events));
    var h :| h in Digests(digest, window) && Count(Digests(digest, window), h) >= 3;
    if !Collision(digest, window) { ThreeTimesSaid(digest, window, h); }
  }

  // ---------------------------------------------------------------------------------------------
  // Which events count
  // ---------------------------------------------------------------------------------------------

  lemma {:induction false} LastOccurrence<T>(xs: seq<T>, x: T) returns (k: nat)
    requires Count(xs, x) > 0
    ensures k < |xs| && xs[k] == x && Count(xs[..k], x) == Count(xs, x) - 1
  {
    var n := |xs| - 1;
    assert xs == xs[..n] + [xs[n]];
    if xs[n] == x { return n; }
    k := LastOccurrence(xs[..n], x);
    assert xs[..n][..k] == xs[..k];
  }

  lemma OccursAgain<T>(xs: seq<T>, x: T, k: nat, n: nat)
    requires k < n <= |xs| && xs[k] == x
    ensures Count(xs[..n], x) >= Count(xs[..k], x) + 1
  {
    assert xs[..n] == xs[..k] + [xs[k]] + xs[k + 1..n];
  }

  /** The same at three places. */
  predicate ThreeAlike(hs: seq<string>, i: nat, j: nat, k: nat) { i < j < k < |hs| && hs[i] == hs[j] == hs[k] }

  lemma RepeatsIff(hs: seq<string>)
    ensures Repeats(hs) <==> exists i: nat, j: nat, k: nat :: ThreeAlike(hs, i, j, k)
  {
    if Repeats(hs) {
      var h :| h in hs && Count(hs, h) >= 3;
      var k := LastOccurrence(hs, h);
      var j := LastOccurrence(hs[..k], h);
      var i := LastOccurrence(hs[..k][..j], h);
      assert ThreeAlike(hs, i, j, k);
    }
    if i: nat, j: nat, k: nat :| ThreeAlike(hs, i, j, k) {
      OccursAgain(hs, hs[i], i, j);
      OccursAgain(hs, hs[i], j, k);
      OccursAgain(hs, hs[i], k, |hs|);
      assert hs[..|hs|] == hs;
    }
  }

  /** The same at three of the last eight places. */
  predicate AlikeAmongLast(ds: seq<string>, i: nat, j: nat, k: nat) { |ds| - 8 <= i && ThreeAlike(ds, i, j, k) }

  ghost predicate SomeAlike(ds: seq<string>) { exists i: nat, j: nat, k: nat :: AlikeAmongLast(ds, i, j, k) }

  lemma DigestsOfLast(digest: string -> string, said: seq<Body>)
    ensures Digests(digest, LastEight(said)) == LastEight(Digests(digest, said))
  {
  }

  lemma AmongLastIff(ds: seq<string>)
    ensures Repeats(LastEight(ds)) <==> SomeAlike(ds)
  {
    var hs, from := LastEight(ds), if |ds| <= 8 then 0 else |ds| - 8;
    assert hs == ds[from..];
    RepeatsIff(hs);
    if i: nat, j: nat, k: nat :| ThreeAlike(hs, i, j, k) { assert AlikeAmongLast(ds, from + i, from + j, from + k); }
    if i: nat, j: nat, k: nat :| AlikeAmongLast(ds, i, j, k) { assert ThreeAlike(hs, i - from, j - from, k - from); }
  }

  /** A loop is detected exactly if of the last eight things that agents said three have the same digest. */
  lemma LoopDetectedIff(digest: string -> string, events: seq<Event>, ds: seq<string>)
    requires ds == Digests(digest, Spoken(events))
    ensures LoopDetected(digest, events) <==> SomeAlike(ds)
  {
    DigestsOfLast(digest, Spoken(events));
    AmongLastIff(ds);
  }

  /** What agents said: the bodies of exactly their events, in order. */
  lemma SpokenGrows(events: seq<Event>, e: Event)
    ensures Spoken([]) == []
    ensures Spoken(events + [e]) == if e.sender.Some? && e.content.FromAgent? then Spoken(events) + [e.content.body] else Spoken(events)
  {
    assert (events + [e])[..|events|] == events;
  }

  /** What pausing for a reason does. */
  predicate PausedWithNote(db: Db, db': Db) {
    && (db.room.state == Active ==>
          && db'.room.state == Paused && |db'.events| == |db.events| + 1
          && db'.events[|db.events|].content.FromPlatform? && db'.events[|db.events|].content.notice.RoomPaused?)
    && (db.room.state != Active ==> db' == db)
  }

  lemma PausingNotes(db: Db, reason: string)
    ensures PausedWithNote(db, PauseForBudget(db, reason))
  {
  }

  /** More than twice as many events in the window as different things said: no turn is begun, nobody is selected, and an
      ACTIVE room is left PAUSED with a note of the reason. */
  lemma RepetitionPauses(digest: string -> string, db: Db, d: Driver, now: int)
    requires var window := LastEight(Spoken(db.events)); |window| > 2 * |Elements(Meanings(window))|
    ensures var (db', d', begun) := Begin(digest, db, d, now);
      begun == Stopped && d' == d && PausedWithNote(db, db')
  {
    RepetitionIsDetected(digest, db.events);
    var reason := Obstacle(digest, db, now);
    assert reason.Some?;
    PausingNotes(db, reason.value);
  }
}
