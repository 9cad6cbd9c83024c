/**
 * The community pet: a world that decays lazily (`shared/pet.ts`) and the row it is kept in
 * (`convex/pet.ts`). Times are whole milliseconds, needs are exact reals.
 */
module Pet {
  import opened Common

  const HOUR := 3_600_000
  const DAY := 24 * HOUR
  const AWAKE := 4 * HOUR
  const NAP := 600_000
  const CYCLE := AWAKE + NAP

  datatype Need = Battery | Joy | Cleanliness

  datatype Needs = Needs(battery: real, joy: real, cleanliness: real)

  datatype Favorite = FavoriteBall | FavoriteCollect | FavoritePolish

  datatype Action = Charge | Play | Polish | Pat | Ball | Collect | Coin | Game | Secret | Wake

  datatype World = World(
    needs: Needs, lowPower: bool, lastUpdated: int, napAnchor: int,
    favorite: Option<Favorite>, props: seq<string>, revision: nat, habitDay: int)

  function InitialWorld(now: int): World {
    World(Needs(80.0, 80.0, 80.0), false, now, now + AWAKE, None, [], 0, now / DAY)
  }

  // ---------- naps ----------

  /** Milliseconds slept up to `time` since naps began at `anchor`. */
  function SleepSince(anchor: int, time: int): int {
    var elapsed := if time > anchor then time - anchor else 0;
    elapsed / CYCLE * NAP + (if elapsed % CYCLE < NAP then elapsed % CYCLE else NAP)
  }

  function CycleStart(anchor: int, now: int): int {
    anchor + (if (now - anchor) / CYCLE > 0 then (now - anchor) / CYCLE else 0) * CYCLE
  }

  predicate Sleeping(anchor: int, now: int) {
    now - anchor >= 0 && now - CycleStart(anchor, now) < NAP
  }

  function NextNapAt(anchor: int, now: int): int {
    if now - anchor < 0 then anchor
    else if Sleeping(anchor, now) then CycleStart(anchor, now)
    else CycleStart(anchor, now) + CYCLE
  }

  /** In how many of the `n` milliseconds starting at `start` the pet is reported asleep. */
  function AsleepFor(anchor: int, start: int, n: nat): nat {
    if n == 0 then 0
    else AsleepFor(anchor, start, n - 1) + if Sleeping(anchor, start + n - 1) then 1 else 0
  }

  /** In the `q`-th cycle, `r` milliseconds in. */
  lemma SleepInCycle(anchor: int, q: nat, r: nat)
    requires r < CYCLE
    ensures SleepSince(anchor, anchor + q * CYCLE + r) == q * NAP + if r < NAP then r else NAP
    ensures Sleeping(anchor, anchor + q * CYCLE + r) <==> r < NAP
  {
    DivideBy(q * CYCLE + r, CYCLE, q);
  }

  lemma SleepPerTick(anchor: int, t: int)
    ensures SleepSince(anchor, t + 1) - SleepSince(anchor, t) == if Sleeping(anchor, t) then 1 else 0
  {
    if t < anchor {
      assert SleepSince(anchor, t) == 0 == SleepSince(anchor, t + 1);
    } else {
      hide SleepSince, Sleeping;
      var q, r := (t - anchor) / CYCLE, (t - anchor) % CYCLE;
      assert t == anchor + q * CYCLE + r;
      SleepInCycle(anchor, q, r);
      if r + 1 < CYCLE {
        SleepInCycle(anchor, q, r + 1);
      } else {
        SleepInCycle(anchor, q + 1, 0);
        assert anchor + (q + 1) * CYCLE + 0 == t + 1;
      }
    }
  }

  /** The closed form counts exactly the milliseconds reported as asleep. */
  lemma {:induction false} SleepIsWhatIsReported(anchor: int, start: int, n: nat)
    ensures SleepSince(anchor, start + n) - SleepSince(anchor, start) == AsleepFor(anchor, start, n)
  {
    if n > 0 {
      SleepIsWhatIsReported(anchor, start, n - 1);
      SleepPerTick(anchor, start + n - 1);
    }
  }

  lemma {:induction false} AsleepAtMost(anchor: int, start: int, n: nat)
    ensures AsleepFor(anchor, start, n) <= n
  {
    if n > 0 { AsleepAtMost(anchor, start, n - 1); }
  }

  lemma SleepBounds(anchor: int, from: int, to: int)
    requires from <= to
    ensures 0 <= SleepSince(anchor, to) - SleepSince(anchor, from) <= to - from
  {
    SleepIsWhatIsReported(anchor, from, to - from);
    AsleepAtMost(anchor, from, to - from);
  }

  /** The announced nap is the next one: awake until `NextNapAt`, or asleep until `NAP` after its start. */
  lemma NapIsAsAnnounced(anchor: int, now: int, t: int)
    ensures !Sleeping(anchor, now) ==> now < NextNapAt(anchor, now) && Sleeping(anchor, NextNapAt(anchor, now))
    ensures !Sleeping(anchor, now) && now <= t < NextNapAt(anchor, now) ==> !Sleeping(anchor, t)
    ensures Sleeping(anchor, now) ==> now < CycleStart(anchor, now) + NAP && !Sleeping(anchor, CycleStart(anchor, now) + NAP)
    ensures Sleeping(anchor, now) && now <= t < CycleStart(anchor, now) + NAP ==> Sleeping(anchor, t)
  {
    if now >= anchor {
      var q, r := (now - anchor) / CYCLE, (now - anchor) % CYCLE;
      assert now - anchor == q * CYCLE + r;
      assert CycleStart(anchor, now) == anchor + q * CYCLE;
      DivideBy(q * CYCLE + NAP, CYCLE, q);
      DivideBy((q + 1) * CYCLE, CYCLE, q + 1);
      if now <= t < anchor + (q + 1) * CYCLE { DivideBy(t - anchor, CYCLE, q); }
    }
  }

  /** Ten minutes of every four hours and ten, from the anchor on. */
  lemma NapTimes(anchor: int, now: int)
    ensures Sleeping(anchor, now) <==> now >= anchor && (now - anchor) % 15_000_000 < 600_000
  {
    if now >= anchor {
      var q := (now - anchor) / CYCLE;
      assert now - anchor == q * CYCLE + (now - anchor) % CYCLE;
      assert CycleStart(anchor, now) == anchor + q * CYCLE;
    }
  }

  // ---------- decay ----------

  function Floor10(x: real): real { if x > 10.0 then x else 10.0 }

  predicate AnyBelow15(n: Needs) { n.battery < 15.0 || n.joy < 15.0 || n.cleanliness < 15.0 }

  predicate AllAbove35(n: Needs) { n.battery > 35.0 && n.joy > 35.0 && n.cleanliness > 35.0 }

  function LowPower(n: Needs, was: bool): bool { AnyBelow15(n) || (was && !AllAbove35(n)) }

  /** Effective hours between two times: sleep counts for three tenths. */
  function Hours(anchor: int, from: int, to: int): real {
    ((to - from) as real - 0.7 * (SleepSince(anchor, to) - SleepSince(anchor, from)) as real) / 3_600_000.0
  }

  function Decay(n: Needs, hours: real): Needs {
    Needs(Floor10(n.battery - hours), Floor10(n.joy - hours * 1.5), Floor10(n.cleanliness - hours * 0.75))
  }

  function Later(a: int, b: int): int { if a > b then a else b }

  function Advance(w: World, time: int): World {
    var now := Later(time, w.lastUpdated);
    var needs := Decay(w.needs, Hours(w.napAnchor, w.lastUpdated, now));
    w.(needs := needs, lowPower := LowPower(needs, w.lowPower), lastUpdated := now)
  }

  lemma HoursAdd(anchor: int, a: int, b: int, c: int)
    requires a <= b <= c
    ensures Hours(anchor, a, b) + Hours(anchor, b, c) == Hours(anchor, a, c)
    ensures Hours(anchor, b, c) >= 0.0
    ensures (b - a) as real * 0.3 / 3_600_000.0 <= Hours(anchor, a, b) <= (b - a) as real / 3_600_000.0
  {
    SleepBounds(anchor, a, b);
    SleepBounds(anchor, b, c);
    hide SleepSince;
  }

  lemma DecayAdds(n: Needs, h: real, k: real)
    requires h >= 0.0 && k >= 0.0
    ensures Decay(Decay(n, h), k) == Decay(n, h + k)
  {
  }

  /** A low-power world with no need at 35 or below: only then does it matter when it is looked at. */
  predicate Recovering(w: World) { w.lowPower && AllAbove35(w.needs) }

  /** Looking at the pet in between makes no difference: lazy decay is stepwise decay. */
  lemma AdvanceComposes(w: World, t1: int, t2: int)
    requires !Recovering(w) && t1 <= t2
    ensures Advance(Advance(w, t1), t2) == Advance(w, t2)
  {
    var a, b, c := w.lastUpdated, Later(t1, w.lastUpdated), Later(t2, w.lastUpdated);
    HoursAdd(w.napAnchor, a, b, c);
    HoursAdd(w.napAnchor, a, a, b);
    hide Hours;
    DecayAdds(w.needs, Hours(w.napAnchor, a, b), Hours(w.napAnchor, b, c));
    assert Advance(w, t1).needs == Decay(w.needs, Hours(w.napAnchor, a, b));
  }

  function NeedsAt(w: World, t: int): Needs { Advance(w, t).needs }

  /** The first millisecond at which a decaying world has a need at 35 or below. */
  lemma {:induction false} FirstDrop(w: World, n: nat) returns (first: nat)
    requires AllAbove35(w.needs) && !AllAbove35(NeedsAt(w, w.lastUpdated + n))
    ensures 0 < first && !AllAbove35(NeedsAt(w, w.lastUpdated + first))
    ensures AllAbove35(NeedsAt(w, w.lastUpdated + first - 1))
  {
    HoursAdd(w.napAnchor, w.lastUpdated, w.lastUpdated, w.lastUpdated);
    if AllAbove35(NeedsAt(w, w.lastUpdated + n - 1)) {
      first := n;
    } else {
      first := FirstDrop(w, n - 1);
    }
  }

  /** One millisecond costs no need more than a fraction of a point. */
  lemma SmallSteps(w: World, t: int)
    requires w.lastUpdated < t && AllAbove35(NeedsAt(w, t - 1))
    ensures !AnyBelow15(NeedsAt(w, t))
  {
    HoursAdd(w.napAnchor, w.lastUpdated, t - 1, t);
    HoursAdd(w.napAnchor, t - 1, t, t);
    hide Hours;
  }

  /** Enough time brings some need down to 35. */
  lemma DropsEventually(w: World) returns (n: nat)
    requires AllAbove35(w.needs)
    ensures !AllAbove35(NeedsAt(w, w.lastUpdated + n))
  {
    var ms := (w.needs.battery - 35.0) * 12_000_000.0;
    n := ms.Floor + 1;
    HoursAdd(w.napAnchor, w.lastUpdated, w.lastUpdated + n, w.lastUpdated + n);
    hide Hours;
    assert n as real >= ms;
  }

  /** Composition holds for all later times exactly when the world is not recovering. */
  lemma ComposesExactlyWhenStable(w: World)
    ensures (forall t1, t2 :: t1 <= t2 ==> Advance(Advance(w, t1), t2) == Advance(w, t2)) <==> !Recovering(w)
  {
    if Recovering(w) {
      var n := DropsEventually(w);
      var first := FirstDrop(w, n);
      var t1, drop := w.lastUpdated, w.lastUpdated + first;
      SmallSteps(w, drop);
      HoursAdd(w.napAnchor, t1, t1, drop);
      assert Advance(w, t1).needs == w.needs && !Advance(w, t1).lowPower;
      assert Advance(Advance(w, t1), drop).needs == NeedsAt(w, drop);
      assert Advance(w, drop).lowPower && !Advance(Advance(w, t1), drop).lowPower;
    } else {
      forall t1, t2 | t1 <= t2 ensures Advance(Advance(w, t1), t2) == Advance(w, t2) {
        AdvanceComposes(w, t1, t2);
      }
    }
  }

  /**
   * A need falls at its own hourly rate for the time reported awake, at three tenths of it asleep, and
   * never below 10.
   */
  lemma NeedsFollowReports(w: World, n: nat)
    ensures var asleep := AsleepFor(w.napAnchor, w.lastUpdated, n);
            var hours := ((n - asleep) as real + 0.3 * asleep as real) / 3_600_000.0;
            var needs := NeedsAt(w, w.lastUpdated + n);
            && needs.battery == Floor10(w.needs.battery - hours)
            && needs.joy == Floor10(w.needs.joy - 1.5 * hours)
            && needs.cleanliness == Floor10(w.needs.cleanliness - 0.75 * hours)
  {
    SleepIsWhatIsReported(w.napAnchor, w.lastUpdated, n);
    AsleepAtMost(w.napAnchor, w.lastUpdated, n);
    hide SleepSince, AsleepFor;
  }

  // ---------- care ----------

  function CareNeed(action: Action): Option<Need> {
    match action
    case Charge => Some(Battery)
    case Polish => Some(Cleanliness)
    case Play => Some(Joy)
    case Ball => Some(Joy)
    case Game => Some(Joy)
    case _ => None
  }

  function Level(n: Needs, need: Need): real {
    match need case Battery => n.battery case Joy => n.joy case Cleanliness => n.cleanliness
  }

  function Raised(x: real): real { if x + 50.0 < 100.0 then x + 50.0 else 100.0 }

  function Fed(n: Needs, need: Need): Needs {
    match need
    case Battery => n.(battery := Raised(n.battery))
    case Joy => n.(joy := Raised(n.joy))
    case Cleanliness => n.(cleanliness := Raised(n.cleanliness))
  }

  function ApplyCare(world: World, action: Action, time: int): World {
    var now := Later(time, world.lastUpdated);
    var w := Advance(world, now);
    var needs := match CareNeed(action) case Some(need) => Fed(w.needs, need) case None => w.needs;
    var anchor := if action == Wake && Sleeping(w.napAnchor, now) then now + AWAKE else w.napAnchor;
    w.(needs := needs, napAnchor := anchor, lowPower := LowPower(needs, w.lowPower))
  }

  /** What every stored world satisfies. */
  ghost predicate Healthy(w: World) {
    && !Recovering(w)
    && 10.0 <= w.needs.battery <= 100.0 && 10.0 <= w.needs.joy <= 100.0 && 10.0 <= w.needs.cleanliness <= 100.0
  }

  lemma StaysHealthy(w: World, action: Action, t: int)
    requires Healthy(w)
    ensures Healthy(Advance(w, t)) && Healthy(ApplyCare(w, action, t))
    ensures Healthy(InitialWorld(t))
  {
    HoursAdd(w.napAnchor, w.lastUpdated, w.lastUpdated, Later(t, w.lastUpdated));
    hide Hours;
  }

  /** Care raises the need it is for, up to 100, leaves the others; waking a sleeper keeps it up for four hours. */
  lemma CareDoesItsPart(w: World, action: Action, time: int, need: Need, later: int)
    ensures var before, after := Level(NeedsAt(w, time), need), Level(ApplyCare(w, action, time).needs, need);
            if CareNeed(action) == Some(need) then after == Raised(before) else after == before
    ensures var t := Later(time, w.lastUpdated);
            if action == Wake && Sleeping(w.napAnchor, t) then
              t <= later < t + 14_400_000 ==> !Sleeping(ApplyCare(w, action, time).napAnchor, later)
            else ApplyCare(w, action, time).napAnchor == w.napAnchor
  {
    hide Decay, Hours, LowPower;
  }

  /** Charging is for the battery, polishing for cleanliness, play, ball and game for joy: by 50, never past 100. */
  lemma CareByAction(w: World, action: Action, time: int)
    ensures var before, after := NeedsAt(w, time), ApplyCare(w, action, time).needs;
      && (action == Charge ==> after == before.(battery := if before.battery > 50.0 then 100.0 else before.battery + 50.0))
      && (action == Polish ==>
            after == before.(cleanliness := if before.cleanliness > 50.0 then 100.0 else before.cleanliness + 50.0))
      && (action == Play || action == Ball || action == Game ==>
            after == before.(joy := if before.joy > 50.0 then 100.0 else before.joy + 50.0))
      && (action != Charge && action != Polish && action != Play && action != Ball && action != Game ==> after == before)
  {
    hide Decay, Hours;
  }

  /** Low power sets in below 15 and ends only when every need is above 35, after decay and after care alike. */
  lemma PowerRule(w: World, action: Action, time: int)
    ensures var a := Advance(w, time);
      a.lowPower <==>
        || a.needs.battery < 15.0 || a.needs.joy < 15.0 || a.needs.cleanliness < 15.0
        || (w.lowPower && (a.needs.battery <= 35.0 || a.needs.joy <= 35.0 || a.needs.cleanliness <= 35.0))
    ensures var a, c := Advance(w, time), ApplyCare(w, action, time);
      c.lowPower <==>
        || c.needs.battery < 15.0 || c.needs.joy < 15.0 || c.needs.cleanliness < 15.0
        || (a.lowPower && (c.needs.battery <= 35.0 || c.needs.joy <= 35.0 || c.needs.cleanliness <= 35.0))
  {
    hide Decay, Hours, Sleeping;
  }

  /** A new pet: all needs at 80, awake for four hours, with no favourite. */
  lemma NewPet(now: int)
    ensures var w := InitialWorld(now);
      && w.needs == Needs(80.0, 80.0, 80.0) && !w.lowPower && w.lastUpdated == now && w.napAnchor == now + 14_400_000
      && w.favorite == None && w.props == [] && w.revision == 0 && w.habitDay == now / 86_400_000
  {
  }

  // ---------- favourites ----------

  datatype Score = Score(count: nat, days: nat)

  datatype Scores = Scores(ball: Score, collect: Score, polish: Score)

  function ScoreOf(s: Scores, f: Favorite): Score {
    match f case FavoriteBall => s.ball case FavoriteCollect => s.collect case FavoritePolish => s.polish
  }

  predicate Eligible(s: Scores, f: Favorite) { ScoreOf(s, f).days >= 2 }

  predicate IsTop(s: Scores, f: Favorite) {
    Eligible(s, f) && forall g: Favorite :: Eligible(s, g) ==> ScoreOf(s, g).count <= ScoreOf(s, f).count
  }

  /** A tie keeps the present favourite; otherwise the first of the most practised; with none eligible, no change. */
  function ChooseFavorite(s: Scores, current: Option<Favorite>): (r: Option<Favorite>)
    ensures r.Some? && r != current ==> IsTop(s, r.value)
    ensures current.Some? && IsTop(s, current.value) ==> r == current
    ensures (exists f: Favorite :: Eligible(s, f)) ==> r.Some? && IsTop(s, r.value)
  {
    var best := (f: Favorite) => if Eligible(s, f) then ScoreOf(s, f).count else 0;
    var maximum := Later(best(FavoriteBall), Later(best(FavoriteCollect), best(FavoritePolish)));
    var tops := (f: Favorite) => Eligible(s, f) && ScoreOf(s, f).count == maximum;
    if current.Some? && tops(current.value) then current
    else if tops(FavoriteBall) then Some(FavoriteBall)
    else if tops(FavoriteCollect) then Some(FavoriteCollect)
    else if tops(FavoritePolish) then Some(FavoritePolish)
    else current
  }

  predicate Beats(a: Score, b: Score) { a.days >= 2 && (b.days >= 2 ==> b.count < a.count) }

  /** By name: two days make an activity eligible, and the strictly most practised eligible one is chosen. */
  lemma FavoriteByName(s: Scores, current: Option<Favorite>)
    ensures Beats(s.ball, s.collect) && Beats(s.ball, s.polish) ==> ChooseFavorite(s, current) == Some(FavoriteBall)
    ensures Beats(s.collect, s.ball) && Beats(s.collect, s.polish) ==> ChooseFavorite(s, current) == Some(FavoriteCollect)
    ensures Beats(s.polish, s.ball) && Beats(s.polish, s.collect) ==> ChooseFavorite(s, current) == Some(FavoritePolish)
    ensures s.ball.days < 2 && s.collect.days < 2 && s.polish.days < 2 ==> ChooseFavorite(s, current) == current
  {
    assert Eligible(s, FavoriteBall) <==> s.ball.days >= 2;
    assert Eligible(s, FavoriteCollect) <==> s.collect.days >= 2;
    assert Eligible(s, FavoritePolish) <==> s.polish.days >= 2;
  }

  // ---------- the stored row ----------

  /** Reading the row: the projected world, and whether reading writes it back. */
  function Evaluated(w: World, now: int, scores: Scores): World {
    if now / DAY > w.habitDay then
      var favorite := ChooseFavorite(scores, w.favorite);
      w.(favorite := favorite, revision := if favorite != w.favorite then w.revision + 1 else w.revision,
          habitDay := now / DAY)
    else w
  }

  function Projected(row: Option<World>, now: int, scores: Scores): World {
    Evaluated(Advance(if row.Some? then row.value else InitialWorld(now), now), now, scores)
  }

  function RowAfterRead(row: Option<World>, now: int, scores: Scores): Option<World> {
    if row.None? || now / DAY > Advance(row.value, now).habitDay then Some(Projected(row, now, scores)) else row
  }

  datatype Verdict = Accepted | Full | Cooldown | Local

  function Judge(w: World, action: Action, now: int, cooling: bool): Verdict {
    if cooling then Cooldown
    else if CareNeed(action).Some? && Level(w.needs, CareNeed(action).value) >= 100.0 then Full
    else if action == Wake && !Sleeping(w.napAnchor, Later(now, w.lastUpdated)) then Local
    else Accepted
  }

  function WithProp(props: seq<string>, prop: string): seq<string> { if prop in props then props else props + [prop] }

  function Cared(w: World, action: Action, now: int): World {
    var c := ApplyCare(w, action, now);
    c.(revision := c.revision + 1,
    props := if action == Collect then WithProp(c.props, "shiny-washer")
             else if action == Secret then WithProp(c.props, "blue-star") else c.props)
  }

  datatype Call =
    | Poll(now: int, scores: Scores)
    | Act(action: Action, now: int, cooling: bool, scores: Scores)

  function RowAfter(row: Option<World>, call: Call): Option<World> {
    match call
    case Poll(now, scores) => RowAfterRead(row, now, scores)
    case Act(action, now, cooling, scores) =>
      var w := Projected(row, now, scores);
      if Judge(w, action, now, cooling) == Accepted then Some(Cared(w, action, now)) else RowAfterRead(row, now, scores)
  }

  /** On a new day the favourite is chosen again, and the revision counts a change of it. */
  lemma ReadWrites(row: Option<World>, now: int, scores: Scores)
    ensures var w := Advance(if row.Some? then row.value else InitialWorld(now), now); var r := Projected(row, now, scores);
      && r == w.(favorite := r.favorite, revision := r.revision, habitDay := r.habitDay)
      && (now / 86_400_000 <= w.habitDay ==> r == w)
      && (now / 86_400_000 > w.habitDay ==>
            && r.habitDay == now / 86_400_000 && r.favorite == ChooseFavorite(scores, w.favorite)
            && r.revision == if r.favorite == w.favorite then w.revision else w.revision + 1)
      && RowAfterRead(row, now, scores) == if row == None || now / 86_400_000 > w.habitDay then Some(r) else row
  {
    hide Decay, Hours, LowPower, ChooseFavorite;
  }

  class PetStore {
    var row: Option<World>

    constructor ()
      ensures row == None
    {
      row := None;
    }

    method GetWorld(now: int, scores: Scores) returns (world: World)
      modifies this
      ensures world == Projected(old(row), now, scores)
      ensures row == RowAfterRead(old(row), now, scores)
    {
      world := Advance(if row.Some? then row.value else InitialWorld(now), now);
      var day := now / DAY;
      var evaluateHabits := day > world.habitDay;
      if evaluateHabits {
        var favorite := ChooseFavorite(scores, world.favorite);
        if favorite != world.favorite { world := world.(favorite := favorite, revision := world.revision + 1); }
        world := world.(habitDay := day);
      }
      if row.None? || evaluateHabits { row := Some(world); }
    }

    method Care(action: Action, now: int, cooling: bool, scores: Scores) returns (verdict: Verdict)
      modifies this
      ensures row == RowAfter(old(row), Act(action, now, cooling, scores))
      ensures verdict == Judge(Projected(old(row), now, scores), action, now, cooling)
      ensures var w := Projected(old(row), now, scores);
        && (verdict == Cooldown <==> cooling)
        && (verdict == Full <==>
              && !cooling
              && ((action == Charge && w.needs.battery >= 100.0) || (action == Polish && w.needs.cleanliness >= 100.0)
                  || (action in {Play, Ball, Game} && w.needs.joy >= 100.0)))
        && (verdict == Local <==> !cooling && action == Wake && !Sleeping(w.napAnchor, Later(now, w.lastUpdated)))
      ensures var w := Projected(old(row), now, scores); var cared := ApplyCare(w, action, now);
        if verdict == Accepted then
          && row.Some? && row.value == cared.(revision := cared.revision + 1, props := row.value.props)
          && row.value.props == (if action == Collect && "shiny-washer" !in cared.props then cared.props + ["shiny-washer"]
                                else if action == Secret && "blue-star" !in cared.props then cared.props + ["blue-star"]
                                else cared.props)
        else row == RowAfterRead(old(row), now, scores)
    {
      hide Advance, Evaluated, Projected, RowAfterRead, ApplyCare, Sleeping, ChooseFavorite;
      var world := GetWorld(now, scores);
      var need := CareNeed(action);
      verdict := Accepted;
      if cooling { verdict := Cooldown; }
      else if need.Some? && Level(world.needs, need.value) >= 100.0 { verdict := Full; }
      else if action == Wake && !Sleeping(world.napAnchor, Later(now, world.lastUpdated)) { verdict := Local; }
      if verdict == Accepted {
        world := ApplyCare(world, action, now);
        world := world.(revision := world.revision + 1);
        if action == Collect && "shiny-washer" !in world.props { world := world.(props := world.props + ["shiny-washer"]); }
        if action == Secret && "blue-star" !in world.props { world := world.(props := world.props + ["blue-star"]); }
        row := Some(world);
      }
    }
  }

  // ---------- polls are invisible ----------

  datatype Body = Body(needs: Needs, lowPower: bool, napAnchor: int)

  function BodyAt(w: World, t: int): Body { var a := Advance(w, t); Body(a.needs, a.lowPower, a.napAnchor) }

  /** Two rows that from `t` on show the same pet. */
  ghost predicate Agree(a: World, b: World, t: int) {
    Healthy(a) && Healthy(b) && a.lastUpdated <= t && b.lastUpdated <= t && BodyAt(a, t) == BodyAt(b, t)
  }

  lemma AgreeLater(a: World, b: World, t: int, t': int)
    requires Agree(a, b, t) && t <= t'
    ensures Agree(a, b, t')
  {
    hide Decay, Hours, LowPower;
    AdvanceComposes(a, t, t');
    AdvanceComposes(b, t, t');
  }

  /** Reading a row, even when the read writes it back, leaves the pet it shows unchanged. */
  lemma ReadKeepsAgreement(a: World, b: World, t: int, scores: Scores)
    requires Agree(a, b, t)
    ensures RowAfterRead(Some(a), t, scores).Some? && Agree(RowAfterRead(Some(a), t, scores).value, b, t)
    ensures BodyAt(Projected(Some(a), t, scores), t) == BodyAt(b, t) && Projected(Some(a), t, scores).lastUpdated == t
    ensures Healthy(Projected(Some(a), t, scores))
    ensures var w := Projected(Some(a), t, scores); Body(w.needs, w.lowPower, w.napAnchor) == BodyAt(b, t)
  {
    StaysHealthy(a, Pat, t);
    AdvanceComposes(a, t, t);
    hide Decay, Hours, LowPower, ChooseFavorite;
    EvaluatedKeepsBody(Advance(a, t), t, scores);
  }

  lemma EvaluatedKeepsBody(w: World, t: int, scores: Scores)
    ensures var e := Evaluated(w, t, scores);
            e.needs == w.needs && e.lowPower == w.lowPower && e.lastUpdated == w.lastUpdated && e.napAnchor == w.napAnchor
            && BodyAt(e, t) == BodyAt(w, t)
  {
    hide Decay, Hours, LowPower, ChooseFavorite;
  }

  /** An action sees and leaves the same pet in rows that agree. */
  lemma ActAgrees(a: World, b: World, action: Action, t: int, cooling: bool, sa: Scores, sb: Scores)
    requires Agree(a, b, t)
    ensures Judge(Projected(Some(a), t, sa), action, t, cooling) == Judge(Projected(Some(b), t, sb), action, t, cooling)
    ensures var a', b' := RowAfter(Some(a), Act(action, t, cooling, sa)), RowAfter(Some(b),
        Act(action, t, cooling, sb));
            a'.Some? && b'.Some? && Agree(a'.value, b'.value, t)
  {
    hide Advance, Evaluated, Healthy, Sleeping, Fed, Level, ApplyCare, BodyAt;
    ReadKeepsAgreement(a, b, t, sa);
    AgreeSymmetric(a, b, t);
    ReadKeepsAgreement(b, a, t, sb);
    var wa, wb := Projected(Some(a), t, sa), Projected(Some(b), t, sb);
    if Judge(wa, action, t, cooling) == Accepted {
      CaredAgrees(wa, wb, action, t);
    } else {
      ReadKeepsAgreement(a, RowAfterRead(Some(b), t, sb).value, t, sa);
    }
  }

  lemma AgreeSymmetric(a: World, b: World, t: int)
    requires Agree(a, b, t)
    ensures Agree(b, a, t) && Agree(a, a, t)
  {
  }

  lemma CaredAgrees(a: World, b: World, action: Action, t: int)
    requires Healthy(a) && Healthy(b) && a.lastUpdated == b.lastUpdated == t
    requires a.needs == b.needs && a.lowPower == b.lowPower && a.napAnchor == b.napAnchor
    ensures Agree(Cared(a, action, t), Cared(b, action, t), t)
  {
    StaysHealthy(a, action, t);
    StaysHealthy(b, action, t);
    hide Decay, Hours, LowPower, Sleeping, Fed;
  }

  function Run(row: Option<World>, calls: seq<Call>): Option<World> {
    if calls == [] then row else RowAfter(Run(row, calls[..|calls| - 1]), calls[|calls| - 1])
  }

  function WithoutPolls(calls: seq<Call>): seq<Call> {
    if calls == [] then []
    else WithoutPolls(calls[..|calls| - 1]) + if calls[|calls| - 1].Poll? then [] else [calls[|calls| - 1]]
  }

  ghost predicate InOrder(calls: seq<Call>, from: int, to: int) {
    && (forall i :: 0 <= i < |calls| ==> from <= calls[i].now <= to)
    && (forall i, j :: 0 <= i < j < |calls| ==> calls[i].now <= calls[j].now)
  }

  /**
   * Take every poll out of any history of polls and actions: at every later time the pet has the
   * same needs, power state and nap times.
   */
  lemma {:induction false} PollsAreInvisible(w: World, calls: seq<Call>, t: int)
    requires Healthy(w) && w.lastUpdated <= t && InOrder(calls, w.lastUpdated, t)
    ensures Run(Some(w), calls).Some? && Run(Some(w), WithoutPolls(calls)).Some?
    ensures Agree(Run(Some(w), calls).value, Run(Some(w), WithoutPolls(calls)).value, t)
  {
    hide Healthy, Advance, RowAfter, BodyAt;
    if calls == [] {
      SelfAgrees(w, t);
    } else {
      var init, last := calls[..|calls| - 1], calls[|calls| - 1];
      PollsAreInvisible(w, init, last.now);
      var a, b := Run(Some(w), init).value, Run(Some(w), WithoutPolls(init)).value;
      match last {
        case Poll(now, scores) =>
          ReadKeepsAgreement(a, b, now, scores);
          PollIsRead(Some(a), now, scores);
          AgreeLater(RowAfterRead(Some(a), now, scores).value, b, now, t);
          assert WithoutPolls(calls) == WithoutPolls(init);
        case Act(action, now, cooling, scores) =>
          ActAgrees(a, b, action, now, cooling, scores, scores);
          assert (WithoutPolls(init) + [last])[..|WithoutPolls(init)|] == WithoutPolls(init);
          AgreeLater(RowAfter(Some(a), last).value, RowAfter(Some(b), last).value, now, t);
      }
    }
  }

  lemma SelfAgrees(w: World, t: int)
    requires Healthy(w) && w.lastUpdated <= t
    ensures Agree(w, w, t)
  {
  }

  lemma PollIsRead(row: Option<World>, now: int, scores: Scores)
    ensures RowAfter(row, Poll(now, scores)) == RowAfterRead(row, now, scores)
  {
  }

  /** Whoever calls first, the row is created healthy and as of that call. */
  lemma FirstCallIsHealthy(call: Call)
    ensures RowAfter(None, call).Some? && Healthy(RowAfter(None, call).value)
    ensures RowAfter(None, call).value.lastUpdated == call.now
  {
    var w := InitialWorld(call.now);
    var p := Projected(None, call.now, call.scores);
    HoursAdd(w.napAnchor, call.now, call.now, call.now);
    assert Advance(w, call.now).needs == w.needs;
    EvaluatedKeepsBody(Advance(w, call.now), call.now, call.scores);
    if call.Act? {
      StaysHealthy(p, call.action, call.now);
    }
    hide Hours, Decay, ChooseFavorite;
  }

  /**
   * From the empty table: the first call, whatever it is, creates the pet. After it, every poll may
   * be taken out of any history without changing the pet at any later time.
   */
  lemma PollsAreInvisibleFromTheStart(calls: seq<Call>, t: int)
    requires calls != [] && InOrder(calls, calls[0].now, t)
    ensures var kept := [calls[0]] + WithoutPolls(calls[1..]);
            && Run(None, calls).Some? && Run(None, kept).Some?
            && Agree(Run(None, calls).value, Run(None, kept).value, t)
  {
    hide Healthy, RowAfter, Agree, BodyAt;
    FirstCallIsHealthy(calls[0]);
    var w := RowAfter(None, calls[0]).value;
    assert InOrder(calls[1..], w.lastUpdated, t);
    PollsAreInvisible(w, calls[1..], t);
    RunFromFirst(calls[0], calls[1..]);
    RunFromFirst(calls[0], WithoutPolls(calls[1..]));
    assert calls == [calls[0]] + calls[1..];
  }

  lemma {:induction false} RunFromFirst(first: Call, rest: seq<Call>)
    ensures Run(None, [first] + rest) == Run(RowAfter(None, first), rest)
  {
    hide RowAfter;
    if rest == [] {
      assert [first] + rest == [first] && [first][..0] == [];
    } else {
      assert ([first] + rest)[..|rest|] == [first] + rest[..|rest| - 1];
      RunFromFirst(first, rest[..|rest| - 1]);
    }
  }
}
