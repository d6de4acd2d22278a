/** The rules of app/emotion/engine.py as functions: tables, limits, label choice, and the histories they bound. */
module Emotion {
  import opened Options

  /** Points in time, in the microseconds that the source's timestamps resolve. */
  type Time = int

  const SECOND: int := 1_000_000
  const MINUTE: int := 60 * SECOND
  const FOCUS: int := 5 * MINUTE
  const EPSILON: real := 0.000000000001

  datatype Dimension = Affection | Energy | Curiosity | Concern | Embarrassment | Pride | ExplosionUrge | Boredom

  /** The engine itself never chooses `AngryCute`, but an initial state may carry it. */
  datatype Label =
    | Neutral | Happy | Excited | Proud | Shy | Worried | Bored | Sleepy | Focused | ExplosionMode | AngryCute

  datatype Kind =
    | Praise | UserDistress | UserTired | ExplosionTopic | QuietRequest | RepeatedInterruption | FocusedActivity
    | Gaming | LateNight | Inactivity | NeutralInteraction | TimeDecay

  function Rules(kind: Kind): map<Dimension, real> {
    match kind
    case Praise => map[Embarrassment := 0.10, Affection := 0.02, Pride := 0.04]
    case UserDistress => map[Concern := 0.15, Affection := 0.03]
    case UserTired => map[Concern := 0.10, Energy := -0.03]
    case ExplosionTopic => map[ExplosionUrge := 0.12, Energy := 0.05]
    case QuietRequest => map[Boredom := -0.05]
    case RepeatedInterruption => map[Concern := 0.04]
    case FocusedActivity => map[Curiosity := 0.03]
    case Gaming => map[Energy := 0.05, ExplosionUrge := 0.05]
    case LateNight => map[Concern := 0.12, Energy := -0.05]
    case Inactivity => map[Boredom := 0.08]
    case NeutralInteraction => map[Boredom := -0.03]
    case TimeDecay => map[]
  }

  function NeutralValue(d: Dimension): real {
    match d
    case Affection => 0.35
    case Energy => 0.55
    case Curiosity => 0.45
    case Concern => 0.15
    case Embarrassment => 0.10
    case Pride => 0.55
    case ExplosionUrge => 0.35
    case Boredom => 0.20
  }

  /** The share of the distance to neutral that is lost per minute. */
  function DecayRate(d: Dimension): real {
    match d
    case Affection => 0.002
    case Energy => 0.04
    case Curiosity => 0.05
    case Concern => 0.08
    case Embarrassment => 0.15
    case Pride => 0.01
    case ExplosionUrge => 0.05
    case Boredom => 0.05
  }

  function Abs(x: real): real {
    if x < 0.0 then -x else x
  }

  function Min(x: real, y: real): real {
    if x < y then x else y
  }

  function Max(x: real, y: real): real {
    if x < y then y else x
  }

  /** The engine's limits; `keep(d, t)` is the power of `1 - DecayRate(d)` to `t` in minutes. */
  datatype Settings = Settings(
    maxEvent: real, maxMinute: real, labelMinDuration: int, explosionCooldown: int, keep: (Dimension, nat) -> real)
  {
    predicate Usable() {
      0.0 < maxEvent <= 1.0 && 0.0 < maxMinute <= 1.0 && labelMinDuration >= 0 && explosionCooldown >= 0
    }

    ghost predicate Powers() {
      && (forall d, t: nat :: 0.0 <= keep(d, t) <= 1.0)
      && (forall d :: keep(d, 0) == 1.0 && keep(d, MINUTE) == 1.0 - DecayRate(d))
      && (forall d, s: nat, t: nat :: keep(d, s + t) == keep(d, s) * keep(d, t))
    }

    /** What is asked for when `elapsed` has passed since the value was `current`. */
    function DecayRequest(d: Dimension, current: real, elapsed: nat): real {
      (NeutralValue(d) - current) * (1.0 - keep(d, elapsed))
    }

    /** Two decays in a row do what one decay over the whole time does, as long as no limit interferes. */
    lemma DecayComposes(d: Dimension, current: real, first: nat, second: nat)
      requires Powers()
      ensures var middle := current + DecayRequest(d, current, first);
              middle + DecayRequest(d, middle, second) == current + DecayRequest(d, current, first + second)
    {
      hide Powers;
      KeepAdds(d, first, second);
      TwoShares(NeutralValue(d), current, keep(d, first), keep(d, second));
    }

    lemma KeepAdds(d: Dimension, first: nat, second: nat)
      requires Powers()
      ensures keep(d, first + second) == keep(d, first) * keep(d, second)
    {
    }

    /** A decay request never asks for more than the distance to neutral. */
    lemma DecayTowardNeutral(d: Dimension, current: real, elapsed: nat)
      requires Powers()
      ensures var asked := DecayRequest(d, current, elapsed);
              if current <= NeutralValue(d) then 0.0 <= asked <= NeutralValue(d) - current
              else NeutralValue(d) - current <= asked <= 0.0
    {
      var gap, share := NeutralValue(d) - current, 1.0 - keep(d, elapsed);
      ShareOf(gap, share);
    }
  }

  lemma Distribute(x: real, y: real)
    ensures x * (1.0 - y) == x - x * y
  {
  }

  lemma Regroup(x: real, y: real, z: real)
    ensures x * y * z == x * (y * z)
  {
  }

  lemma TwoShares(neutral: real, current: real, k: real, l: real)
    ensures var middle := current + (neutral - current) * (1.0 - k);
            middle + (neutral - middle) * (1.0 - l) == current + (neutral - current) * (1.0 - k * l)
  {
    var gap := neutral - current;
    var middle := current + gap * (1.0 - k);
    Distribute(gap, k);
    assert neutral - middle == gap * k;
    Distribute(gap * k, l);
    Distribute(gap, k * l);
    Regroup(gap, k, l);
  }

  lemma ShareOf(gap: real, share: real)
    requires 0.0 <= share <= 1.0
    ensures if gap >= 0.0 then 0.0 <= gap * share <= gap else gap <= gap * share <= 0.0
  {
    if gap >= 0.0 {
      assert gap * share <= gap * 1.0;
    } else {
      assert (-gap) * share <= (-gap) * 1.0;
      assert (-gap) * share == -(gap * share);
    }
  }

  // ----- Limits on one change -----

  /** `_limit_delta` once the window has been summed up. */
  function Limited(maxEvent: real, remaining: real, requested: real): real {
    var eventLimited := Min(maxEvent, Max(-maxEvent, requested));
    if eventLimited >= 0.0 then Min(eventLimited, remaining) else Max(eventLimited, -remaining)
  }

  function Clamped(x: real): real {
    Min(1.0, Max(0.0, x))
  }

  /** The change actually made to a value. */
  function Change(maxEvent: real, remaining: real, current: real, requested: real): real {
    Clamped(current + Limited(maxEvent, remaining, requested)) - current
  }

  /** A change that respects all three limits. */
  predicate Permitted(maxEvent: real, remaining: real, current: real, delta: real) {
    Abs(delta) <= maxEvent && Abs(delta) <= remaining && 0.0 <= current + delta <= 1.0
  }

  /** The change made is the permitted one nearest to the request, in its direction, and it is reported as
      limited exactly when it is not the request. */
  lemma ChangeIsNearest(maxEvent: real, remaining: real, current: real, requested: real)
    requires maxEvent > 0.0 && remaining >= 0.0 && 0.0 <= current <= 1.0
    ensures var made := Change(maxEvent, remaining, current, requested);
            && Permitted(maxEvent, remaining, current, made)
            && (forall other: real :: Permitted(maxEvent, remaining, current, other) ==>
                  Abs(made - requested) <= Abs(other - requested))
            && (if requested >= 0.0 then 0.0 <= made <= requested else requested <= made <= 0.0)
            && (Abs(made - requested) > EPSILON <==>
                  Abs(Limited(maxEvent, remaining, requested) - requested) > EPSILON || Abs(made - requested) > EPSILON)
  {
    var made := Change(maxEvent, remaining, current, requested);
    forall other: real | Permitted(maxEvent, remaining, current, other)
      ensures Abs(made - requested) <= Abs(other - requested)
    {
      NoNearer(maxEvent, remaining, current, requested, other);
    }
  }

  lemma NoNearer(maxEvent: real, remaining: real, current: real, requested: real, other: real)
    requires maxEvent > 0.0 && remaining >= 0.0 && 0.0 <= current <= 1.0
    requires Permitted(maxEvent, remaining, current, other)
    ensures Abs(Change(maxEvent, remaining, current, requested) - requested) <= Abs(other - requested)
  {
  }

  // ----- The budget of a minute -----

  datatype Entry = Entry(at: Time, delta: real)

  predicate Ordered(entries: seq<Entry>) {
    forall i, j :: 0 <= i < j < |entries| ==> entries[i].at <= entries[j].at
  }

  predicate NoLaterThan(entries: seq<Entry>, t: Time) {
    forall i :: 0 <= i < |entries| ==> entries[i].at <= t
  }

  function Size(entries: seq<Entry>): real {
    if entries == [] then 0.0 else Size(entries[..|entries| - 1]) + Abs(entries[|entries| - 1].delta)
  }

  /** The change all entries make together. */
  function Net(entries: seq<Entry>): real {
    if entries == [] then 0.0 else Net(entries[..|entries| - 1]) + entries[|entries| - 1].delta
  }

  lemma NetAppend(entries: seq<Entry>, e: Entry)
    ensures Net(entries + [e]) == Net(entries) + e.delta
  {
    assert (entries + [e])[..|entries|] == entries;
  }

  /** Total change made within the window from `t - MINUTE` (exclusive) to `t` (inclusive). */
  function Spent(entries: seq<Entry>, t: Time): real {
    if entries == [] then 0.0
    else
      var last := entries[|entries| - 1];
      Spent(entries[..|entries| - 1], t) + if t - MINUTE < last.at <= t then Abs(last.delta) else 0.0
  }

  /** In no window of a minute is more than `limit` spent. */
  ghost predicate WithinBudget(entries: seq<Entry>, limit: real) {
    forall t: Time :: Spent(entries, t) <= limit
  }

  /** Within a window of a minute the value moves by no more than is spent in it, whatever the directions. */
  lemma {:induction false} NetWithinSpent(entries: seq<Entry>, from: nat, t: Time)
    requires from <= |entries| && forall i :: from <= i < |entries| ==> t - MINUTE < entries[i].at <= t
    ensures Abs(Net(entries) - Net(entries[..from])) <= Spent(entries, t) - Spent(entries[..from], t)
  {
    if from == |entries| {
      assert entries[..from] == entries;
    } else {
      var before := entries[..|entries| - 1];
      NetWithinSpent(before, from, t);
      assert before[..from] == entries[..from];
    }
  }

  lemma {:induction false} SpentNonNegative(entries: seq<Entry>, t: Time)
    ensures Spent(entries, t) >= 0.0
  {
    if entries != [] {
      SpentNonNegative(entries[..|entries| - 1], t);
    }
  }

  /** So no value drifts by more than the budget within a minute. */
  lemma DriftWithinBudget(entries: seq<Entry>, from: nat, to: nat, t: Time, limit: real)
    requires from <= to <= |entries| && WithinBudget(entries[..to], limit)
    requires forall i :: from <= i < to ==> t - MINUTE < entries[i].at <= t
    ensures Abs(Net(entries[..to]) - Net(entries[..from])) <= limit
  {
    assert entries[..to][..from] == entries[..from];
    NetWithinSpent(entries[..to], from, t);
    SpentNonNegative(entries[..from], t);
    assert Spent(entries[..to], t) <= limit;
  }

  lemma SpentAppend(entries: seq<Entry>, e: Entry, t: Time)
    ensures Spent(entries + [e], t) == Spent(entries, t) + if t - MINUTE < e.at <= t then Abs(e.delta) else 0.0
  {
    assert (entries + [e])[..|entries|] == entries;
  }

  /** A window that ends later sees no more of the entries made up to `t`. */
  lemma {:induction false} SpentLater(entries: seq<Entry>, t: Time, later: Time)
    requires NoLaterThan(entries, t) && t <= later
    ensures 0.0 <= Spent(entries, later) <= Spent(entries, t)
  {
    if entries != [] {
      SpentLater(entries[..|entries| - 1], t, later);
    }
  }

  /** Appending an entry that the window of its own time can afford keeps every window within the budget. */
  lemma BudgetAfter(entries: seq<Entry>, e: Entry, limit: real)
    requires WithinBudget(entries, limit) && NoLaterThan(entries, e.at) && Spent(entries, e.at) + Abs(e.delta) <= limit
    ensures WithinBudget(entries + [e], limit)
  {
    forall t: Time ensures Spent(entries + [e], t) <= limit {
      SpentAppend(entries, e, t);
      assert Spent(entries, t) <= limit;
      if t >= e.at {
        SpentLater(entries, e.at, t);
      }
    }
  }

  /** `recent` is what is left of `all` after entries older than a minute before `now` were dropped. */
  ghost predicate IsRecent(all: seq<Entry>, recent: seq<Entry>, now: Time) {
    && |recent| <= |all| && recent == all[|all| - |recent|..]
    && NoLaterThan(all[..|all| - |recent|], now - MINUTE)
  }

  lemma {:induction false} SpentBeforeWindow(entries: seq<Entry>, t: Time)
    requires NoLaterThan(entries, t - MINUTE)
    ensures Spent(entries, t) == 0.0
  {
    if entries != [] {
      SpentBeforeWindow(entries[..|entries| - 1], t);
    }
  }

  /** When the oldest kept entry lies in the window, the kept entries are all that was spent in it. */
  lemma {:induction false} RecentIsSpent(all: seq<Entry>, recent: seq<Entry>, t: Time)
    requires Ordered(all) && NoLaterThan(all, t) && IsRecent(all, recent, t)
    requires recent == [] || recent[0].at > t - MINUTE
    ensures Size(recent) == Spent(all, t)
  {
    if recent == [] {
      assert all[..|all|] == all;
      SpentBeforeWindow(all, t);
    } else {
      var fewer, less := all[..|all| - 1], recent[..|recent| - 1];
      assert fewer[..|fewer| - |less|] == all[..|all| - |recent|];
      RecentIsSpent(fewer, less, t);
      assert all[|all| - 1] == recent[|recent| - 1];
    }
  }

  // ----- Labels -----

  datatype EmotionState = EmotionState(
    values: map<Dimension, real>, dominant: Label, intensity: real, lastUpdated: Time, labelSince: Time)
  {
    ghost predicate Valid() {
      && (forall d: Dimension :: d in values)
      && (forall d: Dimension :: 0.0 <= values[d] <= 1.0)
      && 0.0 <= intensity <= 1.0
    }
  }

  function MapLabel(values: map<Dimension, real>, focusUntil: Option<Time>, at: Time): Label
    requires forall d: Dimension :: d in values
  {
    if focusUntil.Some? && at < focusUntil.value then Focused
    else if values[Energy] < 0.22 then Sleepy
    else if values[ExplosionUrge] > 0.82 && values[Energy] > 0.55 then ExplosionMode
    else if values[Concern] > 0.65 then Worried
    else if values[Embarrassment] > 0.60 then Shy
    else if values[Boredom] > 0.70 then Bored
    else if values[Curiosity] > 0.65 && values[Energy] > 0.45 then Excited
    else if values[Pride] > 0.65 then Proud
    else if values[Affection] > 0.60 then Happy
    else Neutral
  }

  /** Do the values, or the focus set by an activity, call for this label? */
  predicate CallFor(chosen: Label, values: map<Dimension, real>, focusUntil: Option<Time>, at: Time)
    requires forall d: Dimension :: d in values
  {
    match chosen
    case Focused => focusUntil.Some? && at < focusUntil.value
    case Sleepy => values[Energy] < 0.22
    case ExplosionMode => values[ExplosionUrge] > 0.82 && values[Energy] > 0.55
    case Worried => values[Concern] > 0.65
    case Shy => values[Embarrassment] > 0.60
    case Bored => values[Boredom] > 0.70
    case Excited => values[Curiosity] > 0.65 && values[Energy] > 0.45
    case Proud => values[Pride] > 0.65
    case Happy => values[Affection] > 0.60
    case Neutral => true
    case AngryCute => false
  }

  /** The earlier a label is asked about. */
  function Rank(chosen: Label): nat {
    match chosen
    case Focused => 0
    case Sleepy => 1
    case ExplosionMode => 2
    case Worried => 3
    case Shy => 4
    case Bored => 5
    case Excited => 6
    case Proud => 7
    case Happy => 8
    case Neutral => 9
    case AngryCute => 10
  }

  /** The label is called for, and none that is asked about before it is. */
  lemma MapLabelIsFirst(values: map<Dimension, real>, focusUntil: Option<Time>, at: Time, chosen: Label)
    requires forall d: Dimension :: d in values
    ensures MapLabel(values, focusUntil, at) == chosen
            <==> CallFor(chosen, values, focusUntil, at)
                 && forall other :: Rank(other) < Rank(chosen) ==> !CallFor(other, values, focusUntil, at)
  {
    var found := MapLabel(values, focusUntil, at);
    assert CallFor(found, values, focusUntil, at);
    assert forall other :: Rank(other) < Rank(found) ==> !CallFor(other, values, focusUntil, at);
  }

  /** Values at rest call for the neutral label, so decay leads back to it. */
  lemma RestIsNeutral(values: map<Dimension, real>, focusUntil: Option<Time>, at: Time)
    requires forall d: Dimension :: d in values && values[d] == NeutralValue(d)
    requires focusUntil.Some? ==> focusUntil.value <= at
    ensures MapLabel(values, focusUntil, at) == Neutral
  {
    assert values[Energy] == 0.55 && values[ExplosionUrge] == 0.35 && values[Concern] == 0.15;
    assert values[Embarrassment] == 0.10 && values[Boredom] == 0.20 && values[Curiosity] == 0.45;
    assert values[Pride] == 0.55 && values[Affection] == 0.35;
  }

  /** May the label `from`, held since `since`, give way to `to` at time `at`? */
  predicate MayChange(s: Settings, from: Label, since: Time, lastExplosion: Option<Time>, to: Label, at: Time) {
    && (from == Neutral || at - since >= s.labelMinDuration)
    && (to == ExplosionMode && lastExplosion.Some? ==> at - lastExplosion.value >= s.explosionCooldown)
  }

  datatype LabelChange = LabelChange(at: Time, dominant: Label)

  /** The label held and its starting time after `changes`. */
  function Held(first: LabelChange, changes: seq<LabelChange>): LabelChange {
    if changes == [] then first else changes[|changes| - 1]
  }

  /** A label other than neutral is held for the minimum time, and each change is a change. */
  ghost predicate LongEnough(s: Settings, first: LabelChange, changes: seq<LabelChange>) {
    forall i :: 0 <= i < |changes| ==>
      var before := Held(first, changes[..i]);
      && before.dominant != changes[i].dominant
      && (before.dominant != Neutral ==> changes[i].at - before.at >= s.labelMinDuration)
  }

  /** Changes into explosion mode keep their distance. */
  ghost predicate ExplosionsApart(s: Settings, changes: seq<LabelChange>) {
    forall i, j :: 0 <= i < j < |changes| && changes[i].dominant == ExplosionMode && changes[j].dominant == ExplosionMode ==>
      changes[j].at - changes[i].at >= s.explosionCooldown
  }

  function LastExplosion(changes: seq<LabelChange>): Option<Time> {
    if changes == [] then None
    else if changes[|changes| - 1].dominant == ExplosionMode then Some(changes[|changes| - 1].at)
    else LastExplosion(changes[..|changes| - 1])
  }

  ghost predicate ChangesBy(changes: seq<LabelChange>, now: Time) {
    && (forall i :: 0 <= i < |changes| ==> changes[i].at <= now)
    && (forall i, j :: 0 <= i < j < |changes| ==> changes[i].at <= changes[j].at)
  }

  lemma {:induction false} NoneBeforeLastExplosion(changes: seq<LabelChange>, i: nat)
    requires i < |changes| && changes[i].dominant == ExplosionMode && ChangesBy(changes, changes[|changes| - 1].at)
    ensures LastExplosion(changes).Some? && changes[i].at <= LastExplosion(changes).value
  {
    var last := |changes| - 1;
    if changes[last].dominant != ExplosionMode {
      assert i < last;
      NoneBeforeLastExplosion(changes[..last], i);
    }
  }

  /** The change keeps the labels held long enough. */
  lemma LongEnoughAfter(s: Settings, first: LabelChange, changes: seq<LabelChange>, to: LabelChange)
    requires LongEnough(s, first, changes)
    requires var held := Held(first, changes);
             held.dominant != to.dominant && (held.dominant != Neutral ==> to.at - held.at >= s.labelMinDuration)
    ensures LongEnough(s, first, changes + [to])
  {
    var more := changes + [to];
    forall i | 0 <= i < |more|
      ensures var before := Held(first, more[..i]);
              && before.dominant != more[i].dominant
              && (before.dominant != Neutral ==> more[i].at - before.at >= s.labelMinDuration)
    {
      assert more[..i] == changes[..i];
      assert changes[..|changes|] == changes;
    }
  }

  /** And the explosions apart. */
  lemma ExplosionsAfter(s: Settings, changes: seq<LabelChange>, to: LabelChange)
    requires ExplosionsApart(s, changes) && ChangesBy(changes, to.at)
    requires to.dominant == ExplosionMode && LastExplosion(changes).Some? ==>
               to.at - LastExplosion(changes).value >= s.explosionCooldown
    ensures ExplosionsApart(s, changes + [to])
  {
    hide LastExplosion;
    forall i | 0 <= i < |changes| && changes[i].dominant == ExplosionMode && to.dominant == ExplosionMode
      ensures to.at - changes[i].at >= s.explosionCooldown
    {
      NoneBeforeLastExplosion(changes, i);
    }
  }

  /** A change that `MayChange` allows keeps the label history in order. */
  lemma LabelsAfter(s: Settings, first: LabelChange, changes: seq<LabelChange>, to: LabelChange)
    requires LongEnough(s, first, changes) && ExplosionsApart(s, changes) && ChangesBy(changes, to.at)
    requires var held := Held(first, changes);
             held.dominant != to.dominant && MayChange(s, held.dominant, held.at, LastExplosion(changes), to.dominant, to.at)
    ensures LongEnough(s, first, changes + [to]) && ExplosionsApart(s, changes + [to]) && ChangesBy(changes + [to], to.at)
    ensures Held(first, changes + [to]) == to
    ensures LastExplosion(changes + [to]) == if to.dominant == ExplosionMode then Some(to.at) else LastExplosion(changes)
  {
    hide LongEnough, ExplosionsApart;
    assert (changes + [to])[..|changes|] == changes;
    LongEnoughAfter(s, first, changes, to);
    ExplosionsAfter(s, changes, to);
  }
}
